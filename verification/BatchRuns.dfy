/** What holds in every state a batch can reach, whatever the owner and the workers do. */
module BatchRuns {
  import opened Wrappers
  import opened Graph
  import opened AppOrder
  import opened Batches

  datatype Op =
    | Append(plan: seq<Item>)
    | SetDownload(k: nat, download: Download)
    | Pause(k: nat)
    | Resume(k: nat)
    | Reorder(names: seq<string>)
    | Continue
    | Enqueue(job: nat)
    | LoseEnqueue
    | Finish(job: nat, outcome: Outcome)
    | Cancel

  ghost function Apply(registry: Registry, b: Batch, op: Op): Batch {
    match op
    case Append(plan) => Appended(b, plan)
    case SetDownload(k, download) => Downloaded(b, k, download)
    case Pause(k) => if PausedAt(b, k).Ok? then PausedAt(b, k).value else b
    case Resume(k) => if ResumedAt(b, k).Ok? then ResumedAt(b, k).value else b
    case Reorder(names) => if Reordered(b, names).Ok? then Reordered(b, names).value else b
    case Continue => Continued(b)
    case Enqueue(job) => Enqueued(b, job)
    case LoseEnqueue => NotEnqueued(b)
    case Finish(job, outcome) => Finished(registry, b, job, outcome)
    case Cancel => CancelledBatch(b)
  }

  ghost function Run(registry: Registry, b: Batch, ops: seq<Op>): Batch
    decreases |ops|
  {
    if ops == [] then b else Run(registry, Apply(registry, b, ops[0]), ops[1..])
  }

  // ---- One setup at a time ------------------------------------------------------------------

  /** At most one app is queued; a claim not yet enqueued is that app, without a job. Nothing pending has a job. */
  ghost predicate OneAtATime(b: Batch) {
    && (forall i, j :: 0 <= i < j < |b.items| ==> !(b.items[i].state == Queued && b.items[j].state == Queued))
    && (b.starting.Some? ==>
          b.starting.value < |b.items| && b.items[b.starting.value].state == Queued && b.items[b.starting.value].job.None?)
    && (forall x <- b.items :: x.state == Pending ==> x.job.None?)
  }

  /** Only downloads and priorities differ. */
  ghost predicate SameStates(b: Batch, c: Batch) {
    && c.state == b.state && c.starting == b.starting && |c.items| == |b.items|
    && (forall i :: 0 <= i < |b.items| ==>
          c.items[i] == b.items[i].(download := c.items[i].download, priority := c.items[i].priority))
  }

  predicate Arranges(op: Op) { op.SetDownload? || op.Pause? || op.Resume? || op.Reorder? }

  lemma ArrangingKeepsStates(registry: Registry, b: Batch, op: Op)
    requires Arranges(op)
    ensures SameStates(b, Apply(registry, b, op))
  {
  }

  /** One item as a job's end leaves it: only its state may change, never to waiting or queued, never from succeeded. */
  predicate Settled(before: Item, after: Item) {
    && after == before.(state := after.state)
    && (after.state != before.state ==>
          && after.state in {Succeeded, Failed, Cancelled, Blocked} && before.state != Succeeded
          && (after.state == Blocked ==> before.state == Pending)
          && (before.state == Pending ==> after.state == Blocked)
          && (before.job.None? ==> before.state == Pending))
  }

  lemma FinishSettles(registry: Registry, b: Batch, job: nat, outcome: Outcome)
    requires OneAtATime(b)
    ensures var b' := Finished(registry, b, job, outcome);
      && |b'.items| == |b.items| && b'.state == b.state && b'.starting == b.starting
      && (forall i :: 0 <= i < |b.items| ==> Settled(b.items[i], b'.items[i]))
  {
    hide Proper;
    match ItemOf(b.items, job)
    case None =>
    case Some(k) => assert b.items[k] in b.items;
  }

  lemma ContinuedOne(b: Batch)
    requires OneAtATime(b)
    ensures OneAtATime(Continued(b))
  {
  }

  lemma AppendedOne(b: Batch, plan: seq<Item>)
    requires OneAtATime(b)
    ensures OneAtATime(Appended(b, plan))
  {
  }

  lemma FinishedOne(registry: Registry, b: Batch, job: nat, outcome: Outcome)
    requires OneAtATime(b)
    ensures OneAtATime(Finished(registry, b, job, outcome))
  {
    var b' := Finished(registry, b, job, outcome);
    FinishSettles(registry, b, job, outcome);
    hide Finished;
    forall x | x in b'.items && x.state == Pending ensures x.job.None? {
      var i :| 0 <= i < |b'.items| && b'.items[i] == x;
      assert b.items[i] in b.items && Settled(b.items[i], x);
    }
    if b'.starting.Some? { assert Settled(b.items[b.starting.value], b'.items[b.starting.value]); }
  }

  lemma ArrangedOne(b: Batch, c: Batch)
    requires OneAtATime(b) && SameStates(b, c)
    ensures OneAtATime(c)
  {
  }

  lemma EnqueuedOne(b: Batch, job: nat)
    requires OneAtATime(b)
    ensures OneAtATime(Enqueued(b, job)) && OneAtATime(NotEnqueued(b))
  {
  }

  lemma CancelledOne(b: Batch)
    requires OneAtATime(b)
    ensures OneAtATime(CancelledBatch(b))
  {
  }

  lemma {:induction false} StepOneAtATime(registry: Registry, b: Batch, op: Op)
    requires OneAtATime(b)
    ensures OneAtATime(Apply(registry, b, op))
  {
    if Arranges(op) {
      ArrangingKeepsStates(registry, b, op);
      ArrangedOne(b, Apply(registry, b, op));
      return;
    }
    hide OneAtATime, Appended, Continued, Enqueued, Finished, CancelledBatch;
    match op
    case Append(plan) => AppendedOne(b, plan);
    case Continue => ContinuedOne(b);
    case Enqueue(job) => EnqueuedOne(b, job);
    case LoseEnqueue => EnqueuedOne(b, 0);
    case Finish(job, outcome) => FinishedOne(registry, b, job, outcome);
    case Cancel => CancelledOne(b);
  }

  /** However the owner reorders, pauses, adds or cancels, no two setups are ever queued together. */
  lemma {:induction false} AlwaysOneAtATime(registry: Registry, b: Batch, ops: seq<Op>)
    requires OneAtATime(b)
    ensures OneAtATime(Run(registry, b, ops))
    decreases |ops|
  {
    hide OneAtATime, Apply;
    if ops != [] {
      StepOneAtATime(registry, b, ops[0]);
      AlwaysOneAtATime(registry, Apply(registry, b, ops[0]), ops[1..]);
    }
  }

  /** Only a claim queues an app, and only one with its download ready and every dependency in the batch succeeded. */
  lemma ClaimedWhenItsDependenciesAre(registry: Registry, b: Batch, op: Op, i: nat)
    requires OneAtATime(b) && i < |b.items| && b.items[i].state != Queued
    requires i < |Apply(registry, b, op).items| && Apply(registry, b, op).items[i].state == Queued
    ensures op.Continue? && b.state == Running && b.items[i].state == Pending && b.items[i].download == Ready
    ensures forall x <- b.items :: x.service in b.items[i].needs ==> x.state == Succeeded
    ensures forall j :: 0 <= j < |b.items| && CanStart(b.items, b.items[j]) ==>
      b.items[i].priority < b.items[j].priority || (b.items[i].priority == b.items[j].priority && i <= j)
  {
    hide NoDuplicates;
    match op
    case Finish(job, outcome) => FinishSettles(registry, b, job, outcome);
    case _ =>
  }

  // ---- The owner's order ------------------------------------------------------------------

  /** What is added later comes after everything already in the batch, in its plan's order. */
  lemma AddedAppsComeLast(b: Batch, plan: seq<Item>, i: nat, j: nat)
    requires b.state == Running && i < j && |b.items| <= j < |Appended(b, plan).items|
    ensures Appended(b, plan).items[i].priority < Appended(b, plan).items[j].priority
  {
    if i < |b.items| { BelowNext(b.items, i); }
    hide NextPriority, Absent;
  }

  /** Once the owner has listed every waiting app, the next app set up is the first listed one that can start. */
  lemma TheFirstListedStarts(b: Batch, names: seq<string>, i: nat)
    requires Reordered(b, names).Ok? && forall x <- b.items :: x.state == Pending ==> x.service in names
    requires var c := Reordered(b, names).value;
      Continued(c).starting != c.starting && i < |c.items| && CanStart(c.items, c.items[i])
    ensures var c := Reordered(b, names).value;
      && Continued(c).starting.Some? && Continued(c).starting.value < |c.items|
      && IndexOf(names, c.items[Continued(c).starting.value].service).Some? && IndexOf(names, c.items[i].service).Some?
      && IndexOf(names, c.items[Continued(c).starting.value].service).value <= IndexOf(names, c.items[i].service).value
  {
  }

  // ---- What was started had all it needs ------------------------------------------------------

  /** Queued, ended by its job, or at least given one. */
  predicate Started(x: Item) { x.state in {Queued, Succeeded, Failed} || x.job.Some? }

  ghost predicate DepsDone(items: seq<Item>) {
    NoTwice(items) && forall i :: 0 <= i < |items| && Started(items[i]) ==> DepsSucceeded(items, items[i])
  }

  /** A selection brings nothing that an app already in the batch needs. */
  predicate NoLateDependency(b: Batch, op: Op) {
    op.Append? ==> NoTwice(op.plan) && forall p <- op.plan :: forall x <- b.items :: p.service !in x.needs
  }

  /** Later states of the same items, in which nothing that succeeded is undone. */
  ghost predicate Onward(items: seq<Item>, later: seq<Item>) {
    && |later| == |items|
    && (forall i :: 0 <= i < |items| ==>
          && later[i].service == items[i].service && later[i].needs == items[i].needs
          && (items[i].state == Succeeded ==> later[i].state == Succeeded))
  }

  lemma OnwardDone(items: seq<Item>, later: seq<Item>)
    requires DepsDone(items) && Onward(items, later)
    requires forall i :: 0 <= i < |items| && Started(later[i]) ==> Started(items[i]) || DepsSucceeded(items, items[i])
    ensures DepsDone(later)
  {
  }

  lemma MoreDone(items: seq<Item>, more: seq<Item>)
    requires DepsDone(items) && NoTwice(items + more)
    requires forall p <- more :: !Started(p) && forall x <- items :: p.service !in x.needs
    ensures DepsDone(items + more)
  {
  }

  lemma AppendedFresh(b: Batch, plan: seq<Item>) returns (more: seq<Item>)
    requires NoTwice(b.items) && NoTwice(plan) && b.state == Running
    ensures Appended(b, plan).items == b.items + more && NoTwice(b.items + more)
    ensures forall p <- more :: p.state == Pending && p.job.None?
    ensures forall p <- more :: exists q <- plan :: p.service == q.service && p.needs == q.needs
  {
    var absent := Absent(plan, Services(b.items));
    more := Numbered(absent, NextPriority(b.items));
    forall i | 0 <= i < |more| ensures absent[i] in plan && more[i].service !in Services(b.items) {
      assert absent[i] in absent;
    }
    var all := b.items + more;
    forall i, j | 0 <= i < j < |all| ensures all[i].service != all[j].service {
      if i < |b.items| { assert b.items[i] in b.items && b.items[i].service in Services(b.items); }
      if i >= |b.items| { assert absent[i - |b.items|].service != absent[j - |b.items|].service; }
    }
  }

  lemma AppendedDone(b: Batch, plan: seq<Item>)
    requires DepsDone(b.items) && NoLateDependency(b, Append(plan))
    ensures DepsDone(Appended(b, plan).items)
  {
    if b.state == Running {
      var more := AppendedFresh(b, plan);
      MoreDone(b.items, more);
    }
  }

  lemma FinishedDone(registry: Registry, b: Batch, job: nat, outcome: Outcome)
    requires OneAtATime(b) && DepsDone(b.items)
    ensures DepsDone(Finished(registry, b, job, outcome).items)
  {
    hide DepsSucceeded;
    var c := Finished(registry, b, job, outcome);
    FinishSettles(registry, b, job, outcome);
    hide Finished;
    forall i | 0 <= i < |b.items|
      ensures c.items[i].service == b.items[i].service && c.items[i].needs == b.items[i].needs
      ensures b.items[i].state == Succeeded ==> c.items[i].state == Succeeded
      ensures Started(c.items[i]) ==> Started(b.items[i])
    {
      assert Settled(b.items[i], c.items[i]);
    }
    OnwardDone(b.items, c.items);
  }

  lemma ContinuedDone(b: Batch)
    requires OneAtATime(b) && DepsDone(b.items)
    ensures DepsDone(Continued(b).items)
  {
  }

  lemma {:induction false} StepDepsDone(registry: Registry, b: Batch, op: Op)
    requires OneAtATime(b) && DepsDone(b.items) && NoLateDependency(b, op)
    ensures DepsDone(Apply(registry, b, op).items)
  {
    if Arranges(op) {
      ArrangingKeepsStates(registry, b, op);
      hide DepsSucceeded, Apply;
      OnwardDone(b.items, Apply(registry, b, op).items);
      return;
    }
    match op
    case Append(plan) => AppendedDone(b, plan);
    case Finish(job, outcome) => FinishedDone(registry, b, job, outcome);
    case Continue => ContinuedDone(b);
    case _ =>
      hide DepsSucceeded;
      OnwardDone(b.items, Apply(registry, b, op).items);
  }

  /** Which in-batch apps an app needs. */
  function BatchGraph(items: seq<Item>): Graph {
    map s <- Services(items) :: NeedsIn(items, s)
  }

  function NeedsIn(items: seq<Item>, service: string): seq<string> {
    if items == [] then [] else if items[0].service == service then items[0].needs else NeedsIn(items[1..], service)
  }

  lemma {:induction false} NeedsOf(items: seq<Item>, i: nat)
    requires NoTwice(items) && i < |items|
    ensures NeedsIn(items, items[i].service) == items[i].needs
    decreases |items|
  {
    if i > 0 {
      assert items[0].service != items[i].service;
      NeedsOf(items[1..], i - 1);
    }
  }

  /** Every app that was started has everything it needs, directly or through others, set up. */
  lemma TransitiveDependenciesDone(items: seq<Item>, i: nat, j: nat)
    requires DepsDone(items) && i < |items| && Started(items[i])
    requires j < |items| && Proper(BatchGraph(items), items[i].service, items[j].service)
    ensures items[j].state == Succeeded
  {
    var g := BatchGraph(items);
    var unfinished := set x <- items | x.state != Succeeded :: x.service;
    var universe := Services(items) + (set x <- items, d <- x.needs :: d);
    var s := universe - unfinished;
    forall k, d | 0 <= k < |items| && Started(items[k]) && d in Succ(g, items[k].service) ensures d in s {
      NeedsOf(items, k);
      assert items[k] in items && d in items[k].needs && DepsSucceeded(items, items[k]);
    }
    forall x, d | x in s && d in Succ(g, x) ensures d in s {
      assert x in Services(items);
      var k :| 0 <= k < |items| && items[k].service == x;
      assert items[k] in items;
    }
    var c :| c in Succ(g, items[i].service) && Reach(g, c, items[j].service);
    ClosedReach(g, s, c, items[j].service);
    assert items[j] in items;
  }

  ghost predicate OpsAllowed(registry: Registry, b: Batch, ops: seq<Op>)
    decreases |ops|
  {
    ops == [] || (NoLateDependency(b, ops[0]) && OpsAllowed(registry, Apply(registry, b, ops[0]), ops[1..]))
  }

  lemma {:induction false} RunDepsDone(registry: Registry, b: Batch, ops: seq<Op>)
    requires OneAtATime(b) && DepsDone(b.items) && OpsAllowed(registry, b, ops)
    ensures OneAtATime(Run(registry, b, ops)) && DepsDone(Run(registry, b, ops).items)
    decreases |ops|
  {
    hide OneAtATime, DepsDone, Apply;
    if ops != [] {
      StepOneAtATime(registry, b, ops[0]);
      StepDepsDone(registry, b, ops[0]);
      RunDepsDone(registry, Apply(registry, b, ops[0]), ops[1..]);
    }
  }

  /** In every run without late dependencies, each started app's transitive in-batch dependencies have succeeded. */
  lemma {:induction false} StartedAppsHaveTheirDependencies(registry: Registry, b: Batch, ops: seq<Op>, i: nat, j: nat)
    requires OneAtATime(b) && DepsDone(b.items) && OpsAllowed(registry, b, ops)
    requires var items := Run(registry, b, ops).items;
      && i < |items| && j < |items| && Started(items[i])
      && Proper(BatchGraph(items), items[i].service, items[j].service)
    ensures Run(registry, b, ops).items[j].state == Succeeded
  {
    hide OneAtATime, DepsDone, Run;
    RunDepsDone(registry, b, ops);
    TransitiveDependenciesDone(Run(registry, b, ops).items, i, j);
  }

  // ---- The batch never gets stuck -----------------------------------------------------------

  /** The catalog is not loaded when it names an app it lacks or has a cycle. */
  ghost predicate Catalog(registry: Registry) {
    KnownNeeds(registry) && forall id <- registry :: Acyclic(NeedsGraph(registry), id)
  }

  ghost predicate FromCatalog(registry: Registry, x: Item) {
    x.service in registry && x.needs == registry[x.service].dependencies
  }

  /** No waiting app needs one that failed, was cancelled or is blocked; a closed batch has none waiting. */
  ghost predicate Unblocked(registry: Registry, b: Batch) {
    && NoTwice(b.items)
    && (forall x <- b.items :: FromCatalog(registry, x))
    && (forall x, y :: x in b.items && y in b.items && x.state == Pending && Dead(y.state)
          ==> !Proper(NeedsGraph(registry), x.service, y.service))
    && (b.state != Running ==> forall x <- b.items :: x.state != Pending)
  }

  /** Selections come from the catalog, and none needs an app of the batch that already failed. */
  ghost predicate Selectable(registry: Registry, b: Batch, op: Op) {
    op.Append? ==>
      && NoTwice(op.plan)
      && (forall p <- op.plan :: FromCatalog(registry, p))
      && (forall p, y :: p in op.plan && y in b.items && Dead(y.state)
            ==> !Proper(NeedsGraph(registry), p.service, y.service))
  }

  ghost predicate NeverNeeds(registry: Registry, items: seq<Item>, service: string) {
    forall x <- items :: x.state == Pending ==> !Proper(NeedsGraph(registry), x.service, service)
  }

  /** The same apps; the waiting ones were waiting, and what is newly dead no waiting one needs. */
  lemma OnwardUnblocked(registry: Registry, b: Batch, c: Batch)
    requires Unblocked(registry, b) && |c.items| == |b.items|
    requires forall i :: 0 <= i < |b.items| ==>
      && c.items[i].service == b.items[i].service && c.items[i].needs == b.items[i].needs
      && (c.items[i].state == Pending ==> b.items[i].state == Pending)
      && (Dead(c.items[i].state) ==> Dead(b.items[i].state) || NeverNeeds(registry, c.items, b.items[i].service))
    requires c.state != Running ==> forall x <- c.items :: x.state != Pending
    ensures Unblocked(registry, c)
  {
    forall x | x in c.items ensures FromCatalog(registry, x) {
      var i :| 0 <= i < |c.items| && c.items[i] == x;
      assert b.items[i] in b.items;
    }
    forall x, y | x in c.items && y in c.items && x.state == Pending && Dead(y.state)
      ensures !Proper(NeedsGraph(registry), x.service, y.service)
    {
      var i :| 0 <= i < |c.items| && c.items[i] == x;
      var j :| 0 <= j < |c.items| && c.items[j] == y;
      assert b.items[i] in b.items && b.items[j] in b.items;
    }
  }

  lemma AppendedUnblocked(registry: Registry, b: Batch, plan: seq<Item>)
    requires Unblocked(registry, b) && Selectable(registry, b, Append(plan))
    ensures Unblocked(registry, Appended(b, plan))
  {
    if b.state == Running {
      var more := AppendedFresh(b, plan);
      var c := Appended(b, plan);
      hide Appended;
      forall x | x in c.items ensures FromCatalog(registry, x) {
        if x in more { var q :| q in plan && x.service == q.service && x.needs == q.needs; }
      }
      forall x, y | x in c.items && y in c.items && x.state == Pending && Dead(y.state)
        ensures !Proper(NeedsGraph(registry), x.service, y.service)
      {
        assert y in b.items;
        if x in more { var q :| q in plan && x.service == q.service && x.needs == q.needs; }
      }
    }
  }

  lemma NoneWaits(registry: Registry, b: Batch, c: Batch, service: string)
    requires Unblocked(registry, b) && b.state != Running && |c.items| == |b.items|
    requires forall i :: 0 <= i < |b.items| ==> Settled(b.items[i], c.items[i])
    ensures (forall x <- c.items :: x.state != Pending) && NeverNeeds(registry, c.items, service)
  {
  }

  lemma FinishedUnblocked(registry: Registry, b: Batch, job: nat, outcome: Outcome)
    requires OneAtATime(b) && Unblocked(registry, b)
    ensures Unblocked(registry, Finished(registry, b, job, outcome))
  {
    var c := Finished(registry, b, job, outcome);
    FinishSettles(registry, b, job, outcome);
    hide Finished;
    forall i | 0 <= i < |b.items| && Dead(c.items[i].state) && !Dead(b.items[i].state)
      ensures NeverNeeds(registry, c.items, b.items[i].service)
    {
      if b.state == Running {
        DeadIsBlocked(registry, b, job, outcome, i);
      } else {
        NoneWaits(registry, b, c, b.items[i].service);
      }
    }
    forall i | 0 <= i < |b.items|
      ensures c.items[i].service == b.items[i].service && c.items[i].needs == b.items[i].needs
      ensures c.items[i].state == Pending ==> b.items[i].state == Pending
    {
      assert Settled(b.items[i], c.items[i]);
    }
    if c.state != Running { NoneWaits(registry, b, c, ""); }
    OnwardUnblocked(registry, b, c);
  }

  /** Where a job's end killed an app, the job's own app is dead and those that need it were blocked. */
  lemma DeathBlocks(registry: Registry, b: Batch, job: nat, outcome: Outcome, i: nat) returns (k: nat)
    requires var c := Finished(registry, b, job, outcome);
      b.state == Running && i < |b.items| && |c.items| == |b.items|
      && Dead(c.items[i].state) && !Dead(b.items[i].state)
    ensures k < |b.items| && b.items[k].job == Some(job)
    ensures forall j :: 0 <= j < |b.items| && j != k ==>
      Finished(registry, b, job, outcome).items[j] == BlockedBy(registry, b.items[j], b.items[k].service)
  {
    hide BlockedBy;
    k := ItemOf(b.items, job).value;
  }

  /** Whatever a job's end kills leaves no waiting app that needs it: blocking is transitive. */
  lemma DeadIsBlocked(registry: Registry, b: Batch, job: nat, outcome: Outcome, i: nat)
    requires OneAtATime(b) && Unblocked(registry, b) && b.state == Running
    requires var c := Finished(registry, b, job, outcome);
      i < |b.items| && |c.items| == |b.items| && Dead(c.items[i].state) && !Dead(b.items[i].state)
    ensures NeverNeeds(registry, Finished(registry, b, job, outcome).items, b.items[i].service)
  {
    hide Finished, Proper;
    var c := Finished(registry, b, job, outcome);
    var g := NeedsGraph(registry);
    FinishSettles(registry, b, job, outcome);
    var k := DeathBlocks(registry, b, job, outcome, i);
    var dead, failed := b.items[i].service, b.items[k].service;
    forall x | x in c.items && x.state == Pending ensures !Proper(g, x.service, dead) {
      var j :| 0 <= j < |c.items| && c.items[j] == x;
      assert b.items[k] in b.items && Settled(b.items[j], x);
      if i != k && Proper(g, x.service, dead) {
        ReachSplit(g, x.service, dead);
        ReachSplit(g, dead, failed);
        ProperJoin(g, x.service, dead, failed);
      }
    }
  }

  lemma ContinuedUnblocked(registry: Registry, b: Batch)
    requires Unblocked(registry, b)
    ensures Unblocked(registry, Continued(b))
  {
    hide DepsSucceeded, FromCatalog;
    OnwardUnblocked(registry, b, Continued(b));
  }

  lemma OthersUnblocked(registry: Registry, b: Batch, op: Op)
    requires OneAtATime(b) && Unblocked(registry, b) && (op.Enqueue? || op.LoseEnqueue? || op.Cancel?)
    ensures Unblocked(registry, Apply(registry, b, op))
  {
    var c := Apply(registry, b, op);
    if op.Cancel? {
      forall x | x in c.items ensures x.state != Pending {
        var i :| 0 <= i < |c.items| && c.items[i] == x;
      }
      forall x | x in c.items ensures FromCatalog(registry, x) {
        var i :| 0 <= i < |c.items| && c.items[i] == x;
        assert b.items[i] in b.items;
      }
    } else {
      hide FromCatalog;
      OnwardUnblocked(registry, b, c);
    }
  }

  lemma StepUnblocked(registry: Registry, b: Batch, op: Op)
    requires OneAtATime(b) && Unblocked(registry, b) && Selectable(registry, b, op)
    ensures Unblocked(registry, Apply(registry, b, op))
  {
    match op
    case Append(plan) => AppendedUnblocked(registry, b, plan);
    case Continue => ContinuedUnblocked(registry, b);
    case Finish(job, outcome) => FinishedUnblocked(registry, b, job, outcome);
    case Enqueue(_) => OthersUnblocked(registry, b, op);
    case LoseEnqueue => OthersUnblocked(registry, b, op);
    case Cancel => OthersUnblocked(registry, b, op);
    case _ =>
      ArrangingKeepsStates(registry, b, op);
      var c := Apply(registry, b, op);
      hide Apply;
      forall x | x in c.items && x.state == Pending ensures c.state == Running {
        var i :| 0 <= i < |c.items| && c.items[i] == x;
        assert b.items[i] in b.items;
      }
      OnwardUnblocked(registry, b, c);
  }

  /** Some waiting app needs no other waiting app, so with every download ready something can start. */
  lemma SomethingCanStart(registry: Registry, b: Batch, x: Item)
    requires Catalog(registry) && Unblocked(registry, b) && x in b.items && x.state == Pending
    requires forall y <- b.items :: y.state != Queued && (y.state == Pending ==> y.download == Ready)
    ensures exists i :: 0 <= i < |b.items| && CanStart(b.items, b.items[i])
  {
    var g := NeedsGraph(registry);
    var waiting := set y <- b.items | y.state == Pending :: y.service;
    assert x.service in waiting;
    forall s | s in waiting ensures Acyclic(g, s) {
      var y :| y in b.items && y.state == Pending && y.service == s;
      assert FromCatalog(registry, y);
    }
    var m := SomethingLast(g, waiting);
    var i :| 0 <= i < |b.items| && b.items[i].state == Pending && b.items[i].service == m;
    var z := b.items[i];
    assert FromCatalog(registry, z);
    forall d, y | d in z.needs && y in b.items && y.service == d ensures y.state == Succeeded {
      ReachSelf(g, d);
      assert Proper(g, m, d);
    }
    assert CanStart(b.items, b.items[i]);
  }

  ghost predicate OpsSelectable(registry: Registry, b: Batch, ops: seq<Op>)
    decreases |ops|
  {
    ops == [] || (Selectable(registry, b, ops[0]) && OpsSelectable(registry, Apply(registry, b, ops[0]), ops[1..]))
  }

  lemma {:induction false} RunUnblocked(registry: Registry, b: Batch, ops: seq<Op>)
    requires OneAtATime(b) && Unblocked(registry, b) && OpsSelectable(registry, b, ops)
    ensures OneAtATime(Run(registry, b, ops)) && Unblocked(registry, Run(registry, b, ops))
    decreases |ops|
  {
    hide OneAtATime, Unblocked, Selectable, Apply;
    if ops != [] {
      StepOneAtATime(registry, b, ops[0]);
      StepUnblocked(registry, b, ops[0]);
      RunUnblocked(registry, Apply(registry, b, ops[0]), ops[1..]);
    }
  }

  /** Open, with nothing being set up and nothing left to download. */
  predicate Idle(b: Batch) {
    b.state == Running && forall x <- b.items :: x.state != Queued && (x.state == Pending ==> x.download == Ready)
  }

  predicate StartsAnApp(b: Batch, c: Batch) {
    exists k :: 0 <= k < |b.items| && b.items[k].state == Pending &&
      c == Batch(Running, b.items[k := b.items[k].(state := Queued)], Some(k))
  }

  predicate Closes(b: Batch, c: Batch) {
    && c.items == b.items && c.state in {AllSucceeded, CompletedWithFailures}
    && (c.state == AllSucceeded <==> forall x <- b.items :: x.state == Succeeded)
  }

  /**
   * A running batch with nothing queued and every waiting download ready never
   * waits: it starts an app while any is waiting, and closes otherwise, as
   * succeeded exactly when every app did.
   */
  lemma {:induction false} NeverStuck(registry: Registry, start: Batch, ops: seq<Op>)
    requires Catalog(registry) && OneAtATime(start) && Unblocked(registry, start) && OpsSelectable(registry, start, ops)
    requires Idle(Run(registry, start, ops))
    ensures var b := Run(registry, start, ops);
      if exists x <- b.items :: x.state == Pending then StartsAnApp(b, Continued(b)) else Closes(b, Continued(b))
  {
    RunUnblocked(registry, start, ops);
    var b := Run(registry, start, ops);
    if x :| x in b.items && x.state == Pending {
      SomethingCanStart(registry, b, x);
    }
    hide Run, OneAtATime, Unblocked, OpsSelectable, Catalog, CanStart;
  }

  /** A new batch satisfies what these runs start from. */
  lemma NewBatch(registry: Registry, plan: seq<Item>)
    requires NoTwice(plan)
    ensures var b := Appended(Batch(Running, [], None), plan);
      OneAtATime(b) && OneJobEach(b) && DepsDone(b.items) && SucceededMeansAll(b) &&
      ((forall p <- plan :: FromCatalog(registry, p)) ==> Unblocked(registry, b))
  {
    var empty := Batch(Running, [], None);
    AppendedOne(empty, plan);
    AppendedDone(empty, plan);
    if forall p <- plan :: FromCatalog(registry, p) { AppendedUnblocked(registry, empty, plan); }
  }

  // ---- What a closed batch says ---------------------------------------------------------------

  /** Closed as succeeded: every app is set up, and no claim is open. */
  predicate SucceededMeansAll(b: Batch) {
    b.state == AllSucceeded ==> b.starting.None? && forall x <- b.items :: x.state == Succeeded
  }

  lemma StepSucceededMeansAll(registry: Registry, b: Batch, op: Op)
    requires OneAtATime(b) && SucceededMeansAll(b)
    ensures SucceededMeansAll(Apply(registry, b, op))
  {
    hide DepsSucceeded, BlockAll, Absent, NoDuplicates;
    var c := Apply(registry, b, op);
    if c.state == AllSucceeded {
      forall x | x in c.items ensures x.state == Succeeded {
        var i :| 0 <= i < |c.items| && c.items[i] == x;
        assert i < |b.items| && b.items[i] in b.items;
      }
    }
  }

  /** A batch shown as succeeded has every app set up, after any later calls too. */
  lemma {:induction false} ClosedAsSucceeded(registry: Registry, b: Batch, ops: seq<Op>)
    requires OneAtATime(b) && SucceededMeansAll(b)
    ensures SucceededMeansAll(Run(registry, b, ops))
    decreases |ops|
  {
    hide OneAtATime, SucceededMeansAll, Apply;
    if ops != [] {
      StepOneAtATime(registry, b, ops[0]);
      StepSucceededMeansAll(registry, b, ops[0]);
      ClosedAsSucceeded(registry, Apply(registry, b, ops[0]), ops[1..]);
    }
  }

  // ---- A claim whose job was never queued -------------------------------------------------------

  /** An app is marked as queued, but nothing will queue its job. */
  predicate Orphaned(b: Batch, k: nat) {
    b.starting.None? && k < |b.items| && b.items[k].state == Queued && b.items[k].job.None?
  }

  /** Such a batch starts nothing more and does not close, whatever is done short of cancelling it. */
  lemma {:induction false} LostEnqueueStallsTheBatch(registry: Registry, b: Batch, ops: seq<Op>, k: nat)
    requires b.state == Running && Orphaned(b, k) && Cancel !in ops
    ensures var c := Run(registry, b, ops);
      c.state == Running && Orphaned(c, k) && Continued(c) == c
    decreases |ops|
  {
    if ops != [] {
      OrphanStays(registry, b, ops[0], k);
      hide Apply;
      LostEnqueueStallsTheBatch(registry, Apply(registry, b, ops[0]), ops[1..], k);
    } else {
      assert b.items[k] in b.items;
    }
  }

  lemma OrphanStays(registry: Registry, b: Batch, op: Op, k: nat)
    requires b.state == Running && Orphaned(b, k) && op != Cancel
    ensures var c := Apply(registry, b, op); c.state == Running && Orphaned(c, k)
  {
  }

  /** From a new batch of one app: its download ends, it is claimed, and the worker stops before queueing its job. */
  lemma ALostEnqueue(registry: Registry, service: string)
    requires service in registry && registry[service].dependencies == []
    ensures var batch := Appended(Batch(Running, [], None), [Item(service, Pending, [], Waiting, 0, None)]);
      var b := Run(registry, batch, [SetDownload(0, Ready), Continue, LoseEnqueue]);
      b.state == Running && Orphaned(b, 0)
  {
    var plan := [Item(service, Pending, [], Waiting, 0, None)];
    FirstItems(plan);
    var b0 := Appended(Batch(Running, [], None), plan);
    assert NextPriority([]) == 0;
    var b1 := Apply(registry, b0, SetDownload(0, Ready));
    assert b1.items == [Item(service, Pending, [], Ready, 0, None)];
    assert CanStart(b1.items, b1.items[0]);
    var b2 := Continued(b1);
    assert b2 == Batch(Running, [Item(service, Queued, [], Ready, 0, None)], Some(0)) by {
      hide Run, Apply, Appended;
      assert ReadyOrdinal(b1.items, 1).Some?;
    }
    var ops := [SetDownload(0, Ready), Continue, LoseEnqueue];
    assert ops[1..] == [Continue, LoseEnqueue] && ops[1..][1..] == [LoseEnqueue] && ops[1..][1..][1..] == [];
  }

  /** No job is running, no claim is open and every waiting download is ready: it is the next `Continue` that counts. */
  predicate Resting(b: Batch) {
    && b.state == Running && b.starting.None?
    && (forall x <- b.items :: (x.state == Queued ==> x.job.None?) && (x.state == Pending ==> x.download == Ready))
  }

  /** A resting batch stays as it is exactly when an app is queued without a job. */
  lemma {:induction false} RestsExactlyWhenOrphaned(registry: Registry, start: Batch, ops: seq<Op>)
    requires Catalog(registry) && OneAtATime(start) && Unblocked(registry, start) && OpsSelectable(registry, start, ops)
    requires Resting(Run(registry, start, ops))
    ensures var b := Run(registry, start, ops); Continued(b) == b <==> exists k :: Orphaned(b, k)
  {
    var b := Run(registry, start, ops);
    if k :| 0 <= k < |b.items| && b.items[k].state == Queued {
      assert b.items[k] in b.items && Orphaned(b, k);
    } else {
      assert Idle(b);
      NeverStuck(registry, start, ops);
    }
  }

  predicate Closed(b: Batch) { b.state in {AllSucceeded, CompletedWithFailures} }

  /** Some course of downloads, claims and jobs, without a cancel, closes the batch. */
  ghost predicate CanClose(registry: Registry, b: Batch) {
    exists more :: Cancel !in more && Closed(Run(registry, b, more))
  }

  ghost predicate OneJobEach(b: Batch) {
    forall i, j :: 0 <= i < j < |b.items| && b.items[i].job.Some? ==> b.items[i].job != b.items[j].job
  }

  /** A queued job has an id no app of the batch has had. */
  ghost predicate FreshJobs(registry: Registry, b: Batch, ops: seq<Op>)
    decreases |ops|
  {
    ops == [] ||
    ((ops[0].Enqueue? ==> forall x <- b.items :: x.job != Some(ops[0].job)) &&
     FreshJobs(registry, Apply(registry, b, ops[0]), ops[1..]))
  }

  lemma StepOneJobEach(registry: Registry, b: Batch, op: Op)
    requires OneAtATime(b) && OneJobEach(b)
    requires op.Enqueue? ==> forall x <- b.items :: x.job != Some(op.job)
    ensures OneJobEach(Apply(registry, b, op))
  {
    match op
    case Finish(job, outcome) =>
      FinishSettles(registry, b, job, outcome);
      hide Finished;
    case Enqueue(job) =>
    case _ => hide DepsSucceeded;
  }

  lemma {:induction false} RunOneJobEach(registry: Registry, b: Batch, ops: seq<Op>)
    requires OneAtATime(b) && OneJobEach(b) && FreshJobs(registry, b, ops)
    ensures OneJobEach(Run(registry, b, ops))
    decreases |ops|
  {
    hide OneAtATime, OneJobEach, Apply;
    if ops != [] {
      StepOneAtATime(registry, b, ops[0]);
      StepOneJobEach(registry, b, ops[0]);
      RunOneJobEach(registry, Apply(registry, b, ops[0]), ops[1..]);
    }
  }

  ghost predicate Open(registry: Registry, b: Batch) {
    b.state == Running && OneAtATime(b) && Unblocked(registry, b) && OneJobEach(b)
  }

  lemma StepOpen(registry: Registry, b: Batch, op: Op)
    requires Open(registry, b) && !op.Append? && Apply(registry, b, op).state == Running
    requires op.Enqueue? ==> forall x <- b.items :: x.job != Some(op.job)
    ensures Open(registry, Apply(registry, b, op))
  {
    StepOneAtATime(registry, b, op);
    StepUnblocked(registry, b, op);
    StepOneJobEach(registry, b, op);
  }

  lemma {:induction false} RunJoin(registry: Registry, b: Batch, before: seq<Op>, after: seq<Op>)
    ensures Run(registry, b, before + after) == Run(registry, Run(registry, b, before), after)
    decreases |before|
  {
    if before == [] {
      assert before + after == after;
    } else {
      assert (before + after)[1..] == before[1..] + after;
      RunJoin(registry, Apply(registry, b, before[0]), before[1..], after);
    }
  }

  lemma {:induction false} CloseLater(registry: Registry, b: Batch, more: seq<Op>)
    requires Cancel !in more && CanClose(registry, Run(registry, b, more))
    ensures CanClose(registry, b)
  {
    var rest :| Cancel !in rest && Closed(Run(registry, Run(registry, b, more), rest));
    RunJoin(registry, b, more, rest);
  }

  function Unfinished(b: Batch): set<nat> {
    set i: nat | i < |b.items| && b.items[i].state in {Pending, Queued}
  }

  lemma {:induction false} UnusedJob(items: seq<Item>) returns (job: nat)
    ensures forall x <- items :: x.job.Some? ==> x.job.value < job
    decreases |items|
  {
    job := 0;
    if items != [] {
      job := UnusedJob(items[1..]);
      if items[0].job.Some? && items[0].job.value >= job { job := items[0].job.value + 1; }
    }
  }

  lemma JobIsAt(items: seq<Item>, job: nat, k: nat)
    requires k < |items| && items[k].job == Some(job)
    requires forall i :: 0 <= i < |items| && i != k ==> items[i].job != Some(job)
    ensures ItemOf(items, job) == Some(k)
    decreases |items|
  {
    if k > 0 { JobIsAt(items[1..], job, k - 1); }
  }

  /** A claim's job can be queued. */
  lemma {:induction false} QueueClaim(registry: Registry, b: Batch, k: nat) returns (job: nat)
    requires Open(registry, b) && b.starting == Some(k)
    ensures var c := Enqueued(b, job);
      Open(registry, c) && c == b.(items := b.items[k := b.items[k].(job := Some(job))], starting := None)
    ensures b.items[k].state == Queued
  {
    job := UnusedJob(b.items);
    StepOpen(registry, b, Enqueue(job));
  }

  /** A queued app's job can succeed. */
  lemma EndJob(registry: Registry, b: Batch, k: nat, job: nat)
    requires Open(registry, b) && k < |b.items| && b.items[k].state == Queued && b.items[k].job == Some(job)
    ensures var c := Finished(registry, b, job, JobSucceeded);
      Open(registry, c) && c == b.(items := b.items[k := b.items[k].(state := Succeeded)])
  {
    JobIsAt(b.items, job, k);
    hide Open, ItemOf, BlockAll;
    StepOpen(registry, b, Finish(job, JobSucceeded));
  }

  lemma LessUnfinished(b: Batch, c: Batch, k: nat)
    requires OneAtATime(b) && k < |b.items| == |c.items| && b.items[k].state == Queued && c.items[k].state == Succeeded
    requires forall i :: 0 <= i < |b.items| && i != k ==> c.items[i] == b.items[i]
    ensures Unfinished(c) == Unfinished(b) - {k} && forall x <- c.items :: x.state != Queued
  {
  }

  lemma RunOne(registry: Registry, b: Batch, op: Op)
    ensures Run(registry, b, [op]) == Apply(registry, b, op)
  {
    assert [op][1..] == [];
  }

  /** What is queued can be set up, its job first being queued where it is only claimed. */
  lemma {:induction false} EndSetup(registry: Registry, b: Batch, k: nat) returns (more: seq<Op>)
    requires Open(registry, b) && k < |b.items| && b.items[k].state == Queued && !Orphaned(b, k)
    ensures Cancel !in more && Open(registry, Run(registry, b, more))
    ensures Unfinished(Run(registry, b, more)) == Unfinished(b) - {k}
    ensures forall x <- Run(registry, b, more).items :: x.state != Queued
  {
    assert b.items[k].job.None? ==> b.starting == Some(k);
    assert OneAtATime(b);
    hide Open, OneAtATime, Run, Unfinished, Enqueued, Finished;
    var c, job, before := b, 0, [];
    if b.items[k].job.None? {
      job := QueueClaim(registry, b, k);
      c, before := Enqueued(b, job), [Enqueue(job)];
      RunOne(registry, b, Enqueue(job));
    } else {
      job := b.items[k].job.value;
      RunNone(registry, b);
    }
    EndJob(registry, c, k, job);
    RunOne(registry, c, Finish(job, JobSucceeded));
    LessUnfinished(b, Finished(registry, c, job, JobSucceeded), k);
    RunJoin(registry, b, before, [Finish(job, JobSucceeded)]);
    more := before + [Finish(job, JobSucceeded)];
  }

  lemma RunNone(registry: Registry, b: Batch)
    ensures Run(registry, b, []) == b
  {
  }

  lemma NothingOrphaned(b: Batch)
    requires forall x <- b.items :: x.state != Queued
    ensures !exists k :: Orphaned(b, k)
  {
  }

  lemma CloseNow(registry: Registry, b: Batch)
    requires Closed(b)
    ensures CanClose(registry, b)
  {
    assert Cancel !in [] && Closed(Run(registry, b, []));
  }

  lemma AllDownloaded(b: Batch, c: Batch)
    requires b.state == Running && SameStates(b, c) && forall x <- b.items :: x.state != Queued
    requires forall i :: 0 <= i < |b.items| && b.items[i].state == Pending ==> c.items[i].download == Ready
    ensures Idle(c) && Unfinished(c) == Unfinished(b)
  {
    forall x | x in c.items ensures x.state != Queued && (x.state == Pending ==> x.download == Ready) {
      var i :| 0 <= i < |c.items| && c.items[i] == x;
      assert b.items[i] in b.items && b.items[i].state == c.items[i].state;
    }
    assert forall i :: 0 <= i < |b.items| ==> b.items[i].state == c.items[i].state;
  }

  /** Every waiting app can finish its download. */
  lemma {:induction false} FinishDownloads(registry: Registry, b: Batch, n: nat) returns (more: seq<Op>)
    requires Open(registry, b) && n <= |b.items|
    ensures Cancel !in more && Open(registry, Run(registry, b, more)) && SameStates(b, Run(registry, b, more))
    ensures forall i :: 0 <= i < n && b.items[i].state == Pending ==> Run(registry, b, more).items[i].download == Ready
  {
    if n == 0 {
      RunNone(registry, b);
      return [];
    }
    var before := FinishDownloads(registry, b, n - 1);
    var c := Run(registry, b, before);
    var op := SetDownload(n - 1, Ready);
    StepOpen(registry, c, op);
    RunJoin(registry, b, before, [op]);
    RunOne(registry, c, op);
    more := before + [op];
    hide Open, Run;
  }

  lemma IdleMoves(registry: Registry, b: Batch)
    requires Catalog(registry) && Open(registry, b) && Idle(b)
    ensures var c := Continued(b); Closed(c) || (StartsAnApp(b, c) && Open(registry, c))
  {
    RunNone(registry, b);
    NeverStuck(registry, b, []);
    hide Continued, OneAtATime, Unblocked, Catalog, Run, OneJobEach;
    if !Closed(Continued(b)) { StepOpen(registry, b, Continue); }
  }

  /** With every download ready, a batch that waits for nothing starts and ends one more app, or closes. */
  lemma {:induction false} NextSetup(registry: Registry, b: Batch) returns (more: seq<Op>)
    requires Catalog(registry) && Open(registry, b) && Idle(b)
    ensures var c := Run(registry, b, more);
      && Cancel !in more
      && (Closed(c) || (Open(registry, c) && Unfinished(c) < Unfinished(b) && forall x <- c.items :: x.state != Queued))
  {
    hide Open, Continued, Idle, Catalog, Run, Unfinished;
    IdleMoves(registry, b);
    RunOne(registry, b, Continue);
    var d := Continued(b);
    if Closed(d) { return [Continue]; }
    var k :| 0 <= k < |b.items| && b.items[k].state == Pending &&
      d == Batch(Running, b.items[k := b.items[k].(state := Queued)], Some(k));
    var last := EndSetup(registry, d, k);
    RunJoin(registry, b, [Continue], last);
    more := [Continue] + last;
    SameUnfinished(b, d, k);
  }

  lemma SameUnfinished(b: Batch, c: Batch, k: nat)
    requires k < |b.items| && b.items[k].state == Pending && c.items == b.items[k := b.items[k].(state := Queued)]
    ensures k in Unfinished(b) && Unfinished(c) == Unfinished(b)
  {
  }

  lemma {:induction false} ClosesUnlessOrphaned(registry: Registry, b: Batch)
    requires Catalog(registry) && Open(registry, b) && !exists k :: Orphaned(b, k)
    ensures CanClose(registry, b)
    decreases Unfinished(b)
  {
    assert b.state == Running;
    hide Open, Catalog, Run, CanClose;
    if k :| 0 <= k < |b.items| && b.items[k].state == Queued {
      var more := EndSetup(registry, b, k);
      assert k in Unfinished(b);
      NothingOrphaned(Run(registry, b, more));
      ClosesUnlessOrphaned(registry, Run(registry, b, more));
      CloseLater(registry, b, more);
    } else {
      assert forall x <- b.items :: x.state != Queued;
      var more := FinishDownloads(registry, b, |b.items|);
      var c := Run(registry, b, more);
      AllDownloaded(b, c);
      var next := NextSetup(registry, c);
      var d := Run(registry, c, next);
      if Closed(d) {
        CloseNow(registry, d);
      } else {
        NothingOrphaned(d);
        ClosesUnlessOrphaned(registry, d);
      }
      CloseLater(registry, c, next);
      CloseLater(registry, b, more);
    }
  }

  /**
   * A running batch can still be closed by downloads, claims and jobs exactly
   * when no app is queued without a job to come: a lost enqueue is the one way to
   * stall it for ever.
   */
  lemma {:induction false} StallsExactlyWhenOrphaned(registry: Registry, start: Batch, ops: seq<Op>)
    requires Catalog(registry) && OneAtATime(start) && Unblocked(registry, start) && OneJobEach(start)
    requires OpsSelectable(registry, start, ops) && FreshJobs(registry, start, ops)
    requires Run(registry, start, ops).state == Running
    ensures var b := Run(registry, start, ops); CanClose(registry, b) <==> !exists k :: Orphaned(b, k)
  {
    var b := Run(registry, start, ops);
    RunUnblocked(registry, start, ops);
    RunOneJobEach(registry, start, ops);
    if k :| Orphaned(b, k) {
      forall more | Cancel !in more ensures Run(registry, b, more).state == Running {
        LostEnqueueStallsTheBatch(registry, b, more, k);
      }
    } else {
      ClosesUnlessOrphaned(registry, b);
    }
  }
}
