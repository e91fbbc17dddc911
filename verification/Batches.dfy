/**
 * One owner's install batch: apps download in any order and number, while
 * setups run singly, each after those of the apps it needs. An item's ordinal is its
 * position. Claiming an app and queueing its setup job are two transactions;
 * `starting` is a claim whose job is not queued yet.
 */
module Batches {
  import opened Wrappers
  import opened Graph
  import opened AppOrder

  datatype ItemState = Pending | Queued | Succeeded | Failed | Cancelled | Blocked

  datatype Download = Waiting | Downloading | Paused | Ready

  datatype Item = Item(
    service: string, state: ItemState, needs: seq<string>, download: Download, priority: int, job: Option<nat>)

  datatype BatchState = Running | BatchCancelled | AllSucceeded | CompletedWithFailures

  datatype Batch = Batch(state: BatchState, items: seq<Item>, starting: Option<nat>)

  /** How a setup job ended. */
  datatype Outcome = JobSucceeded | JobFailed | JobCancelled

  function ItemAfter(outcome: Outcome): ItemState {
    match outcome
    case JobSucceeded => Succeeded
    case JobFailed => Failed
    case JobCancelled => Cancelled
  }

  // ---- Choosing the next app ------------------------------------------------------------

  function Services(items: seq<Item>): set<string> { set x <- items :: x.service }

  /** Every app it needs that is in the batch too has been set up. */
  predicate DepsSucceeded(items: seq<Item>, x: Item) {
    forall d <- x.needs :: forall y <- items :: y.service == d ==> y.state == Succeeded
  }

  predicate CanStart(items: seq<Item>, x: Item) {
    x.state == Pending && x.download == Ready && DepsSucceeded(items, x)
  }

  /** The first in the owner's order (ties: in the plan's order) that can start. */
  function ReadyOrdinal(items: seq<Item>, upTo: nat): (r: Option<nat>)
    requires upTo <= |items|
    ensures r.Some? ==> r.value < upTo && CanStart(items, items[r.value])
    ensures r.None? ==> forall i :: 0 <= i < upTo ==> !CanStart(items, items[i])
    ensures r.Some? ==> forall i :: 0 <= i < upTo && CanStart(items, items[i]) ==>
      items[r.value].priority < items[i].priority || (items[r.value].priority == items[i].priority && r.value <= i)
  {
    if upTo == 0 then None else
    var before := ReadyOrdinal(items, upTo - 1);
    var n := upTo - 1;
    if CanStart(items, items[n]) && (before.None? || items[n].priority < items[before.value].priority) then Some(n)
    else before
  }

  predicate Dead(state: ItemState) { state in {Failed, Cancelled, Blocked} }

  /** The transaction of `continue_batch`: claim the next app, close the batch, or wait. */
  function Continued(b: Batch): Batch {
    if b.state != Running || exists x <- b.items :: x.state == Queued then b else
    match ReadyOrdinal(b.items, |b.items|)
    case Some(k) => b.(items := b.items[k := b.items[k].(state := Queued)], starting := Some(k))
    case None =>
      if exists x <- b.items :: x.state == Pending then b
      else b.(state := if exists x <- b.items :: Dead(x.state) then CompletedWithFailures else AllSucceeded)
  }

  /** The claimed app's job was queued. */
  function Enqueued(b: Batch, job: nat): Batch {
    match b.starting
    case Some(k) =>
      if k < |b.items| then
        Batch(Running, b.items[k := b.items[k].(state := Queued, job := Some(job))], None)
      else b.(starting := None)
    case None => b
  }

  /** It was not: another job held the app, or the worker stopped in between. */
  function NotEnqueued(b: Batch): Batch { b.(starting := None) }

  // ---- When a setup job ends --------------------------------------------------------------

  function ItemOf(items: seq<Item>, job: nat): (r: Option<nat>)
    ensures r.Some? ==> r.value < |items| && items[r.value].job == Some(job)
  {
    if items == [] then None
    else if items[0].job == Some(job) then Some(0)
    else
      match ItemOf(items[1..], job)
      case Some(k) => Some(k + 1)
      case None => None
  }

  /** A pending app that transitively needs the failed one is blocked. */
  ghost function BlockedBy(registry: Registry, x: Item, failed: string): Item {
    if x.state == Pending && Proper(NeedsGraph(registry), x.service, failed) then x.(state := Blocked) else x
  }

  ghost function Finished(registry: Registry, b: Batch, job: nat, outcome: Outcome): Batch {
    match ItemOf(b.items, job)
    case None => b
    case Some(k) =>
      if b.items[k].state in {Succeeded, Cancelled} then b else
      var items := b.items[k := b.items[k].(state := ItemAfter(outcome))];
      if b.state == BatchCancelled || outcome == JobSucceeded then b.(items := items)
      else b.(items := BlockAll(registry, items, b.items[k].service))
  }

  ghost function BlockAll(registry: Registry, items: seq<Item>, failed: string): (r: seq<Item>)
    ensures |r| == |items| && forall i :: 0 <= i < |items| ==> r[i] == BlockedBy(registry, items[i], failed)
  {
    seq(|items|, i requires 0 <= i < |items| => BlockedBy(registry, items[i], failed))
  }

  // ---- What the owner does ------------------------------------------------------------------

  /** New selections go behind the existing ones; those already there are left out. */
  function Appended(b: Batch, plan: seq<Item>): Batch {
    if b.state != Running then b
    else b.(items := b.items + Numbered(Absent(plan, Services(b.items)), NextPriority(b.items)))
  }

  function Absent(plan: seq<Item>, present: set<string>): (r: seq<Item>)
    ensures forall x <- r :: x in plan && x.service !in present
    ensures NoTwice(plan) ==> NoTwice(r)
  {
    if plan == [] then [] else
    var rest := Absent(plan[1..], present);
    assert NoTwice(plan) ==> NoTwice(plan[1..]);
    (if plan[0].service in present then [] else [plan[0]]) + rest
  }

  predicate NoTwice(items: seq<Item>) {
    forall i, j :: 0 <= i < j < |items| ==> items[i].service != items[j].service
  }

  function NextPriority(items: seq<Item>): (r: int)
    ensures items == [] ==> r == 0
    ensures items != [] ==> exists x <- items :: r == x.priority + 1
  {
    if items == [] then 0 else
    var before := NextPriority(items[..|items| - 1]);
    var here := items[|items| - 1].priority + 1;
    if |items| == 1 || before < here then here else before
  }

  function Numbered(plan: seq<Item>, first: int): (r: seq<Item>)
    ensures |r| == |plan| && forall i :: 0 <= i < |plan| ==>
      r[i] == Item(plan[i].service, Pending, plan[i].needs, Waiting, first + i, None)
  {
    seq(|plan|, i requires 0 <= i < |plan| =>
      Item(plan[i].service, Pending, plan[i].needs, Waiting, first + i, None))
  }

  /** Only a waiting app changes, and a paused one does not go back to downloading. */
  function WithDownload(x: Item, download: Download): Item {
    if x.state == Pending && !(x.download == Paused && download == Downloading) then x.(download := download) else x
  }

  function Downloaded(b: Batch, k: nat, download: Download): Batch {
    if k < |b.items| then b.(items := b.items[k := WithDownload(b.items[k], download)]) else b
  }

  function PausedAt(b: Batch, k: nat): Result<Batch, ()> {
    if k < |b.items| && b.items[k].state == Pending && b.items[k].download in {Waiting, Downloading} then
      Ok(b.(items := b.items[k := b.items[k].(download := Paused)]))
    else Err(())
  }

  function ResumedAt(b: Batch, k: nat): Result<Batch, ()> {
    if k < |b.items| && b.items[k].state == Pending && b.items[k].download == Paused then
      Ok(b.(items := b.items[k := b.items[k].(download := Waiting)]))
    else Err(())
  }

  function IndexOf(names: seq<string>, name: string): (r: Option<nat>)
    ensures r.Some? ==> r.value < |names| && names[r.value] == name
    ensures r.None? ==> name !in names
  {
    if names == [] then None
    else if names[|names| - 1] == name then Some(|names| - 1)
    else IndexOf(names[..|names| - 1], name)
  }

  /** A listed app that still waits gets its place in the list as priority; any other keeps its own. */
  function Placed(x: Item, names: seq<string>): Item {
    var place := IndexOf(names, x.service);
    if x.state == Pending && place.Some? then x.(priority := place.value) else x
  }

  function PlacedOne(items: seq<Item>, name: string, place: int): (r: seq<Item>)
    ensures |r| == |items| && forall i :: 0 <= i < |items| ==>
      r[i] == if items[i].service == name && items[i].state == Pending then items[i].(priority := place) else items[i]
  {
    seq(|items|, i requires 0 <= i < |items| =>
      if items[i].service == name && items[i].state == Pending then items[i].(priority := place) else items[i])
  }

  function PlacedAll(items: seq<Item>, names: seq<string>): (r: seq<Item>)
    ensures |r| == |items| && forall i :: 0 <= i < |items| ==> r[i] == Placed(items[i], names)
  {
    seq(|items|, i requires 0 <= i < |items| => Placed(items[i], names))
  }

  ghost function Reordered(b: Batch, names: seq<string>): Result<Batch, ()> {
    if !NoDuplicates(names) || b.items == [] || exists n <- names :: n !in Services(b.items) then Err(())
    else Ok(b.(items := PlacedAll(b.items, names)))
  }

  function CancelledItem(x: Item): Item { if x.state == Pending then x.(state := Cancelled) else x }

  function CancelledItems(items: seq<Item>): (r: seq<Item>)
    ensures |r| == |items| && forall i :: 0 <= i < |items| ==> r[i] == CancelledItem(items[i])
  {
    seq(|items|, i requires 0 <= i < |items| => CancelledItem(items[i]))
  }

  function CancelledBatch(b: Batch): Batch {
    Batch(if b.state in {Running, CompletedWithFailures} then BatchCancelled else b.state,
          CancelledItems(b.items), b.starting)
  }

  // ---- The batch as it is updated in place --------------------------------------------------

  predicate KnownNeeds(registry: Registry) {
    forall id <- registry :: forall d <- registry[id].dependencies :: d in registry
  }

  lemma NeedsAreKnown(registry: Registry, a: string, b: string)
    requires KnownNeeds(registry) && a in registry && Reach(NeedsGraph(registry), a, b)
    ensures b in registry
  {
    ClosedReach(NeedsGraph(registry), registry.Keys, a, b);
  }

  class InstallBatch {
    var state: BatchState
    var items: seq<Item>
    var starting: Option<nat>

    constructor (plan: seq<Item>)
      ensures Value() == Appended(Batch(Running, [], None), plan)
      ensures state == Running && starting == None && |items| == |plan|
      ensures forall i :: 0 <= i < |plan| ==> items[i] == Item(plan[i].service, Pending, plan[i].needs, Waiting, i, None)
    {
      hide Numbered, Appended;
      state, items, starting := Running, Numbered(plan, 0), None;
      new;
      FirstItems(plan);
    }

    function Value(): Batch
      reads this
    {
      Batch(state, items, starting)
    }

    method FirstReady() returns (r: Option<nat>)
      ensures r == ReadyOrdinal(items, |items|)
    {
      r := None;
      var n := 0;
      while n < |items|
        invariant 0 <= n <= |items| && r == ReadyOrdinal(items, n)
      {
        if CanStart(items, items[n]) && (r.None? || items[n].priority < items[r.value].priority) { r := Some(n); }
        n := n + 1;
      }
    }

    /** Claims the next app, closes the batch, or leaves it waiting. */
    method ContinueBatch()
      modifies this
      ensures Value() == Continued(old(Value()))
    {
      if state != Running || exists x <- items :: x.state == Queued { return; }
      var next := FirstReady();
      if next.Some? {
        items := items[next.value := items[next.value].(state := Queued)];
        starting := next;
      } else if !exists x <- items :: x.state == Pending {
        state := if exists x <- items :: Dead(x.state) then CompletedWithFailures else AllSucceeded;
      }
    }

    /** What queueing the claimed app's job commits with it. */
    method CommitEnqueued(job: nat)
      modifies this
      ensures Value() == Enqueued(old(Value()), job)
      ensures starting == None
      ensures old(starting).None? ==> state == old(state) && items == old(items)
      ensures old(starting).Some? && old(starting).value < |old(items)| ==> state == Running
      ensures old(starting).Some? && old(starting).value < |old(items)| ==>
        items == old(items)[old(starting).value := old(items)[old(starting).value].(state := Queued, job := Some(job))]
    {
      if starting.Some? && starting.value < |items| {
        var k := starting.value;
        items := items[k := items[k].(state := Queued, job := Some(job))];
        state := Running;
      }
      starting := None;
    }

    /** A job ended: its app ends with it, and without success so do the waiting apps that need it. */
    method AdvanceForJob(registry: Registry, job: nat, outcome: Outcome)
      requires KnownNeeds(registry)
      modifies this
      ensures var b, k := old(Value()), ItemOf(old(items), job);
        Value() == if k.None? || b.items[k.value].state in {Succeeded, Cancelled} then b
                   else Continued(Finished(registry, b, job, outcome))
    {
      var k := ItemOf(items, job);
      if k.None? || items[k.value].state in {Succeeded, Cancelled} { return; }
      var service := items[k.value].service;
      items := items[k.value := items[k.value].(state := ItemAfter(outcome))];
      if state != BatchCancelled && outcome != JobSucceeded {
        BlockThoseNeeding(registry, service);
      }
      assert Value() == Finished(registry, old(Value()), job, outcome);
      ContinueBatch();
    }

    method BlockThoseNeeding(registry: Registry, failed: string)
      requires KnownNeeds(registry)
      modifies this`items
      ensures items == BlockAll(registry, old(items), failed)
    {
      hide NeedsGraph, Proper, KnownNeeds;
      ghost var before := items;
      var i := 0;
      while i < |items|
        invariant 0 <= i <= |items| == |before|
        invariant forall j :: 0 <= j < i ==> items[j] == BlockedBy(registry, before[j], failed)
        invariant forall j :: i <= j < |items| ==> items[j] == before[j]
      {
        if items[i].state == Pending {
          var needs := DependsOn(registry, items[i].service, failed);
          NeedsDecided(registry, items[i].service, failed, needs);
          if needs { items := items[i := items[i].(state := Blocked)]; }
        }
        i := i + 1;
      }
    }

    method SetDownloadState(k: nat, download: Download)
      modifies this`items
      ensures Value() == Downloaded(old(Value()), k, download)
      ensures |items| == |old(items)| && forall i :: 0 <= i < |items| && i != k ==> items[i] == old(items)[i]
      ensures k < |items| ==> items[k] == old(items)[k].(download := items[k].download)
      ensures k < |items| && old(items)[k].state == Pending && (download != Downloading || old(items)[k].download != Paused) ==>
        items[k].download == download
      ensures k < |items| && (old(items)[k].state != Pending || (download == Downloading && old(items)[k].download == Paused)) ==>
        items == old(items)
    {
      if k < |items| { items := items[k := WithDownload(items[k], download)]; }
    }

    method PauseDownload(service: string) returns (ok: bool)
      modifies this`items
      ensures var k := OrdinalOf(old(items), service);
        ok == (k.Some? && PausedAt(old(Value()), k.value).Ok?) &&
        Value() == if ok then PausedAt(old(Value()), k.value).value else old(Value())
      ensures !ok ==> items == old(items)
      ensures ok ==> exists k :: TurnsTo(old(items), items, k, service, {Waiting, Downloading}, Paused)
      ensures NoTwice(old(items)) ==>
        (ok <==> exists x <- old(items) :: x.service == service && x.state == Pending && x.download in {Waiting, Downloading})
    {
      var k := OrdinalOf(items, service);
      if k.None? || items[k.value].state != Pending || items[k.value].download !in {Waiting, Downloading} { return false; }
      ItsItem(items, k.value);
      items := items[k.value := items[k.value].(download := Paused)];
      assert TurnsTo(old(items), items, k.value, service, {Waiting, Downloading}, Paused);
      return true;
    }

    method ResumeDownload(service: string) returns (ok: bool)
      modifies this`items
      ensures var k := OrdinalOf(old(items), service);
        ok == (k.Some? && ResumedAt(old(Value()), k.value).Ok?) &&
        Value() == if ok then ResumedAt(old(Value()), k.value).value else old(Value())
      ensures !ok ==> items == old(items)
      ensures ok ==> exists k :: TurnsTo(old(items), items, k, service, {Paused}, Waiting)
      ensures NoTwice(old(items)) ==>
        (ok <==> exists x <- old(items) :: x.service == service && x.state == Pending && x.download == Paused)
    {
      var k := OrdinalOf(items, service);
      if k.None? || items[k.value].state != Pending || items[k.value].download != Paused { return false; }
      ItsItem(items, k.value);
      items := items[k.value := items[k.value].(download := Waiting)];
      assert TurnsTo(old(items), items, k.value, service, {Paused}, Waiting);
      return true;
    }

    method Reorder(names: seq<string>) returns (ok: bool)
      modifies this`items
      ensures ok == Reordered(old(Value()), names).Ok?
      ensures Value() == if ok then Reordered(old(Value()), names).value else old(Value())
      ensures ok <==> (
        && (forall i, j :: 0 <= i < j < |names| ==> names[i] != names[j])
        && old(items) != [] && forall n <- names :: exists x <- old(items) :: x.service == n)
      ensures |items| == |old(items)|
      ensures forall i :: 0 <= i < |items| ==> items[i] == old(items)[i].(priority := items[i].priority)
      ensures forall i, p :: 0 <= i < |items| && 0 <= p < |names| && ok && old(items)[i].state == Pending ==>
        (old(items)[i].service == names[p] ==> items[i].priority == p)
      ensures forall i :: 0 <= i < |items| && (!ok || old(items)[i].state != Pending || old(items)[i].service !in names) ==>
        items[i] == old(items)[i]
    {
      hide Items, PlacedAll;
      DuplicatesShrink(names);
      if |names| != |Items(names)| || items == [] || exists n <- names :: n !in Services(items) { return false; }
      Place(names);
      return true;
    }

    /** The owner's order, written one place at a time. */
    method Place(names: seq<string>)
      modifies this`items
      ensures items == PlacedAll(old(items), names)
    {
      ghost var before := items;
      var place := 0;
      while place < |names|
        invariant 0 <= place <= |names| && items == PlacedAll(before, names[..place])
      {
        assert names[..place + 1][..place] == names[..place];
        items := PlacedOne(items, names[place], place);
        place := place + 1;
      }
      assert names[..place] == names;
    }

    /** Adds what is new to a running batch; `elsewhere` are the apps waiting or in setup in other batches. */
    method Append(plan: seq<Item>, elsewhere: set<string>) returns (ok: bool)
      modifies this`items
      ensures ok <==> state == Running && (exists x :: IsNew(x, plan, old(items)))
                      && forall x :: IsNew(x, plan, old(items)) ==> x.service !in elsewhere
      ensures Value() == if ok then Appended(old(Value()), plan) else old(Value())
      ensures if ok then Joined(old(items), plan, items) else items == old(items)
    {
      ghost var before := items;
      var added := Absent(plan, Services(items));
      NewOnes(items, plan);
      FreshBehind(items, plan);
      hide Absent, NextPriority, Numbered, IsNew, Services, Joined;
      ok := state == Running && added != [] && forall x <- added :: x.service !in elsewhere;
      if ok { items := items + Numbered(added, NextPriority(items)); }
    }

    /**
     * Cancels the batch, what waits in it, and the job of an app claimed before that no worker has taken yet;
     * `waiting` are the jobs of the store that are still queued.
     */
    method Cancel(waiting: set<nat>) returns (ok: bool, jobs: set<nat>)
      modifies this
      ensures ok <==> old(state) in {Running, CompletedWithFailures}
      ensures Value() == CancelledBatch(old(Value()))
      ensures state == (if ok then BatchCancelled else old(state)) && starting == old(starting) && |items| == |old(items)|
      ensures forall i :: 0 <= i < |items| ==>
        items[i] == old(items)[i].(state := if old(items)[i].state == Pending then Cancelled else old(items)[i].state)
      ensures forall job :: job in jobs <==> job in waiting && exists x <- old(items) :: x.state == Queued && x.job == Some(job)
    {
      jobs := {};
      for i := 0 to |items|
        invariant items == old(items) && state == old(state)
        invariant forall job :: job in jobs <==> job in waiting && exists x <- items[..i] :: x.state == Queued && x.job == Some(job)
      {
        var x := items[i];
        assert items[..i + 1] == items[..i] + [x];
        if x.state == Queued && x.job.Some? && x.job.value in waiting { jobs := jobs + {x.job.value}; }
      }
      assert items[..|items|] == items;
      ok := state in {Running, CompletedWithFailures};
      if ok { state := BatchCancelled; }
      items := CancelledItems(items);
    }
  }

  /** This app's download turns to another state, from one of these; nothing else changes. */
  predicate TurnsTo(
    items: seq<Item>, later: seq<Item>, k: nat, service: string, from: set<Download>, download: Download)
  {
    && k < |items| && items[k].service == service && items[k].state == Pending && items[k].download in from
    && later == items[k := items[k].(download := download)]
  }

  /** Behind what was there come the new apps of the plan, all of them, each after everything before it. */
  ghost predicate Joined(items: seq<Item>, plan: seq<Item>, later: seq<Item>) {
    && items <= later
    && AllNew(later[|items|..], plan, items)
    && (forall k, l :: 0 <= k < l < |later| && |items| <= l ==> later[k].priority < later[l].priority)
  }

  ghost predicate AllNew(more: seq<Item>, plan: seq<Item>, items: seq<Item>) {
    && (forall x <- more :: IsFresh(x, plan, items))
    && (forall p :: IsNew(p, plan, items) ==> exists x <- more :: x.service == p.service && x.needs == p.needs)
  }

  /** An app of the plan, waiting for its download, with no job yet. */
  predicate IsFresh(x: Item, plan: seq<Item>, items: seq<Item>) {
    && x.state == Pending && x.download == Waiting && x.job.None?
    && exists p <- plan :: IsNew(p, plan, items) && x.service == p.service && x.needs == p.needs
  }

  /** Of the plan and not in the batch. */
  predicate IsNew(x: Item, plan: seq<Item>, items: seq<Item>) { x in plan && x.service !in Services(items) }

  lemma {:induction false} AbsentExactly(plan: seq<Item>, present: set<string>)
    ensures forall x :: x in Absent(plan, present) <==> x in plan && x.service !in present
    decreases |plan|
  {
    if plan != [] { AbsentExactly(plan[1..], present); }
  }

  function OrdinalOf(items: seq<Item>, service: string): (r: Option<nat>)
    ensures r.Some? ==> r.value < |items| && items[r.value].service == service
    ensures r.None? ==> service !in Services(items)
  {
    if items == [] then None
    else if items[0].service == service then Some(0)
    else
      match OrdinalOf(items[1..], service)
      case Some(k) => Some(k + 1)
      case None => None
  }

  lemma ItsItem(items: seq<Item>, k: nat)
    requires k < |items|
    ensures items[k] in items && (NoTwice(items) ==> forall x <- items :: x.service == items[k].service ==> x == items[k])
  {
  }

  lemma {:induction false} BelowNext(items: seq<Item>, i: nat)
    requires i < |items|
    ensures items[i].priority < NextPriority(items)
    decreases |items|
  {
    if i < |items| - 1 { BelowNext(items[..|items| - 1], i); }
  }

  lemma NewOnes(items: seq<Item>, plan: seq<Item>)
    ensures var added := Absent(plan, Services(items));
      (added != [] <==> exists x :: IsNew(x, plan, items)) && forall x :: x in added <==> IsNew(x, plan, items)
  {
    AbsentExactly(plan, Services(items));
    var added := Absent(plan, Services(items));
    if added != [] { assert added[0] in added && IsNew(added[0], plan, items); }
  }

  lemma AllAreFresh(items: seq<Item>, plan: seq<Item>, added: seq<Item>, first: int)
    requires forall x :: x in added <==> IsNew(x, plan, items)
    ensures AllNew(Numbered(added, first), plan, items)
  {
    var numbered := Numbered(added, first);
    hide IsNew;
    forall i | 0 <= i < |numbered| ensures IsFresh(numbered[i], plan, items) {
      assert added[i] in added && IsNew(added[i], plan, items);
      NewInPlan(added[i], plan, items);
    }
    forall p | IsNew(p, plan, items) ensures exists x <- numbered :: x.service == p.service && x.needs == p.needs {
      var i :| 0 <= i < |added| && added[i] == p;
      assert numbered[i] in numbered;
    }
  }

  lemma NewInPlan(x: Item, plan: seq<Item>, items: seq<Item>)
    requires IsNew(x, plan, items)
    ensures x in plan
  {
  }

  lemma AbsentAreNew(items: seq<Item>, plan: seq<Item>)
    ensures forall x :: x in Absent(plan, Services(items)) <==> IsNew(x, plan, items)
  {
    AbsentExactly(plan, Services(items));
  }

  lemma NumberedBehind(items: seq<Item>, added: seq<Item>, k: nat, l: nat)
    requires k < l < |items| + |added| && |items| <= l
    ensures var later := items + Numbered(added, NextPriority(items)); later[k].priority < later[l].priority
  {
    if k < |items| { BelowNext(items, k); }
    hide NextPriority;
  }

  /** What is added: the new apps of the plan, behind everything there, each waiting for its download. */
  lemma FreshBehind(items: seq<Item>, plan: seq<Item>)
    ensures Joined(items, plan, items + Numbered(Absent(plan, Services(items)), NextPriority(items)))
  {
    hide Absent, NextPriority, AllNew, IsNew, Services;
    var added := Absent(plan, Services(items));
    var later := items + Numbered(added, NextPriority(items));
    AbsentAreNew(items, plan);
    AllAreFresh(items, plan, added, NextPriority(items));
    assert later[|items|..] == Numbered(added, NextPriority(items));
    forall k, l | 0 <= k < l < |later| && |items| <= l ensures later[k].priority < later[l].priority {
      NumberedBehind(items, added, k, l);
    }
  }

  lemma FirstItems(plan: seq<Item>)
    ensures Appended(Batch(Running, [], None), plan) == Batch(Running, Numbered(plan, 0), None)
  {
    AllAbsent(plan);
    assert Services([]) == {};
  }

  lemma {:induction false} AllAbsent(plan: seq<Item>)
    ensures Absent(plan, {}) == plan
    decreases |plan|
  {
    if plan != [] { AllAbsent(plan[1..]); }
  }

  lemma NeedsDecided(registry: Registry, id: string, other: string, answer: bool)
    requires KnownNeeds(registry)
    requires answer ==> Proper(NeedsGraph(registry), id, other)
    requires (forall x :: Reach(NeedsGraph(registry), id, x) ==> x in registry) ==>
      (answer <==> Proper(NeedsGraph(registry), id, other))
    ensures answer <==> Proper(NeedsGraph(registry), id, other)
  {
    if id in registry {
      forall x | Reach(NeedsGraph(registry), id, x) ensures x in registry { NeedsAreKnown(registry, id, x); }
    }
  }
}
