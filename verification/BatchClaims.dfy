/** Which app a batch sets up next, when it closes, and how a job's end spreads, each exactly. */
module BatchClaims {
  import opened Wrappers
  import opened Graph
  import opened AppOrder
  import opened Batches
  import opened BatchRuns

  /** Waiting, its images here, and everything it needs from the batch set up. */
  predicate IsReady(items: seq<Item>, i: nat) {
    && i < |items| && items[i].state == Pending && items[i].download == Ready
    && forall j :: 0 <= j < |items| && items[j].service in items[i].needs ==> items[j].state == Succeeded
  }

  /** No other ready app comes before it: by the owner's order, then the plan's. */
  predicate IsFirst(items: seq<Item>, i: nat) {
    && IsReady(items, i)
    && forall j :: 0 <= j < |items| && IsReady(items, j) ==>
      items[i].priority < items[j].priority || (items[i].priority == items[j].priority && i <= j)
  }

  /** It runs, and no setup is under way. */
  predicate IsIdle(b: Batch) { b.state == Running && forall i :: 0 <= i < |b.items| ==> b.items[i].state != Queued }

  lemma ReadyCanStart(items: seq<Item>, i: nat)
    requires i < |items|
    ensures CanStart(items, items[i]) <==> IsReady(items, i)
  {
  }

  /**
   * An idle batch starts the first ready app; with no app waiting it closes, as succeeded if every
   * app was set up and with failures otherwise; in every other case nothing happens.
   */
  lemma ContinuesExactly(b: Batch)
    ensures forall i: nat :: IsIdle(b) && IsFirst(b.items, i) ==>
      Continued(b) == b.(items := b.items[i := b.items[i].(state := Queued)], starting := Some(i))
    ensures IsIdle(b) && (forall x <- b.items :: x.state == Succeeded) ==> Continued(b) == b.(state := AllSucceeded)
    ensures IsIdle(b) && (forall x <- b.items :: x.state != Pending) && (exists x <- b.items :: x.state != Succeeded) ==>
      Continued(b) == b.(state := CompletedWithFailures)
    ensures !IsIdle(b) ==> Continued(b) == b
    ensures (exists x <- b.items :: x.state == Pending) && (forall i: nat :: !IsReady(b.items, i)) ==> Continued(b) == b
  {
    forall i | 0 <= i < |b.items| ensures CanStart(b.items, b.items[i]) <==> IsReady(b.items, i) { ReadyCanStart(b.items, i); }
    hide CanStart, IsReady;
    if IsIdle(b) && (forall x <- b.items :: x.state != Pending) && exists x <- b.items :: x.state != Succeeded {
      var x :| x in b.items && x.state != Succeeded;
      assert Dead(x.state);
    }
  }

  /** Of the first apps of a batch, one is the first ready one, if any is ready. */
  lemma {:induction false} SomeFirst(items: seq<Item>, upTo: nat, ready: nat) returns (first: nat)
    requires ready < upTo <= |items| && IsReady(items, ready)
    ensures first < upTo && IsReady(items, first)
    ensures forall j: nat :: j < upTo && IsReady(items, j) ==>
      items[first].priority < items[j].priority || (items[first].priority == items[j].priority && first <= j)
    decreases upTo
  {
    hide IsReady;
    first := ready;
    if k: nat :| k < upTo - 1 && IsReady(items, k) {
      first := SomeFirst(items, upTo - 1, k);
      if IsReady(items, upTo - 1) && items[upTo - 1].priority < items[first].priority { first := upTo - 1; }
    }
  }

  /** With a ready app, an idle batch starts one. */
  lemma ReadyMeansStarted(b: Batch, ready: nat) returns (first: nat)
    requires IsIdle(b) && IsReady(b.items, ready)
    ensures IsFirst(b.items, first)
    ensures Continued(b) == b.(items := b.items[first := b.items[first].(state := Queued)], starting := Some(first))
  {
    first := SomeFirst(b.items, |b.items|, ready);
    hide IsReady, Continued, IsIdle;
    assert IsFirst(b.items, first);
    hide IsFirst;
    FirstIsStarted(b, first);
  }

  lemma FirstIsStarted(b: Batch, i: nat)
    requires IsIdle(b) && IsFirst(b.items, i)
    ensures Continued(b) == b.(items := b.items[i := b.items[i].(state := Queued)], starting := Some(i))
  {
    ContinuesExactly(b);
    hide Continued, IsFirst, IsIdle;
  }

  /** While no waiting app has its images, nothing is started: whatever waits, downloads or is paused. */
  lemma NothingReadyNothingStarts(b: Batch)
    requires forall x <- b.items :: x.state == Pending ==> x.download in {Waiting, Downloading, Paused}
    ensures Continued(b).items == b.items && Continued(b).starting == b.starting
  {
    forall i: nat ensures !IsReady(b.items, i) {
    }
    ContinuesExactly(b);
    hide Continued;
    if !(exists x <- b.items :: x.state == Pending) && IsIdle(b) {
      assert (forall x <- b.items :: x.state == Succeeded) || exists x <- b.items :: x.state != Succeeded;
    }
  }

  /** In every run, an app is queued only by a claim, and only when it is the first ready one. */
  lemma {:induction false} OnlyReadyAppsStart(registry: Registry, b: Batch, ops: seq<Op>, k: nat, i: nat)
    requires OneAtATime(b) && k < |ops|
    requires var c := Run(registry, b, ops[..k]);
      && i < |c.items| && c.items[i].state != Queued
      && i < |Apply(registry, c, ops[k]).items| && Apply(registry, c, ops[k]).items[i].state == Queued
    ensures var c := Run(registry, b, ops[..k]); ops[k].Continue? && c.state == Running && IsFirst(c.items, i)
  {
    AlwaysOneAtATime(registry, b, ops[..k]);
    ClaimedWhenItsDependenciesAre(registry, Run(registry, b, ops[..k]), ops[k], i);
  }

  /**
   * A job's end gives its app the same outcome - unless that has one already - and without success
   * blocks exactly the waiting apps that need it, however indirectly; a cancelled batch is left alone.
   */
  lemma JobEndsExactly(registry: Registry, b: Batch, job: nat, outcome: Outcome, k: nat)
    requires k < |b.items| && b.items[k].job == Some(job) && forall i :: 0 <= i < k ==> b.items[i].job != Some(job)
    ensures var c := Finished(registry, b, job, outcome);
      && c.state == b.state && c.starting == b.starting && |c.items| == |b.items|
      && (b.items[k].state in {Succeeded, Cancelled} ==> c == b)
      && (b.items[k].state !in {Succeeded, Cancelled} ==>
            && (outcome == JobSucceeded <==> c.items[k].state == Succeeded)
            && (outcome == JobFailed <==> c.items[k].state == Failed)
            && (outcome == JobCancelled <==> c.items[k].state == Cancelled)
            && c.items[k] == b.items[k].(state := c.items[k].state)
            && forall i :: 0 <= i < |b.items| && i != k ==>
                 c.items[i] == b.items[i].(state :=
                   if b.items[i].state == Pending && outcome != JobSucceeded && b.state != BatchCancelled
                      && Proper(NeedsGraph(registry), b.items[i].service, b.items[k].service) then Blocked
                   else b.items[i].state))
  {
    FirstWithJob(b.items, job, k);
    hide Proper, NeedsGraph;
  }

  lemma {:induction false} FirstWithJob(items: seq<Item>, job: nat, k: nat)
    requires k < |items| && items[k].job == Some(job) && forall i :: 0 <= i < k ==> items[i].job != Some(job)
    ensures ItemOf(items, job) == Some(k)
    decreases k
  {
    if k > 0 { FirstWithJob(items[1..], job, k - 1); }
  }

  /** A job no app of the batch was queued with changes nothing. */
  lemma {:induction false} OtherJobsDoNothing(registry: Registry, b: Batch, job: nat, outcome: Outcome)
    requires forall x <- b.items :: x.job != Some(job)
    ensures Finished(registry, b, job, outcome) == b
  {
    NoneWithJob(b.items, job);
  }

  lemma {:induction false} NoneWithJob(items: seq<Item>, job: nat)
    requires forall x <- items :: x.job != Some(job)
    ensures ItemOf(items, job).None?
    decreases |items|
  {
    if items != [] { NoneWithJob(items[1..], job); }
  }

  /** An app can be paused while its download waits or runs, and resumed while paused; until then nothing changes. */
  lemma PausesExactly(registry: Registry, b: Batch, i: nat)
    requires i < |b.items|
    ensures var (x, paused, resumed) := (b.items[i], Apply(registry, b, Op.Pause(i)), Apply(registry, b, Op.Resume(i)));
      && (if x.state.Pending? && (x.download.Waiting? || x.download.Downloading?)
          then paused == b.(items := b.items[i := x.(download := Paused)]) && Apply(registry, paused, Op.Resume(i)) ==
               b.(items := b.items[i := x.(download := Waiting)])
          else paused == b)
      && resumed == (if x.state.Pending? && x.download.Paused? then b.(items := b.items[i := x.(download := Waiting)]) else b)
  {
    var y := b.items[i].(download := Paused);
    assert b.items[i := y][i] == y && b.items[i := y][i := y.(download := Waiting)] == b.items[i := y.(download := Waiting)];
  }

  predicate InBatch(b: Batch, name: string) { exists x <- b.items :: x.service == name }

  /** Once each and all of the batch: the listed apps that wait get their places as priorities; else the order is refused. */
  lemma ReordersExactly(registry: Registry, b: Batch, names: seq<string>)
    ensures var t := Apply(registry, b, Op.Reorder(names));
      if b.items != [] && (forall n <- names :: InBatch(b, n)) && (forall p, q :: 0 <= p < q < |names| ==> names[p] != names[q])
      then
        && t.state == b.state && t.starting == b.starting && |t.items| == |b.items|
        && (forall k, p :: 0 <= k < |b.items| && 0 <= p < |names| && b.items[k].service == names[p] && b.items[k].state.Pending? ==>
              t.items[k] == b.items[k].(priority := p))
        && (forall k :: 0 <= k < |b.items| && (b.items[k].service !in names || !b.items[k].state.Pending?) ==>
              t.items[k] == b.items[k])
      else t == b
  {
    forall n | n in names ensures InBatch(b, n) <==> n in Services(b.items) {
    }
    hide InBatch, Services;
  }
}
