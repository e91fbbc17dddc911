/** A run in which the worker's check drops a hold it did not read, and the app stays stopped. */
module BackupRace {
  import opened Wrappers
  import opened Decimal
  import opened Jobs
  import opened JobRuns
  import opened BackupHolds
  import opened BackupSafety

  /** Nothing is active, and every job was submitted with its command. */
  ghost predicate Quiet(s: Store) { forall job <- s.jobs :: Finished(job.state) && job.identity.command.Some? }

  lemma AcceptsHook(s: Store, action: string, source: string, since: int)
    requires Quiet(s) && !Asked(s, action, source, since) && HookJob(action, source, since).Acceptable()
    ensures var (t, r) := Create(s, HookJob(action, source, since));
      && r == Ok(|s.jobs|) && |t.jobs| == |s.jobs| + 1 && t.jobs[..|s.jobs|] == s.jobs
      && t.jobs[|s.jobs|].state == Queued && t.jobs[|s.jobs|].identity.command.Some?
  {
    hide Submission.Acceptable, KeyOf;
    HookSlot(action, source, since);
    assert forall i :: 0 <= i < |s.jobs| ==> s.jobs[i] in s.jobs && Finished(s.jobs[i].state);
  }

  function Work(s: Store): (r: (Op, Op))
    requires s.jobs != []
  {
    (DoClaim("worker", 60), DoTransition(|s.jobs| - 1, Succeeded, "worker"))
  }

  lemma ClaimTakes(s: Store)
    requires s.jobs != [] && s.jobs[|s.jobs| - 1].state == Queued
    requires forall i :: 0 <= i < |s.jobs| - 1 ==> Finished(s.jobs[i].state)
    ensures var n := |s.jobs| - 1;
      Claim(s, "worker", 60).0 == s.(jobs := s.jobs[n := Leased(s.jobs[n], "worker", s.clock + 60)])
  {
  }

  /** A worker takes the one waiting job and finishes it. */
  lemma WorkQuiets(s: Store)
    requires s.jobs != [] && s.jobs[|s.jobs| - 1].state == Queued && s.jobs[|s.jobs| - 1].identity.command.Some?
    requires Quiet(s.(jobs := s.jobs[..|s.jobs| - 1]))
    ensures var t := Apply(Apply(s, Work(s).0), Work(s).1);
      Quiet(t) && t.requests == s.requests && t.clock == s.clock
  {
    var n := |s.jobs| - 1;
    assert forall i :: 0 <= i < n ==> s.jobs[..n][i] == s.jobs[i] && s.jobs[i] in s.jobs[..n];
    ClaimTakes(s);
    var c := s.(jobs := s.jobs[n := Leased(s.jobs[n], "worker", s.clock + 60)]);
    var t := s.(jobs := s.jobs[n := Moved(c.jobs[n], Succeeded)]);
    assert Transition(c, n, Succeeded, "worker").0 == t;
    hide Claim, Transition;
    forall job | job in t.jobs ensures Finished(job.state) && job.identity.command.Some? {
      var i :| 0 <= i < |t.jobs| && t.jobs[i] == job;
    }
  }

  /** Some allowed steps lead from one to the other. */
  ghost predicate Reaches(s: Backups, t: Backups) {
    exists events: seq<Event> :: Runs(s, events) == t && forall e <- events :: e.Elsewhere? ==> Foreign(e.op)
  }

  lemma ReachesSelf(s: Backups)
    ensures Reaches(s, s)
  {
    assert Runs(s, []) == s;
  }

  lemma ReachesOne(s: Backups, t: Backups, e: Event)
    requires Reaches(s, t) && (e.Elsewhere? ==> Foreign(e.op))
    ensures Reaches(s, Next(t, e))
  {
    hide Next, Foreign;
    var events: seq<Event> :| Runs(s, events) == t && forall e <- events :: e.Elsewhere? ==> Foreign(e.op);
    RunsOne(s, events, e);
    assert Runs(s, events + [e]) == Next(t, e);
  }

  const APP := "app"

  lemma ShortKeys(action: string, since: nat)
    requires action in {STOP, START} && since < 1000
    ensures HookJob(action, APP, since).Acceptable()
  {
    assert |Digits(since / 10 / 10)| == 1;
    assert |Digits(since / 10)| <= 2;
    assert |Digits(since)| <= 3;
    var key := KeyOf(action, APP, since);
    assert key[0] == 'b' && key[0] in key;
  }

  /** The worker does the one waiting job of the store. */
  lemma Worked(s: Backups, t: Backups) returns (u: Backups)
    requires Reaches(s, t)
    requires t.store.jobs != [] && t.store.jobs[|t.store.jobs| - 1].state == Queued
    requires t.store.jobs[|t.store.jobs| - 1].identity.command.Some?
    requires Quiet(t.store.(jobs := t.store.jobs[..|t.store.jobs| - 1]))
    ensures Reaches(s, u) && u == t.(store := u.store)
    ensures Quiet(u.store) && u.store.requests == t.store.requests && u.store.clock == t.store.clock
  {
    WorkQuiets(t.store);
    var (claim, finish) := Work(t.store);
    hide Claim, Transition, Reaches, Quiet;
    ReachesOne(s, t, Elsewhere(claim));
    ReachesOne(s, Next(t, Elsewhere(claim)), Elsewhere(finish));
    u := Next(Next(t, Elsewhere(claim)), Elsewhere(finish));
  }

  /** A job of the hooks is submitted to a quiet store, and done. */
  lemma {:induction false} SubmittedAndDone(s: Backups, t: Backups, q: Backups, e: Event, action: string, since: nat) returns (u: Backups)
    requires Reaches(s, t) && !e.Elsewhere? && Quiet(t.store) && action in {STOP, START} && since < 1000
    requires !Asked(t.store, action, APP, since)
    requires q == Next(t, e) && q.store == Create(t.store, HookJob(action, APP, since)).0
    ensures Reaches(s, u) && u == q.(store := u.store) && Quiet(u.store) && u.store.clock == t.store.clock
    ensures Asked(u.store, action, APP, since) && AsksFor(t.store, u.store, action, APP, since)
    ensures u.store.requests == q.store.requests
  {
    ShortKeys(action, since);
    AcceptsHook(t.store, action, APP, since);
    HookAsks(t.store, action, APP, since);
    ReachesOne(s, t, e);
    hide Create, HookJob, Next, Reaches;
    u := Worked(s, q);
    hide SlotOf;
    assert forall a, other, moment :: Asked(u.store, a, other, moment) <==> Asked(q.store, a, other, moment);
  }

  lemma HeldFirst(s: Backups, t: Backups) returns (b: Backups)
    requires Reaches(s, t) && APP !in t.holds && APP !in t.actions
    ensures Reaches(s, b)
    ensures b == Moving(t.(holds := t.holds[APP := Hold(t.store.clock, true)]), APP, Held(t.store.clock))
  {
    hide Reaches;
    var a := Next(t, BeginBefore(APP, true, false));
    ReachesOne(s, t, BeginBefore(APP, true, false));
    ReachesOne(s, a, PutHold(APP));
    b := Next(a, PutHold(APP));
    assert a.actions[APP := Held(t.store.clock)] == t.actions[APP := Held(t.store.clock)];
  }

  lemma StopDone(s: Backups, c: Backups, since: int, before: map<string, Action>) returns (u: Backups)
    requires Reaches(s, c) && c.actions == before[APP := AwaitingStop(since)] && APP !in before
    ensures Reaches(s, u) && u == c.(actions := before)
  {
    hide Reaches;
    ReachesOne(s, c, StopEnds(APP, true));
    u := Next(c, StopEnds(APP, true));
  }

  /** The app is backed up: held, stopped, and its before-action over. */
  lemma BackedUp(s: Backups, t: Backups, since: nat) returns (u: Backups)
    requires Reaches(s, t) && Quiet(t.store) && t.store.clock == since < 1000
    requires APP !in t.holds && APP !in t.actions && !Asked(t.store, STOP, APP, since)
    ensures Reaches(s, u) && Quiet(u.store) && u.store.clock == since
    ensures u == t.(store := u.store, holds := t.holds[APP := Hold(since, true)])
    ensures Asked(u.store, STOP, APP, since) && AsksFor(t.store, u.store, STOP, APP, since)
  {
    var b := HeldFirst(s, t);
    ShortKeys(STOP, since);
    AcceptsHook(b.store, STOP, APP, since);
    hide Create, HookJob, Asked, AsksFor, Reaches, Quiet;
    var q := Next(b, QueueStop(APP));
    assert q == Moving(b.(store := Create(b.store, HookJob(STOP, APP, since)).0), APP, AwaitingStop(since));
    hide Next;
    var c := SubmittedAndDone(s, b, q, QueueStop(APP), STOP, since);
    assert c.actions == t.actions[APP := AwaitingStop(since)];
    u := StopDone(s, c, since, t.actions);
  }

  /** Both the check and the after-action ask for the start; the after-action goes first all the way. */
  lemma StartedTwice(s: Backups, t: Backups, since: nat) returns (u: Backups)
    requires Reaches(s, t) && Quiet(t.store) && since < 1000 && t.store.clock >= since + STUCK
    requires t.holds == map[APP := Hold(since, true)] && t.actions == map[] && t.check.None?
    requires !Asked(t.store, START, APP, since)
    ensures Reaches(s, u) && Quiet(u.store) && u.store.clock == t.store.clock
    ensures u == Backups(u.store, map[], map[], Some(Dropping(APP, Some(since))))
    ensures AsksFor(t.store, u.store, START, APP, since)
  {
    hide Create, HookJob, Asked, AsksFor, Reaches, Quiet;
    ReachesOne(s, t, Look(APP, Some(false)));
    var a := Next(t, Look(APP, Some(false)));
    ReachesOne(s, a, BeginAfter(APP));
    var b := Next(a, BeginAfter(APP));
    assert b == Backups(t.store, t.holds, map[APP := Starting(since)], Some(Restarting(APP, since)));
    u := StartedBoth(s, b, since);
  }

  lemma StartedBoth(s: Backups, b: Backups, since: nat) returns (u: Backups)
    requires Reaches(s, b) && Quiet(b.store) && since < 1000 && APP in b.holds
    requires b == Backups(b.store, map[APP := b.holds[APP]], map[APP := Starting(since)], Some(Restarting(APP, since)))
    requires !Asked(b.store, START, APP, since)
    ensures Reaches(s, u) && Quiet(u.store) && u.store.clock == b.store.clock
    ensures u == Backups(u.store, map[], map[], Some(Dropping(APP, Some(since))))
    ensures AsksFor(b.store, u.store, START, APP, since)
  {
    ShortKeys(START, since);
    AcceptsHook(b.store, START, APP, since);
    hide Asked, AsksFor, Reaches, Quiet;
    var q := Next(b, QueueStart(APP));
    var c := SubmittedAndDone(s, b, q, QueueStart(APP), START, since);
    Replays(b.store, HookJob(START, APP, since), c.store);
    hide Create, HookJob;
    assert c.actions == map[APP := Releasing(since)];
    u := HookDropsFirst(s, c, since, b.holds[APP]);
  }

  lemma HookDropsFirst(s: Backups, c: Backups, since: nat, hold: Hold) returns (u: Backups)
    requires Reaches(s, c) && Create(c.store, HookJob(START, APP, since)).0 == c.store
    requires Create(c.store, HookJob(START, APP, since)).1.Ok?
    requires c == Backups(c.store, map[APP := hold], map[APP := Releasing(since)], Some(Restarting(APP, since)))
    ensures Reaches(s, u) && u == Backups(c.store, map[], map[], Some(Dropping(APP, Some(since))))
  {
    hide Create, HookJob, Reaches;
    ReachesOne(s, c, Restart);
    var d := Next(c, Restart);
    ReachesOne(s, d, Release(APP));
    u := Next(d, Release(APP));
    assert u.holds == map[] && u.actions == map[];
  }

  lemma Sparse(s: Store, t: Store, u: Store)
    requires AsksFor(s, t, STOP, APP, 0) && AsksFor(t, u, START, APP, 0)
    requires forall a, source, since :: !Asked(s, a, source, since)
    ensures !Asked(u, STOP, APP, STUCK) && !Asked(u, START, APP, STUCK)
  {
  }

  /**
   * The check reads a hold; the after-action starts the app and drops that hold; the next
   * backup stops the app and records its own; then the check drops this one instead. The app
   * stays stopped, and nothing will ever ask for it to be started.
   */
  lemma AStaleDropLosesTheApp() returns (s: Backups)
    ensures Reaches(Backups(Store([], map[], 0), map[], map[], None), s)
    ensures Asked(s.store, STOP, APP, STUCK) && Forgotten(s, APP, STUCK) && Named(s)
  {
    var s0 := Backups(Store([], map[], 0), map[], map[], None);
    ReachesSelf(s0);
    assert Quiet(s0.store);
    var s1 := BackedUp(s0, s0, 0);
    hide Reaches, SlotOf, Quiet, AsksFor;
    ReachesOne(s0, s1, Elsewhere(Tick(STUCK)));
    var s2 := Next(s1, Elsewhere(Tick(STUCK)));
    TickAside(s1, s2);
    var s3 := StartedTwice(s0, s2, 0);
    Sparse(s0.store, s2.store, s3.store);
    var s4 := BackedUp(s0, s3, STUCK);
    StillNotAsked(s3.store, s4.store);
    s := DroppedLate(s0, s4);
  }

  lemma DroppedLate(s: Backups, t: Backups) returns (u: Backups)
    requires Reaches(s, t) && t.store.clock == STUCK && !Asked(t.store, START, APP, STUCK) && Asked(t.store, STOP, APP, STUCK)
    requires t == Backups(t.store, map[APP := Hold(STUCK, true)], map[], Some(Dropping(APP, Some(0))))
    ensures Reaches(s, u) && Asked(u.store, STOP, APP, STUCK) && Forgotten(u, APP, STUCK) && Named(u)
  {
    hide Reaches, SlotOf;
    ReachesOne(s, t, Drop);
    var d := Next(t, Drop);
    ReachesOne(s, d, Elsewhere(Tick(1)));
    u := Next(d, Elsewhere(Tick(1)));
    assert u.store.requests == t.store.requests && u.holds == map[];
  }

  lemma TickAside(s: Backups, t: Backups)
    requires t == Next(s, Elsewhere(Tick(STUCK))) && Quiet(s.store) && AsksFor(Store([], map[], 0), s.store, STOP, APP, 0)
    ensures Quiet(t.store) && AsksFor(Store([], map[], 0), t.store, STOP, APP, 0)
    ensures t == s.(store := s.store.(clock := s.store.clock + STUCK)) && !Asked(t.store, START, APP, 0)
  {
    assert forall a, source, since :: Asked(t.store, a, source, since) <==> Asked(s.store, a, source, since);
    assert Name(APP);
    assert !Asked(Store([], map[], 0), START, APP, 0);
    hide Asked;
  }

  lemma StillNotAsked(s: Store, t: Store)
    requires AsksFor(s, t, STOP, APP, STUCK) && !Asked(s, START, APP, STUCK)
    ensures !Asked(t, START, APP, STUCK)
  {
  }
}
