/** What a hold guarantees, over every run of hooks, checks, job operations and crashes. */
module BackupSafety {
  import opened Wrappers
  import opened Jobs
  import opened JobRuns
  import opened BackupHolds

  // ---- Which requests a step adds -----------------------------------------------------------

  /** Submitting stores at most the request's own key, and stores it exactly when it is accepted. */
  lemma CreateAsks(s: Store, x: Submission)
    requires x.key.Some?
    ensures var (t, r) := Create(s, x);
      && t.clock == s.clock && (r.Err? ==> t == s) && (r.Ok? ==> x.Slot() in t.requests)
      && (forall key :: key in t.requests <==> key in s.requests || (key == x.Slot() && r.Ok?))
  {
  }

  lemma ForeignAsksNothing(s: Store, op: Op)
    requires Foreign(op)
    ensures Apply(s, op).clock >= s.clock
    ensures forall action, source, since ::
      Asked(Apply(s, op), action, source, since) <==> Asked(s, action, source, since)
  {
    match op
    case DoCreate(x) => if x.key.Some? { CreateAsks(s, x); } else { KeylessAsksNothing(s, x); }
    case DoRetry(id, actor, key, subject, hooks) => RetryAsksElsewhere(s, id, actor, key, subject, hooks);
    case DoByKey(_, _) =>
    case DoClaim(_, _) =>
    case _ =>
  }

  lemma KeylessAsksNothing(s: Store, x: Submission)
    requires x.key.None?
    ensures Create(s, x).0.requests == s.requests && Create(s, x).0.clock == s.clock
  {
  }

  lemma RetryAsksElsewhere(s: Store, id: nat, actor: string, key: Option<string>, subject: string, hooks: bool)
    ensures var t := Retry(s, id, actor, key, subject, hooks).0;
      && t.clock == s.clock
      && (forall k: RequestKey :: k.namespace == SPACE ==> (k in t.requests <==> k in s.requests))
  {
    if id < |s.jobs| {
      var x := RetryOf(s.jobs[id], id, actor, key, subject, hooks);
      var ready := Transition(s, id, Cancelled, "").0;
      hide Create, ByKey, Submission.Acceptable;
      if key.Some? {
        CreateAsks(s, x);
        CreateAsks(ready, x);
      } else {
        KeylessAsksNothing(s, x);
        KeylessAsksNothing(ready, x);
      }
    }
  }

  /** At most this one stop or start is newly asked for, and none is forgotten. */
  ghost predicate AsksFor(s: Store, t: Store, action: string, source: string, since: int) {
    && (forall a, other, moment :: Asked(s, a, other, moment) ==> Asked(t, a, other, moment))
    && (forall a, other, moment :: a in {STOP, START} && Name(other) && Asked(t, a, other, moment) && !Asked(s, a, other, moment)
          ==> a == action && other == source && moment == since)
  }

  lemma OneSlotMore(s: Store, t: Store, action: string, source: string, since: int)
    requires Name(source) && action in {STOP, START}
    requires forall key :: key in s.requests ==> key in t.requests
    requires forall key :: key in t.requests ==> key in s.requests || key == SlotOf(action, source, since)
    ensures AsksFor(s, t, action, source, since)
  {
    hide SlotOf;
    forall a, other, moment | a in {STOP, START} && Name(other) && Asked(t, a, other, moment) && !Asked(s, a, other, moment)
      ensures a == action && other == source && moment == since
    {
      OneSlotEach(a, other, moment, action, source, since);
    }
  }

  lemma HookSlot(action: string, source: string, since: int)
    ensures var x := HookJob(action, source, since); x.key.Some? && x.Slot() == SlotOf(action, source, since)
  {
  }

  /** Submitting one hold's stop or start asks for nothing else. */
  lemma HookAsks(s: Store, action: string, source: string, since: int)
    requires Name(source) && action in {STOP, START}
    ensures var (t, r) := Create(s, HookJob(action, source, since));
      && t.clock == s.clock && (r.Err? ==> t == s) && (r.Ok? ==> Asked(t, action, source, since))
      && AsksFor(s, t, action, source, since)
  {
    var x := HookJob(action, source, since);
    HookSlot(action, source, since);
    hide Create, HookJob, SlotOf, AsksFor, KeyOf;
    CreateAsks(s, x);
    OneSlotMore(s, Create(s, x).0, action, source, since);
  }

  // ---- Every step keeps it --------------------------------------------------------------------

  /** The same requests, holds and processes, and time not running back. */
  lemma SameAsks(s: Backups, t: Backups)
    requires Sound(s) && t.holds == s.holds && t.store.clock >= s.store.clock
    requires forall action, source, since :: Asked(t.store, action, source, since) <==> Asked(s.store, action, source, since)
    requires forall source <- t.actions :: source in s.actions && t.actions[source] == s.actions[source]
    requires t.check.None? || t.check == s.check
    ensures Sound(t)
  {
    hide Asked;
    assert forall source, since :: Settled(t.store, source, since) <==> Settled(s.store, source, since);
    hide Settled;
    assert StopsRemembered(t);
    assert HoldsOk(t);
    assert forall source <- t.actions :: ActionOk(t, source, t.actions[source]);
  }

  /** A start more is asked for; nothing else changes but who goes on from there. */
  lemma StartAsked(s: Backups, t: Backups, source: string, since: int)
    requires Sound(s) && t.holds == s.holds && t.store.clock == s.store.clock && Name(source)
    requires Asked(t.store, START, source, since)
    requires AsksFor(s.store, t.store, START, source, since)
    requires || (t.actions == s.actions && t.check == Some(Dropping(source, Some(since))) && since < s.store.clock)
             || (t.check == s.check && t.actions == s.actions[source := Releasing(since)] &&
                 (source in s.holds ==> s.holds[source].since == since))
    ensures Sound(t)
  {
    hide Asked;
    assert forall other, moment :: Name(other) && Settled(s.store, other, moment) ==> Settled(t.store, other, moment);
  }

  lemma StopAsked(s: Backups, t: Backups, source: string, since: int)
    requires Sound(s) && At(s, source) == Some(Held(since)) && AsksFor(s.store, t.store, STOP, source, since)
    requires t == s.(store := t.store, actions := s.actions[source := AwaitingStop(since)])
    requires t.store.clock == s.store.clock
    ensures Sound(t)
  {
    hide Asked;
    assert ActionOk(s, source, Held(since));
    assert forall other, moment :: Name(other) && (other != source || moment != since) ==>
      (Settled(t.store, other, moment) <==> Settled(s.store, other, moment));
    assert StopsRemembered(t) by { hide HoldsOk; }
    assert HoldsOk(t) by { hide StopsRemembered; }
    assert forall other <- t.actions :: ActionOk(t, other, t.actions[other]) by { hide StopsRemembered, HoldsOk; }
    hide StopsRemembered, HoldsOk, ActionOk;
  }

  /** A refused stop leaves the hold to its own hook, or to the check. */
  lemma StopRefused(s: Backups, t: Backups, source: string, since: int)
    requires Sound(s) && At(s, source) == Some(Held(since)) && t in {Moving(s, source, Releasing(since)), Ended(s, source)}
    ensures Sound(t)
  {
    hide Settled;
  }

  lemma {:induction false} QueueStopKeeps(s: Backups, source: string)
    requires Sound(s)
    ensures Sound(Next(s, QueueStop(source)))
  {
    match At(s, source)
    case Some(Held(since)) =>
      HookAsks(s.store, STOP, source, since);
      hide Create, HookJob, Sound, AsksFor;
      var t := Next(s, QueueStop(source));
      if Create(s.store, HookJob(STOP, source, since)).1.Ok? {
        StopAsked(s, t, source, since);
      } else {
        StopRefused(s, t, source, since);
      }
    case _ =>
  }

  lemma {:induction false} QueueStartKeeps(s: Backups, source: string)
    requires Sound(s)
    ensures Sound(Next(s, QueueStart(source)))
  {
    match At(s, source)
    case Some(Starting(since)) =>
      HookAsks(s.store, START, source, since);
      hide Create, HookJob;
      var t := Next(s, QueueStart(source));
      assert ActionOk(s, source, Starting(since));
      hide Sound;
      if Create(s.store, HookJob(START, source, since)).1.Ok? { StartAsked(s, t, source, since); } else { SameAsks(s, t); }
    case _ =>
  }

  lemma RestartKeeps(s: Backups)
    requires Sound(s)
    ensures Sound(Next(s, Restart))
  {
    match s.check
    case Some(Restarting(source, since)) =>
      HookAsks(s.store, START, source, since);
      hide Create, HookJob;
      var t := Next(s, Restart);
      assert CheckOk(s, s.check.value);
      hide Sound;
      if Create(s.store, HookJob(START, source, since)).1.Ok? { StartAsked(s, t, source, since); } else { SameAsks(s, t); }
    case _ =>
  }

  lemma PutHoldKeeps(s: Backups, source: string)
    requires Sound(s)
    ensures Sound(Next(s, PutHold(source)))
  {
    hide Asked;
    match At(s, source)
    case Some(Checked(running)) =>
      var t := Next(s, PutHold(source));
      assert ActionOk(s, source, Checked(running));
      assert Settled(s.store, source, s.store.clock);
      assert HoldsOk(t);
      assert forall other <- t.actions :: ActionOk(t, other, t.actions[other]);
    case _ =>
  }

  /** A hook releases its own hold, which was settled before. */
  lemma ReleaseKeeps(s: Backups, source: string)
    requires Sound(s)
    ensures Sound(Next(s, Release(source)))
  {
  }

  lemma DropKeeps(s: Backups)
    requires Sound(s) && SafeDrop(s)
    ensures Sound(Next(s, Drop))
  {
  }

  /** Only one action's place changes, to one that is fine as well. */
  lemma MovesKeep(s: Backups, source: string, step: Action)
    requires Sound(s) && Name(source) && ActionOk(s, source, step)
    requires !step.Held? || At(s, source) == Some(step)
    ensures Sound(Moving(s, source, step)) && Sound(Ended(s, source))
  {
    hide Settled, Asked, IsStuck;
    var m, t := Moving(s, source, step), Ended(s, source);
    assert forall other <- m.actions :: ActionOk(m, other, m.actions[other]);
    assert forall other <- t.actions :: ActionOk(t, other, t.actions[other]);
  }

  lemma BeginKeeps(s: Backups, e: Event)
    requires Sound(s) && (e.BeginBefore? || e.BeginAfter? || e.StopEnds?)
    ensures Sound(Next(s, e))
  {
    var source := e.source;
    assert source in s.actions ==> ActionOk(s, source, s.actions[source]);
    assert source in s.holds ==> Name(source) && (!s.holds[source].wasRunning ==> Settled(s.store, source, s.holds[source].since));
    hide Sound, Settled, Name;
    match e
    case BeginBefore(_, running, _) =>
      if Name(source) && source !in s.holds { MovesKeep(s, source, Checked(running)); }
    case BeginAfter(_) =>
      if source in s.holds {
        var hold := s.holds[source];
        MovesKeep(s, source, if hold.wasRunning then Starting(hold.since) else Releasing(hold.since));
      }
    case StopEnds(_, _) =>
      if source in s.actions && s.actions[source].AwaitingStop? {
        NamedAction(s, source);
        MovesKeep(s, source, Starting(s.actions[source].since));
      }
  }

  lemma NamedAction(s: Backups, source: string)
    requires Sound(s) && source in s.actions
    ensures Name(source)
  {
  }

  lemma EndsKeep(s: Backups, e: Event)
    requires Sound(s) && (e.ActionDies? || e.CheckDies?)
    ensures Sound(Next(s, e))
  {
  }

  /** What the check will drop was never stopped, or is asked to be started first. */
  lemma LookKeeps(s: Backups, source: string, uploading: Option<bool>)
    requires Sound(s)
    ensures Sound(Next(s, Look(source, uploading)))
  {
  }

  lemma {:induction false} StepKeeps(s: Backups, e: Event)
    requires Sound(s) && (e.Drop? ==> SafeDrop(s)) && (e.Elsewhere? ==> Foreign(e.op))
    ensures Sound(Next(s, e))
  {
    hide Sound;
    match e
    case Elsewhere(op) =>
      ForeignAsksNothing(s.store, op);
      hide Apply;
      SameAsks(s, Next(s, e));
    case PutHold(source) => PutHoldKeeps(s, source);
    case QueueStop(source) => QueueStopKeeps(s, source);
    case QueueStart(source) => QueueStartKeeps(s, source);
    case Release(source) => ReleaseKeeps(s, source);
    case Restart => RestartKeeps(s);
    case Drop => DropKeeps(s);
    case Look(source, uploading) => LookKeeps(s, source, uploading);
    case ActionDies(_) => EndsKeep(s, e);
    case CheckDies => EndsKeep(s, e);
    case _ => BeginKeeps(s, e);
  }

  ghost predicate Allowed(s: Backups, events: seq<Event>)
    decreases |events|
  {
    events == [] ||
    (&& (events[0].Drop? ==> SafeDrop(s)) && (events[0].Elsewhere? ==> Foreign(events[0].op))
     && Allowed(Next(s, events[0]), events[1..]))
  }

  lemma {:induction false} RunKeeps(s: Backups, events: seq<Event>)
    requires Sound(s) && Allowed(s, events)
    ensures Sound(Runs(s, events))
    decreases |events|
  {
    hide Sound, Next, SafeDrop;
    if events != [] {
      StepKeeps(s, events[0]);
      RunKeeps(Next(s, events[0]), events[1..]);
    }
  }

  /** No backup was ever made with these records. */
  ghost predicate Unused(s: Backups) {
    && s.holds == map[] && s.actions == map[] && s.check.None?
    && (forall source, since :: !Asked(s.store, STOP, source, since))
  }

  /**
   * Whatever crashes and whoever else uses the job store: while an app was
   * stopped for a backup and not yet asked to start again, its hold stands.
   */
  lemma StoppedAppsStayHeld(s: Backups, events: seq<Event>, source: string, since: int)
    requires Unused(s) && Allowed(s, events) && Name(source)
    requires var store := Runs(s, events).store; Asked(store, STOP, source, since) && !Asked(store, START, source, since)
    ensures var holds := Runs(s, events).holds; source in holds && holds[source] == Hold(since, true)
  {
    hide Asked;
    assert Sound(s);
    hide Sound, Next;
    RunKeeps(s, events);
    SoundMeansHeld(Runs(s, events), source, since);
  }

  lemma SoundMeansHeld(s: Backups, source: string, since: int)
    requires Sound(s) && Name(source) && !Settled(s.store, source, since)
    ensures source in s.holds && s.holds[source] == Hold(since, true)
  {
  }

  // ---- The one step that needs care: a check dropping a hold that is not the one it read ---------

  /** A drop keeps all that holds in every state exactly when it is safe. */
  lemma DropKeepsExactlyWhenSafe(s: Backups)
    requires Sound(s)
    ensures Sound(Next(s, Drop)) <==> SafeDrop(s)
  {
    if SafeDrop(s) {
      DropKeeps(s);
    } else {
      var source := s.check.value.source;
      var since := s.holds[source].since;
      var t := Next(s, Drop);
      assert Name(source) && source !in t.holds;
      if !Asked(s.store, STOP, source, since) {
        assert source in t.actions && !ActionOk(t, source, t.actions[source]);
      }
    }
  }

  /** Dropping the hold that was read is always safe. */
  lemma DroppingWhatWasReadIsSafe(s: Backups)
    requires Sound(s) && DropsWhatItRead(s)
    ensures SafeDrop(s)
  {
  }

  /** Nothing is left that would ever ask for this app to be started again. */
  predicate Forgotten(s: Backups, source: string, since: int) {
    Name(source) && since < s.store.clock && !Asked(s.store, START, source, since) && NobodyKnows(s, source, since)
  }

  /** No hold, hook or check is of this source and moment that could still ask for its start. */
  predicate NobodyKnows(s: Backups, source: string, since: int) {
    && (source in s.holds ==> s.holds[source].since != since)
    && (source in s.actions ==> s.actions[source].Checked? || s.actions[source].since != since)
    && !(s.check.Some? && s.check.value == Restarting(source, since))
  }

  lemma NobodyLearns(s: Backups, e: Event, source: string, since: int)
    requires NobodyKnows(s, source, since) && since < s.store.clock
    ensures NobodyKnows(Next(s, e), source, since)
  {
    hide Create, HookJob, Apply, IsStuck, Name, Conflict;
  }

  ghost predicate Named(s: Backups) {
    && (forall x <- s.actions :: Name(x)) && (forall x <- s.holds :: Name(x))
    && (s.check.Some? ==> Name(s.check.value.source))
  }

  lemma NamedStep(s: Backups, e: Event)
    requires Named(s)
    ensures Named(Next(s, e))
  {
    hide Create, HookJob, Apply, IsStuck;
  }

  lemma {:induction false} NotAskedNow(s: Backups, e: Event, source: string, since: int)
    requires Forgotten(s, source, since) && Named(s) && (e.Elsewhere? ==> Foreign(e.op))
    ensures var t := Next(s, e); t.store.clock >= s.store.clock && !Asked(t.store, START, source, since)
  {
    match e
    case Elsewhere(op) =>
      ForeignAsksNothing(s.store, op);
      hide Apply, Asked;
    case QueueStop(other) =>
      if At(s, other).Some? && At(s, other).value.Held? {
        HookAsks(s.store, STOP, other, At(s, other).value.since);
        hide Create, HookJob, Asked;
      }
    case QueueStart(other) =>
      if At(s, other).Some? && At(s, other).value.Starting? {
        HookAsks(s.store, START, other, At(s, other).value.since);
        hide Create, HookJob, Asked;
      }
    case Restart =>
      if s.check.Some? && s.check.value.Restarting? {
        HookAsks(s.store, START, s.check.value.source, s.check.value.since);
        hide Create, HookJob, Asked;
      }
    case _ =>
  }

  lemma {:induction false} ForgottenStep(s: Backups, e: Event, source: string, since: int)
    requires Forgotten(s, source, since) && Named(s) && (e.Elsewhere? ==> Foreign(e.op))
    ensures Forgotten(Next(s, e), source, since)
  {
    NotAskedNow(s, e, source, since);
    NobodyLearns(s, e, source, since);
    hide NobodyKnows, Next;
  }

  /** An app whose hold was dropped too early stays stopped, whatever hooks and checks still run. */
  lemma {:induction false} ForgottenForEver(s: Backups, events: seq<Event>, source: string, since: int)
    requires Forgotten(s, source, since) && Named(s)
    requires forall e <- events :: e.Elsewhere? ==> Foreign(e.op)
    ensures !Asked(Runs(s, events).store, START, source, since)
    decreases |events|
  {
    if events == [] { return; }
    ForgottenStep(s, events[0], source, since);
    NamedStep(s, events[0]);
    hide Forgotten, Named, Next, Foreign;
    ForgottenForEver(Next(s, events[0]), events[1..], source, since);
  }

  // ---- What an unsafe drop leads to ------------------------------------------------------------------

  /** The app was stopped, and nothing will ever ask for its start. */
  predicate Lost(s: Backups, source: string, since: int) {
    Asked(s.store, STOP, source, since) && Forgotten(s, source, since)
  }

  /** Some course of events, without an unsafe drop, loses the app. */
  ghost predicate CanBeLost(s: Backups, source: string, since: int) {
    exists events :: Allowed(s, events) && Lost(Runs(s, events), source, since)
  }

  /** The stop's request is well formed, and no row from before fingerprints has its key. */
  ghost predicate StopCanBeQueued(s: Store, source: string, since: int) {
    && HookJob(STOP, source, since).Acceptable()
    && (forall job <- s.jobs :: job.key == Some(KeyOf(STOP, source, since)) ==> job.identity.command.Some?)
  }

  lemma LosesLater(s: Backups, e: Event, source: string, since: int)
    requires CanBeLost(Next(s, e), source, since) && !e.Drop? && (e.Elsewhere? ==> Foreign(e.op))
    ensures CanBeLost(s, source, since)
  {
    hide Next, Lost;
    var events :| Allowed(Next(s, e), events) && Lost(Runs(Next(s, e), events), source, since);
    assert ([e] + events)[1..] == events;
    assert Allowed(s, [e] + events) && Runs(s, [e] + events) == Runs(Next(s, e), events);
  }

  /** The stop is asked for and the hold gone: it is enough that the action dies. */
  lemma StoppedIsLost(s: Backups, source: string, since: int)
    requires Name(source) && source !in s.holds && s.check.None?
    requires Asked(s.store, STOP, source, since) && !Asked(s.store, START, source, since)
    ensures CanBeLost(s, source, since)
  {
    var late := if since < s.store.clock then 0 else since - s.store.clock + 1;
    var t := Next(s, ActionDies(source));
    var u := Next(t, Elsewhere(Tick(late)));
    assert Lost(u, source, since);
    hide Next, Lost;
    assert Allowed(u, []) && Runs(u, []) == u;
    LosesLater(t, Elsewhere(Tick(late)), source, since);
    LosesLater(s, ActionDies(source), source, since);
  }

  predicate SameRequests(jobs: seq<Job>, later: seq<Job>) {
    |later| == |jobs| && forall i :: 0 <= i < |jobs| ==> later[i].key == jobs[i].key && later[i].identity == jobs[i].identity
  }

  /** Whoever holds the app gives it up. */
  lemma {:induction false} AppFreed(s: Store, service: string) returns (id: nat)
    requires JobRuns.Inv(s)
    ensures var t := Apply(s, DoTransition(id, Cancelled, ""));
      && ActiveOn(t.jobs, service).None? && t.requests == s.requests && t.clock == s.clock
      && SameRequests(s.jobs, t.jobs)
  {
    var active := ActiveOn(s.jobs, service);
    id := if active.Some? then active.value else |s.jobs|;
  }

  /** A before-action that has put its hold and not yet queued the stop goes on to stop the app. */
  lemma HeldIsLost(s: Backups, source: string, since: int)
    requires JobRuns.Inv(s.store) && StopCanBeQueued(s.store, source, since)
    requires Name(source) && source !in s.holds && s.check.None? && At(s, source) == Some(Held(since))
    requires !Asked(s.store, STOP, source, since) && !Asked(s.store, START, source, since)
    ensures CanBeLost(s, source, since)
  {
    var id := AppFreed(s.store, source);
    var e := Elsewhere(DoTransition(id, Cancelled, ""));
    var t := Next(s, e);
    var x := HookJob(STOP, source, since);
    HookSlot(STOP, source, since);
    HookAsks(t.store, STOP, source, since);
    StopTaken(s.store, t.store, source, since);
    var u := Next(t, QueueStop(source));
    hide Create, HookJob, SlotOf, JobRuns.Inv, StopCanBeQueued, Transition;
    StoppedIsLost(u, source, since);
    LosesLater(t, QueueStop(source), source, since);
    LosesLater(s, e, source, since);
  }

  lemma StopTaken(s: Store, t: Store, source: string, since: int)
    requires StopCanBeQueued(s, source, since) && !Asked(t, STOP, source, since) && ActiveOn(t.jobs, source).None?
    requires SameRequests(s.jobs, t.jobs)
    ensures Create(t, HookJob(STOP, source, since)).1.Ok?
  {
    hide Submission.Acceptable, KeyOf;
    HookSlot(STOP, source, since);
    forall job | job in t.jobs && job.key == Some(KeyOf(STOP, source, since)) ensures job.identity.command.Some? {
      var i :| 0 <= i < |t.jobs| && t.jobs[i] == job;
      assert s.jobs[i] in s.jobs;
    }
  }

  lemma NeverLost(s: Backups, source: string, since: int)
    requires Sound(s)
    ensures !CanBeLost(s, source, since)
  {
    hide Sound, Lost;
    forall events | Allowed(s, events) ensures !Lost(Runs(s, events), source, since) {
      RunKeeps(s, events);
      SoundIsNotLost(Runs(s, events), source, since);
    }
  }

  lemma HeldByName(s: Backups, source: string)
    requires Sound(s) && source in s.holds
    ensures Name(source)
  {
  }

  /**
   * Dropping a hold can lose its app exactly when the drop is unsafe; after a safe
   * one no course of events without an unsafe drop does.
   */
  lemma {:induction false} DropsLoseAppsExactlyWhenUnsafe(s: Backups)
    requires Sound(s) && JobRuns.Inv(s.store)
    requires s.check.Some? && s.check.value.Dropping? && s.check.value.source in s.holds
    requires StopCanBeQueued(s.store, s.check.value.source, s.holds[s.check.value.source].since)
    ensures var source := s.check.value.source;
      CanBeLost(Next(s, Drop), source, s.holds[source].since) <==> !SafeDrop(s)
  {
    hide Asked, StopCanBeQueued, JobRuns.Inv, CanBeLost, Sound, Name;
    var source := s.check.value.source;
    var since := s.holds[source].since;
    var t := Next(s, Drop);
    if SafeDrop(s) {
      DropKeeps(s);
      NeverLost(t, source, since);
    } else {
      HeldByName(s, source);
      if Asked(s.store, STOP, source, since) { StoppedIsLost(t, source, since); } else { HeldIsLost(t, source, since); }
    }
  }

  lemma SoundIsNotLost(s: Backups, source: string, since: int)
    requires Sound(s)
    ensures !Lost(s, source, since)
  {
    if Lost(s, source, since) { SoundMeansHeld(s, source, since); }
  }

  // ---- Asking again --------------------------------------------------------------------------------

  /** An accepted request is answered with its job again, whatever became of the job. */
  lemma Replays(s: Store, x: Submission, t: Store)
    requires x.key.Some? && Create(s, x).1.Ok? && x.Slot() in t.requests
    requires t.requests[x.Slot()] == Create(s, x).0.requests[x.Slot()]
    ensures Create(t, x) == (t, Create(s, x).1)
  {
  }

  /** The store moves only by its own operations, so what it remembers stays. */
  lemma {:induction false} StoreExtends(s: Backups, e: Event)
    requires JobRuns.Inv(s.store)
    ensures JobRuns.Inv(Next(s, e).store) && JobRuns.Extends(s.store, Next(s, e).store)
  {
    hide JobRuns.Inv, JobRuns.Extends;
    JobRuns.Unchanged(s.store);
    match e
    case Elsewhere(op) => JobRuns.ApplyInv(s.store, op);
    case QueueStop(source) =>
      if At(s, source).Some? && At(s, source).value.Held? {
        CreateInv(s.store, HookJob(STOP, source, At(s, source).value.since));
      }
    case QueueStart(source) =>
      if At(s, source).Some? && At(s, source).value.Starting? {
        CreateInv(s.store, HookJob(START, source, At(s, source).value.since));
      }
    case Restart =>
      if s.check.Some? && s.check.value.Restarting? {
        CreateInv(s.store, HookJob(START, s.check.value.source, s.check.value.since));
      }
    case _ =>
  }

  lemma {:induction false} RunExtends(s: Backups, events: seq<Event>)
    requires JobRuns.Inv(s.store)
    ensures JobRuns.Inv(Runs(s, events).store) && JobRuns.Extends(s.store, Runs(s, events).store)
    decreases |events|
  {
    hide JobRuns.Inv, JobRuns.Extends, Next;
    JobRuns.Unchanged(s.store);
    if events != [] {
      var t := Next(s, events[0]);
      StoreExtends(s, events[0]);
      RunExtends(t, events[1..]);
      JobRuns.ExtendsTwice(s.store, t.store, Runs(s, events).store);
    }
  }

  /** Once a hold's start was accepted, every later attempt to start for that hold gets the same job and makes none. */
  lemma {:induction false} StartsForOneHoldShareOneJob(s: Backups, source: string, since: int, events: seq<Event>)
    requires JobRuns.Inv(s.store) && Create(s.store, HookJob(START, source, since)).1.Ok?
    ensures var x := HookJob(START, source, since);
      var (store, r) := Create(s.store, x);
      var t := Runs(s.(store := store), events);
      Create(t.store, x) == (t.store, r)
  {
    var x := HookJob(START, source, since);
    HookSlot(START, source, since);
    hide HookJob, SlotOf, JobRuns.Inv;
    CreateInv(s.store, x);
    CreateAsks(s.store, x);
    var after := s.(store := Create(s.store, x).0);
    RunExtends(after, events);
    hide Create, Runs;
    Replays(s.store, x, Runs(after, events).store);
  }

  /** A stuck hold - not being uploaded, and old enough - is started by one check when the app is free. */
  lemma StuckAppsAreStarted(s: Backups, source: string, uploading: Option<bool>)
    requires s.check.None? && source in s.holds && s.holds[source].wasRunning
    requires uploading != Some(true) && s.store.clock - s.holds[source].since >= if uploading.Some? then 180 else 2700
    requires Create(s.store, HookJob(START, source, s.holds[source].since)).1.Ok?
    ensures var t := Runs(s, [Look(source, uploading), Restart, Drop]);
      Asked(t.store, START, source, s.holds[source].since) && source !in t.holds && t.check.None?
  {
    RunsThree(s, Look(source, uploading), Restart, Drop);
    hide Runs;
    CheckStarts(s, source, uploading);
  }

  /** A source Kopia says it is copying is left alone, as is one held for less than three minutes, or forty-five without Kopia. */
  lemma LooksElsewhere(s: Backups, source: string, uploading: Option<bool>)
    requires uploading == Some(true) || (source in s.holds &&
      s.store.clock - s.holds[source].since < if uploading.Some? then 180 else 2700)
    ensures Next(s, Look(source, uploading)) == s
  {
  }

  /** An action begins only where none is in progress: before a backup with no hold, after one with its hold. */
  lemma ActionsBeginExactly(s: Backups, source: string, running: bool, refused: bool)
    ensures Next(s, BeginBefore(source, running, refused)) ==
      if source !in s.actions && !refused && source != "" && ':' !in source && source !in s.holds then
        s.(actions := s.actions[source := Checked(running)])
      else s
    ensures Next(s, BeginAfter(source)) ==
      if source in s.actions || source !in s.holds then s
      else s.(actions := s.actions[source :=
        if s.holds[source].wasRunning then Starting(s.holds[source].since) else Releasing(s.holds[source].since)])
    ensures Next(s, ActionDies(source)) == s.(actions := s.actions - {source})
  {
  }

  /** One check at a time: what it takes up for the source it looks at, what it drops, and that it may die. */
  lemma ChecksExactly(s: Backups, source: string, uploading: Option<bool>)
    requires s.check.None? && uploading != Some(true)
    ensures source in s.holds && s.store.clock - s.holds[source].since >= (if uploading.Some? then 180 else 2700) ==>
      Next(s, Look(source, uploading)) == s.(check := Some(
        if s.holds[source].wasRunning then Restarting(source, s.holds[source].since)
        else Dropping(source, Some(s.holds[source].since))))
    ensures source !in s.holds && source != "" && ':' !in source ==>
      Next(s, Look(source, uploading)) == s.(check := Some(Dropping(source, None)))
  {
  }

  lemma ChecksGoOnExactly(s: Backups, source: string, uploading: Option<bool>)
    ensures s.check.Some? ==> Next(s, Look(source, uploading)) == s
    ensures Next(s, Drop) ==
      if s.check.Some? && s.check.value.Dropping? then s.(holds := s.holds - {s.check.value.source}, check := None) else s
    ensures Next(s, CheckDies) == s.(check := None)
  {
  }

  lemma RunsThree(s: Backups, a: Event, b: Event, c: Event)
    ensures Runs(s, [a, b, c]) == Next(Next(Next(s, a), b), c)
  {
    hide Next;
    assert Runs(s, []) == s;
    RunsOne(s, [], a);
    RunsOne(s, [] + [a], b);
    RunsOne(s, [] + [a] + [b], c);
    assert [] + [a] + [b] + [c] == [a, b, c];
  }

  lemma CheckStarts(s: Backups, source: string, uploading: Option<bool>)
    requires s.check.None? && source in s.holds && s.holds[source].wasRunning
    requires IsStuck(s.holds[source], uploading, s.store.clock)
    requires Create(s.store, HookJob(START, source, s.holds[source].since)).1.Ok?
    ensures var t := Next(Next(Next(s, Look(source, uploading)), Restart), Drop);
      Asked(t.store, START, source, s.holds[source].since) && source !in t.holds && t.check.None?
  {
    var since := s.holds[source].since;
    HookSlot(START, source, since);
    CreateAsks(s.store, HookJob(START, source, since));
    hide Create, HookJob, IsStuck, SlotOf;
    var a := s.(check := Some(Restarting(source, since)));
    assert Next(s, Look(source, uploading)) == a;
    var b := s.(store := Create(s.store, HookJob(START, source, since)).0, check := Some(Dropping(source, Some(since))));
    assert Next(a, Restart) == b;
  }
}
