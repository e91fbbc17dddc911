/** The two actions around a backup and the worker's check, as each runs when nothing comes between its steps. */
module BackupService {
  import opened Wrappers
  import opened Jobs
  import opened BackupHolds
  import opened BackupSafety

  class Service {
    const store: JobStore
    var holds: map<string, Hold>
    ghost var actions: map<string, Action>

    constructor (store: JobStore)
      ensures this.store == store && holds == map[] && actions == map[]
    {
      this.store, holds, actions := store, map[], map[];
    }

    ghost function Value(now: int): Backups
      reads this, store
    {
      Backups(store.Rows(now), holds, actions, None)
    }

    method Submit(action: string, source: string, since: int, now: int) returns (r: Result<nat, Refusal>)
      requires store.clock <= now
      modifies store
      ensures store.clock == now && (store.Rows(now), r) == Create(old(store.Rows(now)), HookJob(action, source, since))
    {
      r := store.CreateJob(HookJob(action, source, since), now);
    }

    /** Holds and stops the app; `stopped` is how the stop job ended. Not ready means Kopia skips the backup. */
    method Before(source: string, running: bool, refused: bool, stopped: bool, now: int)
      returns (ready: bool, ghost steps: seq<Event>)
      requires store.clock <= now && source !in actions
      modifies this, store
      ensures Value(now) == Runs(old(Value(now)), steps) && actions == old(actions)
      ensures forall e <- steps :: OfAction(e, source)
      ensures ready ==> source !in old(holds) && holds == old(holds)[source := Hold(now, running)] && (running ==> stopped)
      ensures ready && running ==> Asked(store.Rows(now), STOP, source, now)
      ensures refused || source in old(holds) || source == "" || ':' in source ==>
        !ready && holds == old(holds) && store.Rows(now) == old(store.Rows(now))
      ensures var held, taken := old(holds)[source := Hold(now, running)], HookResult(old(store.Rows(now)), STOP, source, now);
        !refused && source !in old(holds) && source != "" && ':' !in source ==>
          && (!running ==> ready && holds == held && store.Rows(now) == old(store.Rows(now)))
          && (running && taken.Ok? && stopped ==>
                ready && holds == held && store.Rows(now) == HookStore(old(store.Rows(now)), STOP, source, now))
          && (running && taken.Ok? && !stopped ==>
                var stopping := HookStore(old(store.Rows(now)), STOP, source, now);
                && !ready && store.Rows(now) == HookStore(stopping, START, source, now)
                && holds == if HookResult(stopping, START, source, now).Ok? then old(holds) else held)
          && (running && taken.Err? ==> !ready && store.Rows(now) == old(store.Rows(now)))
          && (running && taken.Err? && (taken.error.IdempotencyConflict? || taken.error.ResourceBusy?) ==> holds == old(holds))
          && (running && taken.Err? && !taken.error.IdempotencyConflict? && !taken.error.ResourceBusy? ==> holds == held)
    {
      hide Create, Runs, Next, HookJob, Asked;
      ghost var was := Value(now);
      RunsNone(was);
      if refused || !Name(source) || source in holds { return false, []; }
      holds := holds[source := Hold(now, running)];
      actions := if running then actions[source := Held(now)] else actions;
      Placed(was, source, running);
      steps := [] + [BeginBefore(source, running, false)] + [PutHold(source)];
      if !running { return true, steps; }
      ghost var more;
      ready, more := Stop(source, now, stopped, now);
      RunsJoin(was, steps, more);
      steps := steps + more;
      assert actions == old(actions);
      assert holds - {source} == old(holds);
    }

    /** Has the worker stop the app it holds; else lets go of it again. */
    method Stop(source: string, since: int, stopped: bool, now: int) returns (ok: bool, ghost steps: seq<Event>)
      requires store.clock <= now && source in actions && actions[source] == Held(since) && source in holds
      modifies this, store
      ensures Value(now) == Runs(old(Value(now)), steps) && actions == old(actions) - {source}
      ensures forall e <- steps :: OfAction(e, source)
      ensures ok ==> stopped && holds == old(holds) && Asked(store.Rows(now), STOP, source, since)
      ensures holds == old(holds) || holds == old(holds) - {source}
      ensures var taken := HookResult(old(store.Rows(now)), STOP, source, since);
        && (ok <==> taken.Ok? && stopped)
        && (taken.Err? ==> store.Rows(now) == old(store.Rows(now)) && (source !in holds <==> Conflict(taken)))
        && (taken.Ok? ==>
              var stopping := HookStore(old(store.Rows(now)), STOP, source, since);
              && store.Rows(now) == (if stopped then stopping else HookStore(stopping, START, source, since))
              && (source in holds <==> stopped || HookResult(stopping, START, source, since).Err?))
    {
      hide Create, Runs, Next, HookJob, Asked;
      ghost var was := Value(now);
      RunsNone(was);
      var r := Submit(STOP, source, since, now);
      StopSubmitted(was, source, since);
      RunsOne(was, [], QueueStop(source));
      steps := [] + [QueueStop(source)];
      if r.Err? {
        if Conflict(r) {
          holds := holds - {source};
          RunsOne(was, steps, Release(source));
          steps := steps + [Release(source)];
        }
        actions := actions - {source};
        return false, steps;
      }
      actions := actions[source := AwaitingStop(since)];
      Ends(Value(now), source, since, stopped);
      RunsOne(was, steps, StopEnds(source, stopped));
      steps := steps + [StopEnds(source, stopped)];
      if stopped {
        actions := actions - {source};
        assert actions == old(actions) - {source};
        return true, steps;
      }
      actions := actions[source := Starting(since)];
      ghost var more := StartAndRelease(source, since, now);
      RunsJoin(was, steps, more);
      steps := steps + more;
      assert actions == old(actions) - {source};
      return false, steps;
    }

    /** Starts the app again, and forgets the hold when that was accepted. */
    method StartAndRelease(source: string, since: int, now: int) returns (ghost steps: seq<Event>)
      requires store.clock <= now && source in actions && actions[source] == Starting(since)
      modifies this, store
      ensures Value(now) == Runs(old(Value(now)), steps) && actions == old(actions) - {source}
      ensures forall e <- steps :: OfAction(e, source)
      ensures source in old(holds) && source !in holds ==> Asked(store.Rows(now), START, source, since)
      ensures store.Rows(now) == HookStore(old(store.Rows(now)), START, source, since)
      ensures holds == if HookResult(old(store.Rows(now)), START, source, since).Ok? then old(holds) - {source} else old(holds)
    {
      hide Create, Runs, Next, HookJob;
      ghost var was := Value(now);
      RunsNone(was);
      var r := Submit(START, source, since, now);
      StartSubmitted(was, source, since);
      RunsOne(was, [], QueueStart(source));
      steps := [] + [QueueStart(source)];
      if r.Ok? {
        holds := holds - {source};
        RunsOne(was, steps, Release(source));
        Releases(was.(store := store.Rows(now), actions := actions[source := Releasing(since)]), source, since);
        steps := steps + [Release(source)];
      }
      actions := actions - {source};
    }

    /** The copy is made: the app may run again. */
    method After(source: string, now: int) returns (ghost steps: seq<Event>)
      requires store.clock <= now && source !in actions
      modifies this, store
      ensures Value(now) == Runs(old(Value(now)), steps) && actions == old(actions)
      ensures forall e <- steps :: OfAction(e, source)
      ensures source in old(holds) && source !in holds && old(holds)[source].wasRunning ==>
        Asked(store.Rows(now), START, source, old(holds)[source].since)
      ensures source in old(holds) && !old(holds)[source].wasRunning ==>
        holds == old(holds) - {source} && store.Rows(now) == old(store.Rows(now))
      ensures source !in old(holds) ==> holds == old(holds) && store.Rows(now) == old(store.Rows(now))
      ensures source in old(holds) && old(holds)[source].wasRunning ==>
        var since := old(holds)[source].since;
        && store.Rows(now) == HookStore(old(store.Rows(now)), START, source, since)
        && holds == if HookResult(old(store.Rows(now)), START, source, since).Ok? then old(holds) - {source} else old(holds)
    {
      hide Create, Runs, HookJob, Asked;
      ghost var was := Value(now);
      RunsNone(was);
      if source !in holds { return []; }
      var hold := holds[source];
      RunsOne(was, [], BeginAfter(source));
      steps := [] + [BeginAfter(source)];
      if hold.wasRunning {
        actions := actions[source := Starting(hold.since)];
        ghost var more := StartAndRelease(source, hold.since, now);
        RunsJoin(was, steps, more);
        steps := steps + more;
      } else {
        actions := actions[source := Releasing(hold.since)];
        RunsOne(was, steps, Release(source));
        Releases(Value(now), source, hold.since);
        hide Next;
        steps := steps + [Release(source)];
        holds := holds - {source};
        actions := actions - {source};
      }
      assert actions == old(actions);
    }

    /** Looks at one held source, and starts its app if no backup of it is still going on. */
    method CheckOne(source: string, uploading: Option<bool>, now: int) returns (ghost steps: seq<Event>)
      requires store.clock <= now
      modifies this`holds, store
      ensures Value(now) == Runs(old(Value(now)), steps) && store.clock <= now
      ensures forall e <- steps :: OfCheck(e)
      ensures source in old(holds) && TooSoon(old(holds)[source], uploading, now) ==> steps == []
      ensures source !in old(holds) || TooSoon(old(holds)[source], uploading, now) ==>
        holds == old(holds) && store.Rows(now) == old(store.Rows(now))
      ensures source in old(holds) && !TooSoon(old(holds)[source], uploading, now) && old(holds)[source].wasRunning ==>
        var since := old(holds)[source].since;
        && store.Rows(now) == HookStore(old(store.Rows(now)), START, source, since)
        && holds == if HookResult(old(store.Rows(now)), START, source, since).Ok? then old(holds) - {source} else old(holds)
      ensures source in old(holds) && !TooSoon(old(holds)[source], uploading, now) && !old(holds)[source].wasRunning ==>
        holds == old(holds) - {source} && store.Rows(now) == old(store.Rows(now))
      ensures forall key <- old(store.requests) :: key in store.requests
      ensures source in old(holds) && source !in holds && old(holds)[source].wasRunning ==>
        Asked(store.Rows(now), START, source, old(holds)[source].since)
      ensures source in old(holds) ==> forall key <- store.requests ::
        key in old(store.requests) || key == SlotOf(START, source, old(holds)[source].since)
    {
      hide Create, Runs, HookJob, Asked, IsStuck;
      ghost var was := Value(now);
      RunsNone(was);
      if source !in holds {
        if uploading == Some(true) { return []; }
        NothingToDrop(was, source, uploading);
        return [] + [Look(source, uploading)] + [Drop];
      }
      var hold := holds[source];
      StuckIsNotTooSoon(hold, uploading, now);
      if !IsStuck(hold, uploading, now) { return []; }
      RunsOne(was, [], Look(source, uploading));
      steps := [] + [Look(source, uploading)];
      if hold.wasRunning {
        var r := Submit(START, source, hold.since, now);
        RestartSubmitted(Next(was, Look(source, uploading)), source, hold.since);
        RunsOne(was, steps, Restart);
        steps := steps + [Restart];
        if r.Err? { return steps; }
      }
      RunsOne(was, steps, Drop);
      steps := steps + [Drop];
      holds := holds - {source};
    }

    /** Every hold in turn; `answers` says which sources Kopia reports as uploading, if it can be asked. */
    method RestartStuck(names: seq<string>, answers: Option<map<string, bool>>, now: int)
      returns (ghost steps: seq<Event>, ghost met: map<string, Store>)
      requires store.clock <= now
      modifies this`holds, store
      ensures Value(now) == Runs(old(Value(now)), steps) && forall e <- steps :: OfCheck(e)
      ensures forall source <- holds :: source in old(holds) && holds[source] == old(holds)[source]
      ensures forall source <- old(holds) :: TooSoon(old(holds)[source], Uploading(answers, source), now) ==> source in holds
      ensures forall source <- names :: source in old(holds) && !TooSoon(old(holds)[source], Uploading(answers, source), now) ==>
        if old(holds)[source].wasRunning then
          source in met && (source in holds ==> HookResult(met[source], START, source, old(holds)[source].since).Err?)
        else source !in holds
      ensures forall source <- old(holds) :: source !in holds && old(holds)[source].wasRunning ==>
        Asked(store.Rows(now), START, source, old(holds)[source].since)
      ensures forall key <- store.requests :: key in old(store.requests) || IsStartOfStuck(old(holds), answers, now, key)
    {
      hide IsStuck, Next, Runs, HookStore, HookResult;
      ghost var was, before := Value(now), holds;
      RunsNone(was);
      steps, met := [], map[];
      var i := 0;
      while i < |names|
        invariant 0 <= i <= |names| && store.clock <= now && Value(now) == Runs(was, steps)
        invariant forall source <- holds :: source in before && holds[source] == before[source]
        invariant forall source <- before :: TooSoon(before[source], Uploading(answers, source), now) ==> source in holds
        invariant forall source <- before :: source !in names[..i] ==> source in holds
        invariant forall source <- names[..i] :: source in before && !TooSoon(before[source], Uploading(answers, source), now) ==>
          if before[source].wasRunning then
            source in met && (source in holds ==> HookResult(met[source], START, source, before[source].since).Err?)
          else source !in holds
        invariant forall source <- before :: source !in holds && before[source].wasRunning ==>
          Asked(store.Rows(now), START, source, before[source].since)
        invariant forall e <- steps :: OfCheck(e)
        invariant forall key <- store.requests :: key in old(store.requests) || IsStartOfStuck(before, answers, now, key)
      {
        assert names[..i + 1] == names[..i] + [names[i]];
        if names[i] in holds { met := met[names[i] := store.Rows(now)]; }
        ghost var more := CheckOne(names[i], Uploading(answers, names[i]), now);
        RunsJoin(was, steps, more);
        steps := steps + more;
        i := i + 1;
      }
    }
  }

  /** A hold that is gone when it is read is dropped all the same, which changes nothing. */
  lemma NothingToDrop(s: Backups, source: string, uploading: Option<bool>)
    requires source !in s.holds && s.check.None?
    ensures Runs(s, [] + [Look(source, uploading)] + [Drop]) == s
  {
    RunsNone(s);
    RunsOne(s, [], Look(source, uploading));
    RunsOne(s, [] + [Look(source, uploading)], Drop);
    assert s.holds - {source} == s.holds;
  }

  /** What submitting one hold's stop or start does to the job store, and how it is answered. */
  function HookStore(s: Store, action: string, source: string, since: int): Store { Create(s, HookJob(action, source, since)).0 }

  function HookResult(s: Store, action: string, source: string, since: int): Result<nat, Refusal> {
    Create(s, HookJob(action, source, since)).1
  }

  lemma Placed(s: Backups, source: string, running: bool)
    requires Name(source) && source !in s.holds && source !in s.actions
    ensures Runs(s, [] + [BeginBefore(source, running, false)] + [PutHold(source)]) ==
      s.(holds := s.holds[source := Hold(s.store.clock, running)],
         actions := if running then s.actions[source := Held(s.store.clock)] else s.actions)
  {
    RunsNone(s);
    RunsOne(s, [], BeginBefore(source, running, false));
    RunsOne(s, [] + [BeginBefore(source, running, false)], PutHold(source));
    hide Runs;
    var a := Next(s, BeginBefore(source, running, false));
    assert a == Moving(s, source, Checked(running));
    assert Next(a, PutHold(source)).actions == if running then s.actions[source := Held(s.store.clock)] else s.actions;
  }

  lemma StopSubmitted(s: Backups, source: string, since: int)
    requires At(s, source) == Some(Held(since))
    ensures var (store, r) := Create(s.store, HookJob(STOP, source, since));
      && (r.Ok? ==> Next(s, QueueStop(source)) == Moving(s.(store := store), source, AwaitingStop(since))
                    && Asked(store, STOP, source, since))
      && (r.Err? ==> store == s.store)
      && (r.Err? && !Conflict(r) ==> Next(s, QueueStop(source)) == Ended(s, source))
      && (Conflict(r) ==> Next(Next(s, QueueStop(source)), Release(source)) == Ended(s.(holds := s.holds - {source}), source))
  {
    HookSlot(STOP, source, since);
    CreateAsks(s.store, HookJob(STOP, source, since));
    hide Create, HookJob, SlotOf, Conflict;
    if Conflict(Create(s.store, HookJob(STOP, source, since)).1) { BusyReleases(s, source, since); }
  }

  lemma BusyReleases(s: Backups, source: string, since: int)
    requires At(s, source) == Some(Held(since)) && Conflict(Create(s.store, HookJob(STOP, source, since)).1)
    ensures Next(Next(s, QueueStop(source)), Release(source)) == Ended(s.(holds := s.holds - {source}), source)
  {
    hide Create, HookJob;
    var a := Moving(s, source, Releasing(since));
    assert Next(s, QueueStop(source)) == a;
    assert a.actions - {source} == s.actions - {source};
    hide Next;
    Releases(a, source, since);
  }

  lemma Ends(s: Backups, source: string, since: int, stopped: bool)
    requires At(s, source) == Some(AwaitingStop(since))
    ensures Next(s, StopEnds(source, stopped)) == if stopped then Ended(s, source) else Moving(s, source, Starting(since))
  {
  }

  lemma StartSubmitted(s: Backups, source: string, since: int)
    requires At(s, source) == Some(Starting(since))
    ensures var (store, r) := Create(s.store, HookJob(START, source, since));
      && (r.Ok? ==> Next(s, QueueStart(source)) == Moving(s.(store := store), source, Releasing(since))
                    && Asked(store, START, source, since))
      && (r.Err? ==> store == s.store && Next(s, QueueStart(source)) == Ended(s, source))
  {
    HookSlot(START, source, since);
    CreateAsks(s.store, HookJob(START, source, since));
  }

  lemma Releases(s: Backups, source: string, since: int)
    requires At(s, source) == Some(Releasing(since))
    ensures Next(s, Release(source)) == Ended(s.(holds := s.holds - {source}), source)
  {
  }

  function Uploading(answers: Option<map<string, bool>>, source: string): Option<bool> {
    if answers.None? then None else Some(source in answers.value && answers.value[source])
  }

  /** Kopia is copying it, or it is not held for long: three minutes while Kopia answers, else forty-five. */
  predicate TooSoon(hold: Hold, uploading: Option<bool>, now: int) {
    uploading == Some(true) || now - hold.since < if uploading.Some? then 180 else 2700
  }

  /** The request to start an app again that is not too soon. */
  ghost predicate IsStartOfStuck(holds: map<string, Hold>, answers: Option<map<string, bool>>, now: int, key: RequestKey) {
    exists source <- holds :: key == SlotOf(START, source, holds[source].since)
      && holds[source].wasRunning && !TooSoon(holds[source], Uploading(answers, source), now)
  }

  lemma StuckIsNotTooSoon(hold: Hold, uploading: Option<bool>, now: int)
    ensures IsStuck(hold, uploading, now) <==> !TooSoon(hold, uploading, now)
  {
  }

  lemma {:induction false} RestartSubmitted(s: Backups, source: string, since: int)
    requires s.check == Some(Restarting(source, since))
    ensures var (store, r) := Create(s.store, HookJob(START, source, since));
      && (forall key <- s.store.requests :: key in store.requests)
      && (forall key <- store.requests :: key in s.store.requests || key == SlotOf(START, source, since))
      && (r.Ok? ==> Next(s, Restart) == s.(store := store, check := Some(Dropping(source, Some(since))))
                    && Asked(store, START, source, since))
      && (r.Err? ==> store == s.store && Next(s, Restart) == s.(check := None))
  {
    HookSlot(START, source, since);
    CreateAsks(s.store, HookJob(START, source, since));
  }
}
