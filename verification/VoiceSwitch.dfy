/**
 * The switch job as its methods run: stopping and starting apps one by one, and
 * undoing a failed switch. At a checkpoint the job may find that it must stop;
 * that goes past every handler, so nothing is undone.
 */
module VoiceSwitch {
  import opened Duplex

  /**
   * It stops; it stops, but the app's own record or the mode's cannot be written; it
   * stays up; or the stop fails with the app down.
   */
  datatype Stop = Stops | StopsUnrecorded | StopsUnnoted | StaysUp | GoesDown

  /** It gets healthy; that cannot be recorded; or it does not, and is up or down. */
  datatype Start = Starts | StartsUnrecorded | UpUnhealthy | StaysDown

  /** How the rest of a switch-on goes: the model loads, its settings are written, it is taken down, separate steps are put back. */
  datatype Course = Course(
    stops: seq<Stop>, loads: bool, loaded: bool, announced: bool, takenDown: bool, back: Back, starts: seq<Start>)

  /** Through to its end; ended by a failure; or stopped at a checkpoint. */
  datatype End = Through | GaveUp | Halted

  /** Separate steps as the writes leave them; without both, no app is started. */
  predicate PutBack(back: Back, before: Voice, after: Voice) {
    && (back == Unsaved ==> after.engine == before.engine && after.remembered == before.remembered)
    && (back != Unsaved ==> after.engine == Pipeline && after.agent == Pipeline && after.remembered == [])
    && (back != Written ==> after.up == before.up && after.recorded == before.recorded)
  }

  /** All steps are the job's own, and only a halt ends with one that cuts it off. */
  ghost predicate Own(steps: seq<Event>, end: End) {
    forall e <- steps :: OfJob(e) && (e.Crash? ==> end == Halted)
  }

  /** How stopping one app ends, when the job passes so many checkpoints. */
  function StopEnd(stop: Stop, passes: nat): End {
    if passes == 0 then Halted
    else if stop.StaysUp? || stop.GoesDown? then GaveUp
    else if passes == 1 then Halted
    else if stop.Stops? then Through
    else GaveUp
  }

  function StartEnd(start: Start, passes: nat): End {
    if passes == 0 then Halted
    else if start.UpUnhealthy? || start.StaysDown? then Through
    else if passes == 1 then Halted
    else if start.Starts? then Through
    else GaveUp
  }

  function StartAt(starts: seq<Start>, i: nat): Start { if i < |starts| then starts[i] else StaysDown }

  /** Those of these apps whose record says they run, in order and once. */
  function Marked(apps: seq<string>, recorded: set<string>): seq<string> {
    if apps == [] then []
    else
      var (before, app) := (apps[..|apps| - 1], apps[|apps| - 1]);
      Marked(before, recorded) + if app in recorded && app !in before then [app] else []
  }

  /** Those of the first apps that came up; got healthy; did not. */
  function Came(apps: seq<string>, starts: seq<Start>, n: nat): set<string>
    requires n <= |apps|
  {
    set i | 0 <= i < n && !StartAt(starts, i).StaysDown? :: apps[i]
  }

  function Healthy(apps: seq<string>, starts: seq<Start>, n: nat): set<string>
    requires n <= |apps|
  {
    set i | 0 <= i < n && StartAt(starts, i).Starts? :: apps[i]
  }

  function Unhealthy(apps: seq<string>, starts: seq<Start>, n: nat): seq<string>
    requires n <= |apps|
  {
    if n == 0 then []
    else
      Unhealthy(apps, starts, n - 1)
      + if StartAt(starts, n - 1).UpUnhealthy? || StartAt(starts, n - 1).StaysDown? then [apps[n - 1]] else []
  }

  /** Every start can be recorded. */
  predicate AllRecordable(starts: seq<Start>) { forall how <- starts :: !how.StartsUnrecorded? }

  predicate AllStop(stops: seq<Stop>) { forall stop <- stops :: stop.Stops? }

  function StopAt(stops: seq<Stop>, i: nat): Stop { if i < |stops| then stops[i] else Stops }

  lemma OneMoreCame(apps: seq<string>, starts: seq<Start>, n: nat)
    requires n < |apps|
    ensures Came(apps, starts, n + 1) == Came(apps, starts, n) + if StartAt(starts, n).StaysDown? then {} else {apps[n]}
    ensures Healthy(apps, starts, n + 1) == Healthy(apps, starts, n) + if StartAt(starts, n).Starts? then {apps[n]} else {}
  {
  }

  lemma OneMoreMarked(apps: seq<string>, i: nat, recorded: set<string>)
    requires i < |apps|
    ensures Marked(apps[..i + 1], recorded) ==
      Marked(apps[..i], recorded) + if apps[i] in recorded - Apps(apps[..i]) then [apps[i]] else []
  {
    assert apps[..i + 1][..i] == apps[..i];
  }

  function Less(all: set<string>, apps: seq<string>): set<string> { all - Apps(apps) }

  lemma AllLess(all: set<string>, apps: seq<string>)
    ensures all <= Apps(apps) ==> Less(all, apps) == {}
  {
  }

  lemma LessNone(all: set<string>)
    ensures Less(all, []) == all
  {
    AppsOf([], "");
  }

  lemma LessOne(all: set<string>, apps: seq<string>, app: string)
    ensures Less(all, apps + [app]) == Less(all, apps) - {app}
    ensures app in Less(all, apps) <==> app in all - Apps(apps)
  {
    AppsOf(apps, app);
  }

  /** What stopping the first apps, with nothing failing, has come to. */
  predicate SoFar(apps: seq<string>, i: nat, was: Voice, first: nat, stopped: seq<string>, now: Voice, passes: nat) {
    && i <= |apps| && passes >= 2 * (|apps| - i) && passes >= first - 2 * i
    && stopped == Marked(apps[..i], was.recorded) && now.up == Less(was.up, stopped)
    && now.remembered == (if stopped == [] then was.remembered else stopped)
    && now.recorded == Less(was.recorded, apps[..i])
  }

  lemma NothingStopped(apps: seq<string>, was: Voice, passes: nat)
    requires passes >= 2 * |apps|
    ensures SoFar(apps, 0, was, passes, [], was, passes)
  {
    assert apps[..0] == [];
    LessNone(was.up);
    LessNone(was.recorded);
  }

  lemma GoesOn(
    apps: seq<string>, stops: seq<Stop>, i: nat, was: Voice, first: nat, stopped: seq<string>, here: Voice, passes: nat)
    requires i < |apps| && AllStop(stops) && SoFar(apps, i, was, first, stopped, here, passes)
    ensures passes >= 2 && StopAt(stops, i).Stops?
  {
  }

  lemma OneStopped(
    apps: seq<string>, stops: seq<Stop>, i: nat, was: Voice, first: nat, stopped: seq<string>, here: Voice, left: nat,
    all: seq<string>, now: Voice, passes: nat)
    requires i < |apps| && AllStop(stops) && SoFar(apps, i, was, first, stopped, here, left)
    requires now.recorded == here.recorded - {apps[i]} && passes >= left - 2
    requires apps[i] !in here.recorded ==> all == stopped && now.up == here.up && now.remembered == here.remembered
    requires apps[i] in here.recorded && StopAt(stops, i).Stops? ==>
      all == stopped + [apps[i]] && now.up == here.up - {apps[i]} && now.remembered == all
    ensures SoFar(apps, i + 1, was, first, all, now, passes)
  {
    assert apps[..i + 1] == apps[..i] + [apps[i]];
    OneMoreMarked(apps, i, was.recorded);
    LessOne(was.up, stopped, apps[i]);
    LessOne(was.recorded, apps[..i], apps[i]);
    hide Apps, Marked, Less;
  }

  lemma {:induction false} MarkedLength(apps: seq<string>, recorded: set<string>)
    ensures |Marked(apps, recorded)| <= |apps|
    decreases |apps|
  {
    if apps != [] { MarkedLength(apps[..|apps| - 1], recorded); }
  }

  lemma OwnJoin(some: seq<Event>, more: seq<Event>, end: End)
    requires Own(some, Through) && Own(more, end)
    ensures Own(some + more, end)
  {
  }

  lemma OwnAnyhow(steps: seq<Event>)
    requires Own(steps, Through)
    ensures Own(steps, GaveUp)
  {
  }

  lemma OwnFirst(apps: seq<string>)
    ensures Own([] + [Event.SwitchOn(apps)], Through)
  {
  }

  lemma OwnNone()
    ensures Own([], Through) && Own([StopNext(true, false)], Through)
  {
  }

  class Switch {
    var up: set<string>
    var recorded: set<string>
    ghost var wanted: set<string>
    var engine: Engine
    var agent: Engine
    var remembered: seq<string>
    var model: bool
    /** How many more checkpoints the job passes. */
    var passes: nat

    constructor (running: set<string>, passes: nat)
      ensures Value(Rest) == Voice(running, running, running, Pipeline, Pipeline, [], false, Rest)
    {
      up, recorded, wanted, model, this.passes := running, running, running, false, passes;
      engine, agent, remembered := Pipeline, Pipeline, [];
    }

    ghost function Value(place: Place): Voice
      reads this
    {
      Voice(up, recorded, wanted, engine, agent, remembered, model, place)
    }

    /** Whether the job may go on. */
    method Checkpoint() returns (on: bool)
      modifies this`passes
      ensures on <==> old(passes) > 0
      ensures passes == if on then old(passes) - 1 else old(passes)
    {
      on := passes > 0;
      if on { passes := passes - 1; }
    }

    method Save(engine: Engine, stopped: seq<string>, loaded: bool)
      modifies this`engine, this`agent, this`remembered
      ensures forall place :: Value(place) == Saved(old(Value(place)), engine, stopped, loaded)
      ensures this.engine == engine && agent == (if loaded then engine else Pipeline) && remembered == stopped
    {
      this.engine, agent, remembered := engine, if loaded then engine else Pipeline, stopped;
    }

    /** Stops one app whose record says it runs, and records that, then that the mode stopped it. */
    method StopOne(app: string, ghost todo: seq<string>, stop: Stop, stopped: seq<string>)
      returns (end: End, all: seq<string>, ghost steps: seq<Event>)
      requires engine == Duplex && agent == Pipeline && app in recorded
      modifies this`up, this`recorded, this`engine, this`agent, this`remembered, this`passes
      ensures engine == Duplex && agent == Pipeline && Own(steps, end)
      ensures recorded <= old(recorded) && (end == Through ==> recorded == old(recorded) - {app})
      ensures Runs(old(Value(Stopping([app] + todo, stopped))), steps) == Value(
        match end case Through => Stopping(todo, all) case GaveUp => Undoing(all) case Halted => Rest)
      ensures end == StopEnd(stop, old(passes))
      ensures up == if old(passes) > 0 && !stop.StaysUp? then old(up) - {app} else old(up)
      ensures var noted := old(passes) > 1 && (stop.Stops? || stop.StopsUnnoted?);
        recorded == (if noted then old(recorded) - {app} else old(recorded)) && all == if noted then stopped + [app] else stopped
      ensures remembered == if old(passes) > 1 && stop.Stops? then stopped + [app] else old(remembered)
      ensures end == Through ==> passes == old(passes) - 2
    {
      hide Runs, Next;
      ghost var start := Value(Stopping([app] + todo, stopped));
      RunsNone(start);
      all, steps := stopped, [];
      var on := Checkpoint();
      if !on {
        steps := Cut(start, steps, start);
        return Halted, all, steps;
      }
      var stops := !stop.StaysUp? && !stop.GoesDown?;
      StopSteps(start, app, todo, stopped, stops, stop.GoesDown?);
      RunsOne(start, steps, StopNext(stops, stop.GoesDown?));
      steps := steps + [StopNext(stops, stop.GoesDown?)];
      if !stop.StaysUp? { up := up - {app}; }
      if !stops { return GaveUp, all, steps; }
      ghost var more;
      end, all, more := NoteStop(app, todo, stop, stopped);
      RunsJoin(start, steps, more);
      OwnJoin(steps, more, end);
      steps := steps + more;
    }

    /** Records that an app is stopped, then that the mode stopped it. */
    method NoteStop(app: string, ghost todo: seq<string>, stop: Stop, stopped: seq<string>)
      returns (end: End, all: seq<string>, ghost steps: seq<Event>)
      requires engine == Duplex && agent == Pipeline && app in recorded && !stop.StaysUp? && !stop.GoesDown?
      modifies this`recorded, this`engine, this`agent, this`remembered, this`passes
      ensures engine == Duplex && agent == Pipeline && Own(steps, end)
      ensures Runs(old(Value(Stopped(app, todo, stopped))), steps) == Value(
        match end case Through => Stopping(todo, all) case GaveUp => Undoing(all) case Halted => Rest)
      ensures end == if old(passes) == 0 then Halted else if stop.Stops? then Through else GaveUp
      ensures passes == if old(passes) > 0 then old(passes) - 1 else 0
      ensures var noted := old(passes) > 0 && !stop.StopsUnrecorded?;
        recorded == (if noted then old(recorded) - {app} else old(recorded)) && all == if noted then stopped + [app] else stopped
      ensures remembered == if old(passes) > 0 && stop.Stops? then stopped + [app] else old(remembered)
    {
      hide Runs, Next;
      ghost var start := Value(Stopped(app, todo, stopped));
      RunsNone(start);
      all, steps := stopped, [];
      var on := Checkpoint();
      if !on {
        steps := Cut(start, steps, start);
        return Halted, all, steps;
      }
      NoteSteps(start, app, todo, stopped, stop.Stops?);
      RunsOne(start, steps, RecordStop(!stop.StopsUnrecorded?));
      steps := steps + [RecordStop(!stop.StopsUnrecorded?)];
      if stop.StopsUnrecorded? { return GaveUp, all, steps; }
      recorded := recorded - {app};
      all := stopped + [app];
      RunsOne(start, steps, Note(stop.Stops?));
      steps := steps + [Note(stop.Stops?)];
      if stop.StopsUnnoted? { return GaveUp, all, steps; }
      Save(Duplex, all, false);
      return Through, all, steps;
    }

    /** The checkpoint that ends the job. */
    ghost method Cut(start: Voice, steps: seq<Event>, here: Voice) returns (more: seq<Event>)
      requires here == Runs(start, steps) && Own(steps, Halted)
      ensures Runs(start, more) == here.(place := Rest) && Own(more, Halted)
    {
      CrashStep(here);
      RunsOne(start, steps, Crash);
      more := steps + [Crash];
    }

    /** Passes over an app whose record says stopped, and stops any other. */
    method StopMarked(app: string, ghost todo: seq<string>, stop: Stop, stopped: seq<string>)
      returns (end: End, all: seq<string>, ghost steps: seq<Event>)
      requires engine == Duplex && agent == Pipeline
      modifies this`up, this`recorded, this`engine, this`agent, this`remembered, this`passes
      ensures engine == Duplex && agent == Pipeline && Own(steps, end)
      ensures end == Through ==> recorded == old(recorded) - {app} && passes >= old(passes) - 2
      ensures Runs(old(Value(Stopping([app] + todo, stopped))), steps) == Value(
        match end case Through => Stopping(todo, all) case GaveUp => Undoing(all) case Halted => Rest)
      ensures app !in old(recorded) ==>
        end == Through && all == stopped && up == old(up) && remembered == old(remembered) && passes == old(passes)
      ensures app in old(recorded) && stop.Stops? && old(passes) >= 2 ==>
        end == Through && all == stopped + [app] && up == old(up) - {app} && remembered == all
    {
      if app in recorded {
        end, all, steps := StopOne(app, todo, stop, stopped);
      } else {
        ghost var here := Value(Stopping([app] + todo, stopped));
        hide Runs, Next;
        RunsNone(here);
        PassesOver(here);
        RunsOne(here, [], StopNext(true, false));
        assert ([app] + todo)[1..] == todo;
        return Through, stopped, [] + [StopNext(true, false)];
      }
    }

    /** In the order of the list; gives up at the first that cannot be stopped. */
    method StopEach(apps: seq<string>, stops: seq<Stop>) returns (end: End, stopped: seq<string>, ghost steps: seq<Event>)
      requires engine == Duplex && agent == Pipeline
      modifies this`up, this`recorded, this`engine, this`agent, this`remembered, this`passes
      ensures engine == Duplex && agent == Pipeline && Own(steps, end)
      ensures end == Through ==> recorded == Less(old(recorded), apps)
      ensures Runs(old(Value(Stopping(apps, []))), steps) == Value(
        match end case Through => Stopping([], stopped) case GaveUp => Undoing(stopped) case Halted => Rest)
      ensures AllStop(stops) && old(passes) >= 2 * |apps| ==>
        end == Through && SoFar(apps, |apps|, old(Value(Rest)), old(passes), stopped, Value(Rest), passes)
    {
      ghost var smooth, was, first := AllStop(stops) && passes >= 2 * |apps|, Value(Rest), passes;
      ghost var start := Value(Stopping(apps, []));
      OwnNone();
      LessNone(recorded);
      if smooth { NothingStopped(apps, was, passes); }
      hide Runs, Next, Apps, AllStop, StopEnd, Own, Less, SoFar;
      RunsNone(start);
      stopped, steps := [], [];
      var i := 0;
      assert apps[0..] == apps && apps[..0] == [];
      while i < |apps|
        invariant 0 <= i <= |apps| && engine == Duplex && agent == Pipeline && Own(steps, Through)
        invariant recorded == Less(old(recorded), apps[..i])
        invariant Runs(start, steps) == Value(Stopping(apps[i..], stopped))
        invariant smooth ==> SoFar(apps, i, was, first, stopped, Value(Rest), passes)
      {
        var app, stop := apps[i], StopAt(stops, i);
        assert apps[i..] == [app] + apps[i + 1..] && apps[..i + 1] == apps[..i] + [app];
        LessOne(old(recorded), apps[..i], app);
        ghost var before, left, list := Value(Rest), passes, stopped;
        if smooth { GoesOn(apps, stops, i, was, first, stopped, before, passes); }
        ghost var more;
        end, stopped, more := StopMarked(app, apps[i + 1..], stop, stopped);
        if smooth { OneStopped(apps, stops, i, was, first, list, before, left, stopped, Value(Rest), passes); }
        RunsJoin(start, steps, more);
        OwnJoin(steps, more, end);
        steps := steps + more;
        if end != Through { return; }
        i := i + 1;
      }
      assert apps[..i] == apps && apps[i..] == [];
      end := Through;
    }

    /** Stops each app whose record says it runs; gives up at the first that cannot be stopped. */
    method StopApps(apps: seq<string>, stops: seq<Stop>) returns (end: End, stopped: seq<string>, ghost steps: seq<Event>)
      requires engine == Duplex && agent == Pipeline
      modifies this`up, this`recorded, this`engine, this`agent, this`remembered, this`passes
      ensures engine == Duplex && agent == Pipeline && Own(steps, end)
      ensures end == Through ==> recorded == Less(old(recorded), apps)
      ensures Runs(old(Value(Stopping(apps, []))), steps) == Value(
        match end case Through => Loading(stopped) case GaveUp => Undoing(stopped) case Halted => Rest)
      ensures AllStop(stops) && old(passes) >= 2 * |apps| ==>
        && end == Through && passes >= old(passes) - 2 * |apps|
        && stopped == Marked(apps, old(recorded)) && up == Less(old(up), stopped)
        && remembered == if stopped == [] then old(remembered) else stopped
    {
      assert apps[..|apps|] == apps;
      hide Runs, Next, Less, Marked, AllStop, Own;
      ghost var start := Value(Stopping(apps, []));
      end, stopped, steps := StopEach(apps, stops);
      if end == Through {
        OwnNone();
        PassesOver(Value(Stopping([], stopped)));
        RunsOne(start, steps, StopNext(true, false));
        OwnJoin(steps, [StopNext(true, false)], Through);
        steps := steps + [StopNext(true, false)];
      }
    }

    /** Starts one app again; `failed` says that it did not get healthy. */
    method StartOne(app: string, ghost todo: seq<string>, how: Start)
      returns (end: End, failed: bool, ghost steps: seq<Event>)
      requires engine == Pipeline
      modifies this`up, this`recorded, this`passes
      ensures Own(steps, end)
      ensures Runs(old(Value(Restarting([app] + todo))), steps) == Value(if end == Through then Restarting(todo) else Rest)
      ensures end == StartEnd(how, old(passes)) && (end == Through ==> (failed <==> how.UpUnhealthy? || how.StaysDown?))
      ensures up == if old(passes) > 0 && !how.StaysDown? then old(up) + {app} else old(up)
      ensures recorded == if old(passes) > 1 && how.Starts? then old(recorded) + {app} else old(recorded)
      ensures passes >= old(passes) - 2
    {
      hide Runs, Next;
      ghost var start := Value(Restarting([app] + todo));
      RunsNone(start);
      failed, steps := false, [];
      var on := Checkpoint();
      if !on {
        steps := Cut(start, steps, start);
        return Halted, failed, steps;
      }
      var healthy := how.Starts? || how.StartsUnrecorded?;
      StartSteps(start, app, todo, healthy, how.UpUnhealthy?, how.Starts?);
      RunsOne(start, steps, StartNext(healthy, how.UpUnhealthy?));
      steps := steps + [StartNext(healthy, how.UpUnhealthy?)];
      if !how.StaysDown? { up := up + {app}; }
      if !healthy { return Through, true, steps; }
      on := Checkpoint();
      if !on {
        steps := Cut(start, steps, Value(Started(app, todo)));
        return Halted, failed, steps;
      }
      RunsOne(start, steps, RecordStart(how.Starts?));
      steps := steps + [RecordStart(how.Starts?)];
      if !how.Starts? { return GaveUp, failed, steps; }
      recorded := recorded + {app};
      return Through, failed, steps;
    }

    /** Starts each app again, going on past those that do not come back. */
    method StartApps(apps: seq<string>, starts: seq<Start>) returns (end: End, failed: seq<string>, ghost steps: seq<Event>)
      requires engine == Pipeline
      modifies this`up, this`recorded, this`passes
      ensures Runs(old(Value(Restarting(apps))), steps) == Value(Rest) && Own(steps, end)
      ensures AllRecordable(starts) && old(passes) >= 2 * |apps| ==>
        && up == old(up) + Came(apps, starts, |apps|) && recorded == old(recorded) + Healthy(apps, starts, |apps|)
        && failed == Unhealthy(apps, starts, |apps|) && end == if failed == [] then Through else GaveUp
    {
      hide Runs, Next;
      ghost var start := Value(Restarting(apps));
      RunsNone(start);
      failed, steps := [], [];
      var i := 0;
      assert apps[0..] == apps;
      while i < |apps|
        invariant 0 <= i <= |apps| && Own(steps, Through)
        invariant Runs(start, steps) == Value(Restarting(apps[i..]))
        invariant AllRecordable(starts) && old(passes) >= 2 * |apps| ==>
          && passes >= old(passes) - 2 * i && up == old(up) + Came(apps, starts, i)
          && recorded == old(recorded) + Healthy(apps, starts, i) && failed == Unhealthy(apps, starts, i)
      {
        OneMoreCame(apps, starts, i);
        assert apps[i..] == [apps[i]] + apps[i + 1..];
        ghost var more;
        var unhealthy;
        end, unhealthy, more := StartOne(apps[i], apps[i + 1..], StartAt(starts, i));
        RunsJoin(start, steps, more);
        steps := steps + more;
        if end != Through { return; }
        if unhealthy { failed := failed + [apps[i]]; }
        i := i + 1;
      }
      AllStarted(Value(Restarting([])));
      RunsOne(start, steps, StartNext(true, false));
      return if failed == [] then Through else GaveUp, failed, steps + [StartNext(true, false)];
    }

    /** With the card free: loads the model, says so, and tells the agent. */
    method LoadModel(stopped: seq<string>, course: Course) returns (end: End, ghost steps: seq<Event>)
      requires engine == Duplex
      modifies this`engine, this`agent, this`remembered, this`model, this`passes
      ensures Runs(old(Value(Loading(stopped))), steps) == Value(if end == GaveUp then Undoing(stopped) else Rest)
      ensures Own(steps, end) && engine == Duplex && (end == Through ==> agent == Duplex && model)
      ensures up == old(up) && recorded == old(recorded) && passes + 2 >= old(passes)
      ensures old(passes) == 0 ==> end == Halted && model == old(model)
      ensures old(passes) > 0 && !course.loads ==> end == GaveUp && model == course.loaded
      ensures old(passes) == 1 && course.loads ==> end == Halted && model
      ensures old(passes) > 1 && course.loads ==> model && remembered == stopped && end == if course.announced then Through else GaveUp
    {
      hide Runs, Next;
      ghost var start := Value(Loading(stopped));
      RunsNone(start);
      LoadSteps(start, stopped, course.loads, course.loaded, course.announced);
      steps := [];
      var on := Checkpoint();
      if !on {
        steps := Cut(start, steps, start);
        return Halted, steps;
      }
      RunsOne(start, steps, Load(course.loads, course.loaded));
      steps := steps + [Load(course.loads, course.loaded)];
      model := course.loads || course.loaded;
      if !course.loads { return GaveUp, steps; }
      Save(Duplex, stopped, true);
      on := Checkpoint();
      if !on {
        steps := Cut(start, steps, Value(Announcing(stopped)));
        return Halted, steps;
      }
      RunsOne(start, steps, Announce(course.announced));
      return if course.announced then Through else GaveUp, steps + [Announce(course.announced)];
    }

    /** Saves separate steps, writes the settings file, and starts the apps: a failed write ends it there. */
    method SettleAndStart(stopped: seq<string>, back: Back, starts: seq<Start>)
      returns (end: End, failed: seq<string>, ghost steps: seq<Event>)
      modifies this`up, this`recorded, this`engine, this`agent, this`remembered, this`passes
      ensures Runs(old(Value(Settling(stopped))), steps) == Value(Rest) && Own(steps, end)
      ensures PutBack(back, old(Value(Rest)), Value(Rest)) && (end == Through ==> back == Written)
      ensures back != Written ==> end == GaveUp && failed == []
      ensures back == Written && AllRecordable(starts) && old(passes) >= 2 * |stopped| ==>
        && up == old(up) + Came(stopped, starts, |stopped|) && recorded == old(recorded) + Healthy(stopped, starts, |stopped|)
        && failed == Unhealthy(stopped, starts, |stopped|) && end == if failed == [] then Through else GaveUp
    {
      hide Runs;
      ghost var start := Value(Settling(stopped));
      RunsNone(start);
      RunsOne(start, [], Settle(back));
      steps := [] + [Settle(back)];
      if back == Unsaved { return GaveUp, [], steps; }
      Save(Pipeline, [], true);
      if back == Unwritten { return GaveUp, [], steps; }
      ghost var more;
      end, failed, more := StartApps(stopped, starts);
      RunsJoin(start, steps, more);
      steps := steps + more;
    }

    /** Back to separate steps, with what was stopped started again unless a write fails, or a checkpoint ends it, first. */
    method Undo(stopped: seq<string>, course: Course) returns (end: End, failed: seq<string>, ghost steps: seq<Event>)
      modifies this
      ensures Runs(old(Value(Undoing(stopped))), steps) == Value(Rest) && wanted == old(wanted) && Own(steps, end)
      ensures end != Halted ==> PutBack(course.back, old(Value(Rest)), Value(Rest))
      ensures old(passes) == 0 ==> end == Halted
      ensures old(passes) > 0 ==> model == (old(model) && !course.takenDown)
      ensures course.back == Written && AllRecordable(course.starts) && old(passes) > 2 * |stopped| ==>
        && up == old(up) + Came(stopped, course.starts, |stopped|)
        && recorded == old(recorded) + Healthy(stopped, course.starts, |stopped|)
        && failed == Unhealthy(stopped, course.starts, |stopped|) && end == if failed == [] then Through else GaveUp
    {
      hide Runs;
      ghost var start := Value(Undoing(stopped));
      RunsNone(start);
      steps := [];
      var on := Checkpoint();
      if !on {
        steps := Cut(start, steps, start);
        return Halted, [], steps;
      }
      RunsOne(start, steps, TakeDown(course.takenDown));
      steps := steps + [TakeDown(course.takenDown)];
      model := model && !course.takenDown;
      ghost var more;
      end, failed, more := SettleAndStart(stopped, course.back, course.starts);
      RunsJoin(start, steps, more);
      steps := steps + more;
    }

    /** On; or, when anything fails on the way, back to separate steps; or stopped wherever a checkpoint ended it. */
    method SwitchOn(apps: seq<string>, course: Course) returns (end: End, failed: seq<string>, ghost steps: seq<Event>)
      requires engine == Pipeline && up + recorded <= Apps(apps)
      modifies this
      ensures Runs(old(Value(Rest)), steps) == Value(Rest) && Own(steps, end)
      ensures end == Through ==> engine == Duplex && agent == Duplex && model && recorded == {}
      ensures end == GaveUp && course.back != Unsaved ==> engine == Pipeline && agent == Pipeline && remembered == []
      ensures end == GaveUp && course.back == Unsaved ==> engine == Duplex
      ensures var smooth := AllStop(course.stops) && old(passes) >= 2 * |apps| + 2;
        var found := Marked(apps, old(recorded));
        && (smooth && course.loads && course.announced ==>
              end == Through && remembered == found && up == Less(old(up), found) && failed == [])
        && (smooth && !(course.loads && course.announced) && course.back == Written && AllRecordable(course.starts)
            && old(passes) >= 4 * |apps| + 3 ==>
              && end == GaveUp && failed == Unhealthy(found, course.starts, |found|)
              && up == Less(old(up), found) + Came(found, course.starts, |found|))
    {
      hide Runs, Apps, Less, Marked, Came, Healthy, Unhealthy, AllStop, AllRecordable, Own;
      OwnFirst(apps);
      AllLess(recorded, apps);
      ghost var start := Value(Rest);
      RunsNone(start);
      RunsOne(start, [], Event.SwitchOn(apps));
      MarkedLength(apps, recorded);
      steps := [] + [Event.SwitchOn(apps)];
      Save(Duplex, [], false);
      assert Runs(start, steps) == Value(Stopping(apps, []));
      hide Next;
      ghost var more;
      var stopped;
      end, stopped, more := StopApps(apps, course.stops);
      RunsJoin(start, steps, more);
      OwnJoin(steps, more, end);
      steps := steps + more;
      if end == Through {
        end, more := LoadModel(stopped, course);
        RunsJoin(start, steps, more);
        OwnJoin(steps, more, end);
        steps := steps + more;
      }
      if end != GaveUp { return end, [], steps; }
      end, failed, more := Undo(stopped, course);
      RunsJoin(start, steps, more);
      OwnJoin(steps, more, end);
      steps := steps + more;
      if end == Through {
        OwnAnyhow(steps);
        end := GaveUp;
      }
    }

    /** Takes the model down, then starts what switching on had stopped; fails, changing no mode, while the card is in use. */
    method SwitchOff(takenDown: bool, back: Back, starts: seq<Start>)
      returns (end: End, failed: seq<string>, ghost steps: seq<Event>)
      requires engine == Duplex
      modifies this
      ensures Runs(old(Value(Rest)), steps) == Value(Rest) && Own(steps, end)
      ensures end == Through ==> takenDown && back == Written
      ensures end != Halted ==> engine == if takenDown && back != Unsaved then Pipeline else Duplex
      ensures !takenDown || back != Written ==> up == old(up) && recorded == old(recorded)
      ensures old(passes) == 0 ==> end == Halted && up == old(up) && recorded == old(recorded)
      ensures old(passes) > 0 ==> model == (old(model) && !takenDown) && (!takenDown || back != Written ==> end == GaveUp)
      ensures takenDown && back == Written && AllRecordable(starts) && old(passes) > 2 * |old(remembered)| ==>
        var found := old(remembered);
        && up == old(up) + Came(found, starts, |found|) && recorded == old(recorded) + Healthy(found, starts, |found|)
        && failed == Unhealthy(found, starts, |found|) && end == if failed == [] then Through else GaveUp
    {
      hide Runs;
      ghost var start := Value(Rest);
      RunsNone(start);
      RunsOne(start, [], Event.SwitchOff);
      steps := [] + [Event.SwitchOff];
      var on := Checkpoint();
      if !on {
        steps := Cut(start, steps, Value(Leaving));
        return Halted, [], steps;
      }
      RunsOne(start, steps, TakeDown(takenDown));
      steps := steps + [TakeDown(takenDown)];
      if !takenDown { return GaveUp, [], steps; }
      model := false;
      ghost var more;
      end, failed, more := SettleAndStart(remembered, back, starts);
      RunsJoin(start, steps, more);
      steps := steps + more;
    }
  }

  lemma PassesOver(s: Voice)
    requires s.place.Stopping? && (s.place.todo != [] ==> s.place.todo[0] !in s.recorded)
    ensures Next(s, StopNext(true, false)) ==
      s.(place := if s.place.todo == [] then Loading(s.place.stopped) else Stopping(s.place.todo[1..], s.place.stopped))
  {
  }

  lemma AllStarted(s: Voice)
    requires s.place == Restarting([])
    ensures Next(s, StartNext(true, false)) == s.(place := Rest)
  {
  }
}
