/**
 * Where whole switches of the voice assistant lead: there, back again, and every
 * ending of the way back, in what is up, what is recorded, the mode and the model.
 */
module DuplexFacts {
  import opened Duplex

  /** A switch in which everything works stops each listed app whose record does not say stopped, once. */
  function Stops(recorded: set<string>, todo: seq<string>): seq<Event> {
    if todo == [] then [StopNext(true, true), Load(true, true), Announce(true)]
    else if todo[0] !in recorded then [StopNext(true, true)] + Stops(recorded, todo[1..])
    else [StopNext(true, true), RecordStop(true), Note(true)] + Stops(recorded - {todo[0]}, todo[1..])
  }

  lemma OneFirst(app: string, rest: seq<string>)
    ensures Apps([app] + rest) == {app} + Apps(rest)
  {
    AppsOf([app] + rest, "");
    assert ([app] + rest)[1..] == rest;
  }

  /** The apps it stops, in that order. */
  function Taken(recorded: set<string>, todo: seq<string>): (taken: seq<string>)
    ensures Apps(taken) == recorded * Apps(todo)
  {
    if todo == [] then []
    else
      assert Apps(todo) == {todo[0]} + Apps(todo[1..]) by { AppsOf(todo, ""); }
      if todo[0] !in recorded then Taken(recorded, todo[1..])
      else
        var rest := Taken(recorded - {todo[0]}, todo[1..]);
        assert Apps([todo[0]] + rest) == {todo[0]} + Apps(rest) by { OneFirst(todo[0], rest); }
        [todo[0]] + rest
  }

  /** All of so many apps start and get healthy. */
  function Starts(n: nat): seq<Event> {
    if n == 0 then [StartNext(true, true)] else [StartNext(true, true), RecordStart(true)] + Starts(n - 1)
  }

  lemma RunsTwo(s: Voice, a: Event, b: Event)
    ensures Runs(s, [a, b]) == Next(Next(s, a), b)
  {
    RunsOne(s, [a], b);
    RunsOne(s, [], a);
    assert [a] + [b] == [a, b] && [] + [a] == [a];
  }

  lemma RunsThree(s: Voice, a: Event, b: Event, c: Event)
    ensures Runs(s, [a, b, c]) == Next(Next(Next(s, a), b), c)
  {
    RunsTwo(s, a, b);
    RunsOne(s, [a, b], c);
    assert [a, b] + [c] == [a, b, c];
  }

  lemma {:induction false} StopsAll(s: Voice, todo: seq<string>, stopped: seq<string>)
    requires s.place == Stopping(todo, stopped) && s.engine == Duplex && s.agent == Pipeline && s.remembered == stopped
    ensures var taken := Taken(s.recorded, todo);
      Runs(s, Stops(s.recorded, todo)) ==
      Voice(s.up - Apps(taken), s.recorded - Apps(taken), s.wanted, Duplex, Duplex, stopped + taken, true, Rest)
    decreases |todo|
  {
    if todo == [] {
      RunsThree(s, StopNext(true, true), Load(true, true), Announce(true));
      assert stopped + [] == stopped;
    } else if todo[0] !in s.recorded {
      var t := s.(place := Stopping(todo[1..], stopped));
      RunsOne(s, [], StopNext(true, true));
      assert [] + [StopNext(true, true)] == [StopNext(true, true)];
      RunsJoin(s, [StopNext(true, true)], Stops(s.recorded, todo[1..]));
      StopsAll(t, todo[1..], stopped);
    } else {
      StopsOne(s, todo, stopped);
    }
  }

  lemma {:induction false} StopsOne(s: Voice, todo: seq<string>, stopped: seq<string>)
    requires s.place == Stopping(todo, stopped) && s.engine == Duplex && s.agent == Pipeline && s.remembered == stopped
    requires todo != [] && todo[0] in s.recorded
    ensures var taken := Taken(s.recorded, todo);
      Runs(s, Stops(s.recorded, todo)) ==
      Voice(s.up - Apps(taken), s.recorded - Apps(taken), s.wanted, Duplex, Duplex, stopped + taken, true, Rest)
    decreases |todo|, 0
  {
    var (app, rest) := (todo[0], todo[1..]);
    var t := s.(up := s.up - {app}, recorded := s.recorded - {app}, remembered := stopped + [app],
                place := Stopping(rest, stopped + [app]));
    var steps := [StopNext(true, true), RecordStop(true), Note(true)];
    RunsThree(s, StopNext(true, true), RecordStop(true), Note(true));
    assert Runs(s, steps) == t;
    RunsJoin(s, steps, Stops(t.recorded, rest));
    StopsAll(t, rest, stopped + [app]);
    var taken := Taken(t.recorded, rest);
    OneFirst(app, taken);
    assert stopped + ([app] + taken) == stopped + [app] + taken;
    assert s.up - Apps([app] + taken) == t.up - Apps(taken);
    assert s.recorded - Apps([app] + taken) == t.recorded - Apps(taken);
  }

  /** The first of them is up and recorded as running. */
  lemma StartsOne(s: Voice, todo: seq<string>)
    requires s.place == Restarting(todo) && s.engine == Pipeline && todo != []
    ensures Runs(s, [StartNext(true, true), RecordStart(true)]) ==
            s.(up := s.up + {todo[0]}, recorded := s.recorded + {todo[0]}, place := Restarting(todo[1..]))
  {
    RunsTwo(s, StartNext(true, true), RecordStart(true));
  }

  lemma {:induction false} StartsAll(s: Voice, todo: seq<string>)
    requires s.place == Restarting(todo) && s.engine == Pipeline
    ensures Runs(s, Starts(|todo|)) == s.(up := s.up + Apps(todo), recorded := s.recorded + Apps(todo), place := Rest)
    decreases |todo|
  {
    AppsOf(todo, "");
    if todo == [] {
      RunsOne(s, [], StartNext(true, true));
      assert [] + [StartNext(true, true)] == [StartNext(true, true)];
      assert s.up + {} == s.up && s.recorded + {} == s.recorded;
    } else {
      var t := s.(up := s.up + {todo[0]}, recorded := s.recorded + {todo[0]}, place := Restarting(todo[1..]));
      StartsOne(s, todo);
      RunsJoin(s, [StartNext(true, true), RecordStart(true)], Starts(|todo| - 1));
      StartsAll(t, todo[1..]);
      hide Next, Runs, Apps;
      assert t.up + Apps(todo[1..]) == s.up + Apps(todo);
      assert t.recorded + Apps(todo[1..]) == s.recorded + Apps(todo);
    }
  }

  lemma LeavingFails(s: Voice)
    requires s.place == Rest && s.engine == Duplex
    ensures Runs(s, [SwitchOff, TakeDown(false)]) == s
  {
    RunsTwo(s, SwitchOff, TakeDown(false));
  }

  lemma LeavingEnds(s: Voice)
    requires s.place == Rest && s.engine == Duplex
    ensures Runs(s, [SwitchOff, TakeDown(true), Settle(Unsaved)]) == s.(model := false)
    ensures Runs(s, [SwitchOff, TakeDown(true), Settle(Unwritten)]) ==
            Voice(s.up, s.recorded, s.wanted, Pipeline, Pipeline, [], false, Rest)
  {
    hide Runs;
    RunsThree(s, SwitchOff, TakeDown(true), Settle(Unsaved));
    RunsThree(s, SwitchOff, TakeDown(true), Settle(Unwritten));
  }

  lemma SwitchesBackToTheStarts(s: Voice)
    requires s.place == Rest && s.engine == Duplex
    ensures Runs(s, [SwitchOff, TakeDown(true), Settle(Written)]) ==
            Voice(s.up, s.recorded, s.wanted, Pipeline, Pipeline, [], false, Restarting(s.remembered))
  {
    RunsThree(s, SwitchOff, TakeDown(true), Settle(Written));
  }

  /**
   * Leaving the full-duplex mode. Where the model cannot be taken down nothing changes; where the
   * mode's record cannot be saved only the model is gone; where the agent's settings file cannot be
   * written the mode is over, and nothing is started; else the remembered apps run again.
   */
  lemma SwitchesBackExactly(s: Voice)
    requires s.place == Rest && s.engine == Duplex
    ensures Runs(s, [SwitchOff, TakeDown(false)]) == s
    ensures Runs(s, [SwitchOff, TakeDown(true), Settle(Unsaved)]) == s.(model := false)
    ensures Runs(s, [SwitchOff, TakeDown(true), Settle(Unwritten)]) ==
            Voice(s.up, s.recorded, s.wanted, Pipeline, Pipeline, [], false, Rest)
    ensures Runs(s, [SwitchOff, TakeDown(true), Settle(Written)] + Starts(|s.remembered|)) ==
            Voice(s.up + Apps(s.remembered), s.recorded + Apps(s.remembered), s.wanted, Pipeline, Pipeline, [], false, Rest)
  {
    LeavingFails(s);
    LeavingEnds(s);
    SwitchesBackToTheStarts(s);
    hide *;
    var t := Voice(s.up, s.recorded, s.wanted, Pipeline, Pipeline, [], false, Restarting(s.remembered));
    RunsJoin(s, [SwitchOff, TakeDown(true), Settle(Written)], Starts(|s.remembered|));
    StartsAll(t, s.remembered);
  }

  /** Undoing a failed switch goes the same way with the apps it stopped, and goes on where the model cannot be taken down. */
  lemma UndoesExactly(s: Voice, stopped: seq<string>, ok: bool)
    requires s.place == Undoing(stopped)
    ensures var model := s.model && !ok;
      && Runs(s, [TakeDown(ok), Settle(Unsaved)]) == s.(model := model, place := Rest)
      && Runs(s, [TakeDown(ok), Settle(Unwritten)]) ==
         Voice(s.up, s.recorded, s.wanted, Pipeline, Pipeline, [], model, Rest)
      && Runs(s, [TakeDown(ok), Settle(Written)] + Starts(|stopped|)) ==
         Voice(s.up + Apps(stopped), s.recorded + Apps(stopped), s.wanted, Pipeline, Pipeline, [], model, Rest)
  {
    RunsTwo(s, TakeDown(ok), Settle(Unsaved));
    RunsTwo(s, TakeDown(ok), Settle(Unwritten));
    RunsTwo(s, TakeDown(ok), Settle(Written));
    var t := Voice(s.up, s.recorded, s.wanted, Pipeline, Pipeline, [], s.model && !ok, Restarting(stopped));
    assert Runs(s, [TakeDown(ok), Settle(Written)]) == t;
    RunsJoin(s, [TakeDown(ok), Settle(Written)], Starts(|stopped|));
    StartsAll(t, stopped);
  }

  /**
   * There: every app that ran is down, recorded so and remembered, and the model is on the card.
   * And back: everything is as it was.
   */
  lemma ThereAndBack(s: Voice, apps: seq<string>)
    requires Fresh(s) && !s.model && s.up <= Apps(apps)
    ensures var taken := Taken(s.recorded, apps);
      var there := Runs(s, [SwitchOn(apps)] + Stops(s.recorded, apps));
      && there == Voice({}, {}, s.wanted, Duplex, Duplex, taken, true, Rest) && Apps(taken) == s.wanted
      && Runs(there, [SwitchOff, TakeDown(true), Settle(Written)] + Starts(|taken|)) == s
  {
    var taken := Taken(s.recorded, apps);
    var t := Voice(s.up, s.recorded, s.wanted, Duplex, Pipeline, [], false, Stopping(apps, []));
    assert s.up + s.recorded == s.up && Next(s, SwitchOn(apps)) == t;
    RunsOne(s, [], SwitchOn(apps));
    assert [] + [SwitchOn(apps)] == [SwitchOn(apps)] && [] + taken == taken;
    RunsJoin(s, [SwitchOn(apps)], Stops(s.recorded, apps));
    StopsAll(t, apps, []);
    hide Next, Runs, Apps;
    assert s.recorded * Apps(apps) == s.recorded;
    assert s.up - s.recorded == {} && s.recorded - s.recorded == {};
    var there := Voice({}, {}, s.wanted, Duplex, Duplex, taken, true, Rest);
    SwitchesBackExactly(there);
    assert {} + Apps(taken) == s.wanted;
  }
}
