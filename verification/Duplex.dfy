/**
 * Switching the voice assistant to the full-duplex model and back. Every app
 * with a GPU build whose record says it runs is stopped before the model is
 * loaded, and started again afterwards. What runs and what the records say are
 * two things, and the job may stop between any two steps.
 */
module Duplex {
  datatype Engine = Pipeline | Duplex

  /** Where the switch job is, with the apps it has in hand. */
  datatype Place =
    | Rest
    | Stopping(todo: seq<string>, stopped: seq<string>)
    | Stopped(app: string, todo: seq<string>, stopped: seq<string>)   // down, its record not yet written
    | Noting(app: string, todo: seq<string>, stopped: seq<string>)    // and not yet remembered by the mode's record
    | Loading(stopped: seq<string>)
    | Announcing(stopped: seq<string>)
    | Undoing(stopped: seq<string>)
    | Leaving
    | Settling(stopped: seq<string>)
    | Restarting(todo: seq<string>)
    | Started(app: string, todo: seq<string>)                         // healthy, its record not yet written

  /**
   * Of the apps with a GPU build: those that are up, those whose record does not
   * say stopped, and those the household wants running; the stored mode with the
   * apps it stopped; and whether the model is on the card.
   */
  datatype Voice = Voice(
    up: set<string>, recorded: set<string>, wanted: set<string>, engine: Engine, agent: Engine, remembered: seq<string>,
    model: bool, place: Place)

  /** Putting separate steps back: the record of the mode is saved, then the agent's settings file is written. */
  datatype Back = Unsaved | Unwritten | Written

  datatype Event =
    | SwitchOn(apps: seq<string>)
    | StopNext(ok: bool, down: bool)        // a failed stop may leave the app up, or down
    | RecordStop(ok: bool)
    | Note(ok: bool)
    | Load(ok: bool, loaded: bool)          // a failed load may leave the model on the card
    | Announce(ok: bool)
    | TakeDown(ok: bool)
    | SwitchOff
    | Settle(back: Back)
    | StartNext(healthy: bool, up: bool)    // an app that does not get healthy may be up all the same
    | RecordStart(ok: bool)
    | OwnerStops(app: string)
    | OwnerStarts(app: string)
    | Crash                                 // the worker dies, or a checkpoint ends the job: cancelled, or its lease lost

  function Apps(s: seq<string>): set<string> { set x <- s }

  /** While duplex is chosen no app with a GPU build may start, whoever asks. */
  predicate StartRefused(s: Voice) { s.engine == Duplex }

  function Saved(s: Voice, engine: Engine, remembered: seq<string>, loaded: bool): Voice {
    s.(engine := engine, agent := if loaded then engine else Pipeline, remembered := remembered)
  }

  function Next(s: Voice, e: Event): Voice {
    if e.Crash? then s.(place := Rest) else
    match s.place
    case Rest =>
      (match e
       case SwitchOn(apps) =>
         if s.engine == Pipeline && s.up + s.recorded <= Apps(apps) then
           Saved(s, Duplex, [], false).(place := Stopping(apps, []))
         else s
       case SwitchOff => if s.engine == Duplex then s.(place := Leaving) else s
       case OwnerStops(app) =>
         if app in s.recorded then s.(up := s.up - {app}, recorded := s.recorded - {app}, wanted := s.wanted - {app}) else s
       case OwnerStarts(app) =>
         if StartRefused(s) then s
         else s.(up := s.up + {app}, recorded := s.recorded + {app}, wanted := s.wanted + {app})
       case _ => s)
    case Stopping(todo, stopped) =>
      (match e
       case StopNext(ok, down) =>
         if todo == [] then s.(place := Loading(stopped))
         else if todo[0] !in s.recorded then s.(place := Stopping(todo[1..], stopped))
         else if ok then s.(up := s.up - {todo[0]}, place := Stopped(todo[0], todo[1..], stopped))
         else s.(up := if down then s.up - {todo[0]} else s.up, place := Undoing(stopped))
       case _ => s)
    case Stopped(app, todo, stopped) =>
      (match e
       case RecordStop(ok) =>
         if ok then s.(recorded := s.recorded - {app}, place := Noting(app, todo, stopped))
         else s.(place := Undoing(stopped))
       case _ => s)
    case Noting(app, todo, stopped) =>
      (match e
       case Note(ok) =>
         if ok then Saved(s, Duplex, stopped + [app], false).(place := Stopping(todo, stopped + [app]))
         else s.(place := Undoing(stopped + [app]))
       case _ => s)
    case Loading(stopped) =>
      (match e
       case Load(ok, loaded) =>
         if ok then Saved(s, Duplex, stopped, true).(model := true, place := Announcing(stopped))
         else s.(model := loaded, place := Undoing(stopped))
       case _ => s)
    case Announcing(stopped) =>
      (match e
       case Announce(ok) => s.(place := if ok then Rest else Undoing(stopped))
       case _ => s)
    case Undoing(stopped) =>
      (match e
       case TakeDown(ok) => s.(model := s.model && !ok, place := Settling(stopped))
       case _ => s)
    case Leaving =>
      (match e
       case TakeDown(ok) => if ok then s.(model := false, place := Settling(s.remembered)) else s.(place := Rest)
       case _ => s)
    case Settling(stopped) =>
      (match e
       case Settle(Unsaved) => s.(place := Rest)
       case Settle(Unwritten) => Saved(s, Pipeline, [], true).(place := Rest)
       case Settle(Written) => Saved(s, Pipeline, [], true).(place := Restarting(stopped))
       case _ => s)
    case Restarting(todo) =>
      (match e
       case StartNext(healthy, up) =>
         if todo == [] then s.(place := Rest)
         else if StartRefused(s) then s.(place := Restarting(todo[1..]))
         else if healthy then s.(up := s.up + {todo[0]}, place := Started(todo[0], todo[1..]))
         else s.(up := if up then s.up + {todo[0]} else s.up, place := Restarting(todo[1..]))
       case _ => s)
    case Started(app, todo) =>
      (match e
       case RecordStart(ok) =>
         if ok then s.(recorded := s.recorded + {app}, place := Restarting(todo)) else s.(place := Rest)
       case _ => s)
  }

  function Runs(s: Voice, events: seq<Event>): Voice
    decreases |events|
  {
    if events == [] then s else Runs(Next(s, events[0]), events[1..])
  }

  lemma RunsNone(s: Voice)
    ensures Runs(s, []) == s
  {
  }

  lemma {:induction false} RunsJoin(s: Voice, a: seq<Event>, b: seq<Event>)
    ensures Runs(s, a + b) == Runs(Runs(s, a), b)
    decreases |a|
  {
    if a == [] {
      assert a + b == b;
    } else {
      hide Next;
      assert (a + b)[1..] == a[1..] + b;
      RunsJoin(Next(s, a[0]), a[1..], b);
    }
  }

  lemma RunsOne(s: Voice, events: seq<Event>, e: Event)
    ensures Runs(s, events + [e]) == Next(Runs(s, events), e)
  {
    hide Next;
    RunsJoin(s, events, [e]);
    assert [e][1..] == [];
  }

  lemma CrashStep(s: Voice)
    ensures Next(s, Crash) == s.(place := Rest)
  {
  }

  lemma StopSteps(s: Voice, app: string, todo: seq<string>, stopped: seq<string>, ok: bool, down: bool)
    requires s.place == Stopping([app] + todo, stopped) && app in s.recorded
    ensures Next(s, StopNext(ok, down)) == s.(up := if ok || down then s.up - {app} else s.up,
                                             place := if ok then Stopped(app, todo, stopped) else Undoing(stopped))
  {
    assert ([app] + todo)[1..] == todo;
  }

  lemma NoteSteps(s: Voice, app: string, todo: seq<string>, stopped: seq<string>, ok: bool)
    requires s.place == Stopped(app, todo, stopped) && s.engine == Duplex && s.agent == Pipeline
    ensures Next(s, RecordStop(false)) == s.(place := Undoing(stopped))
    ensures var t := s.(recorded := s.recorded - {app}, place := Noting(app, todo, stopped));
      Next(s, RecordStop(true)) == t &&
      Next(t, Note(ok)) == t.(remembered := if ok then stopped + [app] else s.remembered,
                             place := if ok then Stopping(todo, stopped + [app]) else Undoing(stopped + [app]))
  {
  }

  lemma LoadSteps(s: Voice, stopped: seq<string>, ok: bool, loaded: bool, announced: bool)
    requires s.place == Loading(stopped)
    ensures var t := Saved(s, Duplex, stopped, true).(model := true, place := Announcing(stopped));
      Next(s, Load(ok, loaded)) == (if ok then t else s.(model := loaded, place := Undoing(stopped))) &&
      Next(t, Announce(announced)) == t.(place := if announced then Rest else Undoing(stopped))
  {
  }

  lemma StartSteps(s: Voice, app: string, todo: seq<string>, healthy: bool, up: bool, ok: bool)
    requires s.place == Restarting([app] + todo) && s.engine == Pipeline
    ensures var t := s.(up := if healthy || up then s.up + {app} else s.up,
                        place := if healthy then Started(app, todo) else Restarting(todo));
      Next(s, StartNext(healthy, up)) == t &&
      (healthy ==> Next(t, RecordStart(ok)) == t.(recorded := if ok then s.recorded + {app} else s.recorded,
                                                 place := if ok then Restarting(todo) else Rest))
  {
    assert ([app] + todo)[1..] == todo;
  }

  /** A step of the switch job itself, the last of which may be that it is stopped. */
  predicate OfJob(e: Event) { !e.OwnerStops? && !e.OwnerStarts? }

  /** The apps whose stop is recorded and which the record or the job in progress will start again. */
  function Shelved(s: Voice): seq<string> {
    match s.place
    case Rest => s.remembered
    case Leaving => s.remembered
    case Stopping(_, stopped) => stopped
    case Stopped(_, _, stopped) => stopped
    case Noting(app, _, stopped) => stopped + [app]
    case Loading(stopped) => stopped
    case Announcing(stopped) => stopped
    case Undoing(stopped) => stopped
    case Settling(stopped) => stopped
    case Restarting(todo) => todo
    case Started(_, todo) => todo
  }

  /** These, and the one just stopped. */
  function Kept(s: Voice): set<string> { Apps(Shelved(s)) + if s.place.Stopped? then {s.place.app} else {} }

  ghost predicate Distinct(s: seq<string>) { forall i, j :: 0 <= i < j < |s| ==> s[i] != s[j] }

  /** Wanted, but neither up nor going to be started again. */
  function Lost(s: Voice): set<string> { s.wanted - s.up - Kept(s) }

  /** Up, while its record says stopped: no switch would stop it. */
  function Hidden(s: Voice): set<string> { s.up - s.recorded }

  // ---- What holds in every state ---------------------------------------------------------------

  ghost predicate Sound(s: Voice) {
    && s.up <= s.wanted && s.recorded <= s.wanted
    && Kept(s) <= s.wanted - s.up && Distinct(Shelved(s)) && Apps(Shelved(s)) !! s.recorded
    && (s.agent == Duplex ==> s.engine == Duplex && s.recorded == {})
    && PlaceOk(s)
  }

  predicate PlaceOk(s: Voice) {
    match s.place
    case Rest => s.engine == Pipeline ==> s.remembered == []
    case Stopping(todo, stopped) => s.engine == Duplex && s.remembered == stopped && s.recorded <= Apps(todo)
    case Stopped(app, todo, stopped) =>
      s.engine == Duplex && s.remembered == stopped && s.recorded <= Apps(todo) + {app} && app in s.recorded
    case Noting(_, todo, stopped) => s.engine == Duplex && s.remembered == stopped && s.recorded <= Apps(todo)
    case Loading(stopped) => s.engine == Duplex && s.remembered == stopped && s.recorded == {}
    case Announcing(stopped) => s.engine == Duplex && s.remembered == stopped && s.recorded == {}
    case Undoing(stopped) => s.engine == Duplex && s.remembered <= stopped
    case Leaving => s.engine == Duplex
    case Settling(stopped) => s.engine == Duplex && s.remembered <= stopped
    case Restarting(_) => s.engine == Pipeline && s.agent == Pipeline && s.remembered == []
    case Started(app, _) => s.engine == Pipeline && s.agent == Pipeline && s.remembered == [] && app in s.up - s.recorded
  }

  /**
   * What one step loses: apps in hand that the mode's record lacks when the job ends, and those
   * that would not stop cleanly or start again.
   */
  function Loses(s: Voice, e: Event): set<string> {
    match s.place
    case Stopping(todo, _) =>
      if e.StopNext? && !e.ok && e.down && todo != [] && todo[0] in s.recorded * s.up then {todo[0]} else {}
    case Stopped(app, _, _) => if e in {Crash, RecordStop(false)} then {app} else {}
    case Noting(app, _, _) => if e.Crash? then {app} else {}
    case Undoing(stopped) => if e.Crash? then Apps(stopped) - Apps(s.remembered) else {}
    case Settling(stopped) =>
      if e in {Crash, Settle(Unsaved)} then Apps(stopped) - Apps(s.remembered)
      else if e == Settle(Unwritten) then Apps(stopped)
      else {}
    case Restarting(todo) =>
      if e.Crash? then Apps(todo) else if e == StartNext(false, false) && todo != [] then {todo[0]} else {}
    case Started(_, todo) => if e in {Crash, RecordStart(false)} then Apps(todo) else {}
    case _ => {}
  }

  predicate Outside(s: Voice) { s.place.Rest? && s.engine == Pipeline }

  /** What may bring a lost app back: the owner starts or gives it up, or a later switch takes it in hand. */
  function Recovers(s: Voice, e: Event): set<string> {
    match e
    case OwnerStarts(app) => if Outside(s) then {app} else {}
    case OwnerStops(app) => if s.place.Rest? && app in s.recorded then {app} else {}
    case StopNext(ok, _) =>
      if ok && s.place.Stopping? && s.place.todo != [] && s.place.todo[0] in s.recorded - s.up then {s.place.todo[0]} else {}
    case _ => {}
  }

  /** An app comes up, and its record still says stopped. */
  function Hides(s: Voice, e: Event): set<string> {
    if s.place.Restarting? && e.StartNext? && s.place.todo != [] && (e.healthy || e.up) then {s.place.todo[0]} else {}
  }

  /** Its record says again that it runs. */
  function Shows(s: Voice, e: Event): set<string> {
    match e
    case RecordStart(ok) => if ok && s.place.Started? then {s.place.app} else {}
    case OwnerStarts(app) => if Outside(s) then {app} else {}
    case _ => {}
  }

  /** The accounts of one step. */
  ghost predicate Accounts(s: Voice, e: Event) {
    var t := Next(s, e);
    && Sound(t)
    && Lost(t) == Lost(s) + Loses(s, e) - Recovers(s, e)
    && Hidden(t) == Hidden(s) + Hides(s, e) - Shows(s, e)
  }

  lemma AppsOf(s: seq<string>, x: string)
    ensures Apps([]) == {} && Apps(s + [x]) == Apps(s) + {x} && Distinct([])
    ensures s != [] ==> Apps(s) == {s[0]} + Apps(s[1..])
    ensures x !in Apps(s) && Distinct(s) ==> Distinct(s + [x])
  {
  }

  lemma DistinctTail(s: seq<string>)
    requires s != [] && Distinct(s)
    ensures Distinct(s[1..]) && s[0] !in Apps(s[1..])
  {
    assert forall i :: 0 <= i < |s| - 1 ==> s[1..][i] == s[i + 1];
  }

  /** Only what is kept changes, and that only by becoming less. */
  lemma KeepsFewer(s: Voice, t: Voice)
    requires Sound(s) && t.up == s.up && t.recorded == s.recorded && t.wanted == s.wanted && PlaceOk(t) && !t.place.Stopped?
    requires Apps(Shelved(t)) <= Apps(Shelved(s)) && Distinct(Shelved(t))
    requires t.agent == Duplex ==> t.engine == Duplex && s.agent == Duplex
    ensures Sound(t) && Lost(t) == Lost(s) + (Kept(s) - Kept(t)) && Hidden(t) == Hidden(s)
  {
    hide Apps, Distinct, Shelved, PlaceOk;
  }

  /** One of the shelved apps is up again, its record as before. */
  lemma BroughtUp(s: Voice, t: Voice, app: string)
    requires Sound(s) && s.place.Restarting? && t.up == s.up + {app} && t.recorded == s.recorded && t.wanted == s.wanted
    requires app in Apps(Shelved(s)) && PlaceOk(t) && !t.place.Stopped? && t.agent == Pipeline
    requires Apps(Shelved(t)) == Apps(Shelved(s)) - {app} && Distinct(Shelved(t))
    ensures Sound(t) && Lost(t) == Lost(s) && Hidden(t) == Hidden(s) + {app}
  {
    hide Apps, Distinct, Shelved, PlaceOk;
  }

  /** Taking an app down that may have been up: it leaves the apps that are up. */
  lemma WentDown(s: Voice, down: bool)
    requires Sound(s) && s.place.Stopping? && s.place.todo != [] && s.place.todo[0] in s.recorded
    ensures Accounts(s, StopNext(false, down))
  {
    hide Apps, Distinct;
    var t := Next(s, StopNext(false, down));
    assert Shelved(t) == Shelved(s) && Kept(t) == Kept(s);
    hide Shelved, Kept;
  }

  lemma WasStopped(s: Voice, down: bool)
    requires Sound(s) && s.place.Stopping? && s.place.todo != [] && s.place.todo[0] in s.recorded
    ensures Accounts(s, StopNext(true, down))
  {
    AppsOf(s.place.todo, "");
    hide Apps, Distinct;
    var t := Next(s, StopNext(true, down));
    assert Shelved(t) == Shelved(s) && Kept(t) == Kept(s) + {s.place.todo[0]};
    hide Shelved, Kept;
  }

  /** An app whose record says stopped is passed over, whatever it does. */
  lemma PassedOver(s: Voice, e: Event)
    requires Sound(s) && s.place.Stopping?
    requires e.StopNext? && s.place.todo != [] ==> s.place.todo[0] !in s.recorded
    ensures Accounts(s, e)
  {
    AppsOf(s.place.todo, "");
    hide Apps, Distinct;
    var t := Next(s, e);
    assert Shelved(t) == (if e.Crash? then s.remembered else s.place.stopped) == s.place.stopped;
    assert Kept(t) == Kept(s);
    hide Shelved, Kept;
  }

  lemma StoppingStep(s: Voice, e: Event)
    requires Sound(s) && s.place.Stopping?
    ensures Accounts(s, e)
  {
    var todo := s.place.todo;
    hide Sound, Accounts;
    if e.StopNext? && todo != [] && todo[0] in s.recorded {
      if e.ok { WasStopped(s, e.down); } else { WentDown(s, e.down); }
    } else {
      PassedOver(s, e);
    }
  }

  lemma StoppedStep(s: Voice, e: Event)
    requires Sound(s) && s.place.Stopped?
    ensures Accounts(s, e)
  {
    StoppedFacts(s);
    var t := Next(s, e);
    if e == RecordStop(true) {
      StopRecorded(s);
    } else if t != s {
      hide Apps, Distinct;
      KeepsFewer(s, t);
      assert Kept(s) - Kept(t) == Loses(s, e);
    }
    hide Sound, Kept, Loses;
  }

  lemma StopRecorded(s: Voice)
    requires Sound(s) && s.place.Stopped?
    ensures Accounts(s, RecordStop(true))
  {
    StoppedFacts(s);
    AppsOf(s.place.stopped, s.place.app);
    hide Apps, Distinct;
    var t := Next(s, RecordStop(true));
    assert Shelved(t) == s.place.stopped + [s.place.app] && Kept(t) == Kept(s);
    hide Kept, Shelved;
  }

  /** Still recorded as running, it is none of those shelved. */
  lemma StoppedFacts(s: Voice)
    requires Sound(s) && s.place.Stopped?
    ensures s.place.app !in Apps(s.place.stopped) && Kept(s) == Apps(s.place.stopped) + {s.place.app}
  {
    hide Apps, Distinct;
  }

  lemma NotingStep(s: Voice, e: Event)
    requires Sound(s) && s.place.Noting?
    ensures Accounts(s, e)
  {
    var (stopped, app) := (s.place.stopped, s.place.app);
    NotingFacts(stopped, app);
    hide Apps, Distinct;
    if e.Note? {
      NotingEnds(s, e.ok);
      hide Accounts;
    }
  }

  lemma NotingFacts(stopped: seq<string>, app: string)
    ensures Apps(stopped + [app]) == Apps(stopped) + {app} && stopped <= stopped + [app]
    ensures Distinct(stopped + [app]) ==> app !in Apps(stopped) && Distinct(stopped)
  {
    var all := stopped + [app];
    assert all[|stopped|] == app && forall i :: 0 <= i < |stopped| ==> all[i] == stopped[i];
  }

  /** What is in hand stays so, whether the mode's record could be written or not. */
  lemma NotingEnds(s: Voice, ok: bool)
    requires Sound(s) && s.place.Noting?
    ensures Accounts(s, Note(ok))
  {
    NotingFacts(s.place.stopped, s.place.app);
    hide Apps, Distinct;
    var t := Next(s, Note(ok));
    assert Shelved(t) == Shelved(s) && Kept(t) == Kept(s);
    hide Shelved, Kept;
  }

  lemma RestartingStep(s: Voice, e: Event)
    requires Sound(s) && s.place.Restarting?
    ensures Accounts(s, e)
  {
    var todo := s.place.todo;
    AppsOf(todo, "");
    if e.StartNext? && todo != [] {
      StartNextStep(s, e.healthy, e.up);
      hide Accounts;
    } else {
      hide Apps, Distinct;
      var t := Next(s, e);
      KeepsFewer(s, t);
      assert Kept(s) - Kept(t) == Loses(s, e);
      hide Sound, Kept, Loses;
    }
  }

  lemma StartNextStep(s: Voice, healthy: bool, up: bool)
    requires Sound(s) && s.place.Restarting? && s.place.todo != []
    ensures Accounts(s, StartNext(healthy, up))
  {
    var app := s.place.todo[0];
    AppsOf(s.place.todo, "");
    DistinctTail(s.place.todo);
    hide Apps, Distinct;
    var t := Next(s, StartNext(healthy, up));
    if healthy || up {
      BroughtUp(s, t, app);
    } else {
      KeepsFewer(s, t);
      assert Kept(s) - Kept(t) == {app};
    }
    hide Sound, Kept, Shelved;
  }

  lemma StartedStep(s: Voice, e: Event)
    requires Sound(s) && s.place.Started?
    ensures Accounts(s, e)
  {
    AppsOf([], "");
    hide Apps, Distinct;
  }

  lemma RestStep(s: Voice, e: Event)
    requires Sound(s) && s.place.Rest?
    ensures Accounts(s, e)
  {
    AppsOf([], "");
    hide Apps, Distinct;
    var t := Next(s, e);
    assert Kept(t) == Kept(s) == Apps(s.remembered) && Shelved(t) in {s.remembered, []};
    hide Kept, Shelved;
  }

  lemma UndoingStep(s: Voice, e: Event)
    requires Sound(s) && s.place.Undoing?
    ensures Accounts(s, e)
  {
    var t := Next(s, e);
    assert Apps(s.remembered) <= Apps(s.place.stopped) && Distinct(s.remembered);
    hide Apps, Distinct;
    KeepsFewer(s, t);
    assert Kept(s) - Kept(t) == Loses(s, e);
    hide Sound, Kept, Loses;
  }

  /** The job ends between its two writes, or with the first of them, or goes on to the restarts. */
  lemma Settled(s: Voice, t: Voice, kept: seq<string>)
    requires Sound(s) && s.place.Settling? && kept in {s.remembered, s.place.stopped, []}
    requires t.up == s.up && t.recorded == s.recorded && t.wanted == s.wanted && PlaceOk(t) && !t.place.Stopped?
    requires Shelved(t) == kept && (t.agent == Duplex ==> t.engine == Duplex && s.agent == Duplex)
    ensures Sound(t) && Lost(t) == Lost(s) + (Apps(s.place.stopped) - Apps(kept)) && Hidden(t) == Hidden(s)
  {
    assert Apps(s.remembered) <= Apps(s.place.stopped) && Distinct(s.remembered);
    AppsOf([], "");
    hide Apps, Distinct;
    KeepsFewer(s, t);
    assert Kept(s) == Apps(s.place.stopped) && Kept(t) == Apps(kept);
    hide Kept, Shelved, Sound, PlaceOk;
  }

  lemma SettleNext(s: Voice, e: Event)
    requires s.place.Settling?
    ensures Next(s, e) ==
      if e.Crash? || e == Settle(Unsaved) then s.(place := Rest)
      else if e == Settle(Unwritten) then Saved(s, Pipeline, [], true).(place := Rest)
      else if e == Settle(Written) then Saved(s, Pipeline, [], true).(place := Restarting(s.place.stopped))
      else s
  {
  }

  lemma SettlingStep(s: Voice, e: Event)
    requires Sound(s) && s.place.Settling?
    ensures Accounts(s, e)
  {
    var (t, stopped) := (Next(s, e), s.place.stopped);
    SettleNext(s, e);
    hide Next, Apps, Distinct, Lost, Hidden, Kept;
    if e.Crash? || e == Settle(Unsaved) {
      Settled(s, t, s.remembered);
    } else if e == Settle(Unwritten) {
      Settled(s, t, []);
      AppsOf([], "");
    } else {
      Settled(s, t, stopped);
    }
    hide Sound;
  }

  lemma OtherStep(s: Voice, e: Event)
    requires Sound(s) && (s.place.Loading? || s.place.Announcing? || s.place.Leaving?)
    ensures Accounts(s, e)
  {
    hide Apps, Distinct;
  }

  /** What is lost, and what is hidden from the records, is accounted for step by step. */
  lemma StepAccounts(s: Voice, e: Event)
    requires Sound(s)
    ensures Accounts(s, e)
  {
    hide Sound, Accounts;
    match s.place
    case Stopping(_, _) => StoppingStep(s, e);
    case Stopped(_, _, _) => StoppedStep(s, e);
    case Noting(_, _, _) => NotingStep(s, e);
    case Restarting(_) => RestartingStep(s, e);
    case Started(_, _) => StartedStep(s, e);
    case Rest => RestStep(s, e);
    case Undoing(_) => UndoingStep(s, e);
    case Settling(_) => SettlingStep(s, e);
    case _ => OtherStep(s, e);
  }

  // ---- What it means over whole runs ------------------------------------------------------------

  ghost predicate Recovered(s: Voice, events: seq<Event>, app: string)
    decreases |events|
  {
    events != [] && (app in Recovers(s, events[0]) || Recovered(Next(s, events[0]), events[1..], app))
  }

  /** A step of the run loses this app, and no later one recovers it. */
  ghost predicate StaysLost(s: Voice, events: seq<Event>, app: string)
    decreases |events|
  {
    events != [] &&
    var t := Next(s, events[0]);
    (app in Loses(s, events[0]) && !Recovered(t, events[1..], app)) || StaysLost(t, events[1..], app)
  }

  ghost predicate Shown(s: Voice, events: seq<Event>, app: string)
    decreases |events|
  {
    events != [] && (app in Shows(s, events[0]) || Shown(Next(s, events[0]), events[1..], app))
  }

  /** A step of the run brings this app up without its record saying so, and no later one records it. */
  ghost predicate StaysHidden(s: Voice, events: seq<Event>, app: string)
    decreases |events|
  {
    events != [] &&
    var t := Next(s, events[0]);
    (app in Hides(s, events[0]) && !Shown(t, events[1..], app)) || StaysHidden(t, events[1..], app)
  }

  ghost predicate NothingStaysLost(s: Voice, events: seq<Event>) { forall app: string :: !StaysLost(s, events, app) }

  ghost predicate NothingStaysHidden(s: Voice, events: seq<Event>) { forall app: string :: !StaysHidden(s, events, app) }

  lemma {:induction false} RunSound(s: Voice, events: seq<Event>)
    requires Sound(s)
    ensures Sound(Runs(s, events))
    decreases |events|
  {
    hide Sound, Next;
    if events != [] {
      StepAccounts(s, events[0]);
      RunSound(Next(s, events[0]), events[1..]);
    }
  }

  /** No step both takes and gives. */
  lemma OneWay(s: Voice, e: Event)
    ensures Loses(s, e) == {} || Recovers(s, e) == {}
    ensures Hides(s, e) == {} || Shows(s, e) == {}
  {
  }

  lemma {:induction false} LostExactly(s: Voice, events: seq<Event>, app: string)
    requires Sound(s)
    ensures app in Lost(Runs(s, events)) <==>
            StaysLost(s, events, app) || (app in Lost(s) && !Recovered(s, events, app))
    decreases |events|
  {
    hide Sound, Next, Lost, Loses, Recovers, Hidden, Hides, Shows;
    if events != [] {
      StepAccounts(s, events[0]);
      OneWay(s, events[0]);
      LostExactly(Next(s, events[0]), events[1..], app);
    }
  }

  lemma {:induction false} HiddenExactly(s: Voice, events: seq<Event>, app: string)
    requires Sound(s)
    ensures app in Hidden(Runs(s, events)) <==>
            StaysHidden(s, events, app) || (app in Hidden(s) && !Shown(s, events, app))
    decreases |events|
  {
    hide Sound, Next, Lost, Loses, Recovers, Hidden, Hides, Shows;
    if events != [] {
      StepAccounts(s, events[0]);
      OneWay(s, events[0]);
      HiddenExactly(Next(s, events[0]), events[1..], app);
    }
  }

  /** Separate steps, with exactly the wanted apps up and recorded so. */
  predicate Fresh(s: Voice) {
    Outside(s) && s.agent == Pipeline && s.remembered == [] && s.up == s.recorded == s.wanted
  }

  lemma FreshIsSound(s: Voice)
    requires Fresh(s)
    ensures Sound(s) && Lost(s) == {} && Hidden(s) == {}
  {
    AppsOf([], "");
  }

  /**
   * Back in separate steps after any number of switches, failed or undone anywhere,
   * exactly the wanted apps are up - if and only if each app that some step lost was
   * later started or given up by the owner, or taken in hand by a later switch.
   */
  lemma {:induction false} SwitchingRestores(s: Voice, events: seq<Event>)
    requires Fresh(s) && Outside(Runs(s, events))
    ensures var t := Runs(s, events);
      t.up == t.wanted <==> NothingStaysLost(s, events)
  {
    FreshIsSound(s);
    RunSound(s, events);
    var t := Runs(s, events);
    AppsOf([], "");
    assert t.up <= t.wanted && Lost(t) == t.wanted - t.up;
    assert t.up == t.wanted <==> t.wanted <= t.up;
    hide Sound, Runs, Fresh, Outside, Lost;
    if app :| app in t.wanted && app !in t.up {
      assert app in Lost(t);
      LostExactly(s, events, app);
    } else if app: string :| StaysLost(s, events, app) {
      LostExactly(s, events, app);
    }
  }

  /**
   * While the agent talks to the full-duplex model no other app with a GPU build is up - if and
   * only if no step left one up behind a record that says stopped.
   */
  lemma {:induction false} AloneOnTheCard(s: Voice, events: seq<Event>)
    requires Fresh(s) && Runs(s, events).agent == Duplex
    ensures var t := Runs(s, events);
      t.up == {} <==> NothingStaysHidden(s, events)
  {
    FreshIsSound(s);
    RunSound(s, events);
    var t := Runs(s, events);
    assert t.recorded == {} && Hidden(t) == t.up;
    hide Sound, Runs, Fresh, Hidden;
    if app :| app in Hidden(t) {
      HiddenExactly(s, events, app);
    } else if app: string :| StaysHidden(s, events, app) {
      HiddenExactly(s, events, app);
    }
  }

  /** Whatever fails or crashes: no app the owner had stopped comes up again, and the switch's own restarts are never refused. */
  lemma AlwaysWithinBounds(s: Voice, events: seq<Event>)
    requires Fresh(s)
    ensures var t := Runs(s, events);
      && t.up <= t.wanted && t.recorded <= t.wanted && (t.agent == Duplex ==> t.recorded == {})
      && (t.place.Restarting? ==> !StartRefused(t))
  {
    FreshIsSound(s);
    RunSound(s, events);
  }

  /** A crash loses what the mode's record does not have: while apps are started again, every one not yet up. */
  lemma WhatACrashLoses(s: Voice, events: seq<Event>)
    requires Fresh(s)
    ensures var t := Runs(s, events);
      Lost(Next(t, Crash)) == Lost(t) + match t.place
        case Stopped(app, _, _) => {app}
        case Noting(app, _, _) => {app}
        case Undoing(stopped) => Apps(stopped) - Apps(t.remembered)
        case Settling(stopped) => Apps(stopped) - Apps(t.remembered)
        case Restarting(todo) => Apps(todo)
        case Started(_, todo) => Apps(todo)
        case _ => {}
  {
    FreshIsSound(s);
    RunSound(s, events);
    StepAccounts(Runs(s, events), Crash);
  }

  // ---- Runs that lose or hide apps ------------------------------------------------------------------

  const ONE := "one"
  const TWO := "two"
  const BOTH := [ONE, TWO]
  const STARTED := Voice({ONE, TWO}, {ONE, TWO}, {ONE, TWO}, Pipeline, Pipeline, [], false, Rest)

  /** The job works, except that the agent's settings file may not be written. */
  predicate OnlyTheFileFails(e: Event) {
    && OfJob(e) && e != Settle(Unsaved) && !e.Crash?
    && (e.StopNext? || e.RecordStop? || e.Note? || e.Load? || e.TakeDown? || e.RecordStart? ==> e.ok)
    && (e.StartNext? ==> e.healthy)
  }

  predicate Fits(e: Event, working: bool) { OfJob(e) && (working ==> OnlyTheFileFails(e)) }

  /** From two running apps, steps of the job lead here; if asked, all of them work. */
  ghost predicate Reached(s: Voice, working: bool) {
    exists events: seq<Event> :: s == Runs(STARTED, events) && forall e <- events :: Fits(e, working)
  }

  lemma ReachedNext(s: Voice, e: Event, working: bool)
    requires Reached(s, working) && Fits(e, working)
    ensures Reached(Next(s, e), working)
  {
    hide Next, Fits;
    var events: seq<Event> :| s == Runs(STARTED, events) && forall e <- events :: Fits(e, working);
    RunsOne(STARTED, events, e);
    assert Next(s, e) == Runs(STARTED, events + [e]);
  }

  lemma ReachedAnyhow(s: Voice)
    requires Reached(s, true)
    ensures Reached(s, false)
  {
    hide OnlyTheFileFails, OfJob;
    var events: seq<Event> :| s == Runs(STARTED, events) && forall e <- events :: Fits(e, true);
    forall e | e in events ensures Fits(e, false) { assert Fits(e, true); }
  }

  /** The next app is stopped, and that is recorded twice. */
  lemma StoppedToo(s: Voice, app: string, todo: seq<string>, stopped: seq<string>, working: bool)
    requires Reached(s, working) && s.engine == Duplex && s.agent == Pipeline
    requires s.place == Stopping([app] + todo, stopped) && app in s.recorded
    ensures Reached(s.(up := s.up - {app}, recorded := s.recorded - {app}, remembered := stopped + [app],
                       place := Stopping(todo, stopped + [app])), working)
  {
    hide Reached;
    assert ([app] + todo)[1..] == todo;
    ReachedNext(s, StopNext(true, false), working);
    var t := s.(up := s.up - {app}, place := Stopped(app, todo, stopped));
    assert Next(s, StopNext(true, false)) == t;
    ReachedNext(t, RecordStop(true), working);
    ReachedNext(Next(t, RecordStop(true)), Note(true), working);
  }

  lemma BothStopped()
    ensures Reached(Voice({}, {}, {ONE, TWO}, Duplex, Pipeline, BOTH, false, Stopping([], BOTH)), true)
  {
    assert Reached(STARTED, true) by { assert Runs(STARTED, []) == STARTED; }
    hide Reached;
    var s := Voice({ONE, TWO}, {ONE, TWO}, {ONE, TWO}, Duplex, Pipeline, [], false, Stopping(BOTH, []));
    ReachedNext(STARTED, Event.SwitchOn(BOTH), true);
    assert Next(STARTED, Event.SwitchOn(BOTH)) == s && [ONE] + [TWO] == BOTH && [] + [ONE] == [ONE];
    StoppedToo(s, ONE, [TWO], [], true);
    assert {ONE, TWO} - {ONE} == {TWO} && {TWO} - {TWO} == {} && [TWO] + [] == [TWO];
    StoppedToo(Voice({TWO}, {TWO}, {ONE, TWO}, Duplex, Pipeline, [ONE], false, Stopping([TWO], [ONE])), TWO, [], [ONE], true);
  }

  /** The model loads, the settings file cannot be written, and the switch is undone up to putting separate steps back. */
  lemma BothInHand()
    ensures Reached(Voice({}, {}, {ONE, TWO}, Duplex, Duplex, BOTH, false, Settling(BOTH)), true)
  {
    BothStopped();
    hide Reached;
    var s := Voice({}, {}, {ONE, TWO}, Duplex, Pipeline, BOTH, false, Stopping([], BOTH));
    ReachedNext(s, StopNext(true, false), true);
    ReachedNext(Next(s, StopNext(true, false)), Load(true, true), true);
    var t := Voice({}, {}, {ONE, TWO}, Duplex, Duplex, BOTH, true, Announcing(BOTH));
    assert Next(Next(s, StopNext(true, false)), Load(true, true)) == t;
    ReachedNext(t, Announce(false), true);
    ReachedNext(Next(t, Announce(false)), TakeDown(true), true);
    assert Next(Next(t, Announce(false)), TakeDown(true)) == Voice({}, {}, {ONE, TWO}, Duplex, Duplex, BOTH, false, Settling(BOTH));
  }

  /** It still cannot: with no crash and every stop working, no app is started again, and nothing remembers them. */
  lemma AnUnwrittenFileLosesBoth() returns (s: Voice)
    ensures Reached(s, true) && Outside(s) && s.remembered == [] && s.up == s.recorded == {} && s.wanted == {ONE, TWO}
  {
    BothInHand();
    var t := Voice({}, {}, {ONE, TWO}, Duplex, Duplex, BOTH, false, Settling(BOTH));
    hide Reached;
    ReachedNext(t, Settle(Unwritten), true);
    s := Next(t, Settle(Unwritten));
  }

  lemma BothToStart()
    ensures Reached(Voice({}, {}, {ONE, TWO}, Pipeline, Pipeline, [], false, Restarting(BOTH)), true)
  {
    BothInHand();
    hide Reached;
    ReachedNext(Voice({}, {}, {ONE, TWO}, Duplex, Duplex, BOTH, false, Settling(BOTH)), Settle(Written), true);
  }

  /** Or it can, and the job is stopped before the first start. */
  lemma ACrashLosesBoth() returns (s: Voice)
    ensures Reached(s, true)
    ensures var t := Next(s, Crash);
      Outside(t) && t.remembered == [] && t.up == t.recorded == {} && t.wanted == {ONE, TWO}
  {
    BothToStart();
    s := Voice({}, {}, {ONE, TWO}, Pipeline, Pipeline, [], false, Restarting(BOTH));
  }

  /** Back in separate steps, one app came up without getting healthy: its record says stopped. */
  lemma OneHidden()
    ensures Reached(Voice({ONE}, {}, {ONE, TWO}, Pipeline, Pipeline, [], false, Restarting([TWO])), false)
  {
    BothToStart();
    var s := Voice({}, {}, {ONE, TWO}, Pipeline, Pipeline, [], false, Restarting(BOTH));
    ReachedAnyhow(s);
    hide Reached;
    ReachedNext(s, StartNext(false, true), false);
    assert BOTH[1..] == [TWO] && {} + {ONE} == {ONE};
  }

  lemma OneRecorded()
    ensures Reached(Voice({ONE, TWO}, {TWO}, {ONE, TWO}, Pipeline, Pipeline, [], false, Rest), false)
  {
    OneHidden();
    hide Reached;
    var t := Voice({ONE}, {}, {ONE, TWO}, Pipeline, Pipeline, [], false, Restarting([TWO]));
    ReachedNext(t, StartNext(true, true), false);
    var u := Voice({ONE, TWO}, {}, {ONE, TWO}, Pipeline, Pipeline, [], false, Started(TWO, []));
    assert [TWO][1..] == [] && {ONE} + {TWO} == {ONE, TWO} && Next(t, StartNext(true, true)) == u;
    ReachedNext(u, RecordStart(true), false);
    ReachedNext(Next(u, RecordStart(true)), StartNext(true, true), false);
    assert {} + {TWO} == {TWO};
  }

  /** The next switch passes it over: it is up while the agent talks to the model on the card. */
  lemma AHiddenAppStaysUp() returns (s: Voice)
    ensures Reached(s, false) && s.place == Rest && s.agent == Duplex && s.model && s.up == {ONE}
  {
    OneRecorded();
    hide Reached;
    var s0 := Voice({ONE, TWO}, {TWO}, {ONE, TWO}, Pipeline, Pipeline, [], false, Rest);
    ReachedNext(s0, Event.SwitchOn(BOTH), false);
    var s1 := Voice({ONE, TWO}, {TWO}, {ONE, TWO}, Duplex, Pipeline, [], false, Stopping(BOTH, []));
    assert Next(s0, Event.SwitchOn(BOTH)) == s1;
    ReachedNext(s1, StopNext(true, false), false);
    var s2 := s1.(place := Stopping([TWO], []));
    assert BOTH[1..] == [TWO] && ONE[0] != TWO[0] && Next(s1, StopNext(true, false)) == s2;
    assert [TWO] + [] == [TWO] && [] + [TWO] == [TWO] && {ONE, TWO} - {TWO} == {ONE} && {TWO} - {TWO} == {};
    StoppedToo(s2, TWO, [], [], false);
    s := LoadedBeside(Voice({ONE}, {}, {ONE, TWO}, Duplex, Pipeline, [TWO], false, Stopping([], [TWO])));
  }

  lemma LoadedBeside(s: Voice) returns (t: Voice)
    requires Reached(s, false) && s.place.Stopping? && s.place.todo == []
    ensures Reached(t, false) && t == Saved(s, Duplex, s.place.stopped, true).(model := true, place := Rest)
  {
    hide Reached;
    ReachedNext(s, StopNext(true, false), false);
    t := Next(s, StopNext(true, false));
    ReachedNext(t, Load(true, true), false);
    t := Next(t, Load(true, true));
    ReachedNext(t, Announce(true), false);
    t := Next(t, Announce(true));
  }
}
