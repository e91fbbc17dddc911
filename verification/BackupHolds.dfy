/**
 * Backups with the app stopped. Before Kopia copies an app, a hold is recorded
 * and the app is stopped by a job; afterwards a job starts it again. The hold
 * is what remembers that it must be. Every record write and every store method
 * is one step, and any process may die between two of its steps.
 *
 * Kopia waits for an action before it goes on, so each source has at most one
 * in progress; the worker's check runs beside them.
 */
module BackupHolds {
  import opened Wrappers
  import opened Decimal
  import opened Jobs
  import opened JobRuns

  const STUCK: nat := 3 * 60
  const UNREACHABLE: nat := 45 * 60
  const CALLER := "actor:backup-service"
  const SPACE := "backup.hooks"

  // ---- The jobs a backup submits --------------------------------------------------------

  /** A moment as text; like the timestamps of the records, one text per second. */
  function Stamp(moment: int): string { if moment < 0 then "-" + Digits(-moment) else Digits(moment) }

  const STOP := "backup_stop"
  const START := "backup_start"

  function KeyOf(action: string, source: string, since: int): string { action + ":" + source + ":" + Stamp(since) }

  function HookJob(action: string, source: string, since: int): Submission {
    Submission("lifecycle", source, action, "backup-service", Some(KeyOf(action, source, since)), "", SPACE,
      Inputs("{}"), "{}", true)
  }

  function SlotOf(action: string, source: string, since: int): RequestKey {
    RequestKey(CALLER, SPACE, KeyOf(action, source, since))
  }

  /** A job for this hold was accepted, now or earlier. */
  predicate Asked(s: Store, action: string, source: string, since: int) { SlotOf(action, source, since) in s.requests }

  predicate Name(source: string) { source != "" && ':' !in source }

  lemma StampsDiffer(a: int, b: int)
    requires Stamp(a) == Stamp(b)
    ensures a == b
  {
    var x, y := if a < 0 then -a else a, if b < 0 then -b else b;
    DigitsNotEmpty(x);
    DigitsNotEmpty(y);
    assert Stamp(a)[0] == '-' <==> a < 0;
    assert Stamp(b)[0] == '-' <==> b < 0;
    assert a < 0 ==> Stamp(a)[1..] == Digits(x);
    assert b < 0 ==> Stamp(b)[1..] == Digits(y);
    DigitsDiffer(x, y);
  }

  /** A hold's stop and start requests are nobody else's. */
  lemma OneSlotEach(a: string, source: string, since: int, b: string, other: string, moment: int)
    requires Name(source) && Name(other) && a in {STOP, START} && b in {STOP, START}
    requires SlotOf(a, source, since) == SlotOf(b, other, moment)
    ensures a == b && source == other && since == moment
  {
    hide Stamp;
    KeyParts(a, source, since);
    KeyParts(b, other, moment);
    ColonSplits(source, Stamp(since), other, Stamp(moment));
    StampsDiffer(since, moment);
  }

  lemma KeyParts(action: string, source: string, since: int)
    requires action in {STOP, START}
    ensures var key := KeyOf(action, source, since);
      |key| > 12 && (key[9] == 'o' <==> action == STOP) && key[|action| + 1..] == source + ":" + Stamp(since)
  {
    hide Stamp;
    StampNotEmpty(since);
    assert KeyOf(action, source, since) == (action + ":") + (source + ":" + Stamp(since));
  }

  lemma StampNotEmpty(since: int)
    ensures Stamp(since) != ""
  {
  }

  lemma ColonSplits(a: string, b: string, c: string, d: string)
    requires ':' !in a && ':' !in c && a + ":" + b == c + ":" + d
    ensures a == c && b == d
  {
    var x, y := a + ":" + b, c + ":" + d;
    assert x[|a|] == ':' && y[|c|] == ':';
    assert forall i :: 0 <= i < |a| ==> x[i] == a[i];
    assert forall i :: 0 <= i < |c| ==> y[i] == c[i];
    assert x[..|a|] == a && y[..|c|] == c && x[|a| + 1..] == b && y[|c| + 1..] == d;
  }

  // ---- Holds and the processes that work on them ------------------------------------------

  datatype Hold = Hold(since: int, wasRunning: bool)

  /** Where a before- or after-action is, with the moment of the hold it works on. */
  datatype Action =
    | Checked(running: bool)
    | Held(since: int)
    | AwaitingStop(since: int)
    | Starting(since: int)
    | Releasing(since: int)

  /** Where the worker's check of a stuck source is; None is a hold that was gone when it was read. */
  datatype Check = Restarting(source: string, since: int) | Dropping(source: string, hold: Option<int>)

  datatype Backups = Backups(store: Store, holds: map<string, Hold>, actions: map<string, Action>, check: Option<Check>)

  datatype Event =
    | Elsewhere(op: Op)                              // anyone else's use of the job store, and time
    | BeginBefore(source: string, running: bool, refused: bool)
    | PutHold(source: string)
    | QueueStop(source: string)
    | StopEnds(source: string, stopped: bool)
    | BeginAfter(source: string)
    | QueueStart(source: string)
    | Release(source: string)
    | ActionDies(source: string)
    | Look(source: string, uploading: Option<bool>)  // what Kopia says of the source, if it answers
    | Restart
    | Drop
    | CheckDies

  function At(s: Backups, source: string): Option<Action> {
    if source in s.actions then Some(s.actions[source]) else None
  }

  function Ended(s: Backups, source: string): Backups { s.(actions := s.actions - {source}) }

  function Moving(s: Backups, source: string, step: Action): Backups { s.(actions := s.actions[source := step]) }

  predicate Conflict(r: Result<nat, Refusal>) {
    r.Err? && (r.error.IdempotencyConflict? || r.error.ResourceBusy?)
  }

  /** Long enough without Kopia working on it to be started without its after-action. */
  predicate IsStuck(hold: Hold, uploading: Option<bool>, now: int) {
    && uploading != Some(true)
    && now - hold.since >= if uploading.Some? then STUCK else UNREACHABLE
  }

  function Next(s: Backups, e: Event): Backups {
    match e
    case Elsewhere(op) => s.(store := Apply(s.store, op))
    case BeginBefore(source, running, refused) =>
      if At(s, source).Some? || refused || !Name(source) || source in s.holds then s else Moving(s, source, Checked(running))
    case PutHold(source) =>
      (match At(s, source)
       case Some(Checked(running)) =>
         var held := s.(holds := s.holds[source := Hold(s.store.clock, running)]);
         if running then Moving(held, source, Held(s.store.clock)) else Ended(held, source)
       case _ => s)
    case QueueStop(source) =>
      (match At(s, source)
       case Some(Held(since)) =>
         var (store, r) := Create(s.store, HookJob(STOP, source, since));
         if r.Ok? then Moving(s.(store := store), source, AwaitingStop(since))
         else if Conflict(r) then Moving(s, source, Releasing(since))
         else Ended(s, source)
       case _ => s)
    case StopEnds(source, stopped) =>
      (match At(s, source)
       case Some(AwaitingStop(since)) => if stopped then Ended(s, source) else Moving(s, source, Starting(since))
       case _ => s)
    case BeginAfter(source) =>
      if At(s, source).Some? || source !in s.holds then s
      else if s.holds[source].wasRunning then Moving(s, source, Starting(s.holds[source].since))
      else Moving(s, source, Releasing(s.holds[source].since))
    case QueueStart(source) =>
      (match At(s, source)
       case Some(Starting(since)) =>
         var (store, r) := Create(s.store, HookJob(START, source, since));
         if r.Ok? then Moving(s.(store := store), source, Releasing(since)) else Ended(s, source)
       case _ => s)
    case Release(source) =>
      if At(s, source).Some? && At(s, source).value.Releasing? then Ended(s.(holds := s.holds - {source}), source) else s
    case ActionDies(source) => Ended(s, source)
    case Look(source, uploading) =>
      if s.check.Some? then s
      else if source !in s.holds then
        if uploading == Some(true) || !Name(source) then s else s.(check := Some(Dropping(source, None)))
      else if !IsStuck(s.holds[source], uploading, s.store.clock) then s
      else if s.holds[source].wasRunning then s.(check := Some(Restarting(source, s.holds[source].since)))
      else s.(check := Some(Dropping(source, Some(s.holds[source].since))))
    case Restart =>
      (match s.check
       case Some(Restarting(source, since)) =>
         var (store, r) := Create(s.store, HookJob(START, source, since));
         if r.Ok? then s.(store := store, check := Some(Dropping(source, Some(since)))) else s.(check := None)
       case _ => s)
    case Drop =>
      (match s.check
       case Some(Dropping(source, _)) => s.(holds := s.holds - {source}, check := None)
       case _ => s)
    case CheckDies => s.(check := None)
  }

  function Runs(s: Backups, events: seq<Event>): Backups
    decreases |events|
  {
    if events == [] then s else Runs(Next(s, events[0]), events[1..])
  }

  lemma RunsNone(s: Backups)
    ensures Runs(s, []) == s
  {
  }

  lemma {:induction false} RunsJoin(s: Backups, a: seq<Event>, b: seq<Event>)
    ensures Runs(s, a + b) == Runs(Runs(s, a), b)
    decreases |a|
  {
    if a == [] {
      assert a + b == b;
    } else {
      hide Next;
      assert (a + b)[1..] == a[1..] + b;
      RunsJoin(Next(s, a[0]), a[1..], b);
    }
  }

  lemma RunsOne(s: Backups, events: seq<Event>, e: Event)
    ensures Runs(s, events + [e]) == Next(Runs(s, events), e)
  {
    hide Next;
    RunsJoin(s, events, [e]);
    assert [e][1..] == [];
  }

  /** A step of this source's own before- or after-action, other than dying. */
  predicate OfAction(e: Event, source: string) {
    (e.BeginBefore? || e.PutHold? || e.QueueStop? || e.StopEnds? || e.BeginAfter? || e.QueueStart? || e.Release?) &&
    e.source == source
  }

  /** A step of the worker's check, other than dying. */
  predicate OfCheck(e: Event) { e.Look? || e.Restart? || e.Drop? }

  /** Everyone else submits under other names: the caller and the space of the hooks are theirs alone. */
  predicate Foreign(op: Op) {
    match op
    case DoCreate(x) => x.Space() != SPACE
    case DoByKey(x, _) => x.Space() != SPACE
    case _ => true
  }

  // ---- What holds in every state -------------------------------------------------------------

  /** Not stopped for this hold, or asked to be started again. */
  predicate Settled(s: Store, source: string, since: int) {
    Asked(s, STOP, source, since) ==> Asked(s, START, source, since)
  }

  /** An app stopped for a backup is asked to start again, or still held for that very backup. */
  ghost predicate StopsRemembered(s: Backups) {
    forall source, since :: Name(source) && !Settled(s.store, source, since) ==>
      source in s.holds && s.holds[source] == Hold(since, true)
  }

  ghost predicate HoldsOk(s: Backups) {
    forall source <- s.holds :: Name(source) && (!s.holds[source].wasRunning ==> Settled(s.store, source, s.holds[source].since))
  }

  predicate ActionOk(s: Backups, source: string, step: Action) {
    match step
    case Checked(_) => source !in s.holds
    case Held(since) =>
      && Settled(s.store, source, since)
      && (source in s.holds || Asked(s.store, START, source, since))
      && (source in s.holds ==> s.holds[source] == Hold(since, true))
    case Releasing(since) =>
      Settled(s.store, source, since) && (source in s.holds ==> s.holds[source].since == since)
    case _ => source in s.holds ==> s.holds[source].since == step.since
  }

  predicate CheckOk(s: Backups, check: Check) {
    match check
    case Restarting(source, since) => Name(source) && since < s.store.clock
    case Dropping(source, None) => Name(source)
    case Dropping(source, Some(since)) =>
      && Name(source) && since < s.store.clock
      && (Asked(s.store, START, source, since) ||
          (!Asked(s.store, STOP, source, since) && At(s, source) != Some(Held(since))))
  }

  ghost predicate Sound(s: Backups) {
    && StopsRemembered(s) && HoldsOk(s)
    && (forall source <- s.actions :: Name(source) && ActionOk(s, source, s.actions[source]))
    && (s.check.Some? ==> CheckOk(s, s.check.value))
  }

  /** What the check drops, if anything, is asked to start, or neither stopped nor about to be. */
  predicate SafeDrop(s: Backups) {
    s.check.Some? && s.check.value.Dropping? && s.check.value.source in s.holds ==>
      var source := s.check.value.source;
      var since := s.holds[source].since;
      Asked(s.store, START, source, since) ||
      (!Asked(s.store, STOP, source, since) && At(s, source) != Some(Held(since)))
  }

  /** The worker deletes the hold it read, not one recorded since. */
  predicate DropsWhatItRead(s: Backups) {
    s.check.Some? && s.check.value.Dropping? ==>
      var c := s.check.value; c.source in s.holds ==> c.hold == Some(s.holds[c.source].since)
  }
}
