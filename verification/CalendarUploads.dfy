/** What becomes, in Nextcloud, of an event created here: one file, under a name no other event has. */
module CalendarUploads {
  import opened Wrappers
  import opened Decimal
  import opened CalDav
  import opened LocalCalendar
  import opened CalendarRuns
  import opened CalendarSafety

  // ---- The name of an event created here ------------------------------------------------

  /** Two tokens before its id stands the one its UID was made from. */
  function NameOf(id: nat): string
    requires id >= 2
  {
    NewUid(id - 2) + ".ics"
  }

  lemma NamesDiffer(a: nat, b: nat)
    requires a >= 2 && b >= 2 && NameOf(a) == NameOf(b)
    ensures a == b
  {
    var x, y := Digits(a - 2), Digits(b - 2);
    assert NameOf(a)[..|NameOf(a)| - 11] == x && NameOf(b)[..|NameOf(b)| - 11] == y;
    DigitsDiffer(a - 2, b - 2);
  }

  /** An event created here has its own name, whatever is edited later. */
  predicate OwnName(e: Entry) {
    !e.record.fromNextcloud ==>
      e.id >= 2 && e.record.uid == NewUid(e.id - 2) && e.record.href == NameOf(e.id)
  }

  lemma UpdateOwnName(b: Bucket, id: nat, revision: Option<nat>, edited: Option<Ics>)
    requires forall e <- b.events :: OwnName(e)
    ensures forall e <- Updated(b, id, revision, edited).0.events :: OwnName(e)
  {
    hide NewUid;
    if Updated(b, id, revision, edited).1.Ok? {
      var current := Existing(b, id, revision).value;
      assert Entry(id, current) in b.events && OwnName(Entry(id, current));
      OthersStay(b.events, id, MakeRecord(edited.value, current.uid, current.href, current.fromNextcloud, true,
                                          current.etag, current.conflict, b.minted).value);
    }
  }

  lemma CreateOwnName(b: Bucket, ics: Option<Ics>)
    requires forall e <- b.events :: OwnName(e)
    ensures forall e <- Created(b, ics).0.events :: OwnName(e)
  {
    hide NewUid;
    var (b', r) := Created(b, ics);
    if r.Ok? {
      var x := b'.events[|b.events|];
      assert b'.events == b.events + [x] && OwnName(x);
    }
  }

  lemma SyncOwnName(b: Bucket, s: Server, env: seq<Weather>)
    requires Sound(s) && forall e <- b.events :: OwnName(e)
    ensures forall e <- Pushed(b, s, env).bucket.events :: OwnName(e)
  {
    hide Pushed, Sound, NewUid, NameOf;
    PushAccounts(b, s, env);
    forall x | x in Pushed(b, s, env).bucket.events ensures OwnName(x) {
      assert FromOneOf(x, b.events);
    }
  }

  lemma StepOwnName(w: World, step: Step)
    requires WellFormed(w) && forall e <- w.bucket.events :: OwnName(e)
    ensures forall e <- Next(w, step).bucket.events :: OwnName(e)
  {
    hide Pushed, Replaced, Sound, DistinctIds, NewUid, NameOf, Created, Updated;
    match step
    case Create(ics) => CreateOwnName(w.bucket, ics);
    case Update(id, revision, edited) => UpdateOwnName(w.bucket, id, revision, edited);
    case Remove(id, _) => WithoutSound(w.bucket.events, id);
    case Import(listing, untagged) => ImportedAreCopies(w.bucket, Exported(w.server.files, listing, untagged));
    case Sync(env, _) => SyncOwnName(w.bucket, w.server, env);
    case Resolve(id, _, _, _, _) => WithoutSound(w.bucket.events, id);
    case Elsewhere(_) =>
  }

  lemma {:induction false} RunOwnName(w: World, steps: seq<Step>)
    requires WellFormed(w) && w.bucket.events == []
    ensures forall e <- Run(w, steps).bucket.events :: OwnName(e)
    decreases |steps|
  {
    hide Next, WellFormed, OwnName;
    if steps != [] {
      var n := |steps| - 1;
      RunOwnName(w, steps[..n]);
      RunWellFormed(w, steps[..n], n);
      StepOwnName(Run(w, steps[..n]), steps[n]);
    }
  }

  /** At whatever moments of a run they are seen: different events created here have different names, one event always the same. */
  lemma {:induction false} CreatedNamesDiffer(w: World, steps: seq<Step>, i: nat, e: Entry, j: nat, f: Entry)
    requires WellFormed(w) && w.bucket.events == [] && i <= |steps| && j <= |steps|
    requires e in Run(w, steps[..i]).bucket.events && !e.record.fromNextcloud
    requires f in Run(w, steps[..j]).bucket.events && !f.record.fromNextcloud
    ensures e.record.href == f.record.href <==> e.id == f.id
  {
    hide Run, WellFormed, NameOf;
    RunOwnName(w, steps[..i]);
    RunOwnName(w, steps[..j]);
    assert OwnName(e) && OwnName(f);
    if e.record.href == f.record.href { NamesDiffer(e.id, f.id); }
  }

  // ---- Ids are never given again ------------------------------------------------------------

  /** It was there before, of the same kind, or its id is new. */
  ghost predicate CameFrom(b: Bucket, x: Entry) {
    x.id >= b.minted || exists e <- b.events :: e.id == x.id && e.record.fromNextcloud == x.record.fromNextcloud
  }

  lemma {:induction false} ImportedCameFrom(b: Bucket, rows: seq<Row>)
    ensures Imported(b, rows).minted >= b.minted
    ensures forall x <- Imported(b, rows).events :: x in b.events || x.id >= b.minted
    decreases |rows|
  {
    if rows != [] && |b.events| < MAX_EVENTS_PER_OWNER {
      match Copy(rows[0], Uids(b.events), b.minted)
      case None => ImportedCameFrom(b, rows[1..]);
      case Some(record) =>
        ImportedCameFrom(b.(events := b.events + [Entry(b.minted + 1, record)], minted := b.minted + 2), rows[1..]);
    }
  }

  lemma StepCameFrom(w: World, step: Step)
    requires WellFormed(w)
    ensures Next(w, step).bucket.minted >= w.bucket.minted
    ensures forall x <- Next(w, step).bucket.events :: CameFrom(w.bucket, x)
  {
    hide Pushed, Replaced, Sound, DistinctIds, NewUid;
    match step
    case Create(_) =>
    case Update(id, revision, edited) =>
      if Updated(w.bucket, id, revision, edited).1.Ok? {
        var current := Existing(w.bucket, id, revision).value;
        assert Entry(id, current) in w.bucket.events;
        OthersStay(w.bucket.events, id, MakeRecord(edited.value, current.uid, current.href, current.fromNextcloud, true,
                                                   current.etag, current.conflict, w.bucket.minted).value);
      }
    case Remove(id, _) => WithoutSound(w.bucket.events, id);
    case Import(listing, untagged) => ImportedCameFrom(w.bucket, Exported(w.server.files, listing, untagged));
    case Sync(env, _) =>
      PushAccounts(w.bucket, w.server, env);
      SyncMints(w.bucket, w.server, env);
      forall x | x in Pushed(w.bucket, w.server, env).bucket.events ensures CameFrom(w.bucket, x) {
        assert FromOneOf(x, w.bucket.events);
      }
    case Resolve(id, _, _, _, _) => WithoutSound(w.bucket.events, id);
    case Elsewhere(_) =>
  }

  lemma SyncMints(b: Bucket, s: Server, env: seq<Weather>)
    ensures Pushed(b, s, env).bucket.minted == b.minted
  {
  }

  lemma {:induction false} KindStays(w: World, steps: seq<Step>, i: nat, e: Entry, x: Entry)
    requires WellFormed(w) && i <= |steps| && e in Run(w, steps[..i]).bucket.events
    requires x in Run(w, steps).bucket.events && x.id == e.id
    ensures x.record.fromNextcloud == e.record.fromNextcloud
    ensures Run(w, steps).bucket.minted >= Run(w, steps[..i]).bucket.minted > e.id
    decreases |steps|
  {
    hide Next, Sound;
    RunWellFormed(w, steps, i);
    if i == |steps| {
      assert steps[..i] == steps;
    } else {
      var n := |steps| - 1;
      assert steps[..n][..i] == steps[..i];
      RunWellFormed(w, steps[..n], n);
      assert steps[..n][..n] == steps[..n];
      hide WellFormed;
      MintedGrows(w, steps[..n], i);
      StepCameFrom(Run(w, steps[..n]), steps[n]);
      assert CameFrom(Run(w, steps[..n]).bucket, x);
      var y :| y in Run(w, steps[..n]).bucket.events && y.id == x.id && y.record.fromNextcloud == x.record.fromNextcloud;
      KindStays(w, steps[..n], i, e, y);
    }
  }

  lemma {:induction false} MintedGrows(w: World, steps: seq<Step>, i: nat)
    requires WellFormed(w) && i <= |steps|
    ensures Run(w, steps).bucket.minted >= Run(w, steps[..i]).bucket.minted
    decreases |steps|
  {
    hide Next, WellFormed;
    if i == |steps| {
      assert steps[..i] == steps;
    } else {
      var n := |steps| - 1;
      assert steps[..n][..i] == steps[..i] && steps[..n][..n] == steps[..n];
      MintedGrows(w, steps[..n], i);
      RunWellFormed(w, steps[..n], n);
      StepCameFrom(Run(w, steps[..n]), steps[n]);
    }
  }

  // ---- What Mu3Lab does in Nextcloud for one event -----------------------------------------------

  function OwnEffects(log: seq<Effect>): (r: seq<Effect>)
    ensures forall e <- r :: e in log && e.who == Mu3Lab
    ensures forall e <- log :: e.who == Mu3Lab ==> e in r
  {
    if log == [] then [] else (if log[0].who == Mu3Lab then [log[0]] else []) + OwnEffects(log[1..])
  }

  /** The changes made while the events with this id are sent. */
  function MadeSending(s: Server, events: seq<Entry>, env: seq<Weather>, id: nat): seq<Effect>
    decreases |events|
  {
    if events == [] then [] else
    var (t, env', verdict) := SendEvent(s, events[0].record, env);
    (if events[0].id == id && |s.log| <= |t.log| then OwnEffects(t.log[|s.log|..]) else []) +
    if verdict.Stop? then [] else MadeSending(t, events[1..], env', id)
  }

  /** The changes one sync makes for an event. */
  function MadeBySync(w: World, env: seq<Weather>, id: nat): seq<Effect> {
    var d := SendDeletes(w.server, w.bucket.deleted, env);
    if d.ending != Done then [] else MadeSending(d.server, w.bucket.events, d.env, id)
  }

  /** The changes one step makes for an event: its part of a sync, or its settled conflict. */
  function MadeBy(w: World, step: Step, id: nat): seq<Effect> {
    match step
    case Sync(env, _) => MadeBySync(w, env, id)
    case Resolve(i, _, _, _, _) =>
      if i == id && |w.server.log| <= |Next(w, step).server.log|
      then OwnEffects(Next(w, step).server.log[|w.server.log|..]) else []
    case _ => []
  }

  lemma {:induction false} MadeForTheEvent(s: Server, events: seq<Entry>, env: seq<Weather>, id: nat)
    requires Sound(s)
    ensures forall x <- MadeSending(s, events, env, id) ::
      exists e <- events :: e.id == id && EventEffect(e.record, x)
    decreases |events|
  {
    if events == [] { return; }
    var e := events[0];
    EventAccounts(s, e.record, env);
    var (t, env', verdict) := SendEvent(s, e.record, env);
    if !verdict.Stop? { MadeForTheEvent(t, events[1..], env', id); }
    hide SendEvent, EventEffect, Sound;
    assert e in events && forall x <- events[1..] :: x in events;
  }

  /** No change of a list being sent is left out: each was made for one of its events. */
  lemma {:induction false} MadeForSomeone(s: Server, events: seq<Entry>, env: seq<Weather>, k: nat)
    requires Sound(s) && |s.log| <= k < |SendEvents(s, events, env).server.log|
    requires SendEvents(s, events, env).server.log[k].who == Mu3Lab
    ensures exists e <- events :: SendEvents(s, events, env).server.log[k] in MadeSending(s, events, env, e.id)
    decreases |events|
  {
    var e := events[0];
    EventAccounts(s, e.record, env);
    var (t, env', verdict) := SendEvent(s, e.record, env);
    var u := SendEvents(s, events, env).server;
    if k < |t.log| {
      if !verdict.Stop? { EventsAccount(t, events[1..], env'); }
      assert t.log[|s.log|..][k - |s.log|] == u.log[k];
      assert u.log[k] in MadeSending(s, events, env, e.id);
    } else {
      MadeForSomeone(t, events[1..], env', k);
      var f :| f in events[1..] && u.log[k] in MadeSending(t, events[1..], env', f.id);
      assert f in events && u.log[k] in MadeSending(s, events, env, f.id);
    }
  }

  /** What Mu3Lab may do for an event created here: create or - only in settling a conflict - replace its one file. */
  ghost predicate OnlyItsFile(w: World, step: Step, id: nat)
    requires id >= 2
  {
    forall x <- MadeBy(w, step, id) ::
      x.name == NameOf(id) && x.after.Some? && (step.Sync? ==> x.before.None?)
  }

  /** All events with this id were created here. */
  predicate LocalUnder(b: Bucket, id: nat) { forall x <- b.events :: x.id == id ==> !x.record.fromNextcloud }

  lemma StepOnlyItsFile(w: World, step: Step, id: nat)
    requires WellFormed(w) && id >= 2 && LocalUnder(w.bucket, id) && forall x <- w.bucket.events :: OwnName(x)
    ensures OnlyItsFile(w, step, id)
  {
    hide NameOf, SendEvents, SendDeletes, Replaced;
    match step
    case Sync(env, _) =>
      StonesAccount(w.server, w.bucket.deleted, env);
      var d := SendDeletes(w.server, w.bucket.deleted, env);
      MadeForTheEvent(d.server, w.bucket.events, d.env, id);
      hide MadeSending;
    case Resolve(i, _, _, env, _) =>
      var found := Find(w.bucket.events, i);
      if found.Some? {
        ReplacedAccounts(w.server, found.value, env);
        assert Entry(i, found.value) in w.bucket.events;
      }
    case _ =>
  }

  /** Every change of a sync deletes what a tombstone names, or was made for an event of the bucket. */
  lemma EveryChangeIsForSomeone(w: World, env: seq<Weather>, k: nat)
    requires Sound(w.server)
    requires var t := Pushed(w.bucket, w.server, env).server; |w.server.log| <= k < |t.log| && t.log[k].who == Mu3Lab
    ensures var x := Pushed(w.bucket, w.server, env).server.log[k];
      StoneLicensed(w.bucket.deleted, x) || exists e <- w.bucket.events :: x in MadeBySync(w, env, e.id)
  {
    hide SendEvents, SendDeletes, MadeSending, StoneLicensed, Sound;
    var d := SendDeletes(w.server, w.bucket.deleted, env);
    StonesAccount(w.server, w.bucket.deleted, env);
    if k >= |d.server.log| {
      MadeForSomeone(d.server, w.bucket.events, d.env, k);
    } else if d.ending == Done {
      EventsAccount(d.server, w.bucket.events, d.env);
    }
  }

  // ---- Counting its uploads ----------------------------------------------------------------------

  lemma {:induction false} OwnCreations(log: seq<Effect>, name: string)
    requires forall e <- log :: e.who == Mu3Lab ==> e.name == name && e.before.None? && e.after.Some?
    ensures |OwnEffects(log)| <= Creations(log, name)
    decreases |log|
  {
    if log != [] {
      assert log[0] in log && forall e <- log[1..] :: e in log;
      OwnCreations(log[1..], name);
      assert [log[0]][..0] == [];
      CountsJoin([log[0]], log[1..], name);
      assert [log[0]] + log[1..] == log;
    }
  }

  /** A later stretch of the log holds all that a part of it does. */
  lemma CreationsGrow(s: Server, t: Server, u: Server, name: string)
    requires Grows(s, t) && Grows(t, u)
    ensures Creations(u.log[|s.log|..], name) == Creations(t.log[|s.log|..], name) + Creations(u.log[|t.log|..], name)
  {
    assert u.log[|s.log|..] == t.log[|s.log|..] + u.log[|t.log|..];
    CountsJoin(t.log[|s.log|..], u.log[|t.log|..], name);
  }

  lemma {:induction false} SendingCreates(s: Server, events: seq<Entry>, env: seq<Weather>, id: nat, name: string)
    requires Sound(s) && forall e <- events :: e.id == id ==> !e.record.fromNextcloud && e.record.href == name
    ensures Grows(s, SendEvents(s, events, env).server)
    ensures |MadeSending(s, events, env, id)| <= Creations(SendEvents(s, events, env).server.log[|s.log|..], name)
    decreases |events|
  {
    if events == [] { return; }
    var e := events[0];
    EventAccounts(s, e.record, env);
    var (t, env', verdict) := SendEvent(s, e.record, env);
    var u := SendEvents(s, events, env).server;
    if verdict.Stop? {
      assert u.log[|t.log|..] == [];
    } else {
      assert forall x <- events[1..] :: x in events;
      SendingCreates(t, events[1..], env', id, name);
    }
    assert Grows(t, u);
    CreationsGrow(s, t, u, name);
    if e.id == id { OwnCreations(t.log[|s.log|..], name); }
  }

  /** How often syncs of this run created a file for the event. */
  function Uploads(w: World, steps: seq<Step>, id: nat): nat
    decreases |steps|
  {
    if steps == [] then 0 else
    var n := |steps| - 1;
    Uploads(w, steps[..n], id) +
    if steps[n].Sync? then |MadeBySync(Run(w, steps[..n]), steps[n].env, id)| else 0
  }

  lemma SyncCreates(w: World, env: seq<Weather>, id: nat)
    requires WellFormed(w) && id >= 2 && LocalUnder(w.bucket, id) && forall x <- w.bucket.events :: OwnName(x)
    ensures var t := Pushed(w.bucket, w.server, env).server;
      Grows(w.server, t) && |MadeBySync(w, env, id)| <= Creations(t.log[|w.server.log|..], NameOf(id))
  {
    hide NameOf, SendEvents, SendDeletes, MadeSending;
    var d := SendDeletes(w.server, w.bucket.deleted, env);
    StonesAccount(w.server, w.bucket.deleted, env);
    if d.ending == Done {
      SendingCreates(d.server, w.bucket.events, d.env, id, NameOf(id));
      CreationsGrow(w.server, d.server, Pushed(w.bucket, w.server, env).server, NameOf(id));
    }
  }

  /** At every moment of the run, what goes by this id was created here. */
  ghost predicate LocalThroughout(w: World, steps: seq<Step>, id: nat) {
    forall j :: 0 <= j <= |steps| ==> LocalUnder(Run(w, steps[..j]).bucket, id)
  }

  lemma {:induction false} UploadsAreCreations(w: World, steps: seq<Step>, id: nat)
    requires WellFormed(w) && w.bucket.events == [] && id >= 2 && LocalThroughout(w, steps, id)
    ensures Grows(w.server, Run(w, steps).server)
    ensures Uploads(w, steps, id) <= Creations(Run(w, steps).server.log[|w.server.log|..], NameOf(id))
    decreases |steps|
  {
    hide WellFormed, NameOf, OwnName, LocalUnder;
    if steps == [] { return; }
    var n := |steps| - 1;
    var here := Run(w, steps[..n]);
    assert forall j :: 0 <= j <= n ==> steps[..n][..j] == steps[..j];
    UploadsAreCreations(w, steps[..n], id);
    RunWellFormed(w, steps[..n], n);
    assert steps[..n][..n] == steps[..n];
    RunOwnName(w, steps[..n]);
    NextWellFormed(here, steps[n]);
    CreationsGrow(w.server, here.server, Run(w, steps).server, NameOf(id));
    if steps[n].Sync? { SyncCreates(here, steps[n].env, id); }
  }

  /** An event once seen as created here is so at every moment of the run. */
  lemma {:induction false} AlwaysLocal(w: World, steps: seq<Step>, i: nat, e: Entry)
    requires WellFormed(w) && i <= |steps| && e in Run(w, steps[..i]).bucket.events && !e.record.fromNextcloud
    ensures LocalThroughout(w, steps, e.id)
  {
    hide Run, WellFormed;
    forall j, x | 0 <= j <= |steps| && x in Run(w, steps[..j]).bucket.events && x.id == e.id
      ensures !x.record.fromNextcloud
    {
      if i <= j {
        assert steps[..j][..i] == steps[..i];
        KindStays(w, steps[..j], i, e, x);
      } else {
        assert steps[..i][..j] == steps[..j];
        KindStays(w, steps[..i], j, x, e);
      }
    }
  }

  /**
   * One event created here, over the whole run - every retry, edit and settled conflict, and after it
   * is forgotten: whatever Mu3Lab does for it in Nextcloud is on its one name and never a removal; a
   * sync only ever creates it where nothing stands; and it creates it no more often than the file was
   * missing: with the file not there at first and never removed, at most once.
   */
  lemma {:induction false} AtMostOneUpload(w: World, steps: seq<Step>, i: nat, e: Entry)
    requires WellFormed(w) && w.bucket.events == []
    requires i <= |steps| && e in Run(w, steps[..i]).bucket.events && !e.record.fromNextcloud
    ensures e.id >= 2 && e.record.href == NameOf(e.id)
    ensures forall j :: 0 <= j < |steps| ==> OnlyItsFile(Run(w, steps[..j]), steps[j], e.id)
    ensures var (s, t, name) := (w.server, Run(w, steps).server, NameOf(e.id));
      && |s.log| <= |t.log|
      && Uploads(w, steps, e.id) + Present(s.files, name) <= Removals(t.log[|s.log|..], name) + Present(t.files, name)
  {
    RunOwnName(w, steps[..i]);
    assert OwnName(e);
    AlwaysLocal(w, steps, i, e);
    hide NameOf, OnlyItsFile, MadeBy;
    forall j | 0 <= j < |steps| ensures OnlyItsFile(Run(w, steps[..j]), steps[j], e.id) {
      RunWellFormed(w, steps, j);
      RunOwnName(w, steps[..j]);
      StepOnlyItsFile(Run(w, steps[..j]), steps[j], e.id);
    }
    UploadsAreCreations(w, steps, e.id);
    RunWellFormed(w, steps, 0);
    CreatedLessRemoved(Run(w, steps).server, |w.server.log|, NameOf(e.id));
    assert Run(w, steps).server.past[|w.server.log|] == w.server.files;
  }
}
