/** What each change made here does to the bucket, exactly; and what copying a calendar in brings. */
module CalendarFacts {
  import opened Wrappers
  import opened Decimal
  import opened CalDav
  import opened LocalCalendar
  import opened CalendarRuns

  /** The text can be read as the event with this UID. */
  predicate Reads(ics: Ics, uid: string) { ics.parsed.Some? && ics.parsed.value.uid == uid && ics.parsed.value.readable }

  /** The one event with this id, not repeating, and seen in its latest version. */
  predicate Editable(b: Bucket, e: Entry, id: nat, revision: Option<nat>) {
    e in b.events && e.id == id && !e.record.recurring && revision == Some(e.record.revision)
  }

  lemma {:induction false} FindsIt(events: seq<Entry>, e: Entry)
    requires Distinct(events) && e in events
    ensures Find(events, e.id) == Some(e.record)
    decreases |events|
  {
    if events[0] != e {
      var k :| 0 <= k < |events| && events[k] == e;
      assert events[1..][k - 1] == e;
      assert Distinct(events[1..]);
      FindsIt(events[1..], e);
    }
  }

  /** A new event: its own UID and file name, not known in Nextcloud, behind the others; or nothing. */
  lemma CreatesExactly(b: Bucket, ics: Option<Ics>)
    ensures var (c, r) := Created(b, ics);
      var uid := Digits(b.minted) + "@mu3lab";
      && (r.Ok? <==> ics.Some? && Reads(ics.value, uid) && |b.events| < 5000)
      && (r.Err? ==> c == b && r == Err(InvalidEvent))
      && (r.Ok? ==>
            && b.minted <= r.value < c.minted && c.deleted == b.deleted
            && exists revision: nat :: b.minted <= revision < c.minted && c.events == b.events + [Entry(r.value,
                 Record(uid, ics.value, uid + ".ics", false, false, None, NoConflict, revision,
                        ics.value.parsed.value.title, ics.value.parsed.value.recurring))])
  {
    var (c, r) := Created(b, ics);
    if r.Ok? { assert c.events[|b.events|].record.revision == b.minted + 1; }
  }

  /** A change keeps all that ties the event to Nextcloud, and a new revision. */
  lemma UpdatesExactly(b: Bucket, id: nat, revision: Option<nat>, edited: Option<Ics>, e: Entry)
    requires DistinctIds(b) && Editable(b, e, id, revision)
    ensures var (c, r) := Updated(b, id, revision, edited);
      && (r.Ok? <==> edited.Some? && Reads(edited.value, e.record.uid))
      && (r.Ok? ==>
            && r.value == id && c.deleted == b.deleted && b.minted < c.minted && |c.events| == |b.events|
            && (forall i :: 0 <= i < |b.events| && b.events[i].id != id ==> c.events[i] == b.events[i])
            && (forall i :: 0 <= i < |b.events| && b.events[i].id == id ==> c.events[i] == Entry(id, e.record.(
                  ics := edited.value, modified := true, revision := b.minted,
                  href := if e.record.href != "" then e.record.href else e.record.uid + ".ics",
                  title := edited.value.parsed.value.title, recurring := edited.value.parsed.value.recurring))))
      && (r.Err? ==> c == b && r == Err(InvalidEvent))
  {
    FindsIt(b.events, e);
    hide Find, Distinct;
    var (c, r) := Updated(b, id, revision, edited);
    if r.Ok? {
      var record := MakeRecord(edited.value, e.record.uid, e.record.href, e.record.fromNextcloud, true,
                               e.record.etag, e.record.conflict, b.minted).value;
      WithAt(b.events, id, record);
    }
  }

  lemma {:induction false} WithAt(events: seq<Entry>, id: nat, record: Record)
    ensures |With(events, id, record)| == |events|
    ensures forall i :: 0 <= i < |events| ==>
      With(events, id, record)[i] == if events[i].id == id then Entry(id, record) else events[i]
    decreases |events|
  {
    if events != [] { WithAt(events[1..], id, record); }
  }

  /** Nobody's change is made to a repeating event, an old version, or an event that is gone. */
  lemma RefusedExactly(b: Bucket, id: nat, revision: Option<nat>, edited: Option<Ics>)
    requires DistinctIds(b) && forall e <- b.events :: !Editable(b, e, id, revision)
    ensures Updated(b, id, revision, edited).0 == b && Removed(b, id, revision).0 == b
    ensures Updated(b, id, revision, edited).1.Err? && Removed(b, id, revision).1 == Updated(b, id, revision, edited).1
    ensures Removed(b, id, revision).1 == Err(NotFound) <==> forall e <- b.events :: e.id != id
    ensures Removed(b, id, revision).1 == Err(RecurringEvent) <==> exists e <- b.events :: e.id == id && e.record.recurring
    ensures Removed(b, id, revision).1 == Err(EventChanged) <==>
      exists e <- b.events :: e.id == id && !e.record.recurring && revision != Some(e.record.revision)
  {
    if e :| e in b.events && e.id == id {
      FindsIt(b.events, e);
      OnlyIt(b.events, e);
    }
    hide Find, Distinct;
  }

  lemma OnlyIt(events: seq<Entry>, e: Entry)
    requires Distinct(events) && e in events
    ensures forall x <- events :: x.id == e.id ==> x == e
  {
  }

  /** A deleted event is gone from here; a copy still in Nextcloud leaves its file, version and name to be deleted there. */
  lemma RemovesExactly(b: Bucket, id: nat, revision: Option<nat>, e: Entry)
    requires DistinctIds(b) && Editable(b, e, id, revision)
    ensures var (c, r) := Removed(b, id, revision);
      && r == Ok(id) && c.minted == b.minted
      && (forall x :: x in c.events <==> x in b.events && x.id != id)
      && c.deleted == b.deleted +
           if e.record.fromNextcloud && !e.record.conflict.DeletedInNextcloud?
           then [Tombstone(e.record.href, e.record.etag, e.record.title)] else []
  {
    FindsIt(b.events, e);
    WithoutExactly(b.events, id);
    hide Find, Distinct, Without;
  }

  lemma {:induction false} WithoutExactly(events: seq<Entry>, id: nat)
    ensures forall x :: x in Without(events, id) <==> x in events && x.id != id
    decreases |events|
  {
    if events != [] { WithoutExactly(events[1..], id); }
  }

  // ---- Copying in ---------------------------------------------------------------------------

  /** A file name as Nextcloud gives it: short, and of letters, digits and five signs. */
  predicate PlainName(name: string) {
    && name != "" && |name| < 256
    && forall c <- name ::
      || ('A' <= c && c <= 'Z') || ('a' <= c && c <= 'z') || ('0' <= c && c <= '9')
      || c == '@' || c == '.' || c == '_' || c == '~' || c == '-'
  }

  function RowOf(files: Files, untagged: set<string>, name: string): Row
    requires name in files
  {
    Row(name, files[name].text, if name in untagged then None else Some(files[name].version))
  }

  lemma PlainExactly(name: string)
    ensures ResourceName(name) <==> PlainName(name)
  {
    assert "@._~-"[0] == '@' && "@._~-"[1] == '.' && "@._~-"[2] == '_' && "@._~-"[3] == '~' && "@._~-"[4] == '-';
  }

  /** The listed files with plain names, in order, each with its text and - unless left out - its version. */
  lemma {:induction false} ListsExactly(files: Files, listing: seq<string>, untagged: set<string>)
    ensures var rows := Exported(files, listing, untagged);
      && (forall row <- rows ::
            row.href in listing && row.href in files && PlainName(row.href) && row == RowOf(files, untagged, row.href))
      && (forall name <- listing :: name in files && PlainName(name) ==> RowOf(files, untagged, name) in rows)
    decreases |listing|
  {
    if listing != [] {
      PlainExactly(listing[0]);
      ListsExactly(files, listing[1..], untagged);
      hide PlainName, ResourceName;
    }
  }

  /** A row with an event that can be read. */
  predicate Legible(row: Row) { row.text.parsed.Some? && row.text.parsed.value.uid != "" && row.text.parsed.value.readable }

  predicate HasUid(events: seq<Entry>, uid: string) { exists e <- events :: e.record.uid == uid }

  /** An untouched copy of this row, which knows its file and version. */
  predicate IsCopy(e: Entry, row: Row) {
    && e.record.fromNextcloud && !e.record.modified && e.record.conflict.NoConflict? && e.record.ics == row.text
    && e.record.etag == row.etag && row.text.parsed.Some? && e.record.uid == row.text.parsed.value.uid
    && (row.href != "" ==> e.record.href == row.href)
  }

  /** The copy of a row, the first with its UID, when no event here had that. */
  ghost predicate Brought(b: Bucket, rows: seq<Row>, e: Entry) { exists k: nat :: BroughtBy(b, rows, e, k) }

  predicate BroughtBy(b: Bucket, rows: seq<Row>, e: Entry, k: nat) {
    && k < |rows| && Legible(rows[k]) && IsCopy(e, rows[k]) && !HasUid(b.events, rows[k].text.parsed.value.uid)
    && forall j :: 0 <= j < k && Legible(rows[j]) ==> rows[j].text.parsed.value.uid != rows[k].text.parsed.value.uid
  }

  predicate NewUids(events: seq<Entry>, from: nat) {
    forall i, j :: 0 <= i < j < |events| && from <= j ==> events[i].record.uid != events[j].record.uid
  }

  /** All that can be read is here, as held before or as a copy of a row, while there is room; and nothing else. */
  ghost predicate CopiedIn(b: Bucket, rows: seq<Row>, c: Bucket) {
    && b.events <= c.events && c.deleted == b.deleted && (|c.events| <= 5000 || c.events == b.events)
    && (forall e <- c.events[|b.events|..] :: Brought(b, rows, e)) && NewUids(c.events, |b.events|)
    && (forall row <- rows :: Legible(row) ==> HasUid(c.events, row.text.parsed.value.uid) || |c.events| >= 5000)
  }

  /**
   * While there is room, every event of the rows that can be read is here afterwards, once: as it was
   * held before, or as a copy of the first row that has it; and nothing else comes.
   */
  lemma {:induction false} CopiesInExactly(b: Bucket, rows: seq<Row>)
    ensures CopiedIn(b, rows, Imported(b, rows))
    decreases |rows|
  {
    if rows == [] || |b.events| >= 5000 { return; }
    CopiedExactly(b, rows[0]);
    match Copy(rows[0], Uids(b.events), b.minted)
    case None =>
      CopiesInExactly(b, rows[1..]);
      RowSkipped(b, rows, Imported(b, rows));
    case Some(record) =>
      var d := b.(events := b.events + [Entry(b.minted + 1, record)], minted := b.minted + 2);
      CopiesInExactly(d, rows[1..]);
      RowCopied(b, rows, record, d, Imported(b, rows));
  }

  lemma RowSkipped(b: Bucket, rows: seq<Row>, c: Bucket)
    requires rows != [] && CopiedIn(b, rows[1..], c)
    requires Legible(rows[0]) ==> HasUid(b.events, rows[0].text.parsed.value.uid)
    ensures CopiedIn(b, rows, c)
  {
    StillHasUid(b.events, c.events);
    hide HasUid, Legible, IsCopy, BroughtBy, NewUids;
    forall e | e in c.events[|b.events|..] ensures Brought(b, rows, e) { BroughtLater(b, rows, b, e); }
  }

  lemma RowCopied(b: Bucket, rows: seq<Row>, record: Record, d: Bucket, c: Bucket)
    requires rows != [] && CopiedIn(d, rows[1..], c) && |b.events| < 5000
    requires d == b.(events := b.events + [Entry(b.minted + 1, record)], minted := b.minted + 2)
    requires Legible(rows[0]) && IsCopy(Entry(b.minted + 1, record), rows[0])
    requires !HasUid(b.events, rows[0].text.parsed.value.uid)
    ensures CopiedIn(b, rows, c)
  {
    assert HasUid(d.events, record.uid) by { assert d.events[|b.events|] in d.events; }
    StillHasUid(d.events, c.events);
    BroughtFirst(b, rows, d);
    OneNewUid(b, record, c);
    hide HasUid, BroughtBy, NewUids, Brought;
    forall e | e in c.events[|b.events|..] ensures Brought(b, rows, e) {
      if e != d.events[|b.events|] {
        assert e in c.events[|d.events|..];
        BroughtLater(b, rows, d, e);
      }
    }
  }

  lemma BroughtFirst(b: Bucket, rows: seq<Row>, d: Bucket)
    requires rows != [] && |d.events| == |b.events| + 1 && d.events[..|b.events|] == b.events
    requires Legible(rows[0]) && IsCopy(d.events[|b.events|], rows[0]) && !HasUid(b.events, rows[0].text.parsed.value.uid)
    ensures Brought(b, rows, d.events[|b.events|])
  {
    assert BroughtBy(b, rows, d.events[|b.events|], 0);
  }

  lemma BroughtLater(b: Bucket, rows: seq<Row>, d: Bucket, e: Entry)
    requires rows != [] && b.events <= d.events && Brought(d, rows[1..], e)
    requires Legible(rows[0]) ==> HasUid(d.events, rows[0].text.parsed.value.uid)
    ensures Brought(b, rows, e)
  {
    StillHasUid(b.events, d.events);
    hide HasUid, Legible, IsCopy;
    var k: nat :| BroughtBy(d, rows[1..], e, k);
    assert BroughtBy(b, rows, e, k + 1) by {
      forall j | 0 <= j < k + 1 && Legible(rows[j]) ensures rows[j].text.parsed.value.uid != rows[k + 1].text.parsed.value.uid {
        if j > 0 { assert rows[1..][j - 1] == rows[j]; }
      }
    }
  }

  lemma OneNewUid(b: Bucket, record: Record, c: Bucket)
    requires NewUids(c.events, |b.events| + 1) && b.events + [Entry(b.minted + 1, record)] <= c.events
    requires !HasUid(b.events, record.uid)
    ensures NewUids(c.events, |b.events|)
  {
    forall i | 0 <= i < |b.events| ensures c.events[i].record.uid != record.uid { assert b.events[i] in b.events; }
  }

  lemma CopiedExactly(b: Bucket, row: Row)
    ensures var copy := Copy(row, Uids(b.events), b.minted);
      && (copy.Some? <==> Legible(row) && !HasUid(b.events, row.text.parsed.value.uid))
      && (copy.Some? ==> IsCopy(Entry(b.minted + 1, copy.value), row))
  {
    assert forall uid :: uid in Uids(b.events) <==> HasUid(b.events, uid);
  }

  lemma StillHasUid(events: seq<Entry>, more: seq<Entry>)
    requires events <= more
    ensures forall uid :: HasUid(events, uid) ==> HasUid(more, uid)
  {
    forall uid | HasUid(events, uid) ensures HasUid(more, uid) {
      var e :| e in events && e.record.uid == uid;
      assert e in more;
    }
  }

  // ---- Settling a conflict --------------------------------------------------------------------

  /** What reading the file says about what to replace; None when that is not known. */
  function Onto(current: Reply): Option<Condition> {
    if current == Status(404) then Some(IfNoneMatch)
    else if current.Content? && current.etag.Some? then Some(IfMatch(current.etag.value))
    else None
  }

  /**
   * A conflict is settled by giving up the text here; or by putting it where the file was just seen
   * missing, or onto the version just seen. Then it leaves the bucket; in every other case it stays.
   */
  lemma SettlesExactly(b: Bucket, id: nat, keep: Side, connected: bool, s: Server, env: seq<Weather>, e: Entry)
    requires DistinctIds(b) && e in b.events && e.id == id && !e.record.conflict.NoConflict?
    ensures var (t, c, r) := Resolved(b, id, keep, connected, s, env);
      && (keep.Neither? ==> t == s && r == Err(InvalidEvent)) && (keep.Theirs? ==> t == s && r == Ok(id))
      && (keep.Mine? && !connected ==> t == s && r == Err(NotConnected))
      && (keep.Mine? && connected ==>
            var (seen, current) := Exchange(s, Get(e.record.href), Now(env));
            && (Onto(current).None? ==> t == seen && r == Err(Unavailable))
            && (Onto(current).Some? ==>
                  var (after, put) := Exchange(seen, Put(e.record.href, e.record.ics, Onto(current).value), Now(Later(env)));
                  && t == after && (r.Ok? ==> r == Ok(id))
                  && (r.Ok? <==> put.Status? && put.code in {200, 201, 204})
                  && (r == Err(ChangedAgain) <==> put.Status? && put.code in {404, 412})
                  && (r.Ok? || r == Err(ChangedAgain) || r == Err(Unavailable))))
      && c.deleted == b.deleted && c.minted == b.minted && (r.Err? ==> c == b)
      && (r.Ok? ==> forall x :: x in c.events <==> x in b.events && x.id != id)
  {
    FindsIt(b.events, e);
    WithoutExactly(b.events, id);
    var (seen, current) := Exchange(s, Get(e.record.href), Now(env));
    AnswerTells(s, Get(e.record.href), Now(env));
    if Onto(current).Some? { AnswerTells(seen, Put(e.record.href, e.record.ics, Onto(current).value), Now(Later(env))); }
    hide Find, Distinct, Without, Exchange;
  }

  /** Only what has a conflict can be settled. */
  lemma NothingToSettle(b: Bucket, id: nat, keep: Side, connected: bool, s: Server, env: seq<Weather>)
    requires !keep.Neither? && DistinctIds(b) && forall e <- b.events :: e.id == id ==> e.record.conflict.NoConflict?
    ensures Resolved(b, id, keep, connected, s, env) == (s, b, Err(NotFound))
  {
    if e :| e in b.events && e.id == id { FindsIt(b.events, e); }
    hide Find, Distinct;
  }

  // ---- The steps of a run --------------------------------------------------------------------

  /** Edits and copying in change the bucket alone, other clients the server alone. */
  lemma StepsTakeEffect(w: World, id: nat, revision: Option<nat>, text: Option<Ics>, listing: seq<string>, untagged: set<string>)
    ensures Next(w, Step.Create(text)) == World(Created(w.bucket, text).0, w.server)
    ensures Next(w, Step.Update(id, revision, text)) == World(Updated(w.bucket, id, revision, text).0, w.server)
    ensures Next(w, Step.Remove(id, revision)) == World(Removed(w.bucket, id, revision).0, w.server)
    ensures Next(w, Step.Import(listing, untagged)) ==
            World(Imported(w.bucket, Exported(w.server.files, listing, untagged)), w.server)
    ensures forall edit :: Next(w, Elsewhere(edit)) == World(w.bucket, Edit(w.server, edit))
  {
  }

  /** Stopping before the save leaves the bucket as it was, and Nextcloud as if the save had come. */
  lemma StoppingLosesTheSave(w: World, id: nat, keep: Side, connected: bool, env: seq<Weather>)
    ensures Next(w, Sync(env, true)) == World(w.bucket, Next(w, Sync(env, false)).server)
    ensures Next(w, Sync(env, false)) == World(Pushed(w.bucket, w.server, env).bucket, Pushed(w.bucket, w.server, env).server)
    ensures Next(w, Resolve(id, keep, connected, env, true)) ==
            World(w.bucket, Next(w, Resolve(id, keep, connected, env, false)).server)
    ensures var (t, b, _) := Resolved(w.bucket, id, keep, connected, w.server, env);
      Next(w, Resolve(id, keep, connected, env, false)) == World(b, t)
  {
    hide Pushed, Resolved;
  }
}
