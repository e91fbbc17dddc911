/**
 * The calendar Mu3Lab keeps for one person while Nextcloud is not connected,
 * and its hand-back: what a sync sends, keeps, and marks as a conflict.
 *
 * The functions describe each operation on values; the class `Calendar`
 * performs them on its fields. Random tokens (UIDs of new events, event ids,
 * revisions) are made from a counter, so they never repeat.
 */
module LocalCalendar {
  import opened Wrappers
  import opened Decimal
  import opened CalDav

  const MAX_EVENTS_PER_OWNER := 5000

  datatype Conflict = NoConflict | ChangedInNextcloud | DeletedInNextcloud | UploadUnconfirmed

  datatype Record = Record(
    uid: string, ics: Ics, href: string, fromNextcloud: bool, modified: bool,
    etag: Option<nat>, conflict: Conflict, revision: nat, title: string, recurring: bool)
  {
    predicate EditedCopy() { fromNextcloud && modified }

    /** The text was written here: created here, or a copy edited here. */
    predicate LocalText() { !fromNextcloud || modified }
  }

  datatype Entry = Entry(id: nat, record: Record)

  /** A deletion to send; stores written by older versions have no etag. */
  datatype Tombstone = Tombstone(href: string, etag: Option<nat>, title: string)
  {
    function Name(): string { if title != "" then title else href }
  }

  datatype Bucket = Bucket(events: seq<Entry>, deleted: seq<Tombstone>, minted: nat)

  datatype CalendarError =
    NotFound | RecurringEvent | EventChanged | InvalidEvent | NotConnected | Unavailable | ChangedAgain

  // ---- Editing here --------------------------------------------------------------------

  /** A stored event; None when the text cannot be read as that event. */
  function MakeRecord(
    ics: Ics, uid: string, href: string, fromNextcloud: bool, modified: bool,
    etag: Option<nat>, conflict: Conflict, revision: nat): Option<Record>
  {
    match ics.parsed
    case Some(p) =>
      if p.uid != uid || !p.readable then None else
      var name := if href != "" then href else uid + ".ics";
      Some(Record(uid, ics, name, fromNextcloud, modified, etag, conflict, revision, p.title, p.recurring))
    case None => None
  }

  function Find(events: seq<Entry>, id: nat): (r: Option<Record>)
    ensures r.Some? ==> Entry(id, r.value) in events
    ensures r.None? ==> forall e <- events :: e.id != id
  {
    if events == [] then None
    else if events[0].id == id then Some(events[0].record)
    else Find(events[1..], id)
  }

  function Without(events: seq<Entry>, id: nat): seq<Entry> {
    if events == [] then [] else (if events[0].id == id then [] else [events[0]]) + Without(events[1..], id)
  }

  function With(events: seq<Entry>, id: nat, record: Record): seq<Entry> {
    if events == [] then []
    else [if events[0].id == id then Entry(id, record) else events[0]] + With(events[1..], id, record)
  }

  /** The event a person wants to change, when they saw its latest version. */
  function Existing(b: Bucket, id: nat, revision: Option<nat>): Result<Record, CalendarError> {
    match Find(b.events, id)
    case None => Err(NotFound)
    case Some(record) =>
      if record.recurring then Err(RecurringEvent)
      else if revision != Some(record.revision) then Err(EventChanged)
      else Ok(record)
  }

  /** The UID of an event created here. */
  function NewUid(token: nat): string { Digits(token) + "@mu3lab" }

  /**
   * `ics` is the text written for the person's input under the event's new UID;
   * None when the input was not valid.
   */
  function Created(b: Bucket, ics: Option<Ics>): (Bucket, Result<nat, CalendarError>) {
    if ics.None? then (b, Err(InvalidEvent)) else
    match MakeRecord(ics.value, NewUid(b.minted), "", false, false, None, NoConflict, b.minted + 1)
    case None => (b, Err(InvalidEvent))
    case Some(record) =>
      if |b.events| >= MAX_EVENTS_PER_OWNER then (b, Err(InvalidEvent)) else
      var id := b.minted + 2;
      (b.(events := b.events + [Entry(id, record)], minted := b.minted + 3), Ok(id))
  }

  /** `edited` is the event's text with the person's changes; None when they were not valid. */
  function Updated(b: Bucket, id: nat, revision: Option<nat>, edited: Option<Ics>):
    (Bucket, Result<nat, CalendarError>)
  {
    match Existing(b, id, revision)
    case Err(error) => (b, Err(error))
    case Ok(current) =>
      if edited.None? then (b, Err(InvalidEvent)) else
      match MakeRecord(edited.value, current.uid, current.href, current.fromNextcloud, true,
                       current.etag, current.conflict, b.minted)
      case None => (b, Err(InvalidEvent))
      case Some(record) =>
        (b.(events := With(b.events, id, record), minted := b.minted + 1), Ok(id))
  }

  /** A copy is also to be removed from Nextcloud, unless it is known to be gone there. */
  function Removed(b: Bucket, id: nat, revision: Option<nat>): (Bucket, Result<nat, CalendarError>) {
    match Existing(b, id, revision)
    case Err(error) => (b, Err(error))
    case Ok(current) =>
      var stone := Tombstone(current.href, current.etag, current.title);
      var deleted := if current.fromNextcloud && current.conflict != DeletedInNextcloud
                     then b.deleted + [stone] else b.deleted;
      (b.(events := Without(b.events, id), deleted := deleted), Ok(id))
  }

  // ---- Copying a calendar in ------------------------------------------------------------

  datatype Row = Row(href: string, text: Ics, etag: Option<nat>)

  predicate ResourceChar(c: char) {
    'A' <= c <= 'Z' || 'a' <= c <= 'z' || '0' <= c <= '9' || c in "@._~-"
  }

  predicate ResourceName(name: string) {
    1 <= |name| <= 255 && forall c <- name :: ResourceChar(c)
  }

  /** What a full report of the collection lists, in the server's order; it may leave ETags out. */
  function Exported(files: Files, listing: seq<string>, untagged: set<string>): seq<Row> {
    if listing == [] then [] else
    var name := listing[0];
    (if name in files && ResourceName(name)
     then [Row(name, files[name].text, if name in untagged then None else Some(files[name].version))]
     else [])
    + Exported(files, listing[1..], untagged)
  }

  function Uids(events: seq<Entry>): set<string> { set e <- events :: e.record.uid }

  function Copy(row: Row, held: set<string>, revision: nat): Option<Record> {
    if row.text.parsed.None? || row.text.parsed.value.uid == "" || row.text.parsed.value.uid in held then None
    else MakeRecord(row.text, row.text.parsed.value.uid, row.href, true, false, row.etag, NoConflict, revision)
  }

  /** Events already held here win; unreadable ones and those beyond the limit stay only in Nextcloud. */
  function Imported(b: Bucket, rows: seq<Row>): Bucket
    decreases |rows|
  {
    if rows == [] || |b.events| >= MAX_EVENTS_PER_OWNER then b else
    match Copy(rows[0], Uids(b.events), b.minted)
    case None => Imported(b, rows[1..])
    case Some(record) =>
      Imported(b.(events := b.events + [Entry(b.minted + 1, record)], minted := b.minted + 2), rows[1..])
  }

  // ---- Sending everything back -----------------------------------------------------------

  /** Done; stopped by an unexpected status (the report is returned); or failed without an answer. */
  datatype Ending = Done | Halted | Failed

  /** What remains of a list after sending it, and what there is to report. */
  datatype Sent<T> = Sent(server: Server, env: seq<Weather>, left: seq<T>, moved: nat, titles: seq<string>, ending: Ending)

  function Code(reply: Reply): int {
    match reply
    case Status(code) => code
    case Content(_, _) => 200
    case NoReply => 0
  }

  /** What becomes of one deletion: waits (no version to check), withdrawn (changed there since), or done. */
  datatype StoneVerdict = Legacy | Withdrawn | Gone | Unsent(ending: Ending)

  function SendDelete(s: Server, item: Tombstone, env: seq<Weather>): (Server, seq<Weather>, StoneVerdict) {
    if item.etag.None? then (s, env, Legacy) else
    var (t, reply) := Exchange(s, Delete(item.href, item.etag.value), Now(env));
    if reply.NoReply? then (t, Later(env), Unsent(Failed))
    else if Code(reply) == 412 then (t, Later(env), Withdrawn)
    else if Code(reply) in {200, 204, 404} then (t, Later(env), Gone)
    else (t, Later(env), Unsent(Halted))
  }

  function SendDeletes(s: Server, items: seq<Tombstone>, env: seq<Weather>): Sent<Tombstone>
    decreases |items|
  {
    if items == [] then Sent(s, env, [], 0, [], Done) else
    var (t, env', verdict) := SendDelete(s, items[0], env);
    match verdict
    case Unsent(ending) => Sent(t, env', items, 0, [], ending)
    case Legacy => Kept(items[0], [items[0].Name()], SendDeletes(t, items[1..], env'))
    case Withdrawn => Dropped(0, [items[0].Name()], SendDeletes(t, items[1..], env'))
    case Gone => Dropped(1, [], SendDeletes(t, items[1..], env'))
  }

  function Kept<T>(item: T, titles: seq<string>, rest: Sent<T>): Sent<T> {
    rest.(left := [item] + rest.left, titles := titles + rest.titles)
  }

  function Dropped<T>(moved: nat, titles: seq<string>, rest: Sent<T>): Sent<T> {
    rest.(moved := moved + rest.moved, titles := titles + rest.titles)
  }

  /** What becomes of one event: forgotten, kept (perhaps as a new conflict), or the sync ends at it. */
  datatype Verdict = Forget | Keep(record: Record, news: bool) | Stop(ending: Ending)

  /** An event with no conflict: an edited copy goes back onto its version, anything else is created. */
  function Offer(s: Server, r: Record, env: seq<Weather>): (Server, seq<Weather>, Verdict)
    requires r.EditedCopy() ==> r.etag.Some?
  {
    var condition := if r.EditedCopy() then IfMatch(r.etag.value) else IfNoneMatch;
    var (t, reply) := Exchange(s, Put(r.href, r.ics, condition), Now(env));
    if reply.NoReply? then (t, Later(env), Stop(Failed))
    else if r.EditedCopy() && Code(reply) in {404, 412} then
      (t, Later(env),
       Keep(r.(conflict := if Code(reply) == 404 then DeletedInNextcloud else ChangedInNextcloud), true))
    else if Code(reply) !in {200, 201, 204, 412} then (t, Later(env), Stop(Halted))
    else if Code(reply) == 412 && !r.fromNextcloud then Compare(t, r, Later(env))
    else (t, Later(env), Forget)
  }

  /** A new event whose file already exists: is it this very text, from an interrupted upload? */
  function Compare(s: Server, r: Record, env: seq<Weather>): (Server, seq<Weather>, Verdict) {
    var (t, reply) := Exchange(s, Get(r.href), Now(env));
    match reply
    case NoReply => (t, Later(env), Stop(Failed))
    case Status(_) => (t, Later(env), Keep(r, false))
    case Content(text, etag) =>
      if SameIcs(text, r.ics) then (t, Later(env), Forget)
      else (t, Later(env), Keep(r.(conflict := UploadUnconfirmed, etag := etag), true))
  }

  function SendEvent(s: Server, r: Record, env: seq<Weather>): (Server, seq<Weather>, Verdict) {
    if r.conflict != NoConflict then (s, env, Keep(r, false))
    else if r.EditedCopy() && r.etag.None? then (s, env, Keep(r.(conflict := ChangedInNextcloud), true))
    else Offer(s, r, env)
  }

  function SendEvents(s: Server, events: seq<Entry>, env: seq<Weather>): Sent<Entry>
    decreases |events|
  {
    if events == [] then Sent(s, env, [], 0, [], Done) else
    var e := events[0];
    var (t, env', verdict) := SendEvent(s, e.record, env);
    match verdict
    case Stop(ending) => Sent(t, env', events, 0, [], ending)
    case Forget => Dropped(1, [], SendEvents(t, events[1..], env'))
    case Keep(record, news) =>
      Kept(Entry(e.id, record), if news then [record.title] else [], SendEvents(t, events[1..], env'))
  }

  datatype Report = Report(moved: nat, conflicts: seq<string>, kept: seq<string>)

  datatype Push = Push(server: Server, bucket: Bucket, report: Report, ending: Ending)

  /** Deletions first, then events; a list the sync did not finish keeps what it did not reach. */
  function Pushed(b: Bucket, s: Server, env: seq<Weather>): Push {
    var d := SendDeletes(s, b.deleted, env);
    if d.ending != Done then
      Push(d.server, b.(deleted := d.left), Report(d.moved, [], d.titles), d.ending)
    else
      var e := SendEvents(d.server, b.events, d.env);
      Push(e.server, b.(deleted := d.left, events := e.left), Report(d.moved + e.moved, e.titles, d.titles), e.ending)
  }

  function Outcome(p: Push): Result<Report, CalendarError> {
    if p.ending == Failed then Err(Unavailable) else Ok(p.report)
  }

  /** A deletion is stored, or an event without a conflict. */
  predicate PendingUpload(b: Bucket) {
    b.deleted != [] || exists e <- b.events :: e.record.conflict == NoConflict
  }

  // ---- Settling a conflict ---------------------------------------------------------------

  datatype Side = Mine | Theirs | Neither

  /** Put the local text onto the version Nextcloud has now, or create it if it has none. */
  function Replaced(s: Server, r: Record, env: seq<Weather>): (Server, Result<nat, CalendarError>) {
    var (t, current) := Exchange(s, Get(r.href), Now(env));
    if Code(current) == 404 then Settled(t, r, IfNoneMatch, Later(env))
    else if current.Content? && current.etag.Some? then Settled(t, r, IfMatch(current.etag.value), Later(env))
    else (t, Err(Unavailable))
  }

  function Settled(s: Server, r: Record, condition: Condition, env: seq<Weather>): (Server, Result<nat, CalendarError>) {
    var (t, reply) := Exchange(s, Put(r.href, r.ics, condition), Now(env));
    if reply.NoReply? then (t, Err(Unavailable))
    else if Code(reply) in {404, 412} then (t, Err(ChangedAgain))
    else if Code(reply) in {200, 201, 204} then (t, Ok(0))
    else (t, Err(Unavailable))
  }

  function Resolved(b: Bucket, id: nat, keep: Side, connected: bool, s: Server, env: seq<Weather>):
    (Server, Bucket, Result<nat, CalendarError>)
  {
    if keep == Neither then (s, b, Err(InvalidEvent)) else
    match Find(b.events, id)
    case None => (s, b, Err(NotFound))
    case Some(r) =>
      if r.conflict == NoConflict then (s, b, Err(NotFound))
      else if keep == Theirs then (s, b.(events := Without(b.events, id)), Ok(id))
      else if !connected then (s, b, Err(NotConnected))
      else
        var (t, result) := Replaced(s, r, env);
        (t, if result.Ok? then b.(events := Without(b.events, id)) else b, if result.Ok? then Ok(id) else result)
  }

  // ---- Events by id ------------------------------------------------------------------------

  /** No two events share an id, and new ids are unused. */
  ghost predicate DistinctIds(b: Bucket) {
    && (forall e <- b.events :: e.id < b.minted)
    && Distinct(b.events)
  }

  ghost predicate Distinct(events: seq<Entry>) {
    forall i, j :: 0 <= i < j < |events| ==> events[i].id != events[j].id
  }

  function Slot(e: Entry, id: nat): seq<Entry> { if e.id == id then [] else [e] }

  lemma WithoutFirst(e: Entry, rest: seq<Entry>, id: nat)
    ensures Without([e] + rest, id) == Slot(e, id) + Without(rest, id)
  {
  }

  lemma {:induction false} WithoutSplit(left: seq<Entry>, right: seq<Entry>, id: nat)
    ensures Without(left + right, id) == Without(left, id) + Without(right, id)
    decreases |left|
  {
    if left == [] {
      assert left + right == right;
    } else {
      var e, rest := left[0], left[1..];
      assert left == [e] + rest && left + right == [e] + (rest + right);
      WithoutFirst(e, rest, id);
      WithoutFirst(e, rest + right, id);
      WithoutSplit(rest, right, id);
      hide Without, Slot;
    }
  }

  lemma {:induction false} WithSplit(left: seq<Entry>, right: seq<Entry>, id: nat, record: Record)
    ensures With(left + right, id, record) == With(left, id, record) + With(right, id, record)
    decreases |left|
  {
    if left == [] {
      assert left + right == right;
    } else {
      assert (left + right)[1..] == left[1..] + right && (left + right)[0] == left[0];
      WithSplit(left[1..], right, id, record);
    }
  }

  /** Where no event has this id, removing or replacing it changes nothing. */
  lemma {:induction false} NoneOf(events: seq<Entry>, id: nat, record: Record)
    requires forall e <- events :: e.id != id
    ensures Without(events, id) == events && With(events, id, record) == events
    decreases |events|
  {
    if events != [] {
      assert events[0] in events && forall e <- events[1..] :: e in events;
      NoneOf(events[1..], id, record);
    }
  }

  lemma WithFirst(e: Entry, rest: seq<Entry>, id: nat, record: Record)
    ensures With([e] + rest, id, record) == [if e.id == id then Entry(id, record) else e] + With(rest, id, record)
  {
  }

  lemma WithoutAt(left: seq<Entry>, tail: seq<Entry>, e: Entry, right: seq<Entry>)
    requires tail == [e] + right && (forall x <- left :: x.id != e.id) && (forall x <- right :: x.id != e.id)
    ensures Without(left + tail, e.id) == left + right
  {
    hide Without;
    NoneOf(left, e.id, e.record);
    NoneOf(right, e.id, e.record);
    WithoutFirst(e, right, e.id);
    WithoutSplit(left, tail, e.id);
    assert [] + right == right;
  }

  lemma WithAt(left: seq<Entry>, tail: seq<Entry>, e: Entry, right: seq<Entry>, record: Record)
    requires tail == [e] + right && (forall x <- left :: x.id != e.id) && (forall x <- right :: x.id != e.id)
    ensures With(left + tail, e.id, record) == left + ([Entry(e.id, record)] + right)
  {
    hide With;
    NoneOf(left, e.id, record);
    NoneOf(right, e.id, record);
    WithFirst(e, right, e.id, record);
    WithSplit(left, tail, e.id, record);
  }

  /** Deleting or replacing by id, in a list with distinct ids, touches exactly that one place. */
  lemma AtItsPlace(left: seq<Entry>, e: Entry, right: seq<Entry>, record: Record)
    requires Distinct(left + [e] + right)
    ensures Without(left + [e] + right, e.id) == left + right
    ensures With(left + [e] + right, e.id, record) == left + [Entry(e.id, record)] + right
  {
    NoOther(left, e, right);
    WithoutAt(left, [e] + right, e, right);
    WithAt(left, [e] + right, e, right, record);
    hide With, Without, Distinct;
    assert left + [e] + right == left + ([e] + right);
    assert left + [Entry(e.id, record)] + right == left + ([Entry(e.id, record)] + right);
  }

  lemma NoOther(left: seq<Entry>, e: Entry, right: seq<Entry>)
    requires Distinct(left + [e] + right)
    ensures forall x <- left :: x.id != e.id
    ensures forall x <- right :: x.id != e.id
  {
    var all := left + [e] + right;
    assert all[|left|] == e;
    forall x | x in left ensures x.id != e.id {
      var i :| 0 <= i < |left| && left[i] == x;
      assert all[i] == x;
    }
    forall x | x in right ensures x.id != e.id {
      var i :| 0 <= i < |right| && right[i] == x;
      assert all[|left| + 1 + i] == x;
    }
  }

  lemma {:induction false} WithKeepsIds(events: seq<Entry>, id: nat, record: Record)
    ensures |With(events, id, record)| == |events|
    ensures forall i :: 0 <= i < |events| ==> With(events, id, record)[i].id == events[i].id
    decreases |events|
  {
    if events != [] { WithKeepsIds(events[1..], id, record); }
  }

  lemma {:induction false} WithoutSound(events: seq<Entry>, id: nat)
    ensures forall e <- Without(events, id) :: e in events && e.id != id
    ensures Distinct(events) ==> Distinct(Without(events, id))
    decreases |events|
  {
    if events != [] {
      WithoutSound(events[1..], id);
      assert Distinct(events) ==> Distinct(events[1..]);
    }
  }

  lemma {:induction false} ImportedDistinct(b: Bucket, rows: seq<Row>)
    requires DistinctIds(b)
    ensures DistinctIds(Imported(b, rows))
    decreases |rows|
  {
    if rows != [] && |b.events| < MAX_EVENTS_PER_OWNER {
      match Copy(rows[0], Uids(b.events), b.minted)
      case None => ImportedDistinct(b, rows[1..]);
      case Some(record) =>
        ImportedDistinct(b.(events := b.events + [Entry(b.minted + 1, record)], minted := b.minted + 2), rows[1..]);
    }
  }

  /** A sync keeps ids: what is left is a selection of the same events, in the same order. */
  lemma OneMoreDistinct(events: seq<Entry>, left: seq<Entry>)
    requires events != [] && (Distinct(events) ==> Distinct(left))
    requires forall x <- left :: exists e <- events[1..] :: e.id == x.id
    ensures Distinct(events) ==> forall first: Entry :: first.id == events[0].id ==> Distinct([first] + left)
  {
  }

  lemma {:induction false} SendEventsDistinct(s: Server, events: seq<Entry>, env: seq<Weather>)
    ensures forall x <- SendEvents(s, events, env).left :: exists e <- events :: e.id == x.id
    ensures Distinct(events) ==> Distinct(SendEvents(s, events, env).left)
    decreases |events|
  {
    if events != [] {
      var (t, env', verdict) := SendEvent(s, events[0].record, env);
      SendEventsDistinct(t, events[1..], env');
      assert Distinct(events) ==> Distinct(events[1..]);
      assert forall e <- events[1..] :: e in events;
      hide SendEvent;
      OneMoreDistinct(events, SendEvents(t, events[1..], env').left);
    }
  }

  lemma {:induction false} ImportedKeeps(b: Bucket, rows: seq<Row>)
    ensures forall e <- b.events :: e in Imported(b, rows).events
    ensures Imported(b, rows).deleted == b.deleted
    decreases |rows|
  {
    if rows != [] && |b.events| < MAX_EVENTS_PER_OWNER {
      match Copy(rows[0], Uids(b.events), b.minted)
      case None => ImportedKeeps(b, rows[1..]);
      case Some(record) =>
        ImportedKeeps(b.(events := b.events + [Entry(b.minted + 1, record)], minted := b.minted + 2), rows[1..]);
    }
  }

  function RemoveFirst<T(==)>(items: seq<T>, item: T): seq<T> {
    if items == [] then [] else if items[0] == item then items[1..] else [items[0]] + RemoveFirst(items[1..], item)
  }

  lemma {:induction false} RemoveAfter<T>(left: seq<T>, item: T, right: seq<T>)
    requires item !in left
    ensures RemoveFirst(left + [item] + right, item) == left + right
    decreases |left|
  {
    if left == [] {
      assert left + [item] + right == [item] + right;
    } else {
      assert (left + [item] + right)[1..] == left[1..] + [item] + right;
      RemoveAfter(left[1..], item, right);
    }
  }

  /** `rest` with what was already kept, moved and reported put before it. */
  function After<T>(left: seq<T>, moved: nat, titles: seq<string>, rest: Sent<T>): Sent<T> {
    rest.(left := left + rest.left, moved := moved + rest.moved, titles := titles + rest.titles)
  }

  lemma Split<T>(left: seq<T>, items: seq<T>, i: nat)
    requires i < |items|
    ensures items[i..] == [items[i]] + items[i + 1..]
    ensures left + items[i..] == left + [items[i]] + items[i + 1..]
  {
  }

  lemma AfterOne<T>(left: seq<T>, moved: nat, titles: seq<string>, rest: Sent<T>, item: T, m: nat, more: seq<string>)
    ensures After(left, moved, titles, Kept(item, more, rest)) == After(left + [item], moved, titles + more, rest)
    ensures After(left, moved, titles, Dropped(m, more, rest)) == After(left, moved + m, titles + more, rest)
  {
  }

  lemma StoneStep(s: Server, item: Tombstone, tail: seq<Tombstone>, env: seq<Weather>,
                  left: seq<Tombstone>, moved: nat, titles: seq<string>)
    ensures var (t, env', verdict) := SendDelete(s, item, env);
      var all := After(left, moved, titles, SendDeletes(s, [item] + tail, env));
      match verdict
      case Unsent(ending) => all == Sent(t, env', left + [item] + tail, moved, titles, ending)
      case Legacy => item.etag.None? && all == After(left + [item], moved, titles + [item.Name()], SendDeletes(t, tail, env'))
      case Withdrawn => item.etag.Some? && all == After(left, moved, titles + [item.Name()], SendDeletes(t, tail, env'))
      case Gone => item.etag.Some? && all == After(left, moved + 1, titles, SendDeletes(t, tail, env'))
  {
    var (t, env', verdict) := SendDelete(s, item, env);
    assert ([item] + tail)[1..] == tail;
    AfterOne(left, moved, titles, SendDeletes(t, tail, env'), item, 0, [item.Name()]);
    AfterOne(left, moved, titles, SendDeletes(t, tail, env'), item, 1, []);
    assert titles + [] == titles;
    assert left + ([item] + tail) == left + [item] + tail;
  }

  lemma EventStep(s: Server, e: Entry, tail: seq<Entry>, env: seq<Weather>,
                  left: seq<Entry>, moved: nat, titles: seq<string>)
    ensures var (t, env', verdict) := SendEvent(s, e.record, env);
      var all := After(left, moved, titles, SendEvents(s, [e] + tail, env));
      match verdict
      case Stop(ending) => all == Sent(t, env', left + [e] + tail, moved, titles, ending)
      case Forget => all == After(left, moved + 1, titles, SendEvents(t, tail, env'))
      case Keep(record, news) =>
        all == After(left + [Entry(e.id, record)], moved, titles + (if news then [record.title] else []),
                     SendEvents(t, tail, env'))
  {
    var (t, env', verdict) := SendEvent(s, e.record, env);
    assert ([e] + tail)[1..] == tail;
    var rest := SendEvents(t, tail, env');
    match verdict
    case Stop(_) => assert left + ([e] + tail) == left + [e] + tail; assert titles + [] == titles;
    case Forget => AfterOne(left, moved, titles, rest, e, 1, []); assert titles + [] == titles;
    case Keep(record, news) =>
      AfterOne(left, moved, titles, rest, Entry(e.id, record), 0, if news then [record.title] else []);
  }

  lemma NothingToSend(b: Bucket, s: Server, env: seq<Weather>)
    requires b.events == [] && b.deleted == []
    ensures Pushed(b, s, env) == Push(s, b, Report(0, [], []), Done)
  {
  }

  lemma PushedFrom(b: Bucket, s: Server, env: seq<Weather>, d: Sent<Tombstone>, e: Sent<Entry>)
    requires d == SendDeletes(s, b.deleted, env) && e == SendEvents(d.server, b.events, d.env)
    ensures Pushed(b, s, env) ==
      if d.ending != Done then Push(d.server, b.(deleted := d.left), Report(d.moved, [], d.titles), d.ending)
      else Push(e.server, Bucket(e.left, d.left, b.minted), Report(d.moved + e.moved, e.titles, d.titles), e.ending)
  {
  }

  // ---- The store ----------------------------------------------------------------------------

  class Calendar {
    var events: seq<Entry>
    var deleted: seq<Tombstone>
    var minted: nat

    ghost predicate Valid()
      reads this
    {
      DistinctIds(Contents())
    }

    function Contents(): Bucket
      reads this
    {
      Bucket(events, deleted, minted)
    }

    constructor ()
      ensures Valid() && Contents() == Bucket([], [], 0)
    {
      events, deleted, minted := [], [], 0;
    }

    method Token() returns (token: nat)
      modifies this`minted
      ensures token == old(minted) && minted == token + 1
    {
      token, minted := minted, minted + 1;
    }

    method CreateEvent(ics: Option<Ics>) returns (r: Result<nat, CalendarError>)
      requires Valid()
      modifies this
      ensures Valid()
      ensures r.Ok? ==> (Contents(), r) == Created(old(Contents()), ics)
      ensures r.Err? ==> Created(old(Contents()), ics) == (old(Contents()), r)
      ensures r.Err? ==> events == old(events) && deleted == old(deleted)
    {
      var token := Token();
      if ics.None? { return Err(InvalidEvent); }
      var revision := Token();
      var record := MakeRecord(ics.value, NewUid(token), "", false, false, None, NoConflict, revision);
      if record.None? { return Err(InvalidEvent); }
      if |events| >= MAX_EVENTS_PER_OWNER { return Err(InvalidEvent); }
      var id := Token();
      events := events + [Entry(id, record.value)];
      return Ok(id);
    }

    method UpdateEvent(id: nat, revision: Option<nat>, edited: Option<Ics>) returns (r: Result<nat, CalendarError>)
      requires Valid()
      modifies this
      ensures Valid()
      ensures r.Ok? ==> (Contents(), r) == Updated(old(Contents()), id, revision, edited)
      ensures r.Err? ==> Updated(old(Contents()), id, revision, edited) == (old(Contents()), r)
      ensures r.Err? ==> events == old(events) && deleted == old(deleted)
    {
      var existing := Existing(Contents(), id, revision);
      if existing.Err? { return Err(existing.error); }
      var current := existing.value;
      if edited.None? { return Err(InvalidEvent); }
      var token := Token();
      var record := MakeRecord(edited.value, current.uid, current.href, current.fromNextcloud, true,
                               current.etag, current.conflict, token);
      if record.None? { return Err(InvalidEvent); }
      WithKeepsIds(events, id, record.value);
      events := With(events, id, record.value);
      return Ok(id);
    }

    method DeleteEvent(id: nat, revision: Option<nat>) returns (r: Result<nat, CalendarError>)
      requires Valid()
      modifies this
      ensures Valid()
      ensures (Contents(), r) == Removed(old(Contents()), id, revision)
    {
      var existing := Existing(Contents(), id, revision);
      if existing.Err? { return Err(existing.error); }
      var current := existing.value;
      WithoutSound(events, id);
      events := Without(events, id);
      if current.fromNextcloud && current.conflict != DeletedInNextcloud {
        deleted := deleted + [Tombstone(current.href, current.etag, current.title)];
      }
      return Ok(id);
    }

    method ImportFromNextcloud(rows: seq<Row>) returns (copied: nat)
      requires Valid()
      modifies this
      ensures Valid() && Contents() == Imported(old(Contents()), rows)
      ensures copied == |events| - |old(events)|
    {
      var held := Uids(events);
      copied := 0;
      var i := 0;
      ImportedDistinct(Contents(), rows);
      while i < |rows|
        invariant 0 <= i <= |rows|
        invariant held == Uids(events)
        invariant Imported(old(Contents()), rows) == Imported(Contents(), rows[i..])
        invariant copied == |events| - |old(events)|
      {
        if |events| >= MAX_EVENTS_PER_OWNER { break; }
        var record := Copy(rows[i], held, minted);
        if record.Some? {
          var revision := Token();
          var id := Token();
          events := events + [Entry(id, record.value)];
          held := held + {record.value.uid};
          copied := copied + 1;
        }
        i := i + 1;
      }
    }

    /** The deletions, in order, from the list as stored. */
    method SendStones(server0: Server, env: seq<Weather>)
      returns (server: Server, weather: seq<Weather>, stones: seq<Tombstone>, moved: nat, kept: seq<string>, ending: Ending)
      ensures Sent(server, weather, stones, moved, kept, ending) == SendDeletes(server0, deleted, env)
    {
      server, weather, ending := server0, env, Done;
      stones, moved, kept := deleted, 0, [];
      var i := 0;
      ghost var legacy: seq<Tombstone> := [];
      while i < |deleted|
        invariant 0 <= i <= |deleted|
        invariant stones == legacy + deleted[i..] && forall x <- legacy :: x.etag.None?
        invariant SendDeletes(server0, deleted, env)
               == After(legacy, moved, kept, SendDeletes(server, deleted[i..], weather))
      {
        var item := deleted[i];
        Split(legacy, deleted, i);
        StoneStep(server, item, deleted[i + 1..], weather, legacy, moved, kept);
        var (answered, rest, verdict) := SendDelete(server, item, weather);
        server, weather := answered, rest;
        match verdict {
          case Unsent(how) => return server, weather, stones, moved, kept, how;
          case Legacy =>
            kept := kept + [item.Name()];
            legacy := legacy + [item];
          case Withdrawn =>
            RemoveAfter(legacy, item, deleted[i + 1..]);
            stones := RemoveFirst(stones, item);
            kept := kept + [item.Name()];
          case Gone =>
            RemoveAfter(legacy, item, deleted[i + 1..]);
            stones := RemoveFirst(stones, item);
            moved := moved + 1;
        }
        i := i + 1;
      }
    }

    /** The events, in order, from the dictionary as stored; each is deleted or changed by its id. */
    method SendStored(server0: Server, env: seq<Weather>)
      returns (server: Server, here: seq<Entry>, moved: nat, conflicts: seq<string>, ending: Ending)
      requires Distinct(events)
      ensures var sent := SendEvents(server0, events, env);
        && server == sent.server && here == sent.left && moved == sent.moved
        && conflicts == sent.titles && ending == sent.ending
    {
      hide SendEvent, With, Without;
      server, ending := server0, Done;
      var weather := env;
      here, moved, conflicts := events, 0, [];
      var i := 0;
      ghost var pre: seq<Entry> := [];
      while i < |events|
        invariant 0 <= i <= |events|
        invariant here == pre + events[i..] && Distinct(here)
        invariant SendEvents(server0, events, env)
               == After(pre, moved, conflicts, SendEvents(server, events[i..], weather))
      {
        var e := events[i];
        Split(pre, events, i);
        EventStep(server, e, events[i + 1..], weather, pre, moved, conflicts);
        var (answered, rest, verdict) := SendEvent(server, e.record, weather);
        server, weather := answered, rest;
        match verdict {
          case Stop(how) => return server, here, moved, conflicts, how;
          case Forget =>
            AtItsPlace(pre, e, events[i + 1..], e.record);
            WithoutSound(here, e.id);
            here := Without(here, e.id);
            moved := moved + 1;
          case Keep(record, news) =>
            AtItsPlace(pre, e, events[i + 1..], record);
            WithKeepsIds(here, e.id, record);
            here := With(here, e.id, record);
            conflicts := conflicts + if news then [record.title] else [];
            pre := pre + [Entry(e.id, record)];
        }
        i := i + 1;
      }
    }

    /** `crash` stops Mu3Lab before the result is saved; the exchanges up to then have happened. */
    method PushToNextcloud(connected: bool, server0: Server, env: seq<Weather>, crash: bool)
      returns (server: Server, r: Result<Report, CalendarError>)
      requires Valid()
      modifies this
      ensures Valid()
      ensures !connected && (old(events) != [] || old(deleted) != []) ==> r == Err(NotConnected)
      ensures r == Err(NotConnected) ==> server == server0 && Contents() == old(Contents())
      ensures r != Err(NotConnected) ==>
        var p := Pushed(old(Contents()), server0, env);
        && server == p.server
        && Contents() == (if crash then old(Contents()) else p.bucket)
        && r == Outcome(p)
    {
      hide SendDeletes, SendEvents;
      if events == [] && deleted == [] {
        NothingToSend(Contents(), server0, env);
        return server0, Ok(Report(0, [], []));
      }
      if !connected { return server0, Err(NotConnected); }
      var here, stones, moved, conflicts, kept, ending;
      var weather;
      server, weather, stones, moved, kept, ending := SendStones(server0, env);
      here, conflicts := events, [];
      if ending == Done {
        var more;
        SendEventsDistinct(server, events, weather);
        server, here, more, conflicts, ending := SendStored(server, weather);
        moved := moved + more;
      }
      if !crash { events, deleted := here, stones; }
      r := if ending == Failed then Err(Unavailable) else Ok(Report(moved, conflicts, kept));
      ghost var b := old(Contents());
      ghost var d := SendDeletes(server0, b.deleted, env);
      PushedFrom(b, server0, env, d, SendEvents(d.server, b.events, d.env));
    }

    method ResolveConflict(id: nat, keep: Side, connected: bool, server0: Server, env: seq<Weather>, crash: bool)
      returns (server: Server, r: Result<nat, CalendarError>)
      requires Valid()
      modifies this
      ensures Valid()
      ensures var resolved := Resolved(old(Contents()), id, keep, connected, server0, env);
        server == resolved.0 && r == resolved.2 && Contents() == if crash then old(Contents()) else resolved.1
    {
      server := server0;
      if keep == Neither { return server, Err(InvalidEvent); }
      var found := Find(events, id);
      if found.None? || found.value.conflict == NoConflict { return server, Err(NotFound); }
      if keep == Mine {
        if !connected { return server, Err(NotConnected); }
        var sent := Replaced(server, found.value, env);
        server := sent.0;
        if sent.1.Err? { return server, sent.1; }
      }
      if !crash {
        WithoutSound(events, id);
        events := Without(events, id);
      }
      return server, Ok(id);
    }

    /** Only reads; anything that is not a conflict can be sent. */
    method HasPendingUpload() returns (pending: bool)
      ensures pending == PendingUpload(Contents())
      ensures pending <==> deleted != [] || exists e <- events :: e.record.conflict == NoConflict
    {
      if deleted != [] { return true; }
      var i := 0;
      while i < |events|
        invariant 0 <= i <= |events|
        invariant forall e <- events[..i] :: e.record.conflict != NoConflict
      {
        if events[i].record.conflict == NoConflict { return true; }
        i := i + 1;
      }
      return false;
    }
  }
}
