/**
 * Whole runs of the calendar: any interleaving of edits here, edits by other
 * Nextcloud clients, copies in, syncs and settled conflicts, over a network
 * that may lose requests and replies, with a crash possible before any save.
 */
module CalendarRuns {
  import opened Wrappers
  import opened CalDav
  import opened LocalCalendar

  datatype World = World(bucket: Bucket, server: Server)

  datatype Step =
    | Create(ics: Option<Ics>)
    | Update(id: nat, revision: Option<nat>, edited: Option<Ics>)
    | Remove(id: nat, revision: Option<nat>)
    | Import(listing: seq<string>, untagged: set<string>)
    | Sync(env: seq<Weather>, crash: bool)
    | Resolve(id: nat, keep: Side, connected: bool, env: seq<Weather>, crash: bool)
    | Elsewhere(edit: RemoteEdit)

  function Next(w: World, step: Step): World {
    match step
    case Create(ics) => w.(bucket := Created(w.bucket, ics).0)
    case Update(id, revision, edited) => w.(bucket := Updated(w.bucket, id, revision, edited).0)
    case Remove(id, revision) => w.(bucket := Removed(w.bucket, id, revision).0)
    case Import(listing, untagged) =>
      w.(bucket := Imported(w.bucket, Exported(w.server.files, listing, untagged)))
    case Sync(env, crash) =>
      var p := Pushed(w.bucket, w.server, env);
      World(if crash then w.bucket else p.bucket, p.server)
    case Resolve(id, keep, connected, env, crash) =>
      var (t, b, _) := Resolved(w.bucket, id, keep, connected, w.server, env);
      World(if crash then w.bucket else b, t)
    case Elsewhere(edit) => w.(server := Edit(w.server, edit))
  }

  function Run(w: World, steps: seq<Step>): World {
    if steps == [] then w else Next(Run(w, steps[..|steps| - 1]), steps[|steps| - 1])
  }

  // ---- One event, one list ------------------------------------------------------------

  /** Marking a conflict changes nothing else; a copy keeps the version it was taken from. */
  predicate Marked(before: Record, after: Record) {
    && after == before.(conflict := after.conflict, etag := after.etag)
    && (before.fromNextcloud ==> after.etag == before.etag)
  }

  /** Nextcloud held this event's file at some moment from `s` to `t`, with this text if it was written here. */
  ghost predicate Delivered(s: Server, t: Server, r: Record) {
    exists k :: |s.log| <= k < |t.past| && Delivery(t.past[k], r)
  }

  predicate Delivery(files: Files, r: Record) {
    r.href in files && (r.LocalText() ==> Same(files[r.href].text, r.ics))
  }

  /** The only changes a sync may make for an event: create its file, or replace the version its copy came from. */
  predicate EventEffect(r: Record, e: Effect) {
    && e.name == r.href && e.after.Some? && e.after.value.text == r.ics
    && (if r.EditedCopy() then e.before.Some? && r.etag == Some(e.before.value.version) else e.before.None?)
  }

  predicate StoneEffect(item: Tombstone, e: Effect) {
    e.name == item.href && e.after.None? && e.before.Some? && item.etag == Some(e.before.value.version)
  }

  lemma OfferAccounts(s: Server, r: Record, env: seq<Weather>)
    requires Sound(s) && r.conflict == NoConflict && (r.EditedCopy() ==> r.etag.Some?)
    ensures var (t, env', verdict) := Offer(s, r, env);
      && Sound(t) && Grows(s, t)
      && (verdict.Forget? ==> Delivery(t.files, r))
      && (verdict.Keep? ==> Marked(r, verdict.record))
      && (forall k :: |s.log| <= k < |t.log| && t.log[k].who == Mu3Lab ==> EventEffect(r, t.log[k]))
  {
    var request := Put(r.href, r.ics, if r.EditedCopy() then IfMatch(r.etag.value) else IfNoneMatch);
    ExchangeSound(s, request, Now(env));
    AnswerTells(s, request, Now(env));
    var (t, reply) := Exchange(s, request, Now(env));
    if !reply.NoReply? && Code(reply) == 412 && !r.fromNextcloud { CompareAccounts(t, r, Later(env)); }
    hide Sound, Exchange, Compare;
  }

  lemma CompareAccounts(s: Server, r: Record, env: seq<Weather>)
    requires Sound(s) && !r.fromNextcloud
    ensures var (t, env', verdict) := Compare(s, r, env);
      && Sound(t) && Grows(s, t)
      && (verdict.Forget? ==> Delivery(t.files, r))
      && (verdict.Keep? ==> Marked(r, verdict.record))
      && (forall k :: |s.log| <= k < |t.log| ==> t.log[k].who != Mu3Lab)
  {
    ExchangeSound(s, Get(r.href), Now(env));
    AnswerTells(s, Get(r.href), Now(env));
    hide Sound, Exchange;
  }

  lemma EventAccounts(s: Server, r: Record, env: seq<Weather>)
    requires Sound(s)
    ensures var (t, env', verdict) := SendEvent(s, r, env);
      && Sound(t) && Grows(s, t)
      && (verdict.Forget? ==> Delivered(s, t, r))
      && (verdict.Keep? ==> Marked(r, verdict.record))
      && (forall k :: |s.log| <= k < |t.log| && t.log[k].who == Mu3Lab ==> EventEffect(r, t.log[k]))
  {
    if r.conflict == NoConflict && (r.EditedCopy() ==> r.etag.Some?) {
      OfferAccounts(s, r, env);
      var (t, _, verdict) := Offer(s, r, env);
      assert verdict.Forget? ==> Delivery(t.past[|t.log|], r);
    }
  }

  ghost predicate Stays(e: Entry, left: seq<Entry>) {
    exists x <- left :: x.id == e.id && Marked(e.record, x.record)
  }

  ghost predicate FromOneOf(x: Entry, events: seq<Entry>) {
    exists e <- events :: x.id == e.id && Marked(e.record, x.record)
  }

  ghost predicate EventLicensed(events: seq<Entry>, effect: Effect) {
    exists e <- events :: e.record.conflict == NoConflict && EventEffect(e.record, effect)
  }

  ghost predicate StoneLicensed(items: seq<Tombstone>, effect: Effect) {
    exists item <- items :: StoneEffect(item, effect)
  }

  lemma DeliveredLonger(s: Server, t: Server, u: Server, v: Server, r: Record)
    requires Delivered(t, u, r) && Grows(s, t) && Grows(u, v)
    ensures Delivered(s, v, r)
  {
    var k :| |t.log| <= k < |u.past| && Delivery(u.past[k], r);
    assert v.past[k] == u.past[k];
  }

  /** Every change Mu3Lab made from `s` to `t` was made for one of these events. */
  ghost predicate EventsOnly(s: Server, t: Server, events: seq<Entry>) {
    forall k :: |s.log| <= k < |t.log| && t.log[k].who == Mu3Lab ==> EventLicensed(events, t.log[k])
  }

  ghost predicate StonesOnly(s: Server, t: Server, items: seq<Tombstone>) {
    forall k :: |s.log| <= k < |t.log| && t.log[k].who == Mu3Lab ==> StoneLicensed(items, t.log[k])
  }

  lemma EventsOnlyMore(s: Server, t: Server, u: Server, e: Entry, tail: seq<Entry>)
    requires Grows(t, u) && EventsOnly(t, u, tail)
    requires forall k :: |s.log| <= k < |t.log| && t.log[k].who == Mu3Lab
               ==> e.record.conflict == NoConflict && EventEffect(e.record, t.log[k])
    ensures EventsOnly(s, u, [e] + tail)
  {
    var events := [e] + tail;
    assert e in events && forall x <- tail :: x in events;
    forall k | |s.log| <= k < |u.log| && u.log[k].who == Mu3Lab ensures EventLicensed(events, u.log[k]) {
      if k < |t.log| {
        assert t.log[k] == u.log[k];
      } else {
        assert EventLicensed(tail, u.log[k]);
      }
    }
  }

  lemma StonesOnlyMore(s: Server, t: Server, u: Server, item: Tombstone, tail: seq<Tombstone>)
    requires Grows(t, u) && StonesOnly(t, u, tail)
    requires forall k :: |s.log| <= k < |t.log| && t.log[k].who == Mu3Lab ==> StoneEffect(item, t.log[k])
    ensures StonesOnly(s, u, [item] + tail)
  {
    var items := [item] + tail;
    assert item in items && forall x <- tail :: x in items;
    forall k | |s.log| <= k < |u.log| && u.log[k].who == Mu3Lab ensures StoneLicensed(items, u.log[k]) {
      if k < |t.log| {
        assert t.log[k] == u.log[k];
      } else {
        assert StoneLicensed(tail, u.log[k]);
      }
    }
  }

  /** Every event of a list stays or is delivered from `s` to `t`, and none appears. */
  ghost predicate Accounts(s: Server, t: Server, events: seq<Entry>, left: seq<Entry>) {
    && Grows(s, t)
    && (forall e <- events :: Stays(e, left) || Delivered(s, t, e.record))
    && (forall x <- left :: FromOneOf(x, events))
  }

  lemma AccountsMore(s: Server, t: Server, u: Server, e: Entry, tail: seq<Entry>, left: seq<Entry>, kept: seq<Entry>)
    requires Accounts(t, u, tail, left) && Grows(s, t)
    requires kept == [] ==> Delivered(s, t, e.record)
    requires kept != [] ==> |kept| == 1 && kept[0].id == e.id && Marked(e.record, kept[0].record)
    ensures Accounts(s, u, [e] + tail, kept + left)
  {
    forall x | x in [e] + tail ensures Stays(x, kept + left) || Delivered(s, u, x.record) {
      if x == e && kept == [] {
        DeliveredLonger(s, s, t, u, e.record);
      } else if x == e {
        StaysIn(e, kept, [], left);
      } else if Stays(x, left) {
        StaysIn(x, left, kept, []);
      } else {
        DeliveredLonger(s, t, u, u, x.record);
      }
    }
    forall x | x in kept + left ensures FromOneOf(x, [e] + tail) {
      assert e in [e] + tail && forall y <- tail :: y in [e] + tail;
      if x in left { assert FromOneOf(x, tail); }
    }
  }

  lemma StaysIn(e: Entry, part: seq<Entry>, before: seq<Entry>, after: seq<Entry>)
    requires Stays(e, part)
    ensures Stays(e, before + part) && Stays(e, part + after)
  {
    var x :| x in part && x.id == e.id && Marked(e.record, x.record);
    assert x in before + part && x in part + after;
  }

  /** Sending the events loses none: each stays (unchanged but for a conflict mark) or was delivered. */
  lemma {:induction false} EventsAccount(s: Server, events: seq<Entry>, env: seq<Weather>)
    requires Sound(s)
    ensures var sent := SendEvents(s, events, env);
      Sound(sent.server) && Accounts(s, sent.server, events, sent.left) && EventsOnly(s, sent.server, events)
    decreases |events|
  {
    if events == [] { return; }
    var e := events[0];
    EventAccounts(s, e.record, env);
    var (t, env', verdict) := SendEvent(s, e.record, env);
    assert events == [e] + events[1..];
    match verdict
    case Stop(_) =>
      Unsent(t, events);
      AccountsMore(s, t, t, e, events[1..], events[1..], [e]);
      EventsOnlyMore(s, t, t, e, events[1..]);
    case Forget =>
      EventsAccount(t, events[1..], env');
      var rest := SendEvents(t, events[1..], env');
      AccountsMore(s, t, rest.server, e, events[1..], rest.left, []);
      EventsOnlyMore(s, t, rest.server, e, events[1..]);
    case Keep(record, _) =>
      EventsAccount(t, events[1..], env');
      var rest := SendEvents(t, events[1..], env');
      AccountsMore(s, t, rest.server, e, events[1..], rest.left, [Entry(e.id, record)]);
      EventsOnlyMore(s, t, rest.server, e, events[1..]);
  }

  lemma Unsent(t: Server, events: seq<Entry>)
    ensures Accounts(t, t, events, events)
    ensures events != [] ==> Accounts(t, t, events[1..], events[1..])
  {
    assert forall x <- events :: Marked(x.record, x.record);
  }

  lemma StoneAccounts(s: Server, item: Tombstone, env: seq<Weather>)
    requires Sound(s)
    ensures var t := SendDelete(s, item, env).0;
      && Sound(t) && Grows(s, t)
      && (forall k :: |s.log| <= k < |t.log| && t.log[k].who == Mu3Lab ==> StoneEffect(item, t.log[k]))
  {
    if item.etag.Some? { ExchangeSound(s, Delete(item.href, item.etag.value), Now(env)); }
  }

  lemma {:induction false} StonesAccount(s: Server, items: seq<Tombstone>, env: seq<Weather>)
    requires Sound(s)
    ensures var sent := SendDeletes(s, items, env);
      && Sound(sent.server) && Grows(s, sent.server) && StonesOnly(s, sent.server, items)
      && (forall x <- sent.left :: x in items)
    decreases |items|
  {
    if items == [] { return; }
    var item := items[0];
    StoneAccounts(s, item, env);
    var (t, env', verdict) := SendDelete(s, item, env);
    assert items == [item] + items[1..];
    if verdict.Unsent? {
      StonesOnlyMore(s, t, t, item, items[1..]);
    } else {
      StonesAccount(t, items[1..], env');
      StonesOnlyMore(s, t, SendDeletes(t, items[1..], env').server, item, items[1..]);
    }
  }

  /** Every change a sync makes is for one of the events or deletions it was to send. */
  ghost predicate SyncOnly(s: Server, t: Server, b: Bucket) {
    forall k :: |s.log| <= k < |t.log| && t.log[k].who == Mu3Lab
      ==> EventLicensed(b.events, t.log[k]) || StoneLicensed(b.deleted, t.log[k])
  }

  /** A sync as a whole. */
  lemma PushAccounts(b: Bucket, s: Server, env: seq<Weather>)
    requires Sound(s)
    ensures var p := Pushed(b, s, env);
      && Sound(p.server) && Accounts(s, p.server, b.events, p.bucket.events) && SyncOnly(s, p.server, b)
      && (forall x <- p.bucket.deleted :: x in b.deleted)
  {
    hide SendEvents, SendDeletes;
    StonesAccount(s, b.deleted, env);
    var d := SendDeletes(s, b.deleted, env);
    var p := Pushed(b, s, env);
    Unsent(d.server, b.events);
    if d.ending == Done { EventsAccount(d.server, b.events, d.env); }
    forall e | e in b.events ensures Stays(e, p.bucket.events) || Delivered(s, p.server, e.record) {
      if Delivered(d.server, p.server, e.record) { DeliveredLonger(s, d.server, p.server, p.server, e.record); }
    }
    forall k | |s.log| <= k < |p.server.log| && p.server.log[k].who == Mu3Lab
      ensures EventLicensed(b.events, p.server.log[k]) || StoneLicensed(b.deleted, p.server.log[k])
    {
      if k < |d.server.log| { assert p.server.log[k] == d.server.log[k]; }
    }
  }

  /** Keeping one's own version: it is delivered, and nothing is replaced but what the check just saw. */
  lemma ReplacedAccounts(s: Server, r: Record, env: seq<Weather>)
    requires Sound(s)
    ensures var (t, result) := Replaced(s, r, env);
      && Sound(t) && Grows(s, t)
      && (result.Ok? ==> Delivered(s, t, r))
      && (forall k :: |s.log| <= k < |t.log| && t.log[k].who == Mu3Lab
            ==> ChoiceEffect(Exchange(s, Get(r.href), Now(env)).0.files, r, t.log[k]))
  {
    var (t, current) := Exchange(s, Get(r.href), Now(env));
    ExchangeSound(s, Get(r.href), Now(env));
    AnswerTells(s, Get(r.href), Now(env));
    if Code(current) == 404 {
      SettledAccounts(s, t, r, IfNoneMatch, Later(env));
    } else if current.Content? && current.etag.Some? {
      SettledAccounts(s, t, r, IfMatch(current.etag.value), Later(env));
    }
  }

  predicate ChoiceEffect(checked: Files, r: Record, e: Effect) {
    && e.name == r.href && e.after.Some? && e.after.value.text == r.ics
    && (e.before.Some? ==> e.before == At(checked, r.href))
  }

  lemma SettledAccounts(s: Server, t: Server, r: Record, condition: Condition, env: seq<Weather>)
    requires Sound(t) && Grows(s, t)
    requires forall k :: |s.log| <= k < |t.log| ==> t.log[k].who != Mu3Lab
    requires condition.IfMatch? ==> r.href in t.files && t.files[r.href].version == condition.version
    ensures var (u, result) := Settled(t, r, condition, env);
      && Sound(u) && Grows(s, u)
      && (result.Ok? ==> Delivered(s, u, r))
      && (forall k :: |s.log| <= k < |u.log| && u.log[k].who == Mu3Lab ==> ChoiceEffect(t.files, r, u.log[k]))
  {
    var request := Put(r.href, r.ics, condition);
    ExchangeSound(t, request, Now(env));
    AnswerTells(t, request, Now(env));
    var (u, reply) := Exchange(t, request, Now(env));
    if Code(reply) in {200, 201, 204} { assert Delivery(u.past[|u.log|], r); }
    forall k | |s.log| <= k < |u.log| && u.log[k].who == Mu3Lab ensures ChoiceEffect(t.files, r, u.log[k]) {
      if |t.log| <= k && u.log[k].before.Some? {
        assert Follows(u.past[k], u.log[k], u.past[k + 1]);
        assert u.past[|t.log|] == t.files;
        assert Agree(u.past[k], u.past[|t.log|]);
      }
    }
  }
}
