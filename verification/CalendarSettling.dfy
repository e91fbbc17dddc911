/** Where syncs end up when the network answers and nobody else edits meanwhile. */
module CalendarSettling {
  import opened CalDav
  import opened LocalCalendar

  lemma CalmLater(env: seq<Weather>)
    ensures Calm(env) ==> Now(env).fate.Served? && Calm(Later(env))
    ensures Undisturbed(env) ==> Quiet(Now(env)) && Undisturbed(Later(env))
    ensures Calm(env) ==> Undisturbed(env)
  {
  }

  // ---- There and back ---------------------------------------------------------------------

  predicate Untouched(files: Files, e: Entry) {
    e.record.fromNextcloud && !e.record.modified && e.record.conflict == NoConflict && e.record.href in files
  }

  /** Untouched copies of files still in Nextcloud change nothing there; answered, they are all forgotten. */
  lemma {:induction false} UntouchedReturn(s: Server, events: seq<Entry>, env: seq<Weather>)
    requires (forall e <- events :: Untouched(s.files, e)) && Undisturbed(env)
    ensures SendEvents(s, events, env).server == s
    ensures Calm(env) ==> SendEvents(s, events, env).left == [] && SendEvents(s, events, env).ending == Done
    decreases |events|
  {
    if events != [] {
      CalmLater(env);
      UntouchedForgotten(s, events[0], env);
      assert events[0] in events && forall e <- events[1..] :: e in events;
      UntouchedReturn(s, events[1..], Later(env));
      hide Untouched, SendEvent, Calm, Undisturbed;
    }
  }

  lemma UntouchedForgotten(s: Server, e: Entry, env: seq<Weather>)
    requires Untouched(s.files, e) && Quiet(Now(env))
    ensures var (t, env', verdict) := SendEvent(s, e.record, env);
      t == s && env' == Later(env) && (Now(env).fate.Served? ==> verdict.Forget?)
  {
  }

  lemma {:induction false} CopiesUntouched(files: Files, b: Bucket, listing: seq<string>, untagged: set<string>)
    requires forall e <- b.events :: Untouched(files, e)
    ensures forall e <- Imported(b, Exported(files, listing, untagged)).events :: Untouched(files, e)
    decreases |listing|
  {
    if listing == [] || |b.events| >= MAX_EVENTS_PER_OWNER { return; }
    var name := listing[0];
    var rest := Exported(files, listing[1..], untagged);
    var rows := Exported(files, listing, untagged);
    if name in files && ResourceName(name) {
      assert rows[1..] == rest;
      match Copy(rows[0], Uids(b.events), b.minted)
      case None => CopiesUntouched(files, b, listing[1..], untagged);
      case Some(record) =>
        var b' := b.(events := b.events + [Entry(b.minted + 1, record)], minted := b.minted + 2);
        CopiesUntouched(files, b', listing[1..], untagged);
    } else {
      assert rows == rest;
      CopiesUntouched(files, b, listing[1..], untagged);
    }
  }

  /**
   * Copying a calendar in and handing it back, with no edit on either side, leaves Nextcloud as it
   * was even if requests or replies are lost, and leaves nothing here once all are answered.
   */
  lemma ThereAndBack(s: Server, b: Bucket, listing: seq<string>, untagged: set<string>, env: seq<Weather>)
    requires b.events == [] && b.deleted == [] && Undisturbed(env)
    ensures var p := Pushed(Imported(b, Exported(s.files, listing, untagged)), s, env);
      p.server == s && (Calm(env) ==> p.bucket.events == [] && p.bucket.deleted == [] && p.ending == Done)
  {
    hide SendEvents;
    var rows := Exported(s.files, listing, untagged);
    CopiesUntouched(s.files, b, listing, untagged);
    ImportedKeeps(b, rows);
    UntouchedReturn(s, Imported(b, rows).events, env);
  }

  // ---- A calm sync settles everything it can ------------------------------------------------

  predicate Conflicted(events: seq<Entry>) {
    forall e <- events :: e.record.conflict != NoConflict
  }

  predicate Versionless(items: seq<Tombstone>) {
    forall item <- items :: item.etag.None?
  }

  lemma CalmEvent(s: Server, r: Record, env: seq<Weather>)
    requires Calm(env)
    ensures var (_, env', verdict) := SendEvent(s, r, env);
      && Calm(env') && !verdict.Stop?
      && (verdict.Keep? ==> verdict.record.conflict != NoConflict)
  {
    CalmLater(env);
    CalmLater(Later(env));
    assert Edits(s, Now(env).edits) == s;
    if r.conflict == NoConflict && (r.EditedCopy() ==> r.etag.Some?) {
      var condition := if r.EditedCopy() then IfMatch(r.etag.value) else IfNoneMatch;
      var (t, reply) := Exchange(s, Put(r.href, r.ics, condition), Now(env));
      assert Edits(t, Now(Later(env)).edits) == t;
    }
  }

  lemma {:induction false} CalmEvents(s: Server, events: seq<Entry>, env: seq<Weather>)
    requires Calm(env)
    ensures var sent := SendEvents(s, events, env);
      && sent.ending == Done && Conflicted(sent.left)
      && |events| == sent.moved + |sent.left|
    decreases |events|
  {
    if events != [] {
      CalmEvent(s, events[0].record, env);
      var (t, env', _) := SendEvent(s, events[0].record, env);
      CalmEvents(t, events[1..], env');
    }
  }

  lemma {:induction false} CalmDeletes(s: Server, items: seq<Tombstone>, env: seq<Weather>)
    requires Calm(env)
    ensures var sent := SendDeletes(s, items, env);
      && sent.ending == Done && Calm(sent.env) && Versionless(sent.left)
      && (sent.left == [] <==> forall item <- items :: item.etag.Some?)
      && |items| == sent.moved + |sent.titles|
    decreases |items|
  {
    if items != [] {
      CalmLater(env);
      assert Edits(s, Now(env).edits) == s;
      var (t, env', _) := SendDelete(s, items[0], env);
      CalmDeletes(t, items[1..], env');
    }
  }

  /** With only conflicts and versionless deletions left, a sync sends nothing, whatever the weather. */
  lemma {:induction false} NothingSent(s: Server, items: seq<Tombstone>, events: seq<Entry>, env: seq<Weather>)
    requires Versionless(items) && Conflicted(events)
    ensures SendDeletes(s, items, env).server == s && SendDeletes(s, items, env).left == items
    ensures SendDeletes(s, items, env).ending == Done && SendDeletes(s, items, env).moved == 0
    ensures SendDeletes(s, items, env).env == env
    ensures SendEvents(s, events, env) == Sent(s, env, events, 0, [], Done)
    decreases |items| + |events|
  {
    if items != [] { NothingSent(s, items[1..], events, env); }
    if items == [] && events != [] { NothingSent(s, [], events[1..], env); }
  }

  /**
   * After a fully answered sync without interference only conflicts and versionless deletions
   * remain, every item is accounted for in the report, and another sync changes nothing.
   */
  lemma CalmSyncSettles(b: Bucket, s: Server, env: seq<Weather>, later: seq<Weather>)
    requires Calm(env)
    ensures var p := Pushed(b, s, env);
      && p.ending == Done && Conflicted(p.bucket.events) && Versionless(p.bucket.deleted)
      && |b.events| + |b.deleted| == p.report.moved + |p.report.kept| + |p.bucket.events|
      && Pushed(p.bucket, p.server, later).server == p.server
      && Pushed(p.bucket, p.server, later).bucket == p.bucket
      && Pushed(p.bucket, p.server, later).report.moved == 0
  {
    hide SendEvents, SendDeletes;
    CalmDeletes(s, b.deleted, env);
    var d := SendDeletes(s, b.deleted, env);
    CalmEvents(d.server, b.events, d.env);
    var p := Pushed(b, s, env);
    NothingSent(p.server, p.bucket.deleted, p.bucket.events, later);
  }

  /**
   * The calendar then says it has nothing to send exactly when no deletion lacked a version:
   * one stored by an older release keeps it saying so for ever, though a sync never sends it.
   */
  lemma PendingAfterCalmSync(b: Bucket, s: Server, env: seq<Weather>)
    requires Calm(env)
    ensures PendingUpload(Pushed(b, s, env).bucket) <==> exists item <- b.deleted :: item.etag.None?
  {
    hide SendEvents, SendDeletes;
    CalmDeletes(s, b.deleted, env);
    var d := SendDeletes(s, b.deleted, env);
    CalmEvents(d.server, b.events, d.env);
  }
}
