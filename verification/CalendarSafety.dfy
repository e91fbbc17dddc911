/** What holds of every run of the calendar, whatever the other clients and the network do. */
module CalendarSafety {
  import opened Wrappers
  import opened CalDav
  import opened LocalCalendar
  import opened CalendarRuns

  // ---- No text is lost ------------------------------------------------------------------

  /** The bucket holds, under this id, a text the person wrote. */
  ghost predicate Has(b: Bucket, id: nat, ics: Ics) {
    exists e <- b.events :: Written(e, id, ics)
  }

  predicate Written(e: Entry, id: nat, ics: Ics) {
    e.id == id && e.record.LocalText() && e.record.ics == ics
  }

  /** The person replaced or gave up this text, or Nextcloud held it during this step. */
  ghost predicate Settles(w: World, step: Step, id: nat, ics: Ics) {
    match step
    case Update(i, revision, edited) =>
      i == id && edited.Some? && Updated(w.bucket, i, revision, edited).1.Ok? && Has(Next(w, step).bucket, id, edited.value)
    case Remove(i, revision) => i == id && Removed(w.bucket, i, revision).1.Ok?
    case Resolve(i, Theirs, connected, env, _) =>
      i == id && Resolved(w.bucket, i, Theirs, connected, w.server, env).2.Ok?
    case Resolve(i, Mine, _, _, _) => i == id && DeliveredText(w, Next(w, step), id, ics)
    case Sync(_, _) => DeliveredText(w, Next(w, step), id, ics)
    case _ => false
  }

  ghost predicate DeliveredText(w: World, w': World, id: nat, ics: Ics) {
    exists e <- w.bucket.events :: Written(e, id, ics) && Delivered(w.server, w'.server, e.record)
  }

  lemma {:induction false} OthersStay(events: seq<Entry>, id: nat, record: Record)
    ensures forall e <- events :: e.id != id ==> e in Without(events, id) && e in With(events, id, record)
    ensures forall e <- Without(events, id) :: e in events
    ensures forall e <- With(events, id, record) :: e in events || e == Entry(id, record)
    ensures (exists e <- events :: e.id == id) ==> Entry(id, record) in With(events, id, record)
    decreases |events|
  {
    if events != [] { OthersStay(events[1..], id, record); }
  }

  // ---- Every state on the way -------------------------------------------------------------

  ghost predicate WellFormed(w: World) {
    Sound(w.server) && DistinctIds(w.bucket)
  }

  lemma NextWellFormed(w: World, step: Step)
    requires WellFormed(w)
    ensures WellFormed(Next(w, step)) && Grows(w.server, Next(w, step).server)
  {
    hide Pushed, Replaced, Imported, Updated;
    match step
    case Create(_) =>
    case Update(id, revision, edited) => UpdatedDistinct(w.bucket, id, revision, edited);
    case Remove(id, _) => WithoutSound(w.bucket.events, id);
    case Import(listing, untagged) => ImportedDistinct(w.bucket, Exported(w.server.files, listing, untagged));
    case Sync(env, _) =>
      PushAccounts(w.bucket, w.server, env);
      PushedDistinct(w.bucket, w.server, env);
    case Resolve(id, _, _, env, _) =>
      var found := Find(w.bucket.events, id);
      if found.Some? { ReplacedAccounts(w.server, found.value, env); }
      WithoutSound(w.bucket.events, id);
    case Elsewhere(edit) =>
      EditsSound(w.server, [edit]);
      assert Edits(w.server, [edit]) == Edit(w.server, edit);
  }

  lemma UpdatedDistinct(b: Bucket, id: nat, revision: Option<nat>, edited: Option<Ics>)
    requires DistinctIds(b)
    ensures DistinctIds(Updated(b, id, revision, edited).0)
  {
    var (b', result) := Updated(b, id, revision, edited);
    if result.Ok? {
      var current := Existing(b, id, revision).value;
      var record := MakeRecord(edited.value, current.uid, current.href, current.fromNextcloud, true,
                               current.etag, current.conflict, b.minted).value;
      WithKeepsIds(b.events, id, record);
      assert b'.events == With(b.events, id, record);
    }
  }

  lemma PushedDistinct(b: Bucket, s: Server, env: seq<Weather>)
    requires DistinctIds(b)
    ensures DistinctIds(Pushed(b, s, env).bucket)
  {
    hide SendDeletes, SendEvents;
    var d := SendDeletes(s, b.deleted, env);
    SendEventsDistinct(d.server, b.events, d.env);
  }

  lemma {:induction false} RunWellFormed(w: World, steps: seq<Step>, i: nat)
    requires WellFormed(w) && i <= |steps|
    ensures WellFormed(Run(w, steps)) && WellFormed(Run(w, steps[..i]))
    ensures Grows(Run(w, steps[..i]).server, Run(w, steps).server)
    decreases |steps|
  {
    hide Next, WellFormed;
    if steps == [] { return; }
    var n := |steps| - 1;
    if i <= n {
      RunWellFormed(w, steps[..n], i);
      assert steps[..n][..i] == steps[..i];
    } else {
      RunWellFormed(w, steps[..n], n);
      assert steps[..i] == steps && steps[..n][..n] == steps[..n];
    }
    NextWellFormed(Run(w, steps[..n]), steps[n]);
  }

  /** Nothing in one step makes a written text disappear unaccounted for. */
  lemma StepKeepsText(w: World, step: Step, id: nat, ics: Ics)
    requires WellFormed(w) && Has(w.bucket, id, ics)
    ensures Has(Next(w, step).bucket, id, ics) || Settles(w, step, id, ics)
  {
    var e :| e in w.bucket.events && Written(e, id, ics);
    match step
    case Create(_) => assert e in Next(w, step).bucket.events;
    case Update(i, revision, edited) =>
      if Updated(w.bucket, i, revision, edited).1.Ok? { UpdateKeepsOthers(w.bucket, i, revision, edited, e); }
    case Remove(i, _) => OthersStay(w.bucket.events, i, e.record);
    case Import(listing, untagged) => ImportedKeeps(w.bucket, Exported(w.server.files, listing, untagged));
    case Sync(env, crash) => SyncKeepsText(w, env, crash, e);
    case Resolve(i, keep, connected, env, crash) =>
      OthersStay(w.bucket.events, i, e.record);
      if i == id { ChoiceKeepsText(w, keep, connected, env, crash, e); }
    case Elsewhere(_) =>
  }

  lemma UpdateKeepsOthers(b: Bucket, id: nat, revision: Option<nat>, edited: Option<Ics>, e: Entry)
    requires e in b.events && Updated(b, id, revision, edited).1.Ok?
    ensures var b' := Updated(b, id, revision, edited).0;
      (e.id != id ==> e in b'.events) && edited.Some? && Has(b', id, edited.value)
  {
    var current := Existing(b, id, revision).value;
    var record := MakeRecord(edited.value, current.uid, current.href, current.fromNextcloud, true,
                             current.etag, current.conflict, b.minted).value;
    OthersStay(b.events, id, record);
    assert Entry(id, current) in b.events;
    assert Written(Entry(id, record), id, edited.value);
  }

  lemma SyncKeepsText(w: World, env: seq<Weather>, crash: bool, e: Entry)
    requires WellFormed(w) && e in w.bucket.events && e.record.LocalText()
    ensures var w' := Next(w, Sync(env, crash));
      Has(w'.bucket, e.id, e.record.ics) || DeliveredText(w, w', e.id, e.record.ics)
  {
    hide Pushed, Sound, DistinctIds, Delivered, SyncOnly, FromOneOf, Grows;
    var w' := Next(w, Sync(env, crash));
    var p := Pushed(w.bucket, w.server, env);
    assert Written(e, e.id, e.record.ics);
    PushAccounts(w.bucket, w.server, env);
    if !crash && Stays(e, p.bucket.events) {
      var x :| x in p.bucket.events && x.id == e.id && Marked(e.record, x.record);
      assert Written(x, e.id, e.record.ics);
    }
  }

  lemma ChoiceKeepsText(w: World, keep: Side, connected: bool, env: seq<Weather>, crash: bool, e: Entry)
    requires WellFormed(w) && e in w.bucket.events && e.record.LocalText()
    ensures var w' := Next(w, Resolve(e.id, keep, connected, env, crash));
      || Has(w'.bucket, e.id, e.record.ics) || DeliveredText(w, w', e.id, e.record.ics)
      || (keep == Theirs && Resolved(w.bucket, e.id, keep, connected, w.server, env).2.Ok?)
  {
    assert Written(e, e.id, e.record.ics);
    var found := Find(w.bucket.events, e.id);
    assert Entry(e.id, found.value) == e;
    ReplacedAccounts(w.server, e.record, env);
  }

  /** The step takes the text out of the bucket. */
  ghost predicate Vanishes(w: World, step: Step, id: nat, ics: Ics) {
    Has(w.bucket, id, ics) && !Has(Next(w, step).bucket, id, ics)
  }

  /**
   * Whatever happens after a text was written here, it is still here, or there was a step that took
   * it away, and at that very step its author replaced or gave it up, or Nextcloud held exactly that
   * text under that event's name.
   */
  lemma {:induction false} NoTextLost(w: World, steps: seq<Step>, i: nat, id: nat, ics: Ics)
    requires WellFormed(w) && i <= |steps| && Has(Run(w, steps[..i]).bucket, id, ics)
    ensures Has(Run(w, steps).bucket, id, ics)
         || exists j :: i <= j < |steps| && Vanishes(Run(w, steps[..j]), steps[j], id, ics)
                                         && Settles(Run(w, steps[..j]), steps[j], id, ics)
    decreases |steps|
  {
    hide Next, Settles, Has, WellFormed;
    if i == |steps| {
      assert steps[..i] == steps;
    } else {
      var n := |steps| - 1;
      assert steps[..n][..i] == steps[..i];
      NoTextLost(w, steps[..n], i, id, ics);
      if Has(Run(w, steps[..n]).bucket, id, ics) {
        RunWellFormed(w, steps[..n], n);
        StepKeepsText(Run(w, steps[..n]), steps[n], id, ics);
      } else {
        var j :| i <= j < n && Vanishes(Run(w, steps[..n][..j]), steps[..n][j], id, ics)
                            && Settles(Run(w, steps[..n][..j]), steps[..n][j], id, ics);
        assert steps[..n][..j] == steps[..j];
      }
    }
  }

  // ---- A sync touches only what it copied --------------------------------------------------

  /** An earlier copy-in of this run found this very version of the file, with this text, in Nextcloud. */
  ghost predicate Shown(w: World, steps: seq<Step>, name: string, found: Resource) {
    exists i :: 0 <= i < |steps| && ShownAt(Run(w, steps[..i]), steps[i], name, found)
  }

  predicate ShownAt(w: World, step: Step, name: string, found: Resource) {
    step.Import? && At(w.server.files, name) == Some(found)
  }

  /** A copy names the version it was taken from, and unless edited here still has that version's text. */
  ghost predicate CopyTraced(w: World, steps: seq<Step>, r: Record) {
    r.fromNextcloud ==>
      && r.href != ""
      && (r.etag.Some? ==> exists found :: Shown(w, steps, r.href, found) && r.etag == Some(found.version)
                                        && (!r.modified ==> r.ics == found.text))
  }

  ghost predicate StoneTraced(w: World, steps: seq<Step>, item: Tombstone) {
    item.etag.Some? ==> exists found :: Shown(w, steps, item.href, found) && item.etag == Some(found.version)
  }

  ghost predicate Traced(w: World, steps: seq<Step>, b: Bucket) {
    (forall e <- b.events :: CopyTraced(w, steps, e.record)) && (forall item <- b.deleted :: StoneTraced(w, steps, item))
  }

  lemma ShownLater(w: World, steps: seq<Step>, step: Step, name: string, found: Resource)
    requires Shown(w, steps, name, found)
    ensures Shown(w, steps + [step], name, found)
  {
    var i :| 0 <= i < |steps| && ShownAt(Run(w, steps[..i]), steps[i], name, found);
    assert (steps + [step])[..i] == steps[..i];
  }

  lemma TracedLater(w: World, steps: seq<Step>, step: Step, b: Bucket)
    requires Traced(w, steps, b)
    ensures Traced(w, steps + [step], b)
  {
    hide Shown;
    forall e | e in b.events ensures CopyTraced(w, steps + [step], e.record) {
      var r := e.record;
      assert CopyTraced(w, steps, r);
      if r.fromNextcloud && r.etag.Some? {
        var found :| Shown(w, steps, r.href, found) && r.etag == Some(found.version) && (!r.modified ==> r.ics == found.text);
        ShownLater(w, steps, step, r.href, found);
      }
    }
    forall item | item in b.deleted ensures StoneTraced(w, steps + [step], item) {
      assert StoneTraced(w, steps, item);
      if item.etag.Some? {
        var found :| Shown(w, steps, item.href, found) && item.etag == Some(found.version);
        ShownLater(w, steps, step, item.href, found);
      }
    }
  }

  lemma {:induction false} ExportedRows(files: Files, listing: seq<string>, untagged: set<string>)
    ensures forall row <- Exported(files, listing, untagged) ::
      && ResourceName(row.href) && row.href in files && row.text == files[row.href].text
      && (row.etag.Some? ==> row.etag.value == files[row.href].version)
    decreases |listing|
  {
    if listing != [] { ExportedRows(files, listing[1..], untagged); }
  }

  lemma {:induction false} ImportedAreCopies(b: Bucket, rows: seq<Row>)
    ensures forall e <- Imported(b, rows).events :: e in b.events || exists row <- rows :: CopyOf(e.record, row)
    decreases |rows|
  {
    if rows != [] && |b.events| < MAX_EVENTS_PER_OWNER {
      assert forall row <- rows[1..] :: row in rows;
      match Copy(rows[0], Uids(b.events), b.minted)
      case None => ImportedAreCopies(b, rows[1..]);
      case Some(record) =>
        assert CopyOf(record, rows[0]);
        ImportedAreCopies(b.(events := b.events + [Entry(b.minted + 1, record)], minted := b.minted + 2), rows[1..]);
    }
  }

  predicate CopyOf(r: Record, row: Row) {
    && r.fromNextcloud && !r.modified && r.conflict == NoConflict && r.ics == row.text && r.etag == row.etag
    && (row.href != "" ==> r.href == row.href)
  }

  lemma ImportTraced(w: World, steps: seq<Step>, listing: seq<string>, untagged: set<string>)
    requires Traced(w, steps + [Import(listing, untagged)], Run(w, steps).bucket)
    ensures Traced(w, steps + [Import(listing, untagged)], Next(Run(w, steps), Import(listing, untagged)).bucket)
  {
    var here := Run(w, steps);
    var step := Import(listing, untagged);
    var rows := Exported(here.server.files, listing, untagged);
    ExportedRows(here.server.files, listing, untagged);
    ImportedAreCopies(here.bucket, rows);
    ImportedKeeps(here.bucket, rows);
    forall e | e in Imported(here.bucket, rows).events ensures CopyTraced(w, steps + [step], e.record) {
      if e !in here.bucket.events {
        var row :| row in rows && CopyOf(e.record, row);
        assert (steps + [step])[..|steps|] == steps && (steps + [step])[|steps|] == step;
        assert ShownAt(here, step, row.href, here.server.files[row.href]);
        assert Shown(w, steps + [step], row.href, here.server.files[row.href]);
      }
    }
  }

  /** No step loses track of where a copy came from; only copying in starts a new trace. */
  lemma StepTraced(w: World, steps: seq<Step>, step: Step)
    requires WellFormed(Run(w, steps)) && Traced(w, steps, Run(w, steps).bucket)
    ensures Traced(w, steps + [step], Next(Run(w, steps), step).bucket)
  {
    hide Shown, Pushed, Replaced, Sound;
    var here := Run(w, steps);
    var b := here.bucket;
    TracedLater(w, steps, step, b);
    match step
    case Create(_) =>
    case Update(id, revision, edited) => UpdateTraced(w, steps + [step], b, id, revision, edited);
    case Remove(id, revision) => RemoveTraced(w, steps + [step], b, id, revision);
    case Import(listing, untagged) => ImportTraced(w, steps, listing, untagged);
    case Sync(env, crash) => SyncTraced(w, steps + [step], here, env);
    case Resolve(id, keep, connected, env, crash) => WithoutSound(b.events, id);
    case Elsewhere(_) =>
  }

  lemma UpdateTraced(w: World, steps: seq<Step>, b: Bucket, id: nat, revision: Option<nat>, edited: Option<Ics>)
    requires Traced(w, steps, b)
    ensures Traced(w, steps, Updated(b, id, revision, edited).0)
  {
    hide Shown;
    if Updated(b, id, revision, edited).1.Ok? {
      var current := Existing(b, id, revision).value;
      var record := MakeRecord(edited.value, current.uid, current.href, current.fromNextcloud, true,
                               current.etag, current.conflict, b.minted).value;
      OthersStay(b.events, id, record);
      assert Entry(id, current) in b.events && CopyTraced(w, steps, current);
      assert CopyTraced(w, steps, record);
    }
  }

  lemma RemoveTraced(w: World, steps: seq<Step>, b: Bucket, id: nat, revision: Option<nat>)
    requires Traced(w, steps, b)
    ensures Traced(w, steps, Removed(b, id, revision).0)
  {
    hide Shown;
    WithoutSound(b.events, id);
    var current := Existing(b, id, revision);
    if current.Ok? {
      var r := current.value;
      assert Entry(id, r) in b.events && CopyTraced(w, steps, r);
      assert r.fromNextcloud ==> StoneTraced(w, steps, Tombstone(r.href, r.etag, r.title));
    }
  }

  lemma SyncTraced(w: World, steps: seq<Step>, here: World, env: seq<Weather>)
    requires Sound(here.server) && Traced(w, steps, here.bucket)
    ensures Traced(w, steps, Pushed(here.bucket, here.server, env).bucket)
  {
    hide Shown, Pushed;
    PushAccounts(here.bucket, here.server, env);
    var p := Pushed(here.bucket, here.server, env);
    forall x | x in p.bucket.events ensures CopyTraced(w, steps, x.record) {
      assert FromOneOf(x, here.bucket.events);
      var e :| e in here.bucket.events && x.id == e.id && Marked(e.record, x.record);
      assert CopyTraced(w, steps, e.record);
    }
  }

  lemma {:induction false} RunTraced(w: World, steps: seq<Step>)
    requires WellFormed(w) && w.bucket.events == [] && w.bucket.deleted == []
    ensures Traced(w, steps, Run(w, steps).bucket)
    decreases |steps|
  {
    hide Next, Shown;
    if steps != [] {
      hide Traced, WellFormed;
      var n := |steps| - 1;
      RunTraced(w, steps[..n]);
      RunWellFormed(w, steps[..n], n);
      StepTraced(w, steps[..n], steps[n]);
      assert steps[..n] + [steps[n]] == steps;
    }
  }

  /**
   * Every file a sync replaces or deletes held, at that moment, exactly the version and text that
   * an earlier copy-in of the run had found there; and where nothing stood it only creates.
   */
  lemma {:induction false} SyncTouchesOnlyCopiedVersions(w: World, steps: seq<Step>, env: seq<Weather>, k: nat)
    requires WellFormed(w) && w.bucket.events == [] && w.bucket.deleted == []
    requires var (s, t) := (Run(w, steps).server, Pushed(Run(w, steps).bucket, Run(w, steps).server, env).server);
      |s.log| <= k < |t.log| && t.log[k].who == Mu3Lab
    ensures var e := Pushed(Run(w, steps).bucket, Run(w, steps).server, env).server.log[k];
      e.before.Some? ==> Shown(w, steps, e.name, e.before.value)
  {
    hide Pushed, Next, Sound, Accounts, DistinctIds;
    var here := Run(w, steps);
    var t := Pushed(here.bucket, here.server, env).server;
    var e := t.log[k];
    RunTraced(w, steps);
    RunWellFormed(w, steps, |steps|);
    assert steps[..|steps|] == steps;
    PushAccounts(here.bucket, here.server, env);
    SyncGrows(here.bucket, here.server, env);
    if e.before.Some? {
      var found;
      if EventLicensed(here.bucket.events, e) {
        var en :| en in here.bucket.events && EventEffect(en.record, e);
        assert CopyTraced(w, steps, en.record);
        found :| Shown(w, steps, e.name, found) && found.version == e.before.value.version;
      } else {
        assert StoneLicensed(here.bucket.deleted, e);
        var item :| item in here.bucket.deleted && StoneEffect(item, e);
        assert StoneTraced(w, steps, item);
        found :| Shown(w, steps, e.name, found) && found.version == e.before.value.version;
      }
      ShownIsThatVersion(w, steps, t, k, found);
    }
  }

  lemma SyncGrows(b: Bucket, s: Server, env: seq<Weather>)
    requires Sound(s)
    ensures Grows(s, Pushed(b, s, env).server)
  {
    hide Pushed;
    PushAccounts(b, s, env);
  }

  lemma {:induction false} ShownIsThatVersion(w: World, steps: seq<Step>, t: Server, k: nat, found: Resource)
    requires WellFormed(w) && Sound(t) && Grows(Run(w, steps).server, t)
    requires k < |t.log| && t.log[k].before.Some? && found.version == t.log[k].before.value.version
    requires Shown(w, steps, t.log[k].name, found)
    ensures t.log[k].before == Some(found)
  {
    hide Next;
    var e := t.log[k];
    var i :| 0 <= i < |steps| && ShownAt(Run(w, steps[..i]), steps[i], e.name, found);
    RunWellFormed(w, steps, i);
    var before := Run(w, steps[..i]).server;
    assert t.past[|before.log|] == before.files;
    assert Follows(t.past[k], e, t.past[k + 1]);
    assert Agree(t.past[k], t.past[|before.log|]);
  }
}
