/** What becomes of deletions and uploads, answer by answer, and of a deletion over a whole run. */
module CalendarAnswers {
  import opened Wrappers
  import opened CalDav
  import opened LocalCalendar
  import opened CalendarRuns
  import opened CalendarSafety

  // ---- Deletions ----------------------------------------------------------------------------

  /** The deletion is over: it is gone there, or was changed there since. */
  predicate Decides(reply: Reply) { reply.Status? && reply.code in {200, 204, 404, 412} }

  predicate Removes(reply: Reply) { reply.Status? && reply.code in {200, 204, 404} }

  /**
   * The answers to a list of deletions, each sent where the one before left off: None for one
   * with no version, which is not sent. The first that does not decide is the last.
   */
  function Answers(s: Server, items: seq<Tombstone>, env: seq<Weather>): (r: seq<Option<Reply>>)
    ensures |r| <= |items|
    decreases |items|
  {
    if items == [] then []
    else if items[0].etag.None? then [None] + Answers(s, items[1..], env)
    else
      var (t, reply) := Exchange(s, Delete(items[0].href, items[0].etag.value), Now(env));
      [Some(reply)] + if Decides(reply) then Answers(t, items[1..], Later(env)) else []
  }

  predicate Decided(answers: seq<Option<Reply>>, i: nat) {
    i < |answers| && answers[i].Some? && Decides(answers[i].value)
  }

  /** The items that no answer decided, in order. */
  function Undecided(items: seq<Tombstone>, answers: seq<Option<Reply>>): seq<Tombstone>
    requires |answers| <= |items|
  {
    if answers == [] then items
    else (if Decided(answers, 0) then [] else [items[0]]) + Undecided(items[1..], answers[1..])
  }

  function Removals(answers: seq<Option<Reply>>): nat {
    if answers == [] then 0
    else Removals(answers[1..]) + if answers[0].Some? && Removes(answers[0].value) then 1 else 0
  }

  /** The names of those without a version, and of those changed in Nextcloud since. */
  function Withheld(items: seq<Tombstone>, answers: seq<Option<Reply>>): seq<string>
    requires |answers| <= |items|
  {
    if answers == [] then []
    else
      (if answers[0].Some? && answers[0].value != Status(412) then []
       else if items[0].title == "" then [items[0].href]
       else [items[0].title])
      + Withheld(items[1..], answers[1..])
  }

  /** How the answers end: all decided or not sent; with another status; or with none. */
  function EndOf(answers: seq<Option<Reply>>): Ending {
    if answers == [] then Done
    else
      var last := answers[|answers| - 1];
      if last.None? || Decides(last.value) then Done else if last.value.NoReply? then Failed else Halted
  }

  lemma {:induction false} EndOfMore(first: Option<Reply>, rest: seq<Option<Reply>>)
    requires first.None? || Decides(first.value)
    ensures EndOf([first] + rest) == EndOf(rest)
  {
    if rest != [] { assert ([first] + rest)[|rest|] == rest[|rest| - 1]; }
  }

  /**
   * Over any weather: exactly the deletions with a deciding answer leave the list, the others stay
   * in order; those gone from Nextcloud are counted, and those not deleted are named.
   */
  lemma {:induction false} DeletionsGoAsAnswered(s: Server, items: seq<Tombstone>, env: seq<Weather>)
    ensures var sent, answers := SendDeletes(s, items, env), Answers(s, items, env);
      && sent.left == Undecided(items, answers) && sent.moved == Removals(answers)
      && sent.titles == Withheld(items, answers) && sent.ending == EndOf(answers)
    decreases |items|
  {
    if items == [] { return; }
    var item := items[0];
    var answers := Answers(s, items, env);
    if item.etag.None? {
      DeletionsGoAsAnswered(s, items[1..], env);
      EndOfMore(None, answers[1..]);
      assert answers == [None] + answers[1..];
    } else {
      var request := Delete(item.href, item.etag.value);
      var (t, reply) := Exchange(s, request, Now(env));
      AnswerTells(s, request, Now(env));
      hide Exchange;
      if Decides(reply) {
        DeletionsGoAsAnswered(t, items[1..], Later(env));
        EndOfMore(Some(reply), answers[1..]);
        assert answers == [Some(reply)] + answers[1..];
      }
    }
  }

  /** A deciding answer other than "not found" means that the version to delete does not stand there. */
  lemma DecidedMeansGone(s: Server, item: Tombstone, w: Weather)
    requires item.etag.Some?
    ensures var (t, reply) := Exchange(s, Delete(item.href, item.etag.value), w);
      Decides(reply) && reply != Status(404) ==> !(item.href in t.files && t.files[item.href].version == item.etag.value)
  {
  }

  // ---- A deletion over a whole run -------------------------------------------------------------

  /** The step is a saved sync, and an answer in it decided this deletion. */
  ghost predicate DecidedBy(w: World, step: Step, item: Tombstone) {
    && step.Sync? && !step.crash && item.etag.Some?
    && exists i :: Names(w.bucket.deleted, item, i) && Decided(Answers(w.server, w.bucket.deleted, step.env), i)
  }

  predicate Names(items: seq<Tombstone>, item: Tombstone, i: nat) { i < |items| && items[i] == item }

  lemma {:induction false} UndecidedStay(s: Server, items: seq<Tombstone>, env: seq<Weather>, item: Tombstone)
    requires item in items
    ensures item in Undecided(items, Answers(s, items, env)) ||
      (item.etag.Some? && exists i :: Names(items, item, i) && Decided(Answers(s, items, env), i))
    decreases |items|
  {
    var answers := Answers(s, items, env);
    if items[0].etag.None? {
      if item != items[0] {
        UndecidedStay(s, items[1..], env, item);
        NamesMore(items, answers, item);
      }
    } else {
      var (t, reply) := Exchange(s, Delete(items[0].href, items[0].etag.value), Now(env));
      hide Exchange;
      if Decides(reply) && item == items[0] {
        assert Names(items, item, 0) && Decided(answers, 0);
      } else if Decides(reply) {
        UndecidedStay(t, items[1..], Later(env), item);
        NamesMore(items, answers, item);
      }
    }
  }

  lemma NamesMore(items: seq<Tombstone>, answers: seq<Option<Reply>>, item: Tombstone)
    requires items != [] && answers != []
    ensures (exists i :: Names(items[1..], item, i) && Decided(answers[1..], i)) ==>
      exists i :: Names(items, item, i) && Decided(answers, i)
  {
    if i: nat :| Names(items[1..], item, i) && Decided(answers[1..], i) {
      assert Names(items, item, i + 1) && Decided(answers, i + 1);
    }
  }

  /** One step keeps a deletion, or an answer decides it. */
  lemma StepKeepsDeletion(w: World, step: Step, item: Tombstone)
    requires item in w.bucket.deleted
    ensures item in Next(w, step).bucket.deleted || DecidedBy(w, step, item)
  {
    hide SendEvents, Replaced, Answers, Undecided, Decided, Exported;
    match step
    case Sync(env, crash) =>
      UndecidedStay(w.server, w.bucket.deleted, env, item);
      DeletionsGoAsAnswered(w.server, w.bucket.deleted, env);
      hide SendDeletes;
    case Import(listing, untagged) => ImportedKeeps(w.bucket, Exported(w.server.files, listing, untagged));
    case _ =>
  }

  /** Whatever happens, a deletion is still to be sent, or there was a sync whose answer decided it. */
  lemma {:induction false} NoDeletionLost(w: World, steps: seq<Step>, i: nat, item: Tombstone)
    requires i <= |steps| && item in Run(w, steps[..i]).bucket.deleted
    ensures item in Run(w, steps).bucket.deleted
         || exists j :: i <= j < |steps| && item in Run(w, steps[..j]).bucket.deleted
                                         && DecidedBy(Run(w, steps[..j]), steps[j], item)
    decreases |steps|
  {
    hide Next, DecidedBy;
    if i == |steps| {
      assert steps[..i] == steps;
    } else {
      var n := |steps| - 1;
      assert steps[..n][..i] == steps[..i];
      NoDeletionLost(w, steps[..n], i, item);
      if item in Run(w, steps[..n]).bucket.deleted {
        StepKeepsDeletion(Run(w, steps[..n]), steps[n], item);
      } else {
        var j :| i <= j < n && item in Run(w, steps[..n][..j]).bucket.deleted
                            && DecidedBy(Run(w, steps[..n][..j]), steps[..n][j], item);
        assert steps[..n][..j] == steps[..j];
      }
    }
  }

  // ---- Uploads ----------------------------------------------------------------------------------

  /** It can be sent: no conflict waits, and an edited copy knows which version it came from. */
  predicate Sendable(r: Record) { r.conflict == NoConflict && (r.fromNextcloud && r.modified ==> r.etag.Some?) }

  /** An edited copy goes onto its version, anything else only where nothing stands. */
  function Upload(r: Record): Request
    requires Sendable(r)
  {
    Put(r.href, r.ics, if r.fromNextcloud && r.modified then IfMatch(r.etag.value) else IfNoneMatch)
  }

  function PutAnswer(s: Server, r: Record, env: seq<Weather>): Reply
    requires Sendable(r)
  {
    Exchange(s, Upload(r), Now(env)).1
  }

  /** The file of an event created here is already there, so it is read; this is the answer. */
  function ReadAnswer(s: Server, r: Record, env: seq<Weather>): Option<Reply>
    requires Sendable(r)
  {
    if r.fromNextcloud || PutAnswer(s, r, env) != Status(412) then None
    else Some(Exchange(Exchange(s, Upload(r), Now(env)).0, Get(r.href), Now(Later(env))).1)
  }

  predicate IsStatus(reply: Reply, codes: set<int>) { reply.Status? && reply.code in codes }

  /** When an event is forgotten, when the sync ends at it, and which conflict it gets. */
  lemma EventGoesAsAnswered(s: Server, r: Record, env: seq<Weather>)
    ensures var (_, _, v) := SendEvent(s, r, env);
      && (!Sendable(r) ==>
            v == if r.conflict != NoConflict then Keep(r, false) else Keep(r.(conflict := ChangedInNextcloud), true))
      && (Sendable(r) ==>
            var put, read, edited := PutAnswer(s, r, env), ReadAnswer(s, r, env), r.fromNextcloud && r.modified;
            var content := read.Some? && read.value.Content?;
            var same := content && read.value.text.parsed.Some? && r.ics.parsed.Some?
                        && read.value.text.parsed.value.items == r.ics.parsed.value.items;
            && (v.Forget? <==> IsStatus(put, {200, 201, 204}) || (put == Status(412) && r.fromNextcloud && !r.modified) || same)
            && (v == Stop(Failed) <==> put.NoReply? || read == Some(NoReply))
            && (v == Stop(Halted) <==> put.Status? && !IsStatus(put, {200, 201, 204, 412}) && !(edited && put.code == 404))
            && (v == Keep(r, false) <==> read.Some? && read.value.Status?)
            && (v == Keep(r.(conflict := DeletedInNextcloud), true) <==> edited && put == Status(404))
            && (v == Keep(r.(conflict := ChangedInNextcloud), true) <==> edited && put == Status(412))
            && (content && !same ==> v == Keep(r.(conflict := UploadUnconfirmed, etag := read.value.etag), true)))
  {
    if Sendable(r) { AnswerTells(s, Upload(r), Now(env)); }
    hide Exchange;
  }

  function Verdicts(s: Server, events: seq<Entry>, env: seq<Weather>): (r: seq<Verdict>)
    ensures |r| <= |events|
    decreases |events|
  {
    if events == [] then [] else
    var (t, env', verdict) := SendEvent(s, events[0].record, env);
    [verdict] + if verdict.Stop? then [] else Verdicts(t, events[1..], env')
  }

  /** What is kept of the events: all but the forgotten, under their ids and in order. */
  function KeptOf(events: seq<Entry>, verdicts: seq<Verdict>): seq<Entry>
    requires |verdicts| <= |events|
  {
    if verdicts == [] then events
    else
      (match verdicts[0]
       case Forget => []
       case Keep(record, _) => [Entry(events[0].id, record)]
       case Stop(_) => [events[0]])
      + KeptOf(events[1..], verdicts[1..])
  }

  function Forgotten(verdicts: seq<Verdict>): nat {
    if verdicts == [] then 0 else Forgotten(verdicts[1..]) + if verdicts[0].Forget? then 1 else 0
  }

  function NewConflicts(verdicts: seq<Verdict>): seq<string> {
    if verdicts == [] then []
    else (if verdicts[0].Keep? && verdicts[0].news then [verdicts[0].record.title] else []) + NewConflicts(verdicts[1..])
  }

  predicate AsDecided(events: seq<Entry>, verdicts: seq<Verdict>, sent: Sent<Entry>) {
    && |verdicts| <= |events| && sent.left == KeptOf(events, verdicts) && sent.moved == Forgotten(verdicts)
    && sent.titles == NewConflicts(verdicts)
    && (sent.ending != Done <==> verdicts != [] && verdicts[|verdicts| - 1] == Stop(sent.ending))
    && (sent.ending == Done ==> |verdicts| == |events|)
  }

  /** The events are kept, counted and named as decided one by one; the sync ends at the first that stops it. */
  lemma {:induction false} EventsGoAsDecided(s: Server, events: seq<Entry>, env: seq<Weather>)
    ensures AsDecided(events, Verdicts(s, events, env), SendEvents(s, events, env))
    decreases |events|
  {
    if events == [] { return; }
    var (t, env', verdict) := SendEvent(s, events[0].record, env);
    SendsOn(s, events[0].record, env);
    hide SendEvent;
    if !verdict.Stop? {
      EventsGoAsDecided(t, events[1..], env');
      DecidedFirst(events, verdict, Verdicts(t, events[1..], env'), SendEvents(t, events[1..], env'));
      hide AsDecided;
    } else {
      assert Verdicts(s, events, env) == [verdict] && [verdict][1..] == [] && events == [events[0]] + events[1..];
      assert KeptOf(events, [verdict]) == [events[0]] + KeptOf(events[1..], []);
      assert Forgotten([verdict]) == Forgotten([]) && NewConflicts([verdict]) == NewConflicts([]);
    }
  }

  lemma DecidedFirst(events: seq<Entry>, verdict: Verdict, rest: seq<Verdict>, sent: Sent<Entry>)
    requires events != [] && AsDecided(events[1..], rest, sent) && !verdict.Stop?
    ensures AsDecided(events, [verdict] + rest,
      match verdict
      case Forget => Dropped(1, [], sent)
      case Keep(record, news) => Kept(Entry(events[0].id, record), if news then [record.title] else [], sent))
  {
    var verdicts := [verdict] + rest;
    assert verdicts[1..] == rest && verdicts[0] == verdict;
    assert rest != [] ==> verdicts[|rest|] == rest[|rest| - 1];
  }

  lemma SendsOn(s: Server, r: Record, env: seq<Weather>)
    ensures SendEvent(s, r, env).2 != Stop(Done)
  {
  }

  // ---- A sync as a whole ------------------------------------------------------------------------

  /** The deletions first, then - once they are through - the events; what either left is kept, and the report adds up. */
  lemma SyncGoesAsAnswered(b: Bucket, s: Server, env: seq<Weather>)
    ensures var p, answers := Pushed(b, s, env), Answers(s, b.deleted, env);
      var reached := SendDeletes(s, b.deleted, env);
      var verdicts := Verdicts(reached.server, b.events, reached.env);
      && p.bucket.deleted == Undecided(b.deleted, answers) && p.bucket.minted == b.minted
      && p.report.kept == Withheld(b.deleted, answers)
      && (EndOf(answers) != Done ==>
            && p.bucket.events == b.events && p.report.moved == Removals(answers) && p.report.conflicts == []
            && p.ending == EndOf(answers) && p.server == reached.server)
      && (EndOf(answers) == Done ==>
            && p.bucket.events == KeptOf(b.events, verdicts) && p.report.moved == Removals(answers) + Forgotten(verdicts)
            && p.report.conflicts == NewConflicts(verdicts)
            && (p.ending == Done || (verdicts != [] && verdicts[|verdicts| - 1] == Stop(p.ending))))
      && Outcome(p) == if p.ending == Failed then Err(Unavailable) else Ok(p.report)
  {
    DeletionsGoAsAnswered(s, b.deleted, env);
    var d := SendDeletes(s, b.deleted, env);
    EventsGoAsDecided(d.server, b.events, d.env);
    hide SendDeletes, SendEvents, Verdicts, Answers, KeptOf;
  }
}
