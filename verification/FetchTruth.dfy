/** What the cached files hold: finished ranges hold the layer's bytes, finished files their digest's content. */
module FetchTruth {
  import opened Wrappers
  import opened ImageFetch
  import opened FetchPool

  // ---- Whatever the server sends -----------------------------------------------------------

  /** A file stored under a digest is that digest's content. */
  predicate Stored(disk: Disk) { forall d <- disk :: disk[d].whole.Some? ==> disk[d].whole.value == d }

  lemma {:induction false} StepStored(s: Fetch, e: Event)
    requires Stored(s.disk)
    ensures Stored(Next(s, e).disk)
  {
    match e
    case By(w, act) => WorkedStored(s, w, act);
    case On(blob, stage) => StageStored(s, blob, stage);
    case _ => OtherStored(s, e);
    hide Next, Stored, Worked, Taken, Staged;
  }

  lemma OtherStored(s: Fetch, e: Event)
    requires Stored(s.disk) && !e.By? && !e.On?
    ensures Stored(Next(s, e).disk)
  {
  }

  lemma StageStored(s: Fetch, blob: Blob, stage: Stage)
    requires Stored(s.disk)
    ensures Stored(Next(s, On(blob, stage)).disk)
  {
    hide Marked, Zeros, Missing, Usable, All;
  }

  lemma WorkedStored(s: Fetch, w: nat, act: Act)
    requires Stored(s.disk)
    ensures Stored(Next(s, By(w, act)).disk)
  {
    hide Written, Length, Count;
  }

  /** No server, however wrong its answers, and no crash gets a file stored that does not hash to its name. */
  lemma {:induction false} StoredFilesMatchTheirDigest(s: Fetch, events: seq<Event>)
    requires Stored(s.disk)
    ensures Stored(Runs(s, events).disk)
    decreases |events|
  {
    hide Stored, Next;
    if events != [] {
      StepStored(s, events[0]);
      StoredFilesMatchTheirDigest(Next(s, events[0]), events[1..]);
    }
  }

  // ---- With a server that sends prefixes of what it was asked for -----------------------------

  predicate TrueAt(file: Bytes, digest: Bytes, at: nat) {
    at < |file| && at < |digest| && file[at] == digest[at]
  }

  /** The file holds this range as it should be. */
  ghost predicate Holds(file: Bytes, digest: Bytes, index: nat) {
    index < Count(|digest|) && forall at :: InRange(|digest|, index, at) ==> TrueAt(file, digest, at)
  }

  ghost predicate AllHold(file: Bytes, digest: Bytes, ranges: set<nat>) {
    |file| <= |digest| && forall i <- ranges :: Holds(file, digest, i)
  }

  /** A layer's recorded and remembered ranges hold its bytes; an unchecked file and a checked one are not both there. */
  ghost predicate FileTrue(disk: Disk, marked: Ranges, d: Bytes) {
    var files := FilesOf(disk, d);
    files.part.Some? ==>
      && files.whole.None? && AllHold(files.part.value, d, Recorded(files))
      && (d in marked ==> AllHold(files.part.value, d, marked[d]))
  }

  /** What a worker received so far is in the part file. */
  ghost predicate SoFar(disk: Disk, x: Worker) {
    x.Fetching? ==>
      var t, files := x.task, FilesOf(disk, x.task.blob.digest);
      && Proper(t) && t.blob.size == |t.blob.digest| && x.received <= Length(t.blob.size, t.index)
      && (files.part.Some? ==> forall at: nat :: First(t.index) <= at < First(t.index) + x.received ==>
            TrueAt(files.part.value, t.blob.digest, at))
  }

  ghost predicate Faithful(s: Fetch) {
    && (forall b <- s.prepared :: b.size == |b.digest|)
    && (forall d :: FileTrue(s.disk, s.marked, d))
    && (forall x <- s.workers :: SoFar(s.disk, x))
  }

  /** The manifest gives the true size, and the next bytes received are the next bytes of the range. */
  predicate Honest(s: Fetch, e: Event) {
    match e
    case On(blob, _) => blob.size == |blob.digest|
    case By(w, Receive(data)) =>
      w < |s.workers| && s.workers[w].Fetching? && Proper(s.workers[w].task) ==>
        var x := s.workers[w];
        var at := First(x.task.index) + x.received;
        && x.received + |data| <= Length(x.task.blob.size, x.task.index)
        && at + |data| <= |x.task.blob.digest| && data == x.task.blob.digest[at..at + |data|]
    case _ => true
  }

  ghost predicate HonestRun(s: Fetch, events: seq<Event>)
    decreases |events|
  {
    events == [] || (Honest(s, events[0]) && HonestRun(Next(s, events[0]), events[1..]))
  }

  lemma StillHolds(file: Bytes, later: Bytes, digest: Bytes, ranges: set<nat>)
    requires AllHold(file, digest, ranges) && |later| <= |digest|
    requires forall at: nat :: TrueAt(file, digest, at) ==> TrueAt(later, digest, at)
    ensures AllHold(later, digest, ranges)
  {
  }

  /** Writing the layer's own bytes into place keeps every true byte true. */
  lemma WritingTruth(file: Bytes, digest: Bytes, at: nat, data: Bytes)
    requires |file| <= |digest| && at + |data| <= |digest| && data == digest[at..at + |data|]
    ensures var later := Written(file, at, data);
      && |later| <= |digest|
      && (forall k: nat :: TrueAt(file, digest, k) ==> TrueAt(later, digest, k))
      && (forall k: nat :: at <= k < at + |data| ==> TrueAt(later, digest, k))
  {
    var later := Written(file, at, data);
    forall k: nat | at <= k < at + |data| ensures TrueAt(later, digest, k) {
      assert later[at..at + |data|][k - at] == data[k - at];
    }
  }

  /** A part file rewritten so that what was true in it stays true. */
  lemma RewrittenStaysTrue(s: Fetch, digest: Bytes, later: Bytes)
    requires Faithful(s) && FilesOf(s.disk, digest).part.Some? && |later| <= |digest|
    requires forall k: nat :: TrueAt(FilesOf(s.disk, digest).part.value, digest, k) ==> TrueAt(later, digest, k)
    ensures Faithful(SetFiles(s, digest, FilesOf(s.disk, digest).(part := Some(later))))
  {
    var files := FilesOf(s.disk, digest);
    var m := SetFiles(s, digest, files.(part := Some(later)));
    assert FileTrue(s.disk, s.marked, digest);
    StillHolds(files.part.value, later, digest, Recorded(files));
    if digest in s.marked { StillHolds(files.part.value, later, digest, s.marked[digest]); }
    hide TrueAt, Holds, AllHold, Length, Count, Proper;
    forall e ensures FileTrue(m.disk, m.marked, e) {
      assert FileTrue(s.disk, s.marked, e);
    }
    forall y | y in m.workers ensures SoFar(m.disk, y) {
      assert SoFar(s.disk, y);
    }
  }

  predicate Writable(s: Fetch, w: nat) {
    w < |s.workers| && s.workers[w].Fetching? && FilesOf(s.disk, s.workers[w].task.blob.digest).part.Some?
  }

  /** The part file after a piece: what was true stays true, and all received so far is. */
  lemma PieceIsTrue(s: Fetch, w: nat, data: Bytes)
    requires Pool(s) && Faithful(s) && Honest(s, By(w, Receive(data))) && Writable(s, w)
    ensures var x := s.workers[w];
      var d, at := x.task.blob.digest, First(x.task.index);
      var file := FilesOf(s.disk, d).part.value;
      var later := Written(file, at + x.received, data);
      && Proper(x.task) && x.task.blob.size == |d| && x.received + |data| <= Length(|d|, x.task.index)
      && |later| <= |d| && (forall k: nat :: TrueAt(file, d, k) ==> TrueAt(later, d, k))
      && (forall k: nat :: at <= k < at + x.received + |data| ==> TrueAt(later, d, k))
  {
    TaskKnown(s, w);
    var x := s.workers[w];
    assert x in s.workers && SoFar(s.disk, x);
    var d := x.task.blob.digest;
    assert FileTrue(s.disk, s.marked, d);
    hide Pool, Length, Count, Holds, Written, Faithful;
    WritingTruth(FilesOf(s.disk, d).part.value, d, First(x.task.index) + x.received, data);
  }

  lemma ReceivedStaysTrue(s: Fetch, w: nat, data: Bytes)
    requires Pool(s) && Faithful(s) && Honest(s, By(w, Receive(data))) && Writable(s, w)
    ensures Faithful(Wrote(s, w, data))
  {
    PieceIsTrue(s, w, data);
    hide Pool, Honest, Written, TrueAt, Length, Count, FileTrue, Proper;
    var x := s.workers[w];
    var d := x.task.blob.digest;
    var later := Written(FilesOf(s.disk, d).part.value, First(x.task.index) + x.received, data);
    RewrittenStaysTrue(s, d, later);
    var r := SetFiles(s, d, FilesOf(s.disk, d).(part := Some(later)));
    var m := Wrote(s, w, data);
    assert m.disk == r.disk && m.workers == r.workers[w := x.(received := x.received + |data|)];
    forall y | y in m.workers ensures SoFar(m.disk, y) {
      if y in r.workers { assert SoFar(r.disk, y); }
    }
  }

  /** A range received in full is in the file. */
  lemma FullHolds(s: Fetch, w: nat)
    requires Full(s, w) && SoFar(s.disk, s.workers[w])
    requires FilesOf(s.disk, s.workers[w].task.blob.digest).part.Some?
    ensures var t := s.workers[w].task; Holds(FilesOf(s.disk, t.blob.digest).part.value, t.blob.digest, t.index)
  {
  }

  lemma HeldStaysTrue(s: Fetch, w: nat)
    requires Faithful(s) && Full(s, w)
    ensures Faithful(Held(s, s.workers[w].task))
  {
    var t := s.workers[w].task;
    var files := FilesOf(s.disk, t.blob.digest);
    assert FileTrue(s.disk, s.marked, t.blob.digest);
    assert s.workers[w] in s.workers && SoFar(s.disk, s.workers[w]);
    if files.part.Some? { FullHolds(s, w); }
    var h := Held(s, t);
    hide Holds, Length, Count, Proper, TrueAt, SoFar;
    forall e ensures FileTrue(h.disk, h.marked, e) { assert FileTrue(s.disk, s.marked, e); }
  }

  lemma MarkStaysTrue(s: Fetch, w: nat)
    requires Faithful(s) && Full(s, w)
    ensures Faithful(MarkedBy(s, w))
  {
    HeldStaysTrue(s, w);
    var h, m := Held(s, s.workers[w].task), MarkedBy(s, w);
    hide Holds, Length, Count, Proper, TrueAt;
    forall e ensures FileTrue(m.disk, m.marked, e) { assert FileTrue(h.disk, h.marked, e); }
    hide FileTrue;
    forall y | y in m.workers ensures SoFar(m.disk, y) {
      if y != Idle { assert y in h.workers && SoFar(h.disk, y); }
    }
  }

  /** Only workers differ, none with anything received that it had not. */
  lemma WorkersStayTrue(s: Fetch, m: Fetch)
    requires Faithful(s) && m.disk == s.disk && m.marked == s.marked && m.prepared == s.prepared
    requires forall y <- m.workers :: y.Fetching? && y !in s.workers ==>
      y.received == 0 && Proper(y.task) && y.task.blob.size == |y.task.blob.digest|
    ensures Faithful(m)
  {
  }

  lemma TryStaysTrue(s: Fetch, w: nat, failure: Failure)
    requires Pool(s) && Faithful(s) && w < |s.workers| && s.workers[w].Fetching?
    ensures Faithful(Fails(s, w, failure)) && Faithful(Retries(s, w))
  {
    assert s.workers[w] in s.workers && SoFar(s.disk, s.workers[w]);
    hide Pool, Faithful, Length, Count;
    WorkersStayTrue(s, Fails(s, w, failure));
    WorkersStayTrue(s, Retries(s, w));
  }

  lemma TakeStaysTrue(s: Fetch, w: nat)
    requires Pool(s) && Faithful(s) && w < |s.workers| && s.workers[w].Idle?
    ensures Faithful(Taken(s, w))
  {
  }

  lemma EntryStaysTrue(s: Fetch, blob: Blob, done: set<nat>, tasks: seq<Task>)
    requires Faithful(s) && blob.size == |blob.digest|
    requires var files := FilesOf(s.disk, blob.digest); files.part.Some? ==> done <= Recorded(files)
    ensures Faithful(Prepared(s, blob, done, tasks))
  {
    var m := Prepared(s, blob, done, tasks);
    hide Holds, Marked;
    forall e ensures FileTrue(m.disk, m.marked, e) {
      assert FileTrue(s.disk, s.marked, e);
    }
  }

  /** Nobody is at work on a layer not prepared yet. */
  lemma NotStarted(s: Fetch, blob: Blob)
    requires Pool(s) && !IsPrepared(s, blob)
    ensures forall x <- s.workers :: x.Fetching? ==> x.task.blob.digest != blob.digest
  {
    forall x | x in s.workers && x.Fetching? ensures x.task.blob.digest != blob.digest {
      var w :| 0 <= w < |s.workers| && s.workers[w] == x;
      TaskKnown(s, w);
    }
  }

  lemma NothingInEmpty(digest: Bytes, ranges: set<nat>)
    requires AllHold([], digest, ranges)
    ensures ranges == {}
  {
    forall i | i in ranges ensures false {
      assert Holds([], digest, i) && InRange(|digest|, i, First(i));
    }
  }

  /** Another file in this layer's place: true if it is, when anyone relies on it. */
  lemma FileStaysTrue(s: Fetch, digest: Bytes, files: Files)
    requires Faithful(s)
    requires files.part.Some? ==>
      && files.whole.None? && digest !in s.marked && AllHold(files.part.value, digest, Recorded(files))
      && forall x <- s.workers :: x.Fetching? ==> x.task.blob.digest != digest
    ensures Faithful(SetFiles(s, digest, files))
  {
    var m := SetFiles(s, digest, files);
    hide AllHold;
    forall e ensures FileTrue(m.disk, m.marked, e) {
      assert FileTrue(s.disk, s.marked, e);
    }
    forall y | y in m.workers ensures SoFar(m.disk, y) {
      assert SoFar(s.disk, y);
    }
  }

  lemma StagedStaysTrue(s: Fetch, blob: Blob, stage: Stage)
    requires Pool(s) && Faithful(s) && blob.size == |blob.digest|
    ensures Faithful(Staged(s, blob, stage))
  {
    var files := FilesOf(s.disk, blob.digest);
    assert FileTrue(s.disk, s.marked, blob.digest);
    if !IsPrepared(s, blob) { NotStarted(s, blob); }
    hide Pool, Faithful, Holds, Marked;
    match stage
    case FindWhole => if files.whole.Some? { EntryStaysTrue(s, blob, All(blob.size), []); }
    case DropRanges => if files.part.None? { FileStaysTrue(s, blob.digest, files.(ranges := None)); }
    case OpenPart =>
      if files.whole.None? && files.ranges.None? && !IsPrepared(s, blob) {
        FileStaysTrue(s, blob.digest, files.(part := Some([])));
      }
    case SizePart =>
      if files.part == Some([]) && !IsPrepared(s, blob) {
        NothingInEmpty(blob.digest, Recorded(files));
        FileStaysTrue(s, blob.digest, files.(part := Some(Zeros(blob.size))));
      }
    case Adopt =>
      var done := Usable(blob, files);
      EntryStaysTrue(s, blob, done, Missing(blob, done, Count(blob.size)));
    case Verify =>
      FileStaysTrue(s, blob.digest, files.(whole := files.part, part := None));
      FileStaysTrue(s, blob.digest, files.(part := None));
      FailureAside(SetFiles(s, blob.digest, files.(part := None)));
    case Remove => RemoveStaysTrue(s, blob);
  }

  lemma FailureAside(s: Fetch)
    requires Faithful(s)
    ensures Faithful(s.(failure := Some(FetchError)))
  {
  }

  lemma RemoveStaysTrue(s: Fetch, blob: Blob)
    requires Faithful(s)
    ensures Faithful(Staged(s, blob, Remove))
  {
    var m := Staged(s, blob, Remove);
    hide AllHold;
    forall e ensures FileTrue(m.disk, m.marked, e) {
      assert FileTrue(s.disk, s.marked, e);
    }
    forall y | y in m.workers ensures SoFar(m.disk, y) {
      assert SoFar(s.disk, y);
    }
  }

  lemma ActStaysTrue(s: Fetch, w: nat, act: Act)
    requires Pool(s) && Faithful(s) && Honest(s, By(w, act)) && w < |s.workers| && s.workers[w].Fetching?
    ensures Faithful(Worked(s, w, act))
  {
    hide Pool, Faithful, Honest, Wrote, Retries, Fails, MarkedBy, Full;
    match act
    case Take =>
    case Receive(data) => if FilesOf(s.disk, s.workers[w].task.blob.digest).part.Some? { ReceivedStaysTrue(s, w, data); }
    case Break => TryStaysTrue(s, w, Paused);
    case Refuse => TryStaysTrue(s, w, FetchError);
    case Interrupt => TryStaysTrue(s, w, Paused);
    case Mark => if Full(s, w) { MarkStaysTrue(s, w); }
    case MarkFails(reported) =>
      if Full(s, w) {
        HeldStaysTrue(s, w);
        HeldTryStaysTrue(s, w, reported);
      }
    case Escape(taken) => EscapeStaysTrue(s, w, taken);
  }

  lemma EscapeStaysTrue(s: Fetch, w: nat, taken: bool)
    requires Faithful(s) && w < |s.workers| && s.workers[w].Fetching?
    ensures Faithful(Worked(s, w, Escape(taken)))
  {
    hide Faithful;
    WorkersStayTrue(s, Worked(s, w, Escape(taken)));
  }

  lemma HeldTryStaysTrue(s: Fetch, w: nat, reported: bool)
    requires Full(s, w) && Faithful(Held(s, s.workers[w].task))
    ensures Faithful(MarkFailed(s, w, reported))
  {
    var h := Held(s, s.workers[w].task);
    assert h.workers[w] in h.workers && SoFar(h.disk, h.workers[w]);
    hide Faithful, Length, Count;
    WorkersStayTrue(h, MarkFailed(s, w, reported));
  }

  lemma StepStaysTrue(s: Fetch, e: Event)
    requires Pool(s) && Faithful(s) && Honest(s, e)
    ensures Faithful(Next(s, e))
  {
    match e
    case Restart => RestartStaysTrue(s);
    case Grow(more) => WorkersStayTrue(s, Next(s, e));
    case RequestStop => StopStaysTrue(s);
    case On(blob, stage) => StagedStaysTrue(s, blob, stage);
    case By(w, act) =>
      hide Pool, Faithful, Worked, Taken;
      if w < |s.workers| {
        if s.workers[w].Idle? { TakeStaysTrue(s, w); }
        if s.workers[w].Fetching? { ActStaysTrue(s, w, act); }
      }
  }

  lemma StopStaysTrue(s: Fetch)
    requires Faithful(s)
    ensures Faithful(s.(stop := true))
  {
  }

  lemma RestartStaysTrue(s: Fetch)
    requires Faithful(s)
    ensures Faithful(Start(s.disk))
  {
    hide AllHold;
    forall e ensures FileTrue(s.disk, map[], e) { assert FileTrue(s.disk, s.marked, e); }
  }

  lemma {:induction false} RunStaysTrue(s: Fetch, events: seq<Event>)
    requires Pool(s) && Faithful(s) && HonestRun(s, events)
    ensures Pool(Runs(s, events)) && Faithful(Runs(s, events))
    decreases |events|
  {
    hide Pool, Faithful, Honest, Next;
    if events != [] {
      StepKeeps(s, events[0]);
      StepStaysTrue(s, events[0]);
      RunStaysTrue(Next(s, events[0]), events[1..]);
    }
  }

  lemma EmptyCacheIsTrue()
    ensures Faithful(Start(map[]))
  {
  }

  /** Across pauses, errors, retries, crashes and restarts, every recorded range of a part file holds the layer's bytes. */
  lemma RecordedRangesHoldTheTruth(events: seq<Event>, digest: Bytes)
    requires HonestRun(Start(map[]), events)
    ensures var files := FilesOf(Runs(Start(map[]), events).disk, digest);
      files.part.Some? ==> forall i <- Recorded(files) :: Holds(files.part.value, digest, i)
  {
    PoolStarts(map[]);
    EmptyCacheIsTrue();
    hide Pool, Holds;
    RunStaysTrue(Start(map[]), events);
    var s := Runs(Start(map[]), events);
    assert FileTrue(s.disk, s.marked, digest);
  }

  /** When the pool ended well, no check fails: every part file is the layer, to the last byte. */
  lemma CompleteDownloadsVerify(events: seq<Event>, blob: Blob)
    requires HonestRun(Start(map[]), events) && Completed(Runs(Start(map[]), events))
    requires blob in Runs(Start(map[]), events).prepared
    ensures var files := FilesOf(Runs(Start(map[]), events).disk, blob.digest);
      files.part.Some? ==> files.part.value == blob.digest
  {
    PoolStarts(map[]);
    EmptyCacheIsTrue();
    RunStaysTrue(Start(map[]), events);
    CompleteMeansAllBytes(map[], events);
    var s := Runs(Start(map[]), events);
    hide Pool, Runs, HonestRun;
    assert FileTrue(s.disk, s.marked, blob.digest);
    var files := FilesOf(s.disk, blob.digest);
    if files.part.Some? {
      WholeFile(files.part.value, blob.digest);
    }
  }

  lemma WholeFile(file: Bytes, digest: Bytes)
    requires AllHold(file, digest, All(|digest|))
    ensures file == digest
  {
    forall at: nat | at < |digest| ensures TrueAt(file, digest, at) {
      RangesPartition(|digest|, at);
      assert Holds(file, digest, at / CHUNK);
    }
    assert |file| < |digest| ==> !TrueAt(file, digest, |file|);
    forall at | 0 <= at < |digest| ensures file[at] == digest[at] { assert TrueAt(file, digest, at); }
  }
}
