/**
 * The parallel, resumable download of image layers: every layer is fetched in
 * ranges by a pool of workers, finished ranges are recorded beside the part
 * file, and the whole is checked against its digest before it is kept.
 *
 * SHA-256 is taken to be collision-free, so a digest is the content it names.
 * What one worker does under the lock, one write and one file replacement are
 * one step each; the process may stop between any two.
 */
module ImageFetch {
  import opened Wrappers

  type Bytes = seq<bv8>

  const CHUNK: nat := 8 * 1024 * 1024
  const RETRIES: nat := 6

  // ---- Ranges -----------------------------------------------------------------------------

  function Min(a: int, b: int): int { if a < b then a else b }

  /** How many ranges a layer of this size has. */
  function Count(size: nat): nat { (size + CHUNK - 1) / CHUNK }

  function First(index: nat): nat { index * CHUNK }

  function Length(size: nat, index: nat): (r: nat)
    requires index < Count(size)
    ensures 1 <= r <= CHUNK && First(index) + r <= size
  {
    Min(size, First(index) + CHUNK) - First(index)
  }

  predicate InRange(size: nat, index: nat, at: nat) {
    index < Count(size) && First(index) <= at < First(index) + Length(size, index)
  }

  /** Every byte of a layer lies in exactly one of its ranges, and no range reaches outside. */
  lemma RangesPartition(size: nat, at: nat)
    ensures at < size ==> InRange(size, at / CHUNK, at)
    ensures forall i :: InRange(size, i, at) ==> at < size && i == at / CHUNK
  {
  }

  /** The bytes of those of the first ranges that are in a set. */
  function SizeOf(size: nat, done: set<nat>, upTo: nat): nat
    requires upTo <= Count(size)
  {
    if upTo == 0 then 0
    else SizeOf(size, done, upTo - 1) + if upTo - 1 in done then Length(size, upTo - 1) else 0
  }

  function Marked(size: nat, done: set<nat>): nat { SizeOf(size, done, Count(size)) }

  /** All ranges together are the layer; only all of them are. */
  lemma {:induction false} AllRanges(size: nat, done: set<nat>, upTo: nat)
    requires upTo <= Count(size)
    ensures SizeOf(size, done, upTo) <= Min(size, First(upTo))
    ensures SizeOf(size, done, upTo) == Min(size, First(upTo)) <==> forall i: nat :: i < upTo ==> i in done
    decreases upTo
  {
    if upTo > 0 {
      AllRanges(size, done, upTo - 1);
      var last := upTo - 1;
      assert Min(size, First(upTo)) == Min(size, First(last)) + Length(size, last);
      hide Min, First, Length, Count;
      assert (forall i: nat :: i < upTo ==> i in done) <==> last in done && forall i: nat :: i < last ==> i in done;
    }
  }

  lemma {:induction false} OneMore(size: nat, done: set<nat>, index: nat, upTo: nat)
    requires upTo <= Count(size) && index < Count(size) && index !in done
    ensures SizeOf(size, done + {index}, upTo) == SizeOf(size, done, upTo) + if index < upTo then Length(size, index) else 0
    decreases upTo
  {
    if upTo > 0 { OneMore(size, done, index, upTo - 1); }
  }

  /** With fewer ranges, strictly fewer bytes. */
  lemma {:induction false} FewerBytes(size: nat, some: set<nat>, more: set<nat>, upTo: nat)
    requires upTo <= Count(size) && some <= more
    ensures SizeOf(size, some, upTo) <= SizeOf(size, more, upTo)
    ensures SizeOf(size, some, upTo) == SizeOf(size, more, upTo) <==> forall i: nat :: i < upTo && i in more ==> i in some
    decreases upTo
  {
    if upTo > 0 { FewerBytes(size, some, more, upTo - 1); }
  }

  // ---- Files ------------------------------------------------------------------------------

  /** What the cache holds for one digest: the finished file, the part file and the recorded ranges. */
  datatype Files = Files(whole: Option<Bytes>, part: Option<Bytes>, ranges: Option<set<nat>>)

  type Disk = map<Bytes, Files>

  function FilesOf(disk: Disk, digest: Bytes): Files {
    if digest in disk then disk[digest] else Files(None, None, None)
  }

  function Recorded(files: Files): set<nat> { if files.ranges.Some? then files.ranges.value else {} }

  function Zeros(n: nat): (r: Bytes)
    ensures |r| == n
  {
    seq(n, _ => 0)
  }

  function Resized(file: Bytes, size: nat): (r: Bytes)
    ensures |r| == size
  {
    if |file| >= size then file[..size] else file + Zeros(size - |file|)
  }

  /** Writing past the end leaves zeros in between. */
  function Written(file: Bytes, at: nat, data: Bytes): (r: Bytes)
    ensures |r| == if |file| < at + |data| then at + |data| else |file|
    ensures r[at..at + |data|] == data
    ensures forall i :: 0 <= i < |file| && !(at <= i < at + |data|) ==> r[i] == file[i]
  {
    var before := if |file| >= at then file[..at] else Resized(file, at);
    before + data + if at + |data| < |file| then file[at + |data|..] else []
  }

  // ---- The download -----------------------------------------------------------------------

  datatype Blob = Blob(digest: Bytes, size: nat)

  datatype Task = Task(blob: Blob, index: nat)

  predicate Proper(t: Task) { t.index < Count(t.blob.size) }

  datatype Worker = Idle | Fetching(task: Task, received: nat, attempt: nat) | Exited

  /** The owner paused, the download failed, or an error that no handler is for ended the worker. */
  datatype Failure = Paused | FetchError | Unhandled

  /**
   * One process's download over the cache it shares with earlier ones. `tasks`
   * is every range found missing, of which `next` have been handed out. `marked`
   * are the ranges held as finished and `credited` those the byte counter was
   * told of for good; `stranded` is what it was told of by workers that ended without
   * taking it back.
   */
  datatype Fetch = Fetch(
    disk: Disk, prepared: seq<Blob>, marked: map<Bytes, set<nat>>, credited: map<Bytes, set<nat>>,
    tasks: seq<Task>, next: nat, workers: seq<Worker>, counter: int, stranded: nat,
    failure: Option<Failure>, stop: bool)

  /** What a worker may do next, or what may happen to it. */
  datatype Act =
    | Take
    | Receive(data: Bytes)
    | Break          // network or file error, or fewer bytes than asked for
    | Refuse         // no use in trying again
    | Interrupt      // it sees that the owner paused
    | Mark
    | MarkFails(reported: bool)   // the ranges file could not be replaced; and then, maybe, progress not be reported
    | Escape(taken: bool)         // progress could not be reported, before or after the bytes were taken back

  /** Preparing a layer, file by file, and checking it at the end. */
  datatype Stage = FindWhole | DropRanges | OpenPart | SizePart | Adopt | Verify | Remove

  /** The pool starts narrow and may grow; layers are prepared before it starts. */
  datatype Event = Restart | RequestStop | Grow(more: nat) | By(w: nat, act: Act) | On(blob: Blob, stage: Stage)

  function Start(disk: Disk): Fetch {
    Fetch(disk, [], map[], map[], [], 0, [], 0, 0, None, false)
  }

  predicate IsPrepared(s: Fetch, blob: Blob) { blob.digest in s.marked }

  /** No worker runs yet, and this layer was not prepared. */
  predicate Enters(s: Fetch, blob: Blob) { s.workers == [] && !IsPrepared(s, blob) }

  function SetFiles(s: Fetch, digest: Bytes, files: Files): Fetch { s.(disk := s.disk[digest := files]) }

  /** The ranges still needed, in order. */
  function Missing(blob: Blob, done: set<nat>, upTo: nat): (r: seq<Task>)
    ensures forall t <- r :: t.blob == blob && t.index < upTo && t.index !in done
    ensures forall i: nat {:trigger Task(blob, i)} :: i < upTo && i !in done ==> Task(blob, i) in r
    ensures forall i, j :: 0 <= i < j < |r| ==> r[i].index < r[j].index
  {
    if upTo == 0 then []
    else Missing(blob, done, upTo - 1) + if upTo - 1 in done then [] else [Task(blob, upTo - 1)]
  }

  function Below(n: nat): (r: set<nat>)
    ensures forall i: nat :: i in r <==> i < n
  {
    if n == 0 then {} else Below(n - 1) + {n - 1}
  }

  function All(size: nat): set<nat> { Below(Count(size)) }

  function Usable(blob: Blob, files: Files): set<nat> { set i <- Recorded(files) | i < Count(blob.size) }

  function Prepared(s: Fetch, blob: Blob, done: set<nat>, tasks: seq<Task>): Fetch {
    s.(prepared := s.prepared + [blob], marked := s.marked[blob.digest := done],
       credited := s.credited[blob.digest := done], tasks := s.tasks + tasks,
       counter := s.counter + Marked(blob.size, done))
  }

  /** The first failure is the one reported. */
  function Fails(s: Fetch, w: nat, failure: Failure): Fetch
    requires w < |s.workers| && s.workers[w].Fetching?
  {
    s.(workers := s.workers[w := Exited], counter := s.counter - s.workers[w].received,
       failure := if s.failure.None? then Some(failure) else s.failure)
  }

  function Retries(s: Fetch, w: nat): Fetch
    requires w < |s.workers| && s.workers[w].Fetching?
  {
    var worker := s.workers[w];
    if worker.attempt + 1 >= RETRIES then Fails(s, w, FetchError)
    else s.(workers := s.workers[w := Fetching(worker.task, 0, worker.attempt + 1)], counter := s.counter - worker.received)
  }

  /** An error no handler is for: what was received stays counted. */
  function Strands(s: Fetch, w: nat): Fetch
    requires w < |s.workers| && s.workers[w].Fetching?
  {
    Fails(s, w, Unhandled).(counter := s.counter, stranded := s.stranded + s.workers[w].received)
  }

  /** Received in full, so it may be marked. */
  predicate Full(s: Fetch, w: nat) {
    && w < |s.workers| && s.workers[w].Fetching? && Proper(s.workers[w].task)
    && s.workers[w].task.blob.digest in s.marked && s.workers[w].task.blob.digest in s.credited
    && s.workers[w].received == Length(s.workers[w].task.blob.size, s.workers[w].task.index)
  }

  function Held(s: Fetch, t: Task): Fetch
    requires t.blob.digest in s.marked
  {
    s.(marked := s.marked[t.blob.digest := s.marked[t.blob.digest] + {t.index}])
  }

  function MarkedBy(s: Fetch, w: nat): Fetch
    requires Full(s, w)
  {
    var t := s.workers[w].task;
    var h := Held(s, t);
    SetFiles(h, t.blob.digest, FilesOf(h.disk, t.blob.digest).(ranges := Some(h.marked[t.blob.digest]))).(
      credited := h.credited[t.blob.digest := h.credited[t.blob.digest] + {t.index}], workers := h.workers[w := Idle])
  }

  /** The range is held as finished all the same. */
  function MarkFailed(s: Fetch, w: nat, reported: bool): Fetch
    requires Full(s, w)
  {
    var h := Held(s, s.workers[w].task);
    if reported then Retries(h, w) else Fails(h, w, Unhandled)
  }

  function Wrote(s: Fetch, w: nat, data: Bytes): Fetch
    requires w < |s.workers| && s.workers[w].Fetching? && FilesOf(s.disk, s.workers[w].task.blob.digest).part.Some?
  {
    var t, received := s.workers[w].task, s.workers[w].received;
    var files := FilesOf(s.disk, t.blob.digest);
    SetFiles(s, t.blob.digest, files.(part := Some(Written(files.part.value, First(t.index) + received, data)))).(
      workers := s.workers[w := s.workers[w].(received := received + |data|)], counter := s.counter + |data|)
  }

  function Worked(s: Fetch, w: nat, act: Act): Fetch
    requires w < |s.workers| && s.workers[w].Fetching?
  {
    match act
    case Take => s
    case Receive(data) =>
      if s.stop || FilesOf(s.disk, s.workers[w].task.blob.digest).part.None? then s else Wrote(s, w, data)
    case Break => Retries(s, w)
    case Refuse => Fails(s, w, FetchError)
    case Interrupt => if s.stop then Fails(s, w, Paused) else s
    case Mark => if Full(s, w) then MarkedBy(s, w) else s
    case MarkFails(reported) => if Full(s, w) then MarkFailed(s, w, reported) else s
    case Escape(taken) => if taken then Fails(s, w, Unhandled) else Strands(s, w)
  }

  /** Workers are done when nothing is left or some worker failed. */
  function Taken(s: Fetch, w: nat): Fetch
    requires w < |s.workers|
  {
    if s.next >= |s.tasks| || s.failure.Some? then s.(workers := s.workers[w := Exited])
    else s.(workers := s.workers[w := Fetching(s.tasks[s.next], 0, 0)], next := s.next + 1)
  }

  function Staged(s: Fetch, blob: Blob, stage: Stage): Fetch {
    var files := FilesOf(s.disk, blob.digest);
    match stage
    case FindWhole =>
      if files.whole.Some? && Enters(s, blob) then Prepared(s, blob, All(blob.size), []) else s
    case DropRanges => if files.part.None? then SetFiles(s, blob.digest, files.(ranges := None)) else s
    case OpenPart =>
      if files.whole.None? && files.part.None? && files.ranges.None? && !IsPrepared(s, blob) then
        SetFiles(s, blob.digest, files.(part := Some([])))
      else s
    case SizePart =>
      if files.part == Some([]) && !IsPrepared(s, blob) then
        SetFiles(s, blob.digest, files.(part := Some(Zeros(blob.size))))
      else s
    case Adopt =>
      if files.whole.None? && files.part.Some? && Enters(s, blob) then
        var done := Usable(blob, files);
        Prepared(s, blob, done, Missing(blob, done, Count(blob.size)))
      else s
    case Verify =>
      if files.part.None? || files.whole.Some? then s
      else if files.part.value == blob.digest then
        SetFiles(s, blob.digest, files.(whole := files.part, part := None))
      else SetFiles(s, blob.digest, files.(part := None)).(failure := Some(FetchError))
    case Remove => SetFiles(s, blob.digest, files.(whole := None))
  }

  function Next(s: Fetch, e: Event): Fetch {
    match e
    case Restart => Start(s.disk)
    case RequestStop => s.(stop := true)
    case Grow(more) => s.(workers := s.workers + seq(more, _ => Idle))
    case By(w, act) =>
      if w >= |s.workers| then s
      else if s.workers[w].Idle? && act.Take? then Taken(s, w)
      else if s.workers[w].Fetching? then Worked(s, w, act)
      else s
    case On(blob, stage) => Staged(s, blob, stage)
  }

  function Runs(s: Fetch, events: seq<Event>): Fetch
    decreases |events|
  {
    if events == [] then s else Runs(Next(s, events[0]), events[1..])
  }

  lemma RunsNone(s: Fetch)
    ensures Runs(s, []) == s
  {
  }

  lemma {:induction false} RunsJoin(s: Fetch, a: seq<Event>, b: seq<Event>)
    ensures Runs(s, a + b) == Runs(Runs(s, a), b)
    decreases |a|
  {
    if a == [] {
      assert a + b == b;
    } else {
      hide Next;
      assert (a + b)[1..] == a[1..] + b;
      RunsJoin(Next(s, a[0]), a[1..], b);
    }
  }

  lemma RunsOne(s: Fetch, events: seq<Event>, e: Event)
    ensures Runs(s, events + [e]) == Next(Runs(s, events), e)
  {
    hide Next;
    RunsJoin(s, events, [e]);
    assert [e][1..] == [];
  }

  /** A step of one worker, or the owner's pause. */
  predicate OfWorker(e: Event, w: nat) { e.RequestStop? || (e.By? && e.w == w) }
}
