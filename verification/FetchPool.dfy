/** The pool of workers: each missing range is fetched once, and the byte counter balances. */
module FetchPool {
  import opened Wrappers
  import opened ImageFetch

  // ---- What holds between any two steps of one process -------------------------------------

  type Ranges = map<Bytes, set<nat>>

  /** Every layer was prepared once; what was counted is marked, and only its own ranges are. */
  ghost predicate Layers(prepared: seq<Blob>, marked: Ranges, credited: Ranges) {
    && marked.Keys == credited.Keys == (set b <- prepared :: b.digest)
    && (forall i, j :: 0 <= i < j < |prepared| ==> prepared[i].digest != prepared[j].digest)
    && (forall b <- prepared :: credited[b.digest] <= marked[b.digest] <= All(b.size))
  }

  ghost predicate Queue(prepared: seq<Blob>, tasks: seq<Task>) {
    && (forall i, j :: 0 <= i < j < |tasks| ==> tasks[i] != tasks[j])
    && (forall t <- tasks :: t.blob in prepared && Proper(t))
  }

  predicate IsFetching(workers: seq<Worker>, w: nat, t: Task) {
    w < |workers| && workers[w].Fetching? && workers[w].task == t
  }

  predicate Credited(credited: Ranges, t: Task) {
    t.blob.digest in credited && t.index in credited[t.blob.digest]
  }

  /** No two workers share a range, and what is being fetched or waits is not finished. */
  ghost predicate Shares(workers: seq<Worker>, given: seq<Task>, waiting: seq<Task>, credited: Ranges) {
    && (forall w, t :: IsFetching(workers, w, t) ==> t in given && !Credited(credited, t))
    && (forall w, v, t :: IsFetching(workers, w, t) && IsFetching(workers, v, t) ==> w == v)
    && (forall t <- waiting :: !Credited(credited, t))
  }

  /** Everything handed out is finished or being fetched. */
  ghost predicate Accounted(workers: seq<Worker>, given: seq<Task>, credited: Ranges) {
    forall t <- given :: Credited(credited, t) || exists w :: IsFetching(workers, w, t)
  }

  /** A range of a prepared layer is finished or was found missing. */
  ghost predicate Covered(prepared: seq<Blob>, tasks: seq<Task>, credited: Ranges) {
    forall b, i: nat :: b in prepared && i < Count(b.size) ==> Credited(credited, Task(b, i)) || Task(b, i) in tasks
  }

  function Received(workers: seq<Worker>): nat {
    if workers == [] then 0
    else Received(workers[1..]) + if workers[0].Fetching? then workers[0].received else 0
  }

  /** The bytes of the finished ranges of these layers. */
  function Total(prepared: seq<Blob>, done: map<Bytes, set<nat>>): nat
    requires forall b <- prepared :: b.digest in done
  {
    if prepared == [] then 0 else Total(prepared[1..], done) + Marked(prepared[0].size, done[prepared[0].digest])
  }

  ghost predicate Balanced(prepared: seq<Blob>, credited: Ranges, workers: seq<Worker>, counter: int) {
    (forall b <- prepared :: b.digest in credited) && counter == Total(prepared, credited) + Received(workers)
  }

  ghost predicate Pool(s: Fetch) {
    && s.next <= |s.tasks|
    && Layers(s.prepared, s.marked, s.credited)
    && Queue(s.prepared, s.tasks)
    && Shares(s.workers, s.tasks[..s.next], s.tasks[s.next..], s.credited)
    && (s.failure.None? ==> Accounted(s.workers, s.tasks[..s.next], s.credited))
    && Covered(s.prepared, s.tasks, s.credited)
    && Balanced(s.prepared, s.credited, s.workers, s.counter - s.stranded)
    && (s.failure.None? ==> s.stranded == 0)
  }

  // ---- Sums -----------------------------------------------------------------------------------

  function Carried(x: Worker): nat { if x.Fetching? then x.received else 0 }

  lemma {:induction false} OneWorker(workers: seq<Worker>, w: nat, x: Worker)
    requires w < |workers|
    ensures Received(workers[w := x]) == Received(workers) - Carried(workers[w]) + Carried(x)
    decreases |workers|
  {
    var changed := workers[w := x];
    if w > 0 {
      OneWorker(workers[1..], w - 1, x);
      assert changed[1..] == workers[1..][w - 1 := x];
    } else {
      assert changed[1..] == workers[1..];
    }
  }

  lemma {:induction false} NothingCarried(workers: seq<Worker>)
    requires forall x <- workers :: Carried(x) == 0
    ensures Received(workers) == 0
    decreases |workers|
  {
    if workers != [] {
      assert workers[0] in workers;
      NothingCarried(workers[1..]);
    }
  }

  lemma {:induction false} TotalSame(prepared: seq<Blob>, done: map<Bytes, set<nat>>, later: map<Bytes, set<nat>>)
    requires forall b <- prepared :: b.digest in done && b.digest in later && later[b.digest] == done[b.digest]
    ensures Total(prepared, done) == Total(prepared, later)
    decreases |prepared|
  {
    if prepared != [] { TotalSame(prepared[1..], done, later); }
  }

  lemma {:induction false} TotalJoin(a: seq<Blob>, b: seq<Blob>, done: map<Bytes, set<nat>>)
    requires forall x <- a + b :: x.digest in done
    ensures (forall x <- a :: x.digest in done) && forall x <- b :: x.digest in done
    ensures Total(a + b, done) == Total(a, done) + Total(b, done)
    decreases |a|
  {
    assert forall x <- a :: x in a + b;
    assert forall x <- b :: x in a + b;
    if a == [] {
      assert a + b == b;
    } else {
      assert (a + b)[1..] == a[1..] + b && (a + b)[0] == a[0];
      TotalJoin(a[1..], b, done);
    }
  }

  /** One more finished range adds exactly its length. */
  lemma {:induction false} TotalMore(prepared: seq<Blob>, done: map<Bytes, set<nat>>, blob: Blob, index: nat)
    requires forall b <- prepared :: b.digest in done
    requires forall i, j :: 0 <= i < j < |prepared| ==> prepared[i].digest != prepared[j].digest
    requires blob in prepared && index < Count(blob.size) && index !in done[blob.digest]
    ensures Total(prepared, done[blob.digest := done[blob.digest] + {index}]) == Total(prepared, done) + Length(blob.size, index)
    decreases |prepared|
  {
    var later := done[blob.digest := done[blob.digest] + {index}];
    if prepared[0] == blob {
      TotalSame(prepared[1..], done, later);
      OneMore(blob.size, done[blob.digest], index, Count(blob.size));
    } else {
      assert blob in prepared[1..];
      TotalMore(prepared[1..], done, blob, index);
      var k :| 0 < k < |prepared| && prepared[k] == blob;
      assert prepared[0].digest != blob.digest;
    }
  }

  // ---- Every step keeps it ----------------------------------------------------------------------

  lemma PoolStarts(disk: Disk)
    ensures Pool(Start(disk))
  {
  }

  lemma {:induction false} MoreWorkers(workers: seq<Worker>, more: seq<Worker>)
    requires forall x <- more :: Carried(x) == 0
    ensures Received(workers + more) == Received(workers)
    decreases |workers|
  {
    if workers == [] {
      assert workers + more == more;
      NothingCarried(more);
    } else {
      assert (workers + more)[1..] == workers[1..] + more;
      MoreWorkers(workers[1..], more);
    }
  }

  lemma GrowKeeps(s: Fetch, more: nat)
    requires Pool(s)
    ensures Pool(Next(s, Grow(more)))
  {
    var idle: seq<Worker> := seq(more, _ => Idle);
    MoreWorkers(s.workers, idle);
    assert forall w, t :: IsFetching(s.workers + idle, w, t) <==> IsFetching(s.workers, w, t);
    hide Layers, Queue, Covered, Received, Total;
  }

  /** Only this worker's task, the failure and the counter differ. */
  predicate OnlyWorker(s: Fetch, t: Fetch, w: nat) {
    && w < |s.workers| && s.workers[w].Fetching? && |t.workers| == |s.workers|
    && t.prepared == s.prepared && t.tasks == s.tasks && t.next == s.next && t.credited == s.credited
    && t.workers == s.workers[w := t.workers[w]]
    && (t.workers[w].Exited? || (t.workers[w].Fetching? && t.workers[w].task == s.workers[w].task))
    && (t.workers[w].Exited? ==> t.failure.Some?) && (s.failure.Some? ==> t.failure.Some?)
    && t.counter - t.stranded == s.counter - s.stranded - Carried(s.workers[w]) + Carried(t.workers[w])
    && (t.failure.None? ==> t.stranded == s.stranded)
  }

  ghost predicate MarksGrow(prepared: seq<Blob>, marked: Ranges, later: Ranges) {
    later.Keys == marked.Keys
    && forall b <- prepared :: b.digest in marked ==> marked[b.digest] <= later[b.digest] <= All(b.size)
  }

  lemma OnlyWorkerKeeps(s: Fetch, t: Fetch, w: nat)
    requires Pool(s) && OnlyWorker(s, t, w) && MarksGrow(s.prepared, s.marked, t.marked)
    ensures Pool(t)
  {
    hide All, Received, Total, Covered, Queue;
    OneWorker(s.workers, w, t.workers[w]);
    assert forall x, v :: IsFetching(t.workers, v, x) ==> IsFetching(s.workers, v, x);
    assert t.failure.None? ==> forall x, v :: IsFetching(s.workers, v, x) ==> IsFetching(t.workers, v, x);
  }

  lemma SameMarks(s: Fetch, t: Fetch)
    requires Pool(s) && t.marked == s.marked
    ensures MarksGrow(s.prepared, s.marked, t.marked)
  {
  }

  lemma FailsKeeps(s: Fetch, w: nat, failure: Failure)
    requires Pool(s) && w < |s.workers| && s.workers[w].Fetching?
    ensures Pool(Fails(s, w, failure))
  {
    SameMarks(s, Fails(s, w, failure));
    hide Pool;
    OnlyWorkerKeeps(s, Fails(s, w, failure), w);
  }

  lemma RetriesKeeps(s: Fetch, w: nat)
    requires Pool(s) && w < |s.workers| && s.workers[w].Fetching?
    ensures Pool(Retries(s, w))
  {
    SameMarks(s, Retries(s, w));
    hide Pool;
    OnlyWorkerKeeps(s, Retries(s, w), w);
  }

  /** What a worker fetches is an unfinished range of a prepared layer. */
  lemma TaskKnown(s: Fetch, w: nat)
    requires Pool(s) && w < |s.workers| && s.workers[w].Fetching?
    ensures var t := s.workers[w].task;
      && t.blob in s.prepared && Proper(t) && !Credited(s.credited, t)
      && t.blob.digest in s.marked && t.blob.digest in s.credited
  {
    assert IsFetching(s.workers, w, s.workers[w].task);
  }

  lemma OneBlob(prepared: seq<Blob>, a: Blob, b: Blob)
    requires forall i, j :: 0 <= i < j < |prepared| ==> prepared[i].digest != prepared[j].digest
    requires a in prepared && b in prepared && a.digest == b.digest
    ensures a == b
  {
  }

  lemma HeldGrows(s: Fetch, w: nat)
    requires Pool(s) && Full(s, w)
    ensures MarksGrow(s.prepared, s.marked, Held(s, s.workers[w].task).marked)
  {
    TaskKnown(s, w);
    var t := s.workers[w].task;
    forall b | b in s.prepared && b.digest == t.blob.digest ensures b == t.blob { OneBlob(s.prepared, b, t.blob); }
  }

  lemma HeldKeeps(s: Fetch, w: nat)
    requires Pool(s) && Full(s, w)
    ensures Pool(Held(s, s.workers[w].task))
  {
    HeldGrows(s, w);
    hide Queue, Shares, Accounted, Covered, Balanced, All, Full;
  }

  lemma MarkFailsKeeps(s: Fetch, w: nat, reported: bool)
    requires Pool(s) && Full(s, w)
    ensures Pool(MarkFailed(s, w, reported))
  {
    HeldKeeps(s, w);
    hide Pool, Retries, Fails;
    RetriesKeeps(Held(s, s.workers[w].task), w);
    FailsKeeps(Held(s, s.workers[w].task), w, Unhandled);
  }

  lemma StrandsKeeps(s: Fetch, w: nat)
    requires Pool(s) && w < |s.workers| && s.workers[w].Fetching?
    ensures Pool(Strands(s, w))
  {
    SameMarks(s, Strands(s, w));
    hide Pool;
    OnlyWorkerKeeps(s, Strands(s, w), w);
  }

  lemma WroteKeeps(s: Fetch, w: nat, data: Bytes)
    requires Pool(s) && w < |s.workers| && s.workers[w].Fetching?
    requires FilesOf(s.disk, s.workers[w].task.blob.digest).part.Some?
    ensures Pool(Wrote(s, w, data))
  {
    SameMarks(s, Wrote(s, w, data));
    hide Pool, Written;
    OnlyWorkerKeeps(s, Wrote(s, w, data), w);
  }

  lemma CreditedMore(prepared: seq<Blob>, credited: Ranges, t: Task)
    requires forall i, j :: 0 <= i < j < |prepared| ==> prepared[i].digest != prepared[j].digest
    requires t.blob in prepared && t.blob.digest in credited
    ensures var more := credited[t.blob.digest := credited[t.blob.digest] + {t.index}];
      && Credited(more, t) && (forall x :: Credited(credited, x) ==> Credited(more, x))
      && (forall x: Task :: x.blob in prepared && Credited(more, x) ==> Credited(credited, x) || x == t)
  {
  }

  lemma WorkerFinishes(s: Fetch, w: nat, more: Ranges)
    requires Pool(s) && w < |s.workers| && s.workers[w].Fetching? && Credited(more, s.workers[w].task)
    requires forall x :: Credited(s.credited, x) ==> Credited(more, x)
    requires forall x: Task :: x.blob in s.prepared && Credited(more, x) ==> Credited(s.credited, x) || x == s.workers[w].task
    ensures Shares(s.workers[w := Idle], s.tasks[..s.next], s.tasks[s.next..], more)
    ensures s.failure.None? ==> Accounted(s.workers[w := Idle], s.tasks[..s.next], more)
    ensures Covered(s.prepared, s.tasks, more)
  {
    hide Layers, Balanced, Credited, Proper;
    var t := s.workers[w].task;
    assert IsFetching(s.workers, w, t);
    var workers := s.workers[w := Idle];
    assert forall x, v :: IsFetching(workers, v, x) <==> IsFetching(s.workers, v, x) && v != w;
    assert forall x <- s.tasks[..s.next] :: x in s.tasks;
    forall x | x in s.tasks[s.next..] ensures !Credited(more, x) {
      assert x in s.tasks && t in s.tasks[..s.next];
    }
    forall v, x | IsFetching(workers, v, x) ensures x in s.tasks[..s.next] && !Credited(more, x) {
      assert x in s.tasks && x.blob in s.prepared;
    }
  }

  lemma CountMoves(s: Fetch, w: nat)
    requires Pool(s) && Full(s, w)
    ensures Balanced(s.prepared, MarkedBy(s, w).credited, MarkedBy(s, w).workers, MarkedBy(s, w).counter - s.stranded)
  {
    hide Shares, Accounted, Covered, Queue;
    var t := s.workers[w].task;
    TaskKnown(s, w);
    OneWorker(s.workers, w, Idle);
    TotalMore(s.prepared, s.credited, t.blob, t.index);
  }

  /** A finished range moves from what its worker carries to what is counted for good. */
  lemma {:induction false} MarkedKeeps(s: Fetch, w: nat)
    requires Pool(s) && Full(s, w)
    ensures Pool(MarkedBy(s, w))
  {
    CountMoves(s, w);
    LayersAfterMark(s, w);
    MarkShares(s, w);
    MarkAside(s, w);
    hide MarkedBy, Full, Credited, Shares, Accounted, Covered, Queue, Balanced, Layers;
  }

  lemma MarkShares(s: Fetch, w: nat)
    requires Pool(s) && Full(s, w)
    ensures var m := MarkedBy(s, w);
      && Shares(m.workers, s.tasks[..s.next], s.tasks[s.next..], m.credited)
      && (s.failure.None? ==> Accounted(m.workers, s.tasks[..s.next], m.credited))
      && Covered(s.prepared, s.tasks, m.credited)
  {
    TaskKnown(s, w);
    assert forall i, j :: 0 <= i < j < |s.prepared| ==> s.prepared[i].digest != s.prepared[j].digest;
    hide Pool;
    CreditedMore(s.prepared, s.credited, s.workers[w].task);
    MarkAside(s, w);
    assert s.workers[w].Fetching?;
    hide MarkedBy, Full, Credited, Shares, Accounted, Covered;
    WorkerFinishes(s, w, MarkedBy(s, w).credited);
  }

  lemma MarkAside(s: Fetch, w: nat)
    requires Full(s, w)
    ensures var t, m := s.workers[w].task, MarkedBy(s, w);
      && m.prepared == s.prepared && m.tasks == s.tasks && m.next == s.next && m.workers == s.workers[w := Idle]
      && m.counter == s.counter && m.stranded == s.stranded && m.failure == s.failure
      && m.credited == s.credited[t.blob.digest := s.credited[t.blob.digest] + {t.index}]
  {
  }

  lemma {:induction false} LayersAfterMark(s: Fetch, w: nat)
    requires Pool(s) && Full(s, w)
    ensures var m := MarkedBy(s, w); Layers(m.prepared, m.marked, m.credited)
  {
    TaskKnown(s, w);
    HeldGrows(s, w);
    hide Shares, Accounted, Covered, Queue, Balanced, All, FilesOf, Full;
  }

  /** The next range goes to an idle worker, and to no other. */
  lemma HandedOut(s: Fetch, w: nat)
    requires Pool(s) && w < |s.workers| && s.workers[w].Idle? && s.next < |s.tasks|
    ensures var workers, n := s.workers[w := Fetching(s.tasks[s.next], 0, 0)], s.next + 1;
      && Shares(workers, s.tasks[..n], s.tasks[n..], s.credited)
      && (s.failure.None? ==> Accounted(workers, s.tasks[..n], s.credited))
  {
    hide Layers, Balanced, Covered, Credited;
    var t, n := s.tasks[s.next], s.next + 1;
    var workers := s.workers[w := Fetching(t, 0, 0)];
    assert s.tasks[..n] == s.tasks[..s.next] + [t];
    assert s.tasks[s.next..] == [t] + s.tasks[n..];
    assert t !in s.tasks[..s.next];
    assert forall x, v :: v != w ==> (IsFetching(workers, v, x) <==> IsFetching(s.workers, v, x));
    assert forall x :: IsFetching(workers, w, x) <==> x == t;
    assert IsFetching(workers, w, t);
  }

  lemma TakenKeeps(s: Fetch, w: nat)
    requires Pool(s) && w < |s.workers| && s.workers[w].Idle?
    ensures Pool(Taken(s, w))
  {
    var m := Taken(s, w);
    OneWorker(s.workers, w, m.workers[w]);
    hide Total, Received, Layers;
    if s.next >= |s.tasks| || s.failure.Some? {
      assert forall x, v :: IsFetching(m.workers, v, x) <==> IsFetching(s.workers, v, x);
    } else {
      HandedOut(s, w);
      hide Shares, Accounted, Covered;
    }
  }

  /** Ranges of a layer not prepared yet: all of them are either done or listed. */
  ghost predicate Splits(blob: Blob, done: set<nat>, tasks: seq<Task>) {
    && done <= All(blob.size)
    && (forall t <- tasks :: t.blob == blob && Proper(t) && t.index !in done)
    && (forall i, j :: 0 <= i < j < |tasks| ==> tasks[i] != tasks[j])
    && (forall i: nat {:trigger Task(blob, i)} :: i < Count(blob.size) && i !in done ==> Task(blob, i) in tasks)
  }

  lemma LayersOnEntry(s: Fetch, blob: Blob, done: set<nat>, tasks: seq<Task>)
    requires Pool(s) && !IsPrepared(s, blob) && done <= All(blob.size)
    ensures var m := Prepared(s, blob, done, tasks); Layers(m.prepared, m.marked, m.credited)
  {
    hide Queue, Shares, Accounted, Covered, Balanced, All, Marked;
    assert forall b <- s.prepared :: b.digest != blob.digest;
  }

  lemma CountedOnEntry(s: Fetch, blob: Blob, done: set<nat>, tasks: seq<Task>)
    requires Pool(s) && !IsPrepared(s, blob) && done <= All(blob.size)
    ensures var m := Prepared(s, blob, done, tasks); Balanced(m.prepared, m.credited, m.workers, m.counter - m.stranded)
  {
    hide Queue, Shares, Accounted, Covered, All, Marked;
    var m := Prepared(s, blob, done, tasks);
    assert forall b <- s.prepared :: b.digest != blob.digest;
    TotalSame(s.prepared, s.credited, m.credited);
    TotalJoin(s.prepared, [blob], m.credited);
  }

  lemma SharedOnEntry(s: Fetch, blob: Blob, done: set<nat>, tasks: seq<Task>)
    requires Pool(s) && !IsPrepared(s, blob) && Splits(blob, done, tasks)
    ensures var m := Prepared(s, blob, done, tasks);
      && Shares(m.workers, s.tasks[..s.next], s.tasks[s.next..] + tasks, m.credited)
      && (s.failure.None? ==> Accounted(m.workers, s.tasks[..s.next], m.credited))
  {
    var m := Prepared(s, blob, done, tasks);
    assert forall b <- s.prepared :: b.digest != blob.digest;
    forall t | t in s.tasks ensures Credited(m.credited, t) <==> Credited(s.credited, t) { assert t.blob in s.prepared; }
    assert forall t <- tasks :: !Credited(m.credited, t);
    assert forall t <- s.tasks[..s.next] :: t in s.tasks;
    assert forall t <- s.tasks[s.next..] :: t in s.tasks;
    hide Shares, Accounted, Credited;
    MoreWaiting(s.workers, s.tasks[..s.next], s.tasks[s.next..], tasks, s.credited, m.credited);
  }

  lemma MoreWaiting(
    workers: seq<Worker>, given: seq<Task>, waiting: seq<Task>, more: seq<Task>, credited: Ranges, later: Ranges)
    requires Shares(workers, given, waiting, credited)
    requires forall t <- given :: Credited(later, t) <==> Credited(credited, t)
    requires forall t <- waiting :: Credited(later, t) <==> Credited(credited, t)
    requires forall t <- more :: !Credited(later, t)
    ensures Shares(workers, given, waiting + more, later)
    ensures Accounted(workers, given, credited) ==> Accounted(workers, given, later)
  {
  }

  lemma ListedOnEntry(s: Fetch, blob: Blob, done: set<nat>, tasks: seq<Task>)
    requires Pool(s) && !IsPrepared(s, blob) && Splits(blob, done, tasks)
    ensures var m := Prepared(s, blob, done, tasks);
      Queue(m.prepared, m.tasks) && Covered(m.prepared, m.tasks, m.credited)
  {
    hide Shares, Accounted, Balanced;
    var m := Prepared(s, blob, done, tasks);
    assert forall b <- s.prepared :: b.digest != blob.digest;
    assert forall t: Task :: t.blob in s.prepared ==> (Credited(m.credited, t) <==> Credited(s.credited, t));
  }

  /** A layer enters the pool with its finished ranges counted and its missing ones behind the tasks. */
  lemma {:induction false} PreparedKeeps(s: Fetch, blob: Blob, done: set<nat>, tasks: seq<Task>)
    requires Pool(s) && !IsPrepared(s, blob) && Splits(blob, done, tasks)
    ensures Pool(Prepared(s, blob, done, tasks))
  {
    LayersOnEntry(s, blob, done, tasks);
    CountedOnEntry(s, blob, done, tasks);
    SharedOnEntry(s, blob, done, tasks);
    ListedOnEntry(s, blob, done, tasks);
    var m := Prepared(s, blob, done, tasks);
    hide Layers, Queue, Shares, Accounted, Covered, Balanced, Splits, Marked;
    assert m.tasks[..s.next] == s.tasks[..s.next];
    assert m.tasks[s.next..] == s.tasks[s.next..] + tasks;
  }

  lemma {:induction false} StagedKeeps(s: Fetch, blob: Blob, stage: Stage)
    requires Pool(s)
    ensures Pool(Staged(s, blob, stage))
  {
    var done := Usable(blob, FilesOf(s.disk, blob.digest));
    EntrySplits(blob, FilesOf(s.disk, blob.digest));
    hide Layers, Queue, Shares, Accounted, Covered, Balanced, Prepared, Missing, Usable, All, Zeros, Marked, Splits;
    match stage
    case FindWhole => if !IsPrepared(s, blob) { PreparedKeeps(s, blob, All(blob.size), []); }
    case Adopt => if !IsPrepared(s, blob) { PreparedKeeps(s, blob, done, Missing(blob, done, Count(blob.size))); }
    case _ =>
  }

  lemma EntrySplits(blob: Blob, files: Files)
    ensures Splits(blob, All(blob.size), [])
    ensures var done := Usable(blob, files); Splits(blob, done, Missing(blob, done, Count(blob.size)))
  {
  }

  lemma StepKeeps(s: Fetch, e: Event)
    requires Pool(s)
    ensures Pool(Next(s, e))
  {
    match e
    case Restart => PoolStarts(s.disk);
    case Grow(more) => GrowKeeps(s, more);
    case RequestStop => hide Layers, Queue, Shares, Accounted, Covered, Balanced;
    case On(blob, stage) => StagedKeeps(s, blob, stage);
    case By(w, act) =>
      hide Pool;
      if w < |s.workers| {
        if s.workers[w].Idle? { TakenKeeps(s, w); }
        if s.workers[w].Fetching? { ActKeeps(s, w, act); }
      }
  }

  lemma ActKeeps(s: Fetch, w: nat, act: Act)
    requires Pool(s) && w < |s.workers| && s.workers[w].Fetching?
    ensures Pool(Worked(s, w, act))
  {
    hide Pool, Full, Wrote, Retries, Fails, MarkedBy, MarkFailed, Strands;
    match act
    case Take =>
    case Receive(data) => if FilesOf(s.disk, s.workers[w].task.blob.digest).part.Some? { WroteKeeps(s, w, data); }
    case Break => RetriesKeeps(s, w);
    case Refuse => FailsKeeps(s, w, FetchError);
    case Interrupt => FailsKeeps(s, w, Paused);
    case Mark => if Full(s, w) { MarkedKeeps(s, w); }
    case MarkFails(reported) => if Full(s, w) { MarkFailsKeeps(s, w, reported); }
    case Escape(taken) => if taken { FailsKeeps(s, w, Unhandled); } else { StrandsKeeps(s, w); }
  }

  lemma {:induction false} RunKeeps(s: Fetch, events: seq<Event>)
    requires Pool(s)
    ensures Pool(Runs(s, events))
    decreases |events|
  {
    hide Pool, Next;
    if events != [] {
      StepKeeps(s, events[0]);
      RunKeeps(Next(s, events[0]), events[1..]);
    }
  }

  // ---- What it means ------------------------------------------------------------------------------

  /** No worker is in the middle of a range. */
  predicate Still(s: Fetch) { forall x <- s.workers :: Carried(x) == 0 }

  /** The pool returned: whatever there was to do it was started for, every worker ended, and nothing failed. */
  predicate Completed(s: Fetch) {
    s.failure.None? && (s.workers == [] ==> s.tasks == []) && forall x <- s.workers :: x.Exited?
  }

  /** A worker ends, without a failure, only when every task was handed out. */
  predicate Drained(s: Fetch) {
    s.failure.None? && (exists x <- s.workers :: x.Exited?) ==> s.next >= |s.tasks|
  }

  lemma ExitsDrained(s: Fetch, t: Fetch, w: nat)
    requires Drained(s) && w < |s.workers| && t.tasks == s.tasks && t.next >= s.next && |t.workers| == |s.workers|
    requires t.workers == s.workers[w := t.workers[w]] && (s.failure.Some? ==> t.failure.Some?)
    requires t.workers[w].Exited? ==> t.failure.Some? || t.next >= |t.tasks|
    ensures Drained(t)
  {
  }

  /** A worker that goes on after an act leaves no failure behind; one that ends does. */
  lemma ActEnds(s: Fetch, w: nat, act: Act)
    requires w < |s.workers| && s.workers[w].Fetching?
    ensures GoesOnOrFails(s, Worked(s, w, act), w)
  {
    hide Full, Fails, Retries, Strands, Held, MarkedBy, MarkFailed, Wrote, GoesOnOrFails;
    TryEnds(s, w);
    match act
    case Receive(data) => if FilesOf(s.disk, s.workers[w].task.blob.digest).part.Some? { WroteEnds(s, w, data); }
    case Mark => if Full(s, w) { MarkEnds(s, w, true); }
    case MarkFails(reported) => if Full(s, w) { MarkEnds(s, w, reported); }
    case _ =>
  }

  predicate GoesOnOrFails(s: Fetch, t: Fetch, w: nat) {
    && w < |s.workers| && t.tasks == s.tasks && t.next == s.next && |t.workers| == |s.workers|
    && t.workers == s.workers[w := t.workers[w]] && (s.failure.Some? ==> t.failure.Some?)
    && (s.workers[w].Fetching? && t.workers[w].Exited? ==> t.failure.Some?)
  }

  lemma TryEnds(s: Fetch, w: nat)
    requires w < |s.workers| && s.workers[w].Fetching?
    ensures GoesOnOrFails(s, s, w) && GoesOnOrFails(s, Retries(s, w), w) && GoesOnOrFails(s, Strands(s, w), w)
    ensures forall failure :: GoesOnOrFails(s, Fails(s, w, failure), w)
  {
  }

  lemma WroteEnds(s: Fetch, w: nat, data: Bytes)
    requires w < |s.workers| && s.workers[w].Fetching? && FilesOf(s.disk, s.workers[w].task.blob.digest).part.Some?
    ensures GoesOnOrFails(s, Wrote(s, w, data), w)
  {
    hide Written;
  }

  lemma MarkEnds(s: Fetch, w: nat, reported: bool)
    requires Full(s, w)
    ensures GoesOnOrFails(s, MarkedBy(s, w), w) && GoesOnOrFails(s, MarkFailed(s, w, reported), w)
  {
    hide Fails, Retries, FilesOf, Length, Count;
    TryEnds(Held(s, s.workers[w].task), w);
  }

  lemma StepDrained(s: Fetch, e: Event)
    requires Drained(s)
    ensures Drained(Next(s, e))
  {
    if e.On? { StageDrained(s, e.blob, e.stage); }
    if e.By? { ActDrained(s, e.w, e.act); }
    hide Staged, Taken, Worked;
  }

  lemma ActDrained(s: Fetch, w: nat, act: Act)
    requires Drained(s)
    ensures Drained(Next(s, By(w, act)))
  {
    hide Drained, Worked;
    if w < |s.workers| {
      if s.workers[w].Fetching? { ActEnds(s, w, act); }
      if !s.workers[w].Exited? { ExitsDrained(s, Next(s, By(w, act)), w); }
    }
  }

  lemma StageDrained(s: Fetch, blob: Blob, stage: Stage)
    requires Drained(s)
    ensures Drained(Staged(s, blob, stage))
  {
    hide Missing, Usable, Marked, All, Zeros;
  }

  lemma {:induction false} RunDrained(s: Fetch, events: seq<Event>)
    requires Drained(s)
    ensures Drained(Runs(s, events))
    decreases |events|
  {
    hide Drained, Next;
    if events != [] {
      StepDrained(s, events[0]);
      RunDrained(Next(s, events[0]), events[1..]);
    }
  }

  /** So a completed pool has handed out everything. */
  lemma CompletedIsDrained(disk: Disk, events: seq<Event>)
    requires Completed(Runs(Start(disk), events))
    ensures var s := Runs(Start(disk), events); s.next == |s.tasks| && forall x <- s.workers :: !x.Fetching?
  {
    PoolStarts(disk);
    RunKeeps(Start(disk), events);
    RunDrained(Start(disk), events);
    var s := Runs(Start(disk), events);
    assert s.next <= |s.tasks|;
    if s.workers != [] { assert s.workers[0] in s.workers; }
  }

  function Sizes(blobs: seq<Blob>): nat {
    if blobs == [] then 0 else Sizes(blobs[1..]) + blobs[0].size
  }

  // ---- The byte counter ----------------------------------------------------------------------------

  /** The ranges file is replaced, or cannot be, for this range of this layer, received in full. */
  predicate MarksRange(s: Fetch, e: Event, digest: Bytes, index: nat, well: bool) {
    && e.By? && (if well then e.act.Mark? else e.act.MarkFails?) && Full(s, e.w)
    && s.workers[e.w].task.blob.digest == digest && s.workers[e.w].task.index == index
  }

  ghost predicate MarkedLater(s: Fetch, events: seq<Event>, digest: Bytes, index: nat)
    decreases |events|
  {
    events != [] &&
    (MarksRange(s, events[0], digest, index, true) || MarkedLater(Next(s, events[0]), events[1..], digest, index))
  }

  /** Some write of the ranges file fails for this range, and none for it succeeds after that. */
  ghost predicate MarkIsLost(s: Fetch, events: seq<Event>, digest: Bytes, index: nat)
    decreases |events|
  {
    events != [] &&
    var t := Next(s, events[0]);
    (MarksRange(s, events[0], digest, index, false) && !MarkedLater(t, events[1..], digest, index)) ||
    MarkIsLost(t, events[1..], digest, index)
  }

  ghost predicate NoMarkIsLost(s: Fetch, events: seq<Event>) {
    forall digest: Bytes, index: nat :: !MarkIsLost(s, events, digest, index)
  }

  /** Held as finished, and the counter was not told of it for good. */
  predicate Uncounted(s: Fetch, digest: Bytes, index: nat) {
    && digest in s.marked && index in s.marked[digest]
    && !(digest in s.credited && index in s.credited[digest])
  }

  lemma MarkCounts(s: Fetch, w: nat, digest: Bytes, index: nat)
    requires Full(s, w)
    ensures var t := s.workers[w].task;
      Uncounted(MarkedBy(s, w), digest, index) <==>
      Uncounted(s, digest, index) && !(t.blob.digest == digest && t.index == index)
  {
    hide FilesOf, Length, Count, Proper;
  }

  lemma HeldUncounted(s: Fetch, t: Task, digest: Bytes, index: nat)
    requires t.blob.digest in s.marked && !Credited(s.credited, t)
    ensures Uncounted(Held(s, t), digest, index) <==>
      (t.blob.digest == digest && t.index == index) || Uncounted(s, digest, index)
  {
  }

  lemma SameUncounted(s: Fetch, t: Fetch, digest: Bytes, index: nat)
    requires t.marked == s.marked && t.credited == s.credited
    ensures Uncounted(t, digest, index) <==> Uncounted(s, digest, index)
  {
  }

  lemma MarkActs(s: Fetch, w: nat, reported: bool)
    requires w < |s.workers| && s.workers[w].Fetching?
    ensures Worked(s, w, Mark) == if Full(s, w) then MarkedBy(s, w) else s
    ensures !Full(s, w) ==> Worked(s, w, MarkFails(reported)) == s
    ensures Full(s, w) ==>
      && Worked(s, w, MarkFails(reported)).marked == Held(s, s.workers[w].task).marked
      && Worked(s, w, MarkFails(reported)).credited == Held(s, s.workers[w].task).credited
  {
    hide MarkedBy, Held;
  }

  lemma OtherActsAside(s: Fetch, w: nat, act: Act)
    requires w < |s.workers| && s.workers[w].Fetching? && !act.Mark? && !act.MarkFails?
    ensures Worked(s, w, act).marked == s.marked && Worked(s, w, act).credited == s.credited
  {
    hide Written, FilesOf, First;
  }

  lemma ActUncounted(s: Fetch, w: nat, act: Act, digest: Bytes, index: nat)
    requires Pool(s) && w < |s.workers| && s.workers[w].Fetching?
    ensures Uncounted(Worked(s, w, act), digest, index) <==>
      MarksRange(s, By(w, act), digest, index, false) ||
      (Uncounted(s, digest, index) && !MarksRange(s, By(w, act), digest, index, true))
  {
    hide Full, Uncounted, MarkedBy, Held, Worked;
    match act
    case Mark =>
      if Full(s, w) { MarkCounts(s, w, digest, index); }
      MarkActs(s, w, true);
    case MarkFails(reported) =>
      if Full(s, w) {
        TaskKnown(s, w);
        HeldUncounted(s, s.workers[w].task, digest, index);
        MarkActs(s, w, reported);
        SameUncounted(Held(s, s.workers[w].task), Worked(s, w, act), digest, index);
      } else {
        MarkActs(s, w, reported);
      }
    case _ =>
      hide Pool;
      OtherActsAside(s, w, act);
      SameUncounted(s, Worked(s, w, act), digest, index);
  }

  lemma StepUncounted(s: Fetch, e: Event, digest: Bytes, index: nat)
    requires Pool(s) && !e.Restart?
    ensures Uncounted(Next(s, e), digest, index) <==>
      MarksRange(s, e, digest, index, false) ||
      (Uncounted(s, digest, index) && !MarksRange(s, e, digest, index, true))
  {
    match e
    case By(w, act) =>
      hide Pool, Worked;
      if w < |s.workers| && s.workers[w].Fetching? { ActUncounted(s, w, act, digest, index); }
    case On(blob, stage) =>
      hide Pool, Worked, Marked, Missing, Usable, All, Zeros;
      StageUncounted(s, blob, stage, digest, index);
    case _ => hide Pool, Worked;
  }

  /** A layer enters with all its finished ranges counted. */
  lemma StageUncounted(s: Fetch, blob: Blob, stage: Stage, digest: Bytes, index: nat)
    ensures Uncounted(Staged(s, blob, stage), digest, index) <==>
      Uncounted(s, digest, index)
  {
    hide Marked, Missing, Usable, All, Zeros, FilesOf;
  }

  lemma {:induction false} UncountedExactly(s: Fetch, events: seq<Event>, digest: Bytes, index: nat)
    requires Pool(s) && forall e <- events :: !e.Restart?
    ensures Uncounted(Runs(s, events), digest, index) <==>
      MarkIsLost(s, events, digest, index) ||
      (Uncounted(s, digest, index) && !MarkedLater(s, events, digest, index))
    decreases |events|
  {
    hide Pool, Next, Uncounted, MarksRange;
    if events != [] {
      StepKeeps(s, events[0]);
      StepUncounted(s, events[0], digest, index);
      OneWrite(s, events[0], digest, index);
      UncountedExactly(Next(s, events[0]), events[1..], digest, index);
    }
  }

  lemma OneWrite(s: Fetch, e: Event, digest: Bytes, index: nat)
    ensures !(MarksRange(s, e, digest, index, true) && MarksRange(s, e, digest, index, false))
  {
  }

  /**
   * At every moment of one process, over whatever earlier ones left and whatever
   * failed or paused: the counter is the bytes of the finished ranges and of those being
   * received, less the ranges whose mark was lost, plus what ending workers left counted.
   */
  lemma {:induction false} CounterBalances(disk: Disk, events: seq<Event>)
    requires forall e <- events :: !e.Restart?
    ensures var s := Runs(Start(disk), events);
      && (forall b <- s.prepared :: b.digest in s.marked)
      && s.counter + Total(s.prepared, LostMarks(disk, events)) ==
           Total(s.prepared, s.marked) + Received(s.workers) + StrandedIn(Start(disk), events)
      && (Total(s.prepared, LostMarks(disk, events)) == 0 <==> NoMarkIsLost(Start(disk), events))
  {
    PoolStarts(disk);
    RunKeeps(Start(disk), events);
    var s := Runs(Start(disk), events);
    LostExactly(disk, events);
    StrandedExactly(Start(disk), events);
    CounterTells(s, LostMarks(disk, events));
    hide Runs, Pool, LostMarks, StrandedIn;
    if digest, index :| Uncounted(s, digest, index) {
      UncountedExactly(Start(disk), events, digest, index);
    } else if digest: Bytes, index: nat :| MarkIsLost(Start(disk), events, digest, index) {
      UncountedExactly(Start(disk), events, digest, index);
    }
  }

  /** The ranges of each layer whose mark was lost. */
  ghost function LostMarks(disk: Disk, events: seq<Event>): Ranges {
    var marked := Runs(Start(disk), events).marked;
    map digest <- marked :: set index <- marked[digest] | MarkIsLost(Start(disk), events, digest, index)
  }

  lemma LostExactly(disk: Disk, events: seq<Event>)
    requires forall e <- events :: !e.Restart?
    ensures var s := Runs(Start(disk), events);
      && LostMarks(disk, events).Keys == s.marked.Keys
      && forall d <- s.marked, i: nat :: i in LostMarks(disk, events)[d] <==> Uncounted(s, d, i)
  {
    PoolStarts(disk);
    hide Pool, Runs;
    var s := Runs(Start(disk), events);
    forall d, i: nat | d in s.marked ensures i in LostMarks(disk, events)[d] <==> Uncounted(s, d, i) {
      UncountedExactly(Start(disk), events, d, i);
    }
  }

  lemma CounterTells(s: Fetch, lost: Ranges)
    requires Pool(s) && lost.Keys == s.marked.Keys
    requires forall d <- s.marked, i: nat :: i in lost[d] <==> Uncounted(s, d, i)
    ensures (forall b <- s.prepared :: b.digest in s.marked)
    ensures s.counter + Total(s.prepared, lost) == Total(s.prepared, s.marked) + Received(s.workers) + s.stranded
    ensures Total(s.prepared, lost) == 0 <==> !exists digest: Bytes, index: nat :: Uncounted(s, digest, index)
  {
    hide Queue, Shares, Accounted, Covered, Received, All;
    forall b | b in s.prepared ensures lost[b.digest] == s.marked[b.digest] - s.credited[b.digest] {
      assert forall i: nat :: i in lost[b.digest] <==> Uncounted(s, b.digest, i);
    }
    hide Uncounted;
    TotalSplits(s.prepared, s.marked, s.credited, lost);
    LessCounted(s.prepared, s.credited, s.marked);
    assert s.counter - s.stranded == Total(s.prepared, s.credited) + Received(s.workers);
    hide Total;
    AllCounted(s);
  }

  lemma {:induction false} TotalSplits(prepared: seq<Blob>, marked: Ranges, credited: Ranges, rest: Ranges)
    requires forall b <- prepared :: b.digest in marked && b.digest in credited && b.digest in rest
    requires forall b <- prepared :: credited[b.digest] <= marked[b.digest] && rest[b.digest] == marked[b.digest] - credited[b.digest]
    ensures Total(prepared, marked) == Total(prepared, credited) + Total(prepared, rest)
    decreases |prepared|
  {
    if prepared != [] {
      var b := prepared[0];
      TotalSplits(prepared[1..], marked, credited, rest);
      SizeSplits(b.size, marked[b.digest], credited[b.digest], Count(b.size));
    }
  }

  lemma {:induction false} SizeSplits(size: nat, more: set<nat>, some: set<nat>, upTo: nat)
    requires upTo <= Count(size) && some <= more
    ensures SizeOf(size, more, upTo) == SizeOf(size, some, upTo) + SizeOf(size, more - some, upTo)
    decreases upTo
  {
    if upTo > 0 { SizeSplits(size, more, some, upTo - 1); }
  }

  // ---- What ending workers leave counted ---------------------------------------------------------

  /** An error that no handler is for, with bytes received and not taken back. */
  function Leaves(s: Fetch, e: Event): nat {
    if e.By? && e.act == Escape(false) && e.w < |s.workers| then Carried(s.workers[e.w]) else 0
  }

  function StrandedIn(s: Fetch, events: seq<Event>): nat
    decreases |events|
  {
    if events == [] then 0 else Leaves(s, events[0]) + StrandedIn(Next(s, events[0]), events[1..])
  }

  lemma StepStrands(s: Fetch, e: Event)
    requires !e.Restart?
    ensures Next(s, e).stranded == s.stranded + Leaves(s, e)
  {
    match e
    case By(w, act) => hide Written, FilesOf, First, Full;
    case On(blob, stage) => hide Marked, Missing, Usable, All, Zeros, FilesOf;
    case _ =>
  }

  lemma {:induction false} StrandedExactly(s: Fetch, events: seq<Event>)
    requires forall e <- events :: !e.Restart?
    ensures Runs(s, events).stranded == s.stranded + StrandedIn(s, events)
    decreases |events|
  {
    hide Next, Leaves;
    if events != [] {
      StepStrands(s, events[0]);
      StrandedExactly(Next(s, events[0]), events[1..]);
    }
  }

  predicate TakesBack(e: Event) { !(e.By? && e.act == Escape(false)) }

  lemma {:induction false} NothingIsStranded(s: Fetch, events: seq<Event>)
    requires forall e <- events :: TakesBack(e)
    ensures StrandedIn(s, events) == 0
    decreases |events|
  {
    hide Next;
    if events != [] {
      assert TakesBack(events[0]);
      NothingIsStranded(Next(s, events[0]), events[1..]);
    }
  }

  /**
   * So it is exact if and only if the lost marks and the bytes left counted come to the same; and while no worker
   * ends leaving bytes counted, it is never too high, and exact if and only if no mark is lost.
   */
  lemma CounterIsExactWhen(disk: Disk, events: seq<Event>)
    requires forall e <- events :: !e.Restart?
    ensures var s := Runs(Start(disk), events);
      (forall b <- s.prepared :: b.digest in s.marked) &&
      var truth := Total(s.prepared, s.marked) + Received(s.workers);
      && (s.counter == truth <==> Total(s.prepared, LostMarks(disk, events)) == StrandedIn(Start(disk), events))
      && ((forall e <- events :: TakesBack(e)) ==>
            s.counter <= truth && (s.counter == truth <==> NoMarkIsLost(Start(disk), events)))
  {
    CounterBalances(disk, events);
    hide Runs, NoMarkIsLost, LostMarks;
    if forall e <- events :: TakesBack(e) { NothingIsStranded(Start(disk), events); }
  }

  lemma AllCounted(s: Fetch)
    requires Pool(s)
    ensures (forall b <- s.prepared :: s.credited[b.digest] == s.marked[b.digest]) <==>
            !exists digest: Bytes, index: nat :: Uncounted(s, digest, index)
  {
    hide Queue, Shares, Accounted, Covered, Balanced, All;
    if !exists digest: Bytes, index: nat :: Uncounted(s, digest, index) {
      forall b | b in s.prepared ensures s.credited[b.digest] == s.marked[b.digest] {
        assert forall i <- s.marked[b.digest] :: !Uncounted(s, b.digest, i);
      }
    }
  }

  predicate WritesMarks(e: Event) { !(e.By? && e.act.MarkFails?) }

  lemma {:induction false} WrittenMarkIsKept(s: Fetch, events: seq<Event>, digest: Bytes, index: nat)
    requires forall e <- events :: WritesMarks(e)
    ensures !MarkIsLost(s, events, digest, index)
    decreases |events|
  {
    if events != [] {
      assert WritesMarks(events[0]);
      WrittenMarkIsKept(Next(s, events[0]), events[1..], digest, index);
    }
  }

  lemma NothingIsLost(s: Fetch, events: seq<Event>)
    requires forall e <- events :: WritesMarks(e)
    ensures NoMarkIsLost(s, events)
  {
    forall digest: Bytes, index: nat ensures !MarkIsLost(s, events, digest, index) {
      WrittenMarkIsKept(s, events, digest, index);
    }
  }

  /** While no write of a ranges file and no report of progress fails, the counter is exact at every moment. */
  lemma CounterIsExact(disk: Disk, events: seq<Event>)
    requires forall e <- events :: !e.Restart? && WritesMarks(e) && TakesBack(e)
    ensures var s := Runs(Start(disk), events);
      (forall b <- s.prepared :: b.digest in s.marked) &&
      s.counter == Total(s.prepared, s.marked) + Received(s.workers)
  {
    NothingIsLost(Start(disk), events);
    hide NoMarkIsLost;
    CounterIsExactWhen(disk, events);
  }

  lemma {:induction false} LessCounted(prepared: seq<Blob>, credited: Ranges, marked: Ranges)
    requires forall b <- prepared :: b.digest in credited && b.digest in marked
    requires forall b <- prepared :: credited[b.digest] <= marked[b.digest] <= All(b.size)
    ensures Total(prepared, credited) <= Total(prepared, marked)
    ensures Total(prepared, credited) == Total(prepared, marked) <==>
      forall b <- prepared :: credited[b.digest] == marked[b.digest]
    decreases |prepared|
  {
    if prepared != [] {
      var b := prepared[0];
      LessCounted(prepared[1..], credited, marked);
      FewerBytes(b.size, credited[b.digest], marked[b.digest], Count(b.size));
    }
  }

  /** When the pool ends well, every range is finished and the counter shows the whole size. */
  lemma {:induction false} CompleteMeansAllBytes(disk: Disk, events: seq<Event>)
    requires Completed(Runs(Start(disk), events))
    ensures var s := Runs(Start(disk), events);
      && s.counter == Sizes(s.prepared)
      && (forall b <- s.prepared :: b.digest in s.marked && s.marked[b.digest] == All(b.size))
  {
    PoolStarts(disk);
    RunKeeps(Start(disk), events);
    CompletedIsDrained(disk, events);
    hide Runs, Pool;
    WholeIsCounted(Runs(Start(disk), events));
  }

  lemma WholeIsCounted(s: Fetch)
    requires Pool(s) && s.failure.None? && s.next == |s.tasks| && forall x <- s.workers :: !x.Fetching?
    ensures s.counter == Sizes(s.prepared)
    ensures forall b <- s.prepared :: b.digest in s.marked && s.marked[b.digest] == All(b.size)
  {
    DrainedIsFinished(s);
    NothingCarried(s.workers);
    hide Queue, Shares, Accounted, Covered, Layers, Received, Total, All;
    AllCountedIsWhole(s.prepared, s.credited);
  }

  /** With everything handed out, nothing failed and nobody at work, every range is finished. */
  lemma DrainedIsFinished(s: Fetch)
    requires Pool(s) && s.failure.None? && s.next == |s.tasks| && forall x <- s.workers :: !x.Fetching?
    ensures forall b <- s.prepared :: b.digest in s.marked && b.digest in s.credited
    ensures forall b <- s.prepared :: s.credited[b.digest] == s.marked[b.digest] == All(b.size)
  {
    hide Queue, Balanced;
    assert s.tasks[..s.next] == s.tasks;
    forall b, i: nat | b in s.prepared && i < Count(b.size) ensures Credited(s.credited, Task(b, i)) {
    }
    hide Shares, Accounted, Covered;
    forall b | b in s.prepared ensures s.credited[b.digest] == s.marked[b.digest] == All(b.size) {
      forall i | i in All(b.size) ensures i in s.credited[b.digest] {
        assert Credited(s.credited, Task(b, i));
      }
    }
  }

  lemma {:induction false} AllCountedIsWhole(prepared: seq<Blob>, done: Ranges)
    requires forall b <- prepared :: b.digest in done && done[b.digest] == All(b.size)
    ensures Total(prepared, done) == Sizes(prepared)
    decreases |prepared|
  {
    if prepared != [] {
      AllCountedIsWhole(prepared[1..], done);
      AllRanges(prepared[0].size, done[prepared[0].digest], Count(prepared[0].size));
    }
  }

  /** A failed write, at whichever attempt, leaves the range held as finished and not counted. */
  lemma LostMarkIsNotCounted(s: Fetch, w: nat, reported: bool)
    requires Pool(s) && Full(s, w)
    ensures var t, m := s.workers[w].task, Next(s, By(w, MarkFails(reported)));
      && t.index in m.marked[t.blob.digest] && !Credited(m.credited, t)
      && m.counter == s.counter - Length(t.blob.size, t.index)
      && (m.workers[w].Exited? <==> !reported || s.workers[w].attempt + 1 >= RETRIES)
  {
    TaskKnown(s, w);
  }

  // ---- A run in which a mark is lost -------------------------------------------------------------------

  const TINY := Blob([0], 1)

  /** One process, over an empty cache, leads here. */
  ghost predicate Reached(s: Fetch) {
    exists events: seq<Event> :: s == Runs(Start(map[]), events) && forall e <- events :: !e.Restart?
  }

  lemma ReachedNext(s: Fetch, e: Event)
    requires Reached(s) && !e.Restart?
    ensures Reached(Next(s, e))
  {
    hide Next;
    var events: seq<Event> :| s == Runs(Start(map[]), events) && forall e <- events :: !e.Restart?;
    RunsOne(Start(map[]), events, e);
    assert Next(s, e) == Runs(Start(map[]), events + [e]);
  }

  const FRESH := Files(None, Some([0]), None)

  function Tiny(workers: seq<Worker>, next: nat, marked: set<nat>, counter: int, failure: Option<Failure>, stop: bool): Fetch {
    Fetch(map[[0] := FRESH], [TINY], map[[0] := marked], map[[0] := {}], [Task(TINY, 0)], next, workers, counter, 0,
          failure, stop)
  }

  lemma TinyFacts()
    ensures Count(1) == 1 && Length(1, 0) == 1 && First(0) == 0
    ensures Missing(TINY, {}, 1) == [Task(TINY, 0)] && Marked(1, {}) == 0 && Marked(1, {0}) == 1
    ensures Usable(TINY, FRESH) == {} && Zeros(1) == [0] && Written([0], 0, [0]) == [0]
  {
    assert Missing(TINY, {}, 0) == [] && SizeOf(1, {}, 0) == 0 && SizeOf(1, {0}, 0) == 0;
  }

  lemma TinyPrepared()
    ensures Reached(Tiny([], 0, {}, 0, None, false))
  {
    TinyFacts();
    assert Reached(Start(map[])) by { assert Runs(Start(map[]), []) == Start(map[]); }
    hide Reached, Missing, Marked, Usable, Zeros, Count;
    var s1 := Next(Start(map[]), On(TINY, OpenPart));
    ReachedNext(Start(map[]), On(TINY, OpenPart));
    assert s1 == Start(map[[0] := Files(None, Some([]), None)]);
    var s2 := Next(s1, On(TINY, SizePart));
    ReachedNext(s1, On(TINY, SizePart));
    assert s2 == Start(map[[0] := FRESH]);
    ReachedNext(s2, On(TINY, Adopt));
    assert Next(s2, On(TINY, Adopt)) == Prepared(s2, TINY, {}, [Task(TINY, 0)]);
  }

  lemma TinyReceived()
    ensures Reached(Tiny([Fetching(Task(TINY, 0), 1, 0)], 1, {}, 1, None, false))
  {
    TinyPrepared();
    TinyFacts();
    hide Reached, Length, Count, First, Zeros, Written;
    var s1 := Tiny([], 0, {}, 0, None, false);
    ReachedNext(s1, Grow(1));
    var s2 := Tiny([Idle], 0, {}, 0, None, false);
    assert Next(s1, Grow(1)) == s2;
    ReachedNext(s2, By(0, Take));
    var s3 := Tiny([Fetching(Task(TINY, 0), 0, 0)], 1, {}, 0, None, false);
    assert Next(s2, By(0, Take)) == s3;
    ReachedNext(s3, By(0, Receive([0])));
    assert s3.workers[0] == Fetching(Task(TINY, 0), 0, 0) && FilesOf(s3.disk, [0]) == FRESH;
    assert Wrote(s3, 0, [0]).disk == s3.disk;
    assert Wrote(s3, 0, [0]).workers == [Fetching(Task(TINY, 0), 1, 0)];
    assert Wrote(s3, 0, [0]) == Tiny([Fetching(Task(TINY, 0), 1, 0)], 1, {}, 1, None, false);
  }

  /** The one range's mark cannot be written, and then the owner pauses: it is held as finished, and never counted. */
  lemma AMarkIsLost() returns (s: Fetch)
    ensures Reached(s) && Still(s) && s.prepared == [TINY] && s.marked == map[[0] := {0}]
    ensures s.counter == 0 && Total(s.prepared, s.marked) == 1
  {
    TinyReceived();
    TinyFacts();
    hide Reached, Length, Count, First, Marked;
    var s1 := Tiny([Fetching(Task(TINY, 0), 1, 0)], 1, {}, 1, None, false);
    ReachedNext(s1, By(0, MarkFails(true)));
    var s2 := Tiny([Fetching(Task(TINY, 0), 0, 1)], 1, {0}, 0, None, false);
    assert Full(s1, 0) && {} + {0} == {0} && Held(s1, Task(TINY, 0)).marked == s2.marked;
    assert Next(s1, By(0, MarkFails(true))) == s2;
    ReachedNext(s2, RequestStop);
    var s3 := s2.(stop := true);
    ReachedNext(s3, By(0, Interrupt));
    s := Next(s3, By(0, Interrupt));
    assert s == Tiny([Exited], 1, {0}, 0, Some(Paused), true);
    assert [TINY][1..] == [];
  }

  /** Progress cannot be reported after the one byte came: it stays counted, though nothing is finished. */
  lemma BytesAreLeftCounted() returns (s: Fetch)
    ensures Reached(s) && Still(s) && s.prepared == [TINY] && s.marked == map[[0] := {}]
    ensures s.counter == 1 && Total(s.prepared, s.marked) == 0
  {
    TinyReceived();
    TinyFacts();
    hide Reached, Length, Count, First, Marked, Full, FilesOf, Written, Retries, MarkedBy;
    var s1 := Tiny([Fetching(Task(TINY, 0), 1, 0)], 1, {}, 1, None, false);
    ReachedNext(s1, By(0, Escape(false)));
    s := Next(s1, By(0, Escape(false)));
    assert s == Tiny([Exited], 1, {}, 1, Some(Unhandled), false).(stranded := 1);
    assert [TINY][1..] == [];
  }

  // ---- Who fetches what ------------------------------------------------------------------------------

  /** The range a step hands to a worker. */
  function Handed(s: Fetch, e: Event): seq<Task> {
    if e.By? && e.act.Take? && e.w < |s.workers| && s.workers[e.w].Idle? && s.next < |s.tasks| && s.failure.None? then
      [s.tasks[s.next]]
    else []
  }

  function HandedIn(s: Fetch, events: seq<Event>): seq<Task>
    decreases |events|
  {
    if events == [] then [] else Handed(s, events[0]) + HandedIn(Next(s, events[0]), events[1..])
  }

  /**
   * Under every interleaving of one process the ranges handed out are the
   * missing ones in order, each at most once; all of them once the pool ended well.
   */
  lemma EachRangeOnce(disk: Disk, events: seq<Event>)
    requires forall e <- events :: !e.Restart?
    ensures var s, handed := Runs(Start(disk), events), HandedIn(Start(disk), events);
      && s.next <= |s.tasks| && handed == s.tasks[..s.next]
      && (forall i, j :: 0 <= i < j < |handed| ==> handed[i] != handed[j])
      && (Completed(s) ==> handed == s.tasks)
  {
    PoolStarts(disk);
    hide Runs, HandedIn, Pool;
    RunKeeps(Start(disk), events);
    HandedInOrder(Start(disk), events);
    var s := Runs(Start(disk), events);
    if Completed(s) { CompletedIsDrained(disk, events); }
    hide Completed;
    TasksDiffer(s);
    assert HandedIn(Start(disk), events) == s.tasks[..s.next];
  }

  lemma TasksDiffer(s: Fetch)
    requires Pool(s)
    ensures s.next <= |s.tasks| && forall i, j :: 0 <= i < j < |s.tasks| ==> s.tasks[i] != s.tasks[j]
  {
    hide Layers, Shares, Accounted, Covered, Balanced;
  }

  lemma {:induction false} HandedInOrder(s: Fetch, events: seq<Event>)
    requires Pool(s) && forall e <- events :: !e.Restart?
    ensures var t := Runs(s, events);
      s.tasks <= t.tasks && s.next <= t.next <= |t.tasks| && HandedIn(s, events) == t.tasks[s.next..t.next]
    decreases |events|
  {
    assert s.next <= |s.tasks|;
    hide Pool, Next, Handed;
    if events == [] {
    } else {
      StepKeeps(s, events[0]);
      var m := Next(s, events[0]);
      TasksGrow(s, events[0]);
      HandedInOrder(m, events[1..]);
      JoinSlices(m.tasks, Runs(s, events).tasks, s.next, m.next, Runs(s, events).next);
    }
  }

  lemma JoinSlices(some: seq<Task>, more: seq<Task>, a: nat, b: nat, c: nat)
    requires some <= more && a <= b <= |some| && b <= c <= |more|
    ensures some[a..b] + more[b..c] == more[a..c]
  {
  }

  lemma {:induction false} TasksGrow(s: Fetch, e: Event)
    requires Pool(s) && !e.Restart?
    ensures var m := Next(s, e);
      && s.tasks <= m.tasks && s.next <= m.next <= |m.tasks| && Handed(s, e) == m.tasks[s.next..m.next]
      && forall t :: Credited(s.credited, t) ==> Credited(m.credited, t)
  {
    match e
    case By(w, act) =>
      assert s.next <= |s.tasks|;
      hide Pool, Worked;
      if w < |s.workers| && s.workers[w].Fetching? { ActGrows(s, w, act); }
    case On(blob, stage) =>
      StageGrows(s, blob, stage);
    case _ =>
  }

  lemma StageGrows(s: Fetch, blob: Blob, stage: Stage)
    requires Pool(s)
    ensures var m := Staged(s, blob, stage);
      && s.tasks <= m.tasks && m.next == s.next <= |s.tasks|
      && forall t :: Credited(s.credited, t) ==> Credited(m.credited, t)
  {
    hide Queue, Shares, Accounted, Covered, Balanced, Marked, Missing, Usable;
  }

  lemma {:induction false} ActGrows(s: Fetch, w: nat, act: Act)
    requires Pool(s) && w < |s.workers| && s.workers[w].Fetching?
    ensures var m := Worked(s, w, act);
      && m.tasks == s.tasks && m.next == s.next
      && forall t :: Credited(s.credited, t) ==> Credited(m.credited, t)
  {
    hide Pool, Written;
  }

  /** A range that is finished, in this process or before it, is not fetched again. */
  lemma {:induction false} FinishedIsNotRefetched(s: Fetch, events: seq<Event>, t: Task)
    requires Pool(s) && Credited(s.credited, t) && forall e <- events :: !e.Restart?
    ensures t !in HandedIn(s, events)
    decreases |events|
  {
    if events != [] {
      StepKeeps(s, events[0]);
      TasksGrow(s, events[0]);
      assert Handed(s, events[0]) != [] ==> s.tasks[s.next] in s.tasks[s.next..];
      hide Next;
      FinishedIsNotRefetched(Next(s, events[0]), events[1..], t);
    }
  }

  /** Resuming a layer takes over exactly its recorded ranges and asks for exactly the others. */
  lemma ResumeTakesOver(s: Fetch, blob: Blob, i: nat)
    requires Pool(s) && Enters(s, blob) && i < Count(blob.size)
    requires var files := FilesOf(s.disk, blob.digest); files.whole.None? && files.part.Some?
    ensures var m, recorded := Next(s, On(blob, Adopt)), Recorded(FilesOf(s.disk, blob.digest));
      && (i in recorded ==> Credited(m.credited, Task(blob, i)) && Task(blob, i) !in m.tasks)
      && (i !in recorded ==> !Credited(m.credited, Task(blob, i)) && Task(blob, i) in m.tasks[s.next..])
  {
    var done := Usable(blob, FilesOf(s.disk, blob.digest));
    var missing := Missing(blob, done, Count(blob.size));
    var m := Next(s, On(blob, Adopt));
    assert m.tasks == s.tasks + missing;
    assert forall b <- s.prepared :: b.digest != blob.digest;
    assert m.tasks[s.next..] == s.tasks[s.next..] + missing;
    if i !in done { assert Task(blob, i) in missing; }
    hide Shares, Accounted, Covered, Balanced, Marked, Missing;
  }
}
