/** The downloader as its methods run: one layer prepared, one range fetched, one layer checked. */
module Downloading {
  import opened Wrappers
  import opened ImageFetch

  /** One piece of a body, and whether progress could be reported then; the owner may have asked to pause before it. */
  datatype Part = Data(data: Bytes, told: bool) | PausedFirst

  /**
   * How the registry answers one request: not at all, or with a body that may break off. `recorded` says
   * that the ranges file could be written, `reported` that progress could be when the bytes were taken back.
   */
  datatype Reply =
    | Unusable(reported: bool)
    | Body(ranged: bool, parts: seq<Part>, breaks: bool, recorded: bool, reported: bool)

  /** How an attempt ends; in the last case with bytes that nobody takes back. */
  datatype Try = Done | TryNext | GaveUp(failure: Failure) | Escaped(kept: nat)

  datatype Flow = Going | Stopping | Untold

  // ---- What an answer brings -------------------------------------------------------------

  /** The first pieces came, each with its progress reported. */
  predicate Told(parts: seq<Part>, n: nat)
    requires n <= |parts|
  {
    forall i :: 0 <= i < n ==> parts[i].Data? && parts[i].told
  }

  predicate Pauses(parts: seq<Part>) { exists i: nat :: i < |parts| && parts[i].PausedFirst? && Told(parts, i) }

  predicate LeftUntold(parts: seq<Part>) { exists i: nat :: i < |parts| && parts[i].Data? && !parts[i].told && Told(parts, i) }

  function Joined(parts: seq<Part>, n: nat): Bytes
    requires n <= |parts|
  {
    if n == 0 then [] else Joined(parts, n - 1) + if parts[n - 1].Data? then parts[n - 1].data else []
  }

  /** A whole layer instead of a range will do only when it is no longer than a range. */
  predicate Accepted(t: Task, reply: Reply) { reply.Body? && (reply.ranged || t.blob.size <= CHUNK) }

  /** The whole range, unbroken, and its mark written. */
  predicate Brings(t: Task, reply: Reply)
    requires Proper(t)
  {
    && Accepted(t, reply) && Told(reply.parts, |reply.parts|) && !reply.breaks
    && |Joined(reply.parts, |reply.parts|)| == Length(t.blob.size, t.index) && reply.recorded
  }

  /** An answer after which another try may bring it. */
  predicate LeavesHope(t: Task, reply: Reply)
    requires Proper(t)
  {
    reply.Body? ==>
      && Accepted(t, reply) && Told(reply.parts, |reply.parts|)
      && (reply.breaks || |Joined(reply.parts, |reply.parts|)| != Length(t.blob.size, t.index) || !reply.recorded)
  }

  function ReplyAt(replies: seq<Reply>, k: nat): Reply { if k < |replies| then replies[k] else Unusable(true) }

  /** After each of the first answers another try may bring it, and progress could be reported. */
  predicate AllLeaveHope(t: Task, replies: seq<Reply>, n: nat)
    requires Proper(t)
  {
    forall j: nat :: j < n ==> LeavesHope(t, ReplyAt(replies, j)) && ReplyAt(replies, j).reported
  }

  /** The attempts end at one that does not bring the range, and none before it did. */
  lemma NoneBrings(t: Task, replies: seq<Reply>, n: nat)
    requires Proper(t) && AllLeaveHope(t, replies, n) && !Brings(t, ReplyAt(replies, n))
    requires LeavesHope(t, ReplyAt(replies, n)) && ReplyAt(replies, n).reported ==> n + 1 >= 6
    ensures !exists k: nat :: k < 6 && Brings(t, ReplyAt(replies, k)) && AllLeaveHope(t, replies, k)
  {
    forall k: nat ensures !(k < 6 && Brings(t, ReplyAt(replies, k)) && AllLeaveHope(t, replies, k)) {
      OneOfTwo(t, ReplyAt(replies, k));
      hide Brings, LeavesHope;
      assert k > n && AllLeaveHope(t, replies, k) ==> LeavesHope(t, ReplyAt(replies, n)) && ReplyAt(replies, n).reported;
    }
  }

  lemma OneOfTwo(t: Task, reply: Reply)
    requires Proper(t)
    ensures !(Brings(t, reply) && LeavesHope(t, reply))
  {
  }

  lemma OnePiece(parts: seq<Part>, n: nat)
    requires n < |parts|
    ensures Told(parts, n + 1) <==> Told(parts, n) && parts[n].Data? && parts[n].told
    ensures parts[n].Data? ==> Joined(parts, n + 1) == Joined(parts, n) + parts[n].data
  {
  }

  /** At most one thing ends a body early. */
  lemma FirstStop(parts: seq<Part>, n: nat)
    requires n < |parts| && Told(parts, n) && !(parts[n].Data? && parts[n].told)
    ensures !Told(parts, |parts|) && (Pauses(parts) <==> parts[n].PausedFirst?) && (LeftUntold(parts) <==> parts[n].Data?)
  {
  }

  lemma NoStop(parts: seq<Part>)
    requires Told(parts, |parts|)
    ensures !Pauses(parts) && !LeftUntold(parts)
  {
  }

  class Downloader {
    var disk: Disk
    var prepared: seq<Blob>
    var marked: map<Bytes, set<nat>>
    ghost var credited: map<Bytes, set<nat>>
    var tasks: seq<Task>
    ghost var next: nat
    ghost var workers: seq<Worker>
    var counter: int
    ghost var stranded: nat
    var failure: Option<Failure>
    var stop: bool

    ghost function Value(): Fetch
      reads this
    {
      Fetch(disk, prepared, marked, credited, tasks, next, workers, counter, stranded, failure, stop)
    }

    /** Takes over what an earlier attempt finished; an unusable rest is started afresh. */
    method Prepare(blob: Blob) returns (ghost steps: seq<Event>)
      requires blob.digest !in marked && workers == []
      modifies this
      ensures Value() == Runs(old(Value()), steps) && (forall e <- steps :: e.On? && e.blob == blob)
      ensures blob.digest in marked && prepared == old(prepared) + [blob]
      ensures counter == old(counter) + Marked(blob.size, marked[blob.digest])
      ensures marked[blob.digest] ==
        if old(FilesOf(disk, blob.digest)).whole.Some? then All(blob.size)
        else if old(FilesOf(disk, blob.digest)).part.Some? then Usable(blob, old(FilesOf(disk, blob.digest)))
        else {}
      ensures tasks == old(tasks) + Missing(blob, marked[blob.digest], Count(blob.size))
    {
      hide Next, Missing, Marked, Runs, Prepared, Zeros, Below;
      ghost var before := Value();
      EntryStep(before, blob);
      RunsOne(before, [], On(blob, FindWhole));
      var files := FilesOf(disk, blob.digest);
      if files.whole.Some? {
        NoneMissing(blob, Count(blob.size));
        Enter(blob, All(blob.size), []);
        return [] + [On(blob, FindWhole)];
      }
      var done := if files.part.Some? then Usable(blob, files) else {};
      steps := [];
      if files.part.None? { steps := OpenFresh(blob); }
      ghost var ready := Value();
      EntryStep(ready, blob);
      assert ready == Runs(before, steps) && Usable(blob, FilesOf(disk, blob.digest)) == done;
      RunsOne(before, steps, On(blob, Adopt));
      steps := steps + [On(blob, Adopt)];
      hide FilesOf, Usable;
      Enter(blob, done, Missing(blob, done, Count(blob.size)));
    }

    /** An empty part file of the right size, and no ranges. */
    method OpenFresh(blob: Blob) returns (ghost steps: seq<Event>)
      requires blob.digest !in marked && FilesOf(disk, blob.digest).part.None? && FilesOf(disk, blob.digest).whole.None?
      modifies this`disk
      ensures Value() == Runs(old(Value()), steps) && (forall e <- steps :: e.On? && e.blob == blob)
      ensures FilesOf(disk, blob.digest) == Files(None, Some(Zeros(blob.size)), None)
    {
      hide Runs, Zeros;
      ghost var before := Value();
      FreshPart(before, blob);
      var files := FilesOf(disk, blob.digest).(ranges := None);
      disk := disk[blob.digest := files];
      files := files.(part := Some([]));
      disk := disk[blob.digest := files];
      files := files.(part := Some(Zeros(blob.size)));
      disk := disk[blob.digest := files];
      assert Value().disk == before.disk[blob.digest := files];
      return [On(blob, DropRanges), On(blob, OpenPart), On(blob, SizePart)];
    }

    /** Its finished ranges are counted, its missing ones queued. */
    method Enter(blob: Blob, done: set<nat>, missing: seq<Task>)
      modifies this`prepared, this`marked, this`credited, this`tasks, this`counter
      ensures Value() == Prepared(old(Value()), blob, done, missing)
      ensures prepared == old(prepared) + [blob] && marked == old(marked)[blob.digest := done]
      ensures tasks == old(tasks) + missing && counter == old(counter) + Marked(blob.size, done)
    {
      prepared, tasks := prepared + [blob], tasks + missing;
      marked, credited := marked[blob.digest := done], credited[blob.digest := done];
      counter := counter + Marked(blob.size, done);
    }

    // ---- One range ------------------------------------------------------------------------

    ghost predicate Fetches(w: nat, t: Task, received: nat, attempt: nat)
      reads this
    {
      && w < |workers| && workers[w] == Worker.Fetching(t, received, attempt)
      && Proper(t) && t.blob.digest in marked && t.blob.digest in credited
      && FilesOf(disk, t.blob.digest).part.Some?
    }

    method GiveUp(w: nat, t: Task, received: nat, ghost attempt: nat, reason: Failure)
      requires Fetches(w, t, received, attempt)
      modifies this`counter, this`failure, this`workers
      ensures Value() == Fails(old(Value()), w, reason) && counter == old(counter) - received
      ensures failure == (if old(failure).Some? then old(failure) else Some(reason)) && workers == old(workers)[w := Exited]
    {
      counter := counter - received;
      if failure.None? { failure := Some(reason); }
      workers := workers[w := Exited];
    }

    /** Nobody takes back what was received. */
    method Leave(w: nat, t: Task, ghost received: nat, ghost attempt: nat)
      requires Fetches(w, t, received, attempt)
      modifies this`stranded, this`failure, this`workers
      ensures Value() == Strands(old(Value()), w) && counter == old(counter) && stranded == old(stranded) + received
      ensures failure == (if old(failure).Some? then old(failure) else Some(Unhandled)) && workers == old(workers)[w := Exited]
    {
      stranded := stranded + received;
      if failure.None? { failure := Some(Unhandled); }
      workers := workers[w := Exited];
    }

    /** The next attempt, unless this was the last or progress could not be reported. */
    method TryAgain(w: nat, t: Task, received: nat, attempt: nat, reported: bool) returns (again: bool)
      requires Fetches(w, t, received, attempt)
      modifies this`counter, this`failure, this`workers
      ensures Value() == if reported then Retries(old(Value()), w) else Fails(old(Value()), w, Unhandled)
      ensures counter == old(counter) - received
      ensures again <==> reported && attempt + 1 < RETRIES
      ensures again ==> Fetches(w, t, 0, attempt + 1)
    {
      again := reported && attempt + 1 < RETRIES;
      if again {
        counter := counter - received;
        workers := workers[w := Worker.Fetching(t, 0, attempt + 1)];
      } else {
        GiveUp(w, t, received, attempt, if reported then FetchError else Unhandled);
      }
    }

    /** Writes one piece behind what was received, and counts it. */
    method WritePiece(w: nat, t: Task, received: nat, attempt: nat, ghost joined: Bytes, data: Bytes)
      requires Fetches(w, t, received, attempt) && !stop && received == |joined| && Holds(t, joined)
      modifies this`disk, this`counter, this`workers
      ensures Value() == Next(old(Value()), By(w, Receive(data))) && Fetches(w, t, received + |data|, attempt)
      ensures counter == old(counter) + |data| && Holds(t, joined + data)
    {
      hide Written;
      ghost var here := Value();
      var files := FilesOf(disk, t.blob.digest);
      WrittenAfter(files.part.value, First(t.index), joined, data);
      disk := disk[t.blob.digest := files.(part := Some(Written(files.part.value, First(t.index) + received, data)))];
      counter := counter + |data|;
      workers := workers[w := Worker.Fetching(t, received + |data|, attempt)];
      PieceStep(here, w, data);
    }

    /** Writes the pieces of one body as they come, until the owner pauses or progress cannot be reported. */
    method ReceiveBody(w: nat, t: Task, attempt: nat, parts: seq<Part>)
      returns (flow: Flow, received: nat, ghost steps: seq<Event>)
      requires Fetches(w, t, 0, attempt) && !stop
      modifies this`disk, this`counter, this`stop, this`workers
      ensures Fetches(w, t, received, attempt) && (flow == Stopping <==> stop)
      ensures Value() == Runs(old(Value()), steps) && counter == old(counter) + received
      ensures forall e <- steps :: OfWorker(e, w)
      ensures (flow == Going <==> Told(parts, |parts|)) && (flow == Stopping <==> Pauses(parts))
      ensures flow == Untold <==> LeftUntold(parts)
      ensures flow == Going ==> received == |Joined(parts, |parts|)| && Holds(t, Joined(parts, |parts|))
    {
      hide Runs, Next, Written, Told, Joined, Pauses, LeftUntold;
      ghost var before := Value();
      RunsNone(before);
      received, steps := 0, [];
      var i := 0;
      NothingYet(parts);
      while i < |parts|
        invariant 0 <= i <= |parts| && !stop && Fetches(w, t, received, attempt)
        invariant Value() == Runs(before, steps) && counter == old(counter) + received
        invariant forall e <- steps :: OfWorker(e, w)
        invariant Told(parts, i) && received == |Joined(parts, i)| && Holds(t, Joined(parts, i))
      {
        ghost var here := Value();
        OnePiece(parts, i);
        if !(parts[i].Data? && parts[i].told) { FirstStop(parts, i); }
        if parts[i].PausedFirst? {
          stop := true;
          RunsOne(before, steps, RequestStop);
          StopStep(here);
          return Stopping, received, steps + [RequestStop];
        }
        var data := parts[i].data;
        WritePiece(w, t, received, attempt, Joined(parts, i), data);
        received := received + |data|;
        RunsOne(before, steps, By(w, Receive(data)));
        steps := steps + [By(w, Receive(data))];
        if !parts[i].told { return Untold, received, steps; }
        i := i + 1;
      }
      NoStop(parts);
      flow := Going;
    }

    /** The part file has these bytes at the start of the range. */
    predicate Holds(t: Task, data: Bytes)
      reads this
    {
      var part := FilesOf(disk, t.blob.digest).part;
      part.Some? && (data != [] ==> First(t.index) + |data| <= |part.value| && part.value[First(t.index)..][..|data|] == data)
    }

    /** Holds the range as finished, here and in the ranges file. */
    method MarkRange(w: nat, t: Task, ghost attempt: nat)
      requires Proper(t) && Fetches(w, t, Length(t.blob.size, t.index), attempt)
      modifies this`disk, this`marked, this`credited, this`workers
      ensures Value() == MarkedBy(old(Value()), w) && MarkedAndRecorded(t)
    {
      var done := marked[t.blob.digest] + {t.index};
      marked := marked[t.blob.digest := done];
      credited := credited[t.blob.digest := credited[t.blob.digest] + {t.index}];
      disk := disk[t.blob.digest := FilesOf(disk, t.blob.digest).(ranges := Some(done))];
      workers := workers[w := Idle];
    }

    /** A body received in full: marked, or tried again when its mark cannot be written. */
    method Complete(w: nat, t: Task, attempt: nat, recorded: bool, reported: bool) returns (r: Try)
      requires Proper(t) && Fetches(w, t, Length(t.blob.size, t.index), attempt)
      modifies this
      ensures Value() == Worked(old(Value()), w, if recorded then Mark else MarkFails(reported))
      ensures After(r, w, t, attempt, old(counter) - Length(t.blob.size, t.index), old(stranded))
      ensures stop == old(stop) && r == if recorded then Done else RetryOr(attempt, reported)
      ensures FilesOf(disk, t.blob.digest).part == old(FilesOf(disk, t.blob.digest)).part
    {
      if recorded {
        MarkRange(w, t, attempt);
        return Done;
      }
      marked := marked[t.blob.digest := marked[t.blob.digest] + {t.index}];
      var again := TryAgain(w, t, Length(t.blob.size, t.index), attempt, reported);
      return if again then TryNext else GaveUp(if reported then FetchError else Unhandled);
    }

    /** How an attempt leaves the counter, compared with what it was before it, and what comes next. */
    ghost predicate After(r: Try, w: nat, t: Task, attempt: nat, before: int, left: nat)
      requires Proper(t)
      reads this
    {
      && counter == before + (match r case Done => Length(t.blob.size, t.index) case Escaped(kept) => kept case _ => 0)
      && stranded == left + (if r.Escaped? then r.kept else 0)
      && (r == TryNext ==> attempt + 1 < RETRIES && Fetches(w, t, 0, attempt + 1))
      && (r == Done ==> MarkedAndRecorded(t))
    }

    predicate MarkedAndRecorded(t: Task)
      reads this
    {
      && t.blob.digest in marked && t.index in marked[t.blob.digest]
      && Recorded(FilesOf(disk, t.blob.digest)) == marked[t.blob.digest]
    }

    /** The worker ends, and takes back what it received. */
    method End(w: nat, t: Task, received: nat, ghost attempt: nat, reason: Failure, reported: bool)
      returns (r: Try, ghost act: Act)
      requires Fetches(w, t, received, attempt) && (reason == Paused ==> stop)
      modifies this`counter, this`failure, this`workers
      ensures Value() == Worked(old(Value()), w, act) && After(r, w, t, attempt, old(counter) - received, old(stranded))
      ensures r == GaveUp(if reported then (if reason == Paused then Paused else FetchError) else Unhandled)
    {
      act := if !reported then Escape(true) else if reason == Paused then Interrupt else Refuse;
      var shown := if !reported then Unhandled else if reason == Paused then Paused else FetchError;
      GiveUp(w, t, received, attempt, shown);
      return GaveUp(shown), act;
    }

    /** What follows an answer that did not bring the range. */
    method Retry(w: nat, t: Task, received: nat, attempt: nat, reported: bool) returns (r: Try, ghost act: Act)
      requires Fetches(w, t, received, attempt)
      modifies this`counter, this`failure, this`workers
      ensures Value() == Worked(old(Value()), w, act) && After(r, w, t, attempt, old(counter) - received, old(stranded))
      ensures r == RetryOr(attempt, reported)
    {
      act := if reported then Break else Escape(true);
      var again := TryAgain(w, t, received, attempt, reported);
      r := if again then TryNext else GaveUp(if reported then FetchError else Unhandled);
    }

    /** Another try, if there is one left and progress could be reported. */
    function RetryOr(attempt: nat, reported: bool): Try {
      if !reported then GaveUp(Unhandled) else if attempt + 1 < RETRIES then TryNext else GaveUp(FetchError)
    }

    /** What follows a body: one more act of this worker. */
    method AfterBody(w: nat, t: Task, received: nat, attempt: nat, flow: Flow, reply: Reply) returns (r: Try, ghost act: Act)
      requires Proper(t) && Fetches(w, t, received, attempt) && reply.Body? && (flow == Stopping ==> stop)
      modifies this
      ensures Value() == Worked(old(Value()), w, act) && After(r, w, t, attempt, old(counter) - received, old(stranded))
      ensures stop == old(stop) && FilesOf(disk, t.blob.digest).part == old(FilesOf(disk, t.blob.digest)).part
      ensures r == match flow
        case Untold => Escaped(received)
        case Stopping => GaveUp(if reply.reported then Paused else Unhandled)
        case Going =>
          if !reply.breaks && received == Length(t.blob.size, t.index) && reply.recorded then Done
          else RetryOr(attempt, reply.reported)
    {
      hide Worked, Length, Count;
      if flow == Untold {
        ghost var here := Value();
        Leave(w, t, received, attempt);
        Untaken(here, w);
        return Escaped(received), Escape(false);
      }
      if flow == Stopping {
        r, act := End(w, t, received, attempt, Paused, reply.reported);
      } else if !reply.breaks && received == Length(t.blob.size, t.index) {
        act := if reply.recorded then Mark else MarkFails(reply.reported);
        r := Complete(w, t, attempt, reply.recorded, reply.reported);
      } else {
        r, act := Retry(w, t, received, attempt, reply.reported);
      }
    }

    /** One attempt: how it ends, exactly, by what the answer brings. */
    method Attempt(w: nat, t: Task, attempt: nat, reply: Reply) returns (r: Try, ghost steps: seq<Event>)
      requires Proper(t) && Fetches(w, t, 0, attempt)
      modifies this
      ensures Value() == Runs(old(Value()), steps) && After(r, w, t, attempt, old(counter), old(stranded))
      ensures forall e <- steps :: OfWorker(e, w)
      ensures r == Done <==> !old(stop) && Brings(t, reply)
      ensures r == Done ==> Holds(t, Joined(reply.parts, |reply.parts|))
      ensures r == TryNext <==> !old(stop) && LeavesHope(t, reply) && reply.reported && attempt + 1 < 6
      ensures r == TryNext ==> !stop
      ensures r == GaveUp(FetchError) <==> (
        && !old(stop) && reply.reported
        && ((LeavesHope(t, reply) && attempt + 1 >= 6) || (reply.Body? && !Accepted(t, reply))))
      ensures r == GaveUp(Paused) <==> old(stop) || (Accepted(t, reply) && Pauses(reply.parts) && reply.reported)
      ensures r == GaveUp(Unhandled) <==> (
        && !old(stop) && !reply.reported
        && (LeavesHope(t, reply) || (reply.Body? && !Accepted(t, reply)) || (Accepted(t, reply) && Pauses(reply.parts))))
      ensures r.Escaped? <==> !old(stop) && Accepted(t, reply) && LeftUntold(reply.parts)
    {
      hide Runs, Worked, Length, Count, OfWorker, Told, Joined, Pauses, LeftUntold, After;
      ghost var before := Value();
      RunsNone(before);
      ghost var act;
      ghost var here := before;
      steps := [];
      if stop {
        r, act := End(w, t, 0, attempt, Paused, true);
      } else if reply.Unusable? {
        r, act := Retry(w, t, 0, attempt, reply.reported);
      } else if !reply.ranged && t.blob.size > CHUNK {
        r, act := End(w, t, 0, attempt, FetchError, reply.reported);
      } else {
        var flow, received;
        flow, received, steps := ReceiveBody(w, t, attempt, reply.parts);
        here := Value();
        r, act := AfterBody(w, t, received, attempt, flow, reply);
      }
      steps := Follow(before, steps, here, w, act);
    }

    /**
     * One range, in at most six attempts. What an attempt adds to the counter
     * is taken back unless it ends with the range marked, or because progress
     * could not be reported: then the counter keeps what that attempt received.
     */
    method FetchRange(w: nat, t: Task, replies: seq<Reply>)
      returns (failed: Option<Failure>, ghost kept: nat, ghost steps: seq<Event>)
      requires Proper(t) && Fetches(w, t, 0, 0)
      modifies this
      ensures Value() == Runs(old(Value()), steps) && forall e <- steps :: OfWorker(e, w)
      ensures counter == old(counter) + if failed.None? then Length(t.blob.size, t.index) else kept
      ensures stranded == old(stranded) + kept && (kept > 0 ==> failed == Some(Unhandled))
      ensures failed.None? ==> MarkedAndRecorded(t)
      ensures failed.None? <==> !old(stop) && exists k: nat :: k < 6 && Brings(t, ReplyAt(replies, k)) && AllLeaveHope(t, replies, k)
    {
      hide Runs, Length, Count, Brings, LeavesHope;
      kept := 0;
      ghost var before := Value();
      RunsNone(before);
      steps := [];
      var attempt := 0;
      while true
        invariant attempt < RETRIES && Fetches(w, t, 0, attempt)
        invariant Value() == Runs(before, steps) && counter == old(counter) && stranded == old(stranded)
        invariant kept == 0 && forall e <- steps :: OfWorker(e, w)
        invariant AllLeaveHope(t, replies, attempt) && (attempt > 0 ==> !stop && !old(stop)) && (attempt == 0 ==> stop == old(stop))
        decreases RETRIES - attempt
      {
        ghost var more;
        ghost var stopped := stop;
        var r;
        r, more := Attempt(w, t, attempt, ReplyAt(replies, attempt));
        RunsJoin(before, steps, more);
        steps := steps + more;
        if !stopped && r != Done && r != TryNext { NoneBrings(t, replies, attempt); }
        match r {
          case Done => return None, 0, steps;
          case GaveUp(failure) => return Some(failure), 0, steps;
          case Escaped(bytes) => return Some(Unhandled), bytes, steps;
          case TryNext => attempt := attempt + 1;
        }
      }
    }

    ghost method Follow(before: Fetch, steps: seq<Event>, here: Fetch, w: nat, act: Act) returns (more: seq<Event>)
      requires here == Runs(before, steps) && w < |here.workers| && here.workers[w].Fetching?
      requires forall e <- steps :: OfWorker(e, w)
      ensures Runs(before, more) == Worked(here, w, act) && forall e <- more :: OfWorker(e, w)
    {
      RunsOne(before, steps, By(w, act));
      more := steps + [By(w, act)];
    }

    // ---- The check at the end ----------------------------------------------------------------

    /**
     * Keeps the layer if it is what its digest says, and discards it otherwise;
     * fails, changing nothing, when there is no part file to read.
     */
    method Finish(blob: Blob) returns (kept: Result<bool, ()>)
      requires FilesOf(disk, blob.digest).whole.None?
      modifies this`disk, this`failure
      ensures kept.Err? <==> old(FilesOf(disk, blob.digest)).part.None?
      ensures kept.Err? ==> Value() == old(Value())
      ensures kept.Ok? ==>
        && Value() == Runs(old(Value()), [On(blob, Verify), On(blob, DropRanges)])
        && (kept.value <==> old(FilesOf(disk, blob.digest)).part.value == blob.digest)
        && FilesOf(disk, blob.digest) == Files(if kept.value then Some(blob.digest) else None, None, None)
    {
      ghost var before := Value();
      var files := FilesOf(disk, blob.digest);
      if files.part.None? { return Err(()); }
      var ok := files.part.value == blob.digest;
      if ok {
        disk := disk[blob.digest := files.(whole := files.part, part := None)];
      } else {
        disk := disk[blob.digest := files.(part := None)];
        failure := Some(FetchError);
      }
      disk := disk[blob.digest := FilesOf(disk, blob.digest).(ranges := None)];
      RunsOne(before, [], On(blob, Verify));
      RunsOne(before, [] + [On(blob, Verify)], On(blob, DropRanges));
      assert [] + [On(blob, Verify)] + [On(blob, DropRanges)] == [On(blob, Verify), On(blob, DropRanges)];
      kept := Ok(ok);
    }
  }

  lemma NothingYet(parts: seq<Part>)
    ensures Told(parts, 0) && Joined(parts, 0) == []
  {
  }

  /** Written behind what is there, the new bytes follow it. */
  lemma WrittenAfter(file: Bytes, at: nat, there: Bytes, data: Bytes)
    requires there != [] ==> at + |there| <= |file| && file[at..][..|there|] == there
    ensures var later := Written(file, at + |there|, data);
      there + data != [] ==> at + |there + data| <= |later| && later[at..][..|there + data|] == there + data
  {
    var later := Written(file, at + |there|, data);
    if there + data != [] {
      forall i | 0 <= i < |there + data| ensures later[at + i] == (there + data)[i] {
        if i >= |there| {
          assert later[at + |there|..at + |there| + |data|][i - |there|] == data[i - |there|];
        } else {
          assert file[at..][..|there|][i] == there[i] && file[at + i] == later[at + i];
        }
      }
    }
  }

  lemma {:induction false} NoneMissing(blob: Blob, upTo: nat)
    requires upTo <= Count(blob.size)
    ensures Missing(blob, All(blob.size), upTo) == []
    decreases upTo
  {
    if upTo > 0 { NoneMissing(blob, upTo - 1); }
  }

  lemma EntryStep(s: Fetch, blob: Blob)
    requires Enters(s, blob)
    ensures Runs(s, []) == s
    ensures FilesOf(s.disk, blob.digest).whole.Some? ==>
      Next(s, On(blob, FindWhole)) == Prepared(s, blob, All(blob.size), [])
    ensures var files := FilesOf(s.disk, blob.digest);
      var done := Usable(blob, files);
      files.whole.None? && files.part.Some? ==>
        Next(s, On(blob, Adopt)) == Prepared(s, blob, done, Missing(blob, done, Count(blob.size)))
  {
  }

  lemma FreshPart(s: Fetch, blob: Blob)
    requires FilesOf(s.disk, blob.digest).whole.None? && FilesOf(s.disk, blob.digest).part.None? && !IsPrepared(s, blob)
    ensures Runs(s, [On(blob, DropRanges), On(blob, OpenPart), On(blob, SizePart)])
      == SetFiles(s, blob.digest, Files(None, Some(Zeros(blob.size)), None))
  {
    var first, second, third := On(blob, DropRanges), On(blob, OpenPart), On(blob, SizePart);
    RunsNone(s);
    RunsOne(s, [], first);
    RunsOne(s, [] + [first], second);
    RunsOne(s, [] + [first] + [second], third);
    assert [] + [first] + [second] + [third] == [first, second, third];
    hide Runs, Zeros, Marked, Missing, Usable;
    var c := SetFiles(s, blob.digest, Files(None, Some(Zeros(blob.size)), None));
    assert s.disk[blob.digest := Files(None, None, None)][blob.digest := Files(None, Some([]), None)]
      [blob.digest := Files(None, Some(Zeros(blob.size)), None)] == c.disk;
  }

  lemma Untaken(s: Fetch, w: nat)
    requires w < |s.workers| && s.workers[w].Fetching?
    ensures Worked(s, w, Escape(false)) == Strands(s, w)
  {
  }

  lemma StopStep(s: Fetch)
    ensures Next(s, RequestStop) == s.(stop := true)
  {
  }

  lemma PieceStep(s: Fetch, w: nat, data: Bytes)
    requires w < |s.workers| && s.workers[w].Fetching? && !s.stop
    requires FilesOf(s.disk, s.workers[w].task.blob.digest).part.Some?
    ensures Next(s, By(w, Receive(data))) == Wrote(s, w, data)
  {
  }
}
