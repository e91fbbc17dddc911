/** What each step of the download does, exactly: a worker's, and each file operation around it. */
module FetchFacts {
  import opened Wrappers
  import opened ImageFetch

  predicate IsFetchingNow(s: Fetch, w: nat) { w < |s.workers| && s.workers[w].Fetching? }

  /** A worker's end: what it received is taken back, and its failure is kept if it is the first. */
  function EndedWith(s: Fetch, w: nat, failure: Failure): Fetch
    requires IsFetchingNow(s, w)
  {
    s.(workers := s.workers[w := Exited], counter := s.counter - s.workers[w].received,
       failure := if s.failure.Some? then s.failure else Some(failure))
  }

  function Again(s: Fetch, w: nat): Fetch
    requires IsFetchingNow(s, w)
  {
    s.(workers := s.workers[w := Fetching(s.workers[w].task, 0, s.workers[w].attempt + 1)],
       counter := s.counter - s.workers[w].received)
  }

  /** An idle worker takes the next range, or ends when none is left or something failed. */
  lemma TakesExactly(s: Fetch, w: nat)
    requires w < |s.workers| && s.workers[w].Idle?
    ensures s.failure.None? && s.next < |s.tasks| ==>
      Next(s, By(w, Take)) == s.(workers := s.workers[w := Fetching(s.tasks[s.next], 0, 0)], next := s.next + 1)
    ensures s.failure.Some? || s.next >= |s.tasks| ==> Next(s, By(w, Take)) == s.(workers := s.workers[w := Exited])
    ensures forall act :: act != Take ==> Next(s, By(w, act)) == s
  {
  }

  /** How a failing, refused, stopped or unreported attempt goes on: five more tries at most. */
  lemma EndsExactly(s: Fetch, w: nat)
    requires IsFetchingNow(s, w)
    ensures Next(s, By(w, Break)) == if s.workers[w].attempt < 5 then Again(s, w) else EndedWith(s, w, FetchError)
    ensures Next(s, By(w, Refuse)) == EndedWith(s, w, FetchError)
    ensures Next(s, By(w, Interrupt)) == if s.stop then EndedWith(s, w, Paused) else s
    ensures Next(s, By(w, Escape(true))) == EndedWith(s, w, Unhandled)
    ensures Next(s, By(w, Escape(false))) == s.(
      workers := s.workers[w := Exited], stranded := s.stranded + s.workers[w].received,
      failure := if s.failure.Some? then s.failure else Some(Unhandled))
  {
  }

  /** The next bytes go behind those received, into the part file, and are counted; nothing comes after a stop. */
  lemma ReceivesExactly(s: Fetch, w: nat, data: Bytes)
    requires IsFetchingNow(s, w)
    ensures var (t, received) := (s.workers[w].task, s.workers[w].received);
      var files := FilesOf(s.disk, t.blob.digest);
      Next(s, By(w, Receive(data))) ==
        if s.stop || files.part.None? then s
        else s.(
          disk := s.disk[t.blob.digest := files.(part := Some(Written(files.part.value, t.index * 8388608 + received, data)))],
          workers := s.workers[w := Fetching(t, received + |data|, s.workers[w].attempt)], counter := s.counter + |data|)
  {
    hide Written;
  }

  /** Where bytes go in a file: in their place, with what was around them as it was and zeros before them if need be. */
  lemma WritesExactly(file: Bytes, at: nat, data: Bytes)
    ensures var r := Written(file, at, data);
      && |r| == (if |file| > at + |data| then |file| else at + |data|)
      && forall i :: 0 <= i < |r| ==>
           r[i] == if at <= i < at + |data| then data[i - at] else if i < |file| then file[i] else 0
  {
    var r := Written(file, at, data);
    forall i | 0 <= i < |r|
      ensures r[i] == if at <= i < at + |data| then data[i - at] else if i < |file| then file[i] else 0
    {
      if at <= i < at + |data| { assert r[at..at + |data|][i - at] == data[i - at]; }
    }
  }

  /** A range received in full is marked, in memory, in the ranges file and for the counter; or held only in memory. */
  lemma MarksExactly(s: Fetch, w: nat, reported: bool)
    requires IsFetchingNow(s, w)
    requires var t := s.workers[w].task; t.blob.digest in s.marked && t.blob.digest in s.credited && Proper(t)
    ensures var t := s.workers[w].task;
      var marked := s.marked[t.blob.digest := s.marked[t.blob.digest] + {t.index}];
      var whole := s.workers[w].received == Length(t.blob.size, t.index);
      && (!whole ==> Next(s, By(w, Mark)) == s && Next(s, By(w, MarkFails(reported))) == s)
      && (whole ==>
            && Next(s, By(w, Mark)) == s.(
                 marked := marked, credited := s.credited[t.blob.digest := s.credited[t.blob.digest] + {t.index}],
                 disk := s.disk[t.blob.digest := FilesOf(s.disk, t.blob.digest).(ranges := Some(marked[t.blob.digest]))],
                 workers := s.workers[w := Idle])
            && Next(s, By(w, MarkFails(reported))) ==
                 if !reported then EndedWith(s.(marked := marked), w, Unhandled)
                 else if s.workers[w].attempt < 5 then Again(s.(marked := marked), w)
                 else EndedWith(s.(marked := marked), w, FetchError))
  {
    hide Length, Count;
  }

  /** Nobody has begun with this layer in this process. */
  predicate Untouched(s: Fetch, blob: Blob) { blob.digest !in s.marked }

  /** What each file operation does, and that it does nothing where the program would not do it. */
  lemma StagesExactly(s: Fetch, blob: Blob)
    ensures var (files, d) := (FilesOf(s.disk, blob.digest), blob.digest);
      && Next(s, On(blob, DropRanges)) == (if files.part.Some? then s else s.(disk := s.disk[d := files.(ranges := None)]))
      && Next(s, On(blob, OpenPart)) == (
           if Untouched(s, blob) && files == Files(None, None, None) then s.(disk := s.disk[d := files.(part := Some([]))]) else s)
      && Next(s, On(blob, SizePart)) == (
           if Untouched(s, blob) && files.part == Some([]) then s.(disk := s.disk[d := files.(part := Some(Zeros(blob.size)))])
           else s)
      && Next(s, On(blob, Verify)) == (
           if files.part.None? || files.whole.Some? then s
           else if files.part.value == d then s.(disk := s.disk[d := Files(files.part, None, files.ranges)])
           else s.(disk := s.disk[d := Files(None, None, files.ranges)], failure := Some(FetchError)))
      && Next(s, On(blob, Remove)) == s.(disk := s.disk[d := files.(whole := None)])
  {
    hide Zeros;
  }

  lemma UsableExactly(blob: Blob, files: Files)
    ensures Usable(blob, files) == set i <- (if files.ranges.Some? then files.ranges.value else {}) | i * 8388608 < blob.size
  {
    var r := set i <- (if files.ranges.Some? then files.ranges.value else {}) | i * 8388608 < blob.size;
    forall i: nat ensures i in Usable(blob, files) <==> i in r {
      assert i < Count(blob.size) <==> i * 8388608 < blob.size;
    }
  }

  /** A layer enters the pool finished when it is here whole, else with its usable ranges finished and the rest to fetch. */
  lemma EntersExactly(s: Fetch, blob: Blob)
    ensures var (files, d) := (FilesOf(s.disk, blob.digest), blob.digest);
      var usable := set i <- (if files.ranges.Some? then files.ranges.value else {}) | i * 8388608 < blob.size;
      var enters := s.workers == [] && Untouched(s, blob);
      && Next(s, On(blob, FindWhole)) == (if files.whole.Some? && enters then Prepared(s, blob, All(blob.size), []) else s)
      && Next(s, On(blob, Adopt)) == (
           if files.whole.None? && files.part.Some? && enters then
             Prepared(s, blob, usable, Missing(blob, usable, Count(blob.size)))
           else s)
  {
    UsableExactly(blob, FilesOf(s.disk, blob.digest));
    hide Missing, All, Marked, Usable;
  }

  /** Its finished ranges are counted at once, and its missing ones come behind the tasks. */
  lemma PreparesExactly(s: Fetch, blob: Blob, done: set<nat>, tasks: seq<Task>)
    ensures Prepared(s, blob, done, tasks) == s.(
      prepared := s.prepared + [blob], marked := s.marked[blob.digest := done], credited := s.credited[blob.digest := done],
      tasks := s.tasks + tasks, counter := s.counter + Marked(blob.size, done))
    ensures forall i: nat :: i in All(blob.size) <==> i * 8388608 < blob.size
  {
    hide Marked;
    assert forall i: nat :: i < Count(blob.size) <==> i * 8388608 < blob.size;
  }
}
