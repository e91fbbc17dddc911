/** How long a worker keeps the job it claimed or renewed, and when another may take it. */
module JobLeases {
  import opened Wrappers
  import opened Jobs
  import opened JobRuns

  /** The job is running for this worker up to and including this moment. */
  predicate Kept(s: Store, id: nat, worker: string, until: int) {
    && id < |s.jobs| && s.jobs[id].state == Running
    && s.jobs[id].leaseOwner == worker && s.jobs[id].leaseExpires == Some(until)
  }

  /** This operation gives the worker the job for so many seconds: it claims it, or renews its lease. */
  predicate Grants(s: Store, op: Op, id: nat, worker: string, seconds: int) {
    match op
    case DoClaim(w, lease) => w == worker && lease == seconds && Claim(s, w, lease).1 == Ok(Some(id))
    case DoHeartbeat(i, w, lease) => i == id && w == worker && lease == seconds && Heartbeat(s, i, w, lease).1
    case _ => false
  }

  /** It moves or renews another job, if any; a cancel request may come. */
  predicate LeavesTo(op: Op, id: nat) {
    match op
    case DoTransition(i, _, _) => i != id
    case DoHeartbeat(i, _, _) => i != id
    case DoAcknowledge(i, _) => i != id
    case _ => true
  }

  lemma KeptStep(s: Store, op: Op, id: nat, worker: string, until: int)
    requires Kept(s, id, worker, until) && LeavesTo(op, id) && s.clock <= until
    ensures Kept(Apply(s, op), id, worker, until) && Apply(s, op).clock >= s.clock
    ensures op.DoClaim? ==> Claim(s, op.worker, op.lease).1 != Ok(Some(id))
  {
    match op
    case DoCreate(x) =>
      hide Create;
      CreateKeepsRows(s, x, id);
      ClockStays(s, x);
    case DoByKey(x, checkActive) => hide Replay;
    case DoRetry(i, actor, key, subject, hooks) =>
      hide Retry;
      RetryKeepsRunning(s, i, actor, key, subject, hooks, id);
      RetryClock(s, i, actor, key, subject, hooks);
    case _ =>
  }

  lemma ClockStays(s: Store, x: Submission)
    ensures Create(s, x).0.clock == s.clock
  {
  }

  lemma RetryClock(s: Store, id: nat, actor: string, key: Option<string>, subject: string, hooks: bool)
    ensures Retry(s, id, actor, key, subject, hooks).0.clock == s.clock
  {
    hide Create, ByKey;
    if id < |s.jobs| {
      var x := RetryOf(s.jobs[id], id, actor, key, subject, hooks);
      ClockStays(s, x);
      ClockStays(Transition(s, id, Cancelled, "").0, x);
    }
  }

  lemma {:induction false} ClockGoesOn(s: Store, ops: seq<Op>)
    requires Inv(s)
    ensures Run(s, ops).clock >= s.clock
    decreases |ops|
  {
    hide Inv;
    RunInv(s, ops);
  }

  lemma {:induction false} KeptRun(s: Store, ops: seq<Op>, id: nat, worker: string, until: int)
    requires Inv(s) && Kept(s, id, worker, until) && Run(s, ops).clock <= until
    requires forall op <- ops :: LeavesTo(op, id)
    ensures Kept(Run(s, ops), id, worker, until)
    ensures forall k :: 0 <= k < |ops| ==> !Claims(Run(s, ops[..k]), ops[k], id)
    decreases |ops|
  {
    hide Apply, Inv, Kept, Claims, LeavesTo;
    ClockGoesOn(s, ops);
    if ops == [] { return; }
    var t := Apply(s, ops[0]);
    ApplyInv(s, ops[0]);
    KeptNext(s, ops[0], id, worker, until);
    KeptRun(t, ops[1..], id, worker, until);
    forall k | 0 <= k < |ops| ensures !Claims(Run(s, ops[..k]), ops[k], id) {
      if k > 0 {
        assert ops[..k][0] == ops[0] && ops[..k][1..] == ops[1..][..k - 1];
        assert !Claims(Run(t, ops[1..][..k - 1]), ops[1..][k - 1], id);
      }
    }
  }

  lemma KeptNext(s: Store, op: Op, id: nat, worker: string, until: int)
    requires Kept(s, id, worker, until) && LeavesTo(op, id) && s.clock <= until
    ensures Kept(Apply(s, op), id, worker, until) && !Claims(s, op, id)
  {
    hide Apply;
    KeptStep(s, op, id, worker, until);
  }

  /** Nothing but this job waits for a worker, or runs. */
  predicate OnlyCandidate(s: Store, id: nat) {
    forall i :: 0 <= i < |s.jobs| && i != id ==> s.jobs[i].state !in {Queued, Running}
  }

  /**
   * For as many seconds as a claim or a renewal gave it, whatever else happens, the worker's job is
   * claimed by nobody and the worker is not told that its lease is lost. After that, and not before,
   * a worker that finds no other job takes this one, unless it is being cancelled.
   */
  lemma {:induction false} LeasesLastExactlySoLong(
    s: Store, op: Op, id: nat, worker: string, seconds: int, ops: seq<Op>, idle: nat, other: string, lease: int)
    requires Inv(s) && Grants(s, op, id, worker, seconds) && (forall x <- ops :: LeavesTo(x, id))
    requires var t := Run(Apply(s, op), ops); t.clock <= s.clock + seconds
    ensures var t := Run(Apply(s, op), ops);
      && Kept(t, id, worker, s.clock + seconds) && Interruption(t, id, worker) != StopLeaseLost
      && (forall k :: 0 <= k < |ops| ==> !Claims(Run(Apply(s, op), ops[..k]), ops[k], id))
    ensures var u := Apply(Run(Apply(s, op), ops), Tick(idle));
      OnlyCandidate(u, id) && !u.jobs[id].cancelRequested && other != "" && lease >= 10 ==>
        (Claims(u, DoClaim(other, lease), id) <==> u.clock > s.clock + seconds)
  {
    hide Inv, Run, Apply, Kept, Claims, OnlyCandidate;
    Granted(s, op, id, worker, seconds);
    hide Grants;
    ApplyInv(s, op);
    KeptRun(Apply(s, op), ops, id, worker, s.clock + seconds);
    KeptLater(Run(Apply(s, op), ops), idle, id, worker, s.clock + seconds);
    var u := Apply(Run(Apply(s, op), ops), Tick(idle));
    if OnlyCandidate(u, id) && !u.jobs[id].cancelRequested && other != "" && lease >= 10 {
      TakenWhenOver(u, id, worker, s.clock + seconds, other, lease);
    }
  }

  lemma KeptLater(s: Store, idle: nat, id: nat, worker: string, until: int)
    requires Kept(s, id, worker, until)
    ensures Interruption(s, id, worker) != StopLeaseLost
    ensures Kept(Apply(s, Tick(idle)), id, worker, until) && id < |Apply(s, Tick(idle)).jobs|
  {
  }

  lemma Granted(s: Store, op: Op, id: nat, worker: string, seconds: int)
    requires Grants(s, op, id, worker, seconds)
    ensures Kept(Apply(s, op), id, worker, s.clock + seconds)
  {
  }

  lemma TakenWhenOver(s: Store, id: nat, worker: string, until: int, other: string, lease: int)
    requires Kept(s, id, worker, until) && OnlyCandidate(s, id) && !s.jobs[id].cancelRequested && other != "" && lease >= 10
    ensures Claims(s, DoClaim(other, lease), id) <==> s.clock > until
  {
    var jobs := Buried(s.jobs, s.clock);
    assert jobs[id] == s.jobs[id] && jobs[id] in jobs;
  }
}
