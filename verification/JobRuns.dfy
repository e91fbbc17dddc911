/** What holds over every sequence of store operations, by any number of workers and callers. */
module JobRuns {
  import opened Wrappers
  import opened Jobs

  datatype Op =
    | Tick(seconds: nat)
    | DoCreate(x: Submission)
    | DoByKey(x: Submission, checkActive: bool)
    | DoTransition(id: nat, state: State, runner: string)
    | DoClaim(worker: string, lease: int)
    | DoHeartbeat(id: nat, worker: string, lease: int)
    | DoCancel(id: nat)
    | DoAcknowledge(id: nat, worker: string)
    | DoRetry(id: nat, actor: string, key: Option<string>, subject: string, hooks: bool)

  function Apply(s: Store, op: Op): Store {
    match op
    case Tick(seconds) => s.(clock := s.clock + seconds)
    case DoCreate(x) => Create(s, x).0
    case DoByKey(x, checkActive) => ByKey(s, x, checkActive).0
    case DoTransition(id, state, runner) => Transition(s, id, state, runner).0
    case DoClaim(worker, lease) => Claim(s, worker, lease).0
    case DoHeartbeat(id, worker, lease) => Heartbeat(s, id, worker, lease).0
    case DoCancel(id) => Cancel(s, id).0
    case DoAcknowledge(id, worker) => AcknowledgeCancel(s, id, worker).0
    case DoRetry(id, actor, key, subject, hooks) => Retry(s, id, actor, key, subject, hooks).0
  }

  function Run(s: Store, ops: seq<Op>): Store
    decreases |ops|
  {
    if ops == [] then s else Run(Apply(s, ops[0]), ops[1..])
  }

  // ---- The store's invariant -------------------------------------------------------------

  ghost predicate Inv(s: Store) {
    && OneActive(s.jobs)
    && (forall job <- s.jobs :: LeaseOnlyRunning(job) && job.createdAt <= s.clock)
    && (forall i, j :: 0 <= i < j < |s.jobs| ==> s.jobs[i].createdAt <= s.jobs[j].createdAt)
    && (forall key <- s.requests :: Recalls(s.jobs, key, s.requests[key]))
  }

  /** At most one queued, running or waiting job per resource. */
  ghost predicate OneActive(jobs: seq<Job>) {
    forall i, j :: 0 <= i < j < |jobs| && Active(jobs[i].state) && Active(jobs[j].state)
      ==> jobs[i].service != jobs[j].service
  }

  predicate LeaseOnlyRunning(job: Job) {
    job.leaseOwner != "" || job.leaseExpires.Some? ==> job.state == Running
  }

  /** A remembered request names an existing job, made by the same caller for the same command. */
  predicate Recalls(jobs: seq<Job>, key: RequestKey, r: Remembered) {
    r.job < |jobs| && jobs[r.job].identity == Identity(key.subject, key.namespace, Some(r.command))
  }

  /** One row as it was and as it became: what it is for never changes, and finished is final. */
  predicate Progress(before: Job, after: Job) {
    && after == before.(state := after.state, leaseOwner := after.leaseOwner,
                        leaseExpires := after.leaseExpires, cancelRequested := after.cancelRequested)
    && (Finished(before.state) ==> after.state == before.state)
    && (before.cancelRequested ==> after.cancelRequested)
    && (Active(after.state) ==> Active(before.state))
    && (LeaseOnlyRunning(before) ==> LeaseOnlyRunning(after))
  }

  /** Rows are never removed or reordered, requests never forgotten or redirected, and time goes on. */
  ghost predicate Extends(s: Store, t: Store) {
    && |s.jobs| <= |t.jobs| && s.clock <= t.clock
    && (forall i :: 0 <= i < |s.jobs| ==> Progress(s.jobs[i], t.jobs[i]))
    && (forall key <- s.requests :: key in t.requests && t.requests[key] == s.requests[key])
  }

  lemma RowsProgress(s: Store, t: Store)
    requires Inv(s) && Extends(s, t) && |t.jobs| == |s.jobs| && t.requests == s.requests
    ensures Inv(t)
  {
    forall key | key in t.requests ensures Recalls(t.jobs, key, t.requests[key]) {
      assert Recalls(s.jobs, key, s.requests[key]);
    }
    forall job | job in t.jobs ensures LeaseOnlyRunning(job) && job.createdAt <= t.clock {
      var i :| 0 <= i < |t.jobs| && t.jobs[i] == job;
      assert s.jobs[i] in s.jobs && Progress(s.jobs[i], t.jobs[i]);
    }
    forall i, j | 0 <= i < j < |t.jobs|
      ensures t.jobs[i].createdAt <= t.jobs[j].createdAt
      ensures Active(t.jobs[i].state) && Active(t.jobs[j].state) ==> t.jobs[i].service != t.jobs[j].service
    {
      assert Progress(s.jobs[i], t.jobs[i]) && Progress(s.jobs[j], t.jobs[j]);
    }
  }

  lemma ExtendsTwice(s: Store, t: Store, u: Store)
    requires Extends(s, t) && Extends(t, u)
    ensures Extends(s, u)
  {
  }

  lemma Unchanged(s: Store)
    ensures Extends(s, s)
  {
  }

  lemma RowInv(s: Store, id: nat, job: Job)
    requires Inv(s) && id < |s.jobs| && Progress(s.jobs[id], job)
    ensures Inv(s.(jobs := s.jobs[id := job])) && Extends(s, s.(jobs := s.jobs[id := job]))
  {
    RowsProgress(s, s.(jobs := s.jobs[id := job]));
  }

  lemma RememberInv(s: Store, x: Submission, job: nat)
    requires Inv(s) && job < |s.jobs| && s.jobs[job].identity == x.Sender()
    requires x.key.Some? ==> x.Slot() !in s.requests
    ensures Inv(Remember(s, x, job)) && Extends(s, Remember(s, x, job))
  {
    var t := Remember(s, x, job);
    Unchanged(s);
    hide OneActive, LeaseOnlyRunning, Progress;
    forall key | key in t.requests ensures Recalls(t.jobs, key, t.requests[key]) {
      if key in s.requests { assert Recalls(s.jobs, key, s.requests[key]); }
    }
  }

  lemma InsertActive(jobs: seq<Job>, job: Job)
    requires OneActive(jobs) && ActiveOn(jobs, job.service).None?
    ensures OneActive(jobs + [job])
  {
  }

  lemma {:induction false} InsertInv(s: Store, job: Job)
    requires Inv(s) && job.createdAt == s.clock && job.leaseOwner == "" && job.leaseExpires.None?
    requires ActiveOn(s.jobs, job.service).None?
    ensures Inv(s.(jobs := s.jobs + [job])) && Extends(s, s.(jobs := s.jobs + [job]))
  {
    var t := s.(jobs := s.jobs + [job]);
    InsertActive(s.jobs, job);
    hide ActiveOn, OneActive;
    assert forall i :: 0 <= i < |s.jobs| ==> s.jobs[i] in s.jobs && t.jobs[i] == s.jobs[i];
    forall key | key in t.requests ensures Recalls(t.jobs, key, t.requests[key]) {
      assert Recalls(s.jobs, key, s.requests[key]);
    }
    hide Recalls;
  }

  lemma {:induction false} CreateInv(s: Store, x: Submission)
    requires Inv(s)
    ensures Inv(Create(s, x).0) && Extends(s, Create(s, x).0)
  {
    hide Inv, Extends, Submission.Acceptable;
    Unchanged(s);
    var previous := if x.key.Some? then Replay(s, x.Slot(), x.Fingerprint()) else Ok(None);
    if !x.Acceptable() || previous.Err? || previous.value.Some? { return; }
    match ActiveOn(s.jobs, x.service)
    case Some(active) => if s.jobs[active].identity == x.Sender() { RememberInv(s, x, active); }
    case None =>
      if x.hooks {
        var job := Job(x.kind, x.service, x.action, Queued, s.clock, x.key, x.Sender(), x.params, "", None, false);
        var grown := s.(jobs := s.jobs + [job]);
        InsertInv(s, job);
        RememberInv(grown, x, |s.jobs|);
        ExtendsTwice(s, grown, Remember(grown, x, |s.jobs|));
      }
  }

  lemma {:induction false} ByKeyInv(s: Store, x: Submission, checkActive: bool)
    requires Inv(s)
    ensures Inv(ByKey(s, x, checkActive).0) && Extends(s, ByKey(s, x, checkActive).0)
  {
    hide Inv, Extends;
    Unchanged(s);
    if ByKey(s, x, checkActive).0 != s { RememberInv(s, x, ActiveOn(s.jobs, x.service).value); }
  }

  lemma {:induction false} TransitionInv(s: Store, id: nat, state: State, runner: string)
    requires Inv(s)
    ensures Inv(Transition(s, id, state, runner).0) && Extends(s, Transition(s, id, state, runner).0)
  {
    hide Inv, Extends;
    Unchanged(s);
    if Transition(s, id, state, runner).1.Ok? { RowInv(s, id, Moved(s.jobs[id], state)); }
  }

  lemma {:induction false} BuriedInv(s: Store)
    requires Inv(s)
    ensures var t := s.(jobs := Buried(s.jobs, s.clock)); Inv(t) && Extends(s, t)
  {
    var t := s.(jobs := Buried(s.jobs, s.clock));
    forall i | 0 <= i < |s.jobs| ensures Progress(s.jobs[i], t.jobs[i]) {
    }
    assert Extends(s, t);
    hide Inv;
    RowsProgress(s, t);
  }

  lemma {:induction false} ClaimInv(s: Store, worker: string, lease: int)
    requires Inv(s)
    ensures Inv(Claim(s, worker, lease).0) && Extends(s, Claim(s, worker, lease).0)
  {
    hide Inv, Extends;
    Unchanged(s);
    if worker == "" || lease < 10 { return; }
    BuriedInv(s);
    var buried := s.(jobs := Buried(s.jobs, s.clock));
    match Oldest(buried.jobs, s.clock)
    case None =>
    case Some(id) =>
      var job := Leased(buried.jobs[id], worker, s.clock + lease);
      RowInv(buried, id, job);
      ExtendsTwice(s, buried, buried.(jobs := buried.jobs[id := job]));
  }

  lemma {:induction false} CancelInv(s: Store, id: nat)
    requires Inv(s)
    ensures Inv(Cancel(s, id).0) && Extends(s, Cancel(s, id).0)
  {
    hide Inv, Extends, Transition;
    TransitionInv(s, id, Cancelled, "");
    if id < |s.jobs| && s.jobs[id].state == Running { RowInv(s, id, s.jobs[id].(cancelRequested := true)); }
    Unchanged(s);
  }

  lemma {:induction false} LeaseInv(s: Store, id: nat, worker: string, lease: int)
    requires Inv(s)
    ensures Inv(Heartbeat(s, id, worker, lease).0) && Extends(s, Heartbeat(s, id, worker, lease).0)
    ensures Inv(AcknowledgeCancel(s, id, worker).0) && Extends(s, AcknowledgeCancel(s, id, worker).0)
  {
    hide Inv, Extends;
    Unchanged(s);
    if LeasedTo(s, id, worker) {
      RowInv(s, id, s.jobs[id].(leaseExpires := Some(s.clock + lease)));
      RowInv(s, id, Moved(s.jobs[id], Cancelled));
    }
  }

  lemma {:induction false} RetryInv(s: Store, id: nat, actor: string, key: Option<string>, subject: string, hooks: bool)
    requires Inv(s)
    ensures Inv(Retry(s, id, actor, key, subject, hooks).0) && Extends(s, Retry(s, id, actor, key, subject, hooks).0)
  {
    hide Inv, Extends, ByKey, Create;
    Unchanged(s);
    if id >= |s.jobs| { return; }
    var x := RetryOf(s.jobs[id], id, actor, key, subject, hooks);
    CreateInv(s, x);
    if s.jobs[id].state == Waiting {
      var ready := Transition(s, id, Cancelled, "").0;
      TransitionInv(s, id, Cancelled, "");
      CreateInv(ready, x);
      ExtendsTwice(s, ready, Create(ready, x).0);
    }
  }

  lemma TickInv(s: Store, seconds: nat)
    requires Inv(s)
    ensures var t := s.(clock := s.clock + seconds); Inv(t) && Extends(s, t)
  {
  }

  /** One operation, whoever performs it, keeps the invariant and every row's identity and outcome. */
  lemma {:induction false} ApplyInv(s: Store, op: Op)
    requires Inv(s)
    ensures Inv(Apply(s, op)) && Extends(s, Apply(s, op))
  {
    hide Inv, Extends, Create, ByKey, Claim, Retry, Transition, Cancel, Heartbeat, AcknowledgeCancel;
    match op
    case Tick(seconds) => TickInv(s, seconds);
    case DoCreate(x) => CreateInv(s, x);
    case DoByKey(x, checkActive) => ByKeyInv(s, x, checkActive);
    case DoTransition(id, state, runner) => TransitionInv(s, id, state, runner);
    case DoClaim(worker, lease) => ClaimInv(s, worker, lease);
    case DoHeartbeat(id, worker, lease) => LeaseInv(s, id, worker, lease);
    case DoCancel(id) => CancelInv(s, id);
    case DoAcknowledge(id, worker) => LeaseInv(s, id, worker, 0);
    case DoRetry(id, actor, key, subject, hooks) => RetryInv(s, id, actor, key, subject, hooks);
  }

  lemma {:induction false} RunInv(s: Store, ops: seq<Op>)
    requires Inv(s)
    ensures Inv(Run(s, ops)) && Extends(s, Run(s, ops))
    decreases |ops|
  {
    hide Inv, Extends, Apply;
    Unchanged(s);
    if ops != [] {
      ApplyInv(s, ops[0]);
      RunInv(Apply(s, ops[0]), ops[1..]);
      ExtendsTwice(s, Apply(s, ops[0]), Run(s, ops));
    }
  }

  // ---- Claims ----------------------------------------------------------------------------

  /**
   * A claim takes a job that could be taken, before every job created later, and leases it to the
   * worker; every other job is untouched, except that those a dead worker left after a cancel end.
   */
  lemma ClaimTakesTheOldest(s: Store, worker: string, lease: int)
    requires Inv(s) && Claim(s, worker, lease).1.Ok?
    ensures var (t, r) := Claim(s, worker, lease);
      match r.value
      case None => forall j :: 0 <= j < |s.jobs| ==> !Takeable(s, j)
      case Some(id) =>
        && id < |s.jobs| && Takeable(s, id) && (forall j :: 0 <= j < id ==> !Takeable(s, j))
        && LeasedTo(t, id, worker) && t.jobs[id].leaseExpires == Some(s.clock + lease)
        && (forall j :: 0 <= j < |s.jobs| && j != id ==> t.jobs[j] == Buried(s.jobs, s.clock)[j])
  {
  }

  /** Waiting to be run, or left running by a worker whose lease ran out (and not being cancelled). */
  predicate Takeable(s: Store, i: nat)
    requires i < |s.jobs|
  {
    Claimable(s.jobs[i], s.clock) && !Abandoned(s.jobs[i], s.clock)
  }

  // ---- Cancellation ------------------------------------------------------------------------

  /** A running job that is to be cancelled. */
  predicate Doomed(s: Store, id: nat) {
    id < |s.jobs| && s.jobs[id].state == Running && s.jobs[id].cancelRequested
  }

  /** Only the worker running a job moves it; operators may still cancel or retry it. */
  predicate MovedByRunner(op: Op, id: nat) {
    op.DoTransition? && op.id == id ==> op.runner != ""
  }

  predicate Claims(s: Store, op: Op, id: nat) {
    op.DoClaim? && Claim(s, op.worker, op.lease).1 == Ok(Some(id))
  }

  lemma CreateKeepsRows(s: Store, x: Submission, id: nat)
    requires id < |s.jobs|
    ensures id < |Create(s, x).0.jobs| && Create(s, x).0.jobs[id] == s.jobs[id]
  {
  }

  lemma RetryKeepsRunning(s: Store, i: nat, actor: string, key: Option<string>, subject: string, hooks: bool, id: nat)
    requires id < |s.jobs| && s.jobs[id].state == Running
    ensures var t := Retry(s, i, actor, key, subject, hooks).0;
      id < |t.jobs| && t.jobs[id] == s.jobs[id]
  {
    hide Create, ByKey;
    if i < |s.jobs| {
      var x := RetryOf(s.jobs[i], i, actor, key, subject, hooks);
      CreateKeepsRows(s, x, id);
      CreateKeepsRows(Transition(s, i, Cancelled, "").0, x, id);
    }
  }

  /** A job being cancelled is never claimed again; it can only stay so, or end. */
  lemma DoomedStep(s: Store, op: Op, id: nat)
    requires Doomed(s, id) && MovedByRunner(op, id)
    ensures !Claims(s, op, id) && id < |Apply(s, op).jobs|
    ensures Doomed(Apply(s, op), id) || Apply(s, op).jobs[id].state in {Cancelled, Succeeded, Failed}
  {
    match op
    case DoCreate(x) => hide Create; CreateKeepsRows(s, x, id);
    case DoByKey(x, checkActive) => hide Replay;
    case DoRetry(i, actor, key, subject, hooks) => hide Retry; RetryKeepsRunning(s, i, actor, key, subject, hooks, id);
    case _ =>
  }

  /**
   * From a cancel request on, however long the run: the job is never started again, and it is
   * either still being cancelled by its runner or has ended - cancelled, succeeded or failed.
   */
  lemma {:induction false} CancelledJobsEnd(s: Store, ops: seq<Op>, id: nat)
    requires Inv(s) && id < |s.jobs|
    requires Doomed(s, id) || Finished(s.jobs[id].state)
    requires forall op <- ops :: MovedByRunner(op, id)
    ensures var t := Run(s, ops);
      id < |t.jobs| && (Doomed(t, id) || Finished(t.jobs[id].state))
    ensures forall k :: 0 <= k < |ops| ==> !Claims(Run(s, ops[..k]), ops[k], id)
    decreases |ops|
  {
    if ops == [] { return; }
    hide Apply, Doomed;
    ApplyInv(s, ops[0]);
    NextDoomed(s, ops[0], id);
    CancelledJobsEnd(Apply(s, ops[0]), ops[1..], id);
    forall k | 0 <= k < |ops| ensures !Claims(Run(s, ops[..k]), ops[k], id) {
      if k > 0 {
        assert ops[..k][0] == ops[0] && ops[..k][1..] == ops[1..][..k - 1];
        assert !Claims(Run(Apply(s, ops[0]), ops[1..][..k - 1]), ops[1..][k - 1], id);
      }
    }
  }

  lemma {:induction false} NextDoomed(s: Store, op: Op, id: nat)
    requires Inv(s) && id < |s.jobs| && MovedByRunner(op, id)
    requires Doomed(s, id) || Finished(s.jobs[id].state)
    ensures var t := Apply(s, op);
      id < |t.jobs| && (Doomed(t, id) || Finished(t.jobs[id].state)) && !Claims(s, op, id)
  {
    hide Apply, Inv;
    ApplyInv(s, op);
    if Doomed(s, id) {
      DoomedStep(s, op, id);
    } else {
      assert Progress(s.jobs[id], Apply(s, op).jobs[id]);
    }
  }

  /** Once its worker's lease has run out, the next claim by anyone records it as cancelled. */
  lemma DeadWorkersCancelledJobIsBuried(s: Store, worker: string, lease: int, id: nat)
    requires Inv(s) && Doomed(s, id) && Expired(s.jobs[id], s.clock) && worker != "" && lease >= 10
    ensures Claim(s, worker, lease).0.jobs[id].state == Cancelled
  {
  }

  // ---- Takeover ----------------------------------------------------------------------------

  predicate ClaimBy(op: Op, worker: string) { op.DoClaim? && op.worker == worker }

  /** Only a worker's own claim makes it the owner of a lease. */
  lemma OwnerStep(s: Store, op: Op, id: nat, worker: string)
    requires id < |s.jobs| && worker != "" && s.jobs[id].leaseOwner != worker && !ClaimBy(op, worker)
    ensures id < |Apply(s, op).jobs| && Apply(s, op).jobs[id].leaseOwner != worker
  {
    match op
    case DoCreate(x) => hide Create; CreateKeepsRows(s, x, id);
    case DoByKey(x, checkActive) => hide Replay;
    case DoRetry(i, actor, key, subject, hooks) => hide Retry; RetryKeepsOwner(s, i, actor, key, subject, hooks, id);
    case DoClaim(_, _) =>
    case DoTransition(_, _, _) =>
    case DoCancel(_) =>
    case _ =>
  }

  lemma RetryKeepsOwner(s: Store, i: nat, actor: string, key: Option<string>, subject: string, hooks: bool, id: nat)
    requires id < |s.jobs|
    ensures var t := Retry(s, i, actor, key, subject, hooks).0;
      id < |t.jobs| && t.jobs[id].leaseOwner in {s.jobs[id].leaseOwner, ""}
  {
    hide Create, ByKey;
    if i < |s.jobs| {
      var x := RetryOf(s.jobs[i], i, actor, key, subject, hooks);
      CreateKeepsRows(s, x, id);
      CreateKeepsRows(Transition(s, i, Cancelled, "").0, x, id);
    }
  }

  /**
   * After a takeover the earlier worker stays locked out however long the run, until it claims
   * again: while the job runs, its heartbeat, its acknowledgement and its moves are all refused.
   */
  lemma {:induction false} TakenOver(s: Store, ops: seq<Op>, id: nat, worker: string, lease: int, state: State)
    requires Inv(s) && id < |s.jobs| && worker != "" && s.jobs[id].leaseOwner != worker
    requires forall op <- ops :: !ClaimBy(op, worker)
    ensures var t := Run(s, ops);
      && id < |t.jobs| && t.jobs[id].leaseOwner != worker
      && (t.jobs[id].state == Running ==>
            && Interruption(t, id, worker) == StopLeaseLost
            && !Heartbeat(t, id, worker, lease).1 && !AcknowledgeCancel(t, id, worker).1
            && Transition(t, id, state, worker) == (t, Err(LeaseLost)))
    decreases |ops|
  {
    if ops == [] { return; }
    hide Apply, Inv;
    ApplyInv(s, ops[0]);
    OwnerStep(s, ops[0], id, worker);
    TakenOver(Apply(s, ops[0]), ops[1..], id, worker, lease, state);
  }

  /** While a job runs, two workers never both pass the check that lets a runner carry on. */
  lemma OneRunner(s: Store, id: nat, a: string, b: string)
    requires id < |s.jobs| && s.jobs[id].state == Running
    requires Interruption(s, id, a) == CarryOn && Interruption(s, id, b) == CarryOn
    ensures a == b == s.jobs[id].leaseOwner
  {
  }

  // ---- Idempotency -------------------------------------------------------------------------

  /** Once a keyed request was accepted it is remembered, and repeating it gives the same job in any later state. */
  lemma {:induction false} AcceptedOnceReplaysForEver(s: Store, x: Submission, ops: seq<Op>)
    requires Inv(s) && x.key.Some? && Create(s, x).1.Ok?
    ensures var (t, r) := Create(s, x); Create(Run(t, ops), x) == (Run(t, ops), r)
  {
    hide Inv, Submission.Acceptable, Run;
    CreateInv(s, x);
    RunInv(Create(s, x).0, ops);
    assert x.Slot() in Create(s, x).0.requests;
    hide ActiveOn, Progress;
  }

  /** A remembered key never serves another command: the request is refused and nothing changes. */
  lemma {:induction false} OtherCommandsAreRefused(s: Store, x: Submission, ops: seq<Op>, y: Submission)
    requires Inv(s) && x.key.Some? && Create(s, x).1.Ok?
    requires y.Acceptable() && y.key.Some? && y.Slot() == x.Slot() && y.Fingerprint() != x.Fingerprint()
    ensures var t := Run(Create(s, x).0, ops); Create(t, y) == (t, Err(IdempotencyConflict))
  {
    hide Inv, Submission.Acceptable;
    CreateInv(s, x);
    RunInv(Create(s, x).0, ops);
  }

  /** Looking a keyed command up first tells exactly what submitting it would do. */
  lemma LookupForeseesSubmission(s: Store, x: Submission)
    requires x.Acceptable() && x.key.Some?
    ensures var ((found, answer), (t, r)) := (ByKey(s, x, true), Create(s, x));
      match answer
      case Err(refusal) => found == s && t == s && r == Err(refusal)
      case Ok(Some(job)) => found == t && r == Ok(job) && |t.jobs| == |s.jobs|
      case Ok(None) =>
        found == s && (if x.hooks then r == Ok(|s.jobs|) && |t.jobs| == |s.jobs| + 1 else r == Err(HookFailed) && t == s)
  {
  }

  /** Whether an operation inserts a job for this caller, namespace and key. */
  predicate InsertsFor(s: Store, op: Op, slot: RequestKey) {
    && |Apply(s, op).jobs| > |s.jobs|
    && (match op
        case DoCreate(x) => x.key.Some? && x.Slot() == slot
        case DoRetry(id, actor, key, subject, hooks) =>
          id < |s.jobs| && key.Some? && RetryOf(s.jobs[id], id, actor, key, subject, hooks).Slot() == slot
        case _ => false)
  }

  lemma InsertIsRemembered(s: Store, op: Op, slot: RequestKey)
    requires InsertsFor(s, op, slot)
    ensures slot !in s.requests && slot in Apply(s, op).requests
  {
  }

  /** In any run at most one operation inserts a job for a given caller, namespace and key. */
  lemma {:induction false} InsertedOnce(s: Store, ops: seq<Op>, slot: RequestKey, i: nat, j: nat)
    requires Inv(s) && i < j < |ops| && InsertsFor(Run(s, ops[..i]), ops[i], slot)
    ensures !InsertsFor(Run(s, ops[..j]), ops[j], slot)
  {
    hide Inv, Apply, InsertsFor;
    var before := Run(s, ops[..i]);
    RunInv(s, ops[..i]);
    InsertIsRemembered(before, ops[i], slot);
    ApplyInv(before, ops[i]);
    RunInv(Apply(before, ops[i]), ops[i + 1..j]);
    RunSplit(s, ops, i, j);
    if InsertsFor(Run(s, ops[..j]), ops[j], slot) { InsertIsRemembered(Run(s, ops[..j]), ops[j], slot); }
  }

  lemma {:induction false} RunSplit(s: Store, ops: seq<Op>, i: nat, j: nat)
    requires i < j <= |ops|
    ensures Run(s, ops[..j]) == Run(Apply(Run(s, ops[..i]), ops[i]), ops[i + 1..j])
    decreases i
  {
    hide Apply;
    assert ops[..j][0] == ops[0] && ops[..j][1..] == ops[1..j];
    if i > 0 {
      assert ops[..i][0] == ops[0] && ops[..i][1..] == ops[1..i];
      RunSplit(Apply(s, ops[0]), ops[1..], i - 1, j - 1);
      assert ops[1..][..j - 1] == ops[1..j] && ops[1..][..i - 1] == ops[1..i];
      assert ops[1..][i..j - 1] == ops[i + 1..j];
    }
  }
}
