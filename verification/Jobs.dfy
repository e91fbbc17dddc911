/**
 * The durable job queue: every store method is one SQLite transaction, so it
 * is one step from a `Store` to a `Store`. The functions give each step; the
 * class `JobStore` performs it on its tables.
 *
 * A job's id is its row number (ids are never reused). The keyed request hash
 * is taken to be collision-free, so a fingerprint is the command itself; rows
 * written before fingerprints existed have none.
 */
module Jobs {
  import opened Wrappers

  datatype State = Queued | Running | Waiting | Succeeded | Failed | Cancelled

  predicate Active(state: State) { state in {Queued, Running, Waiting} }

  predicate Finished(state: State) { state in {Succeeded, Failed, Cancelled} }

  function Transitions(state: State): set<State> {
    match state
    case Queued => {Running, Waiting, Failed, Cancelled}
    case Running => {Waiting, Succeeded, Failed, Cancelled}
    case Waiting => {Queued, Running, Failed, Cancelled}
    case _ => {}
  }

  /** The inputs a command names: its parameters, or the job it tries again. */
  datatype Request = Inputs(text: string) | Again(job: nat)

  datatype Command = Command(kind: string, service: string, action: string, request: Request)

  /** Who asked for what: the caller, the request's namespace and its fingerprint. */
  datatype Identity = Identity(subject: string, namespace: string, command: Option<Command>)

  datatype Job = Job(
    kind: string, service: string, action: string, state: State, createdAt: int, key: Option<string>,
    identity: Identity, params: string, leaseOwner: string, leaseExpires: Option<int>, cancelRequested: bool)

  datatype RequestKey = RequestKey(subject: string, namespace: string, key: string)

  datatype Remembered = Remembered(command: Command, job: nat)

  datatype Store = Store(jobs: seq<Job>, requests: map<RequestKey, Remembered>, clock: int)

  datatype Refusal =
    | Invalid
    | IdempotencyConflict
    | ResourceBusy(job: nat)
    | Unknown
    | BadTransition
    | LeaseLost
    | CancelRequested
    | NotRetryable
    | HookFailed

  const SAFE_KINDS := {"lifecycle", "backup", "restore", "wiring", "update", "verification"}
  const RETRY_NAMESPACE := "jobs.retry"

  // ---- Submitting --------------------------------------------------------------------

  /** What a caller submits. `hooks` says whether its own writes, made in the same transaction, succeed. */
  datatype Submission = Submission(
    kind: string, service: string, action: string, actor: string, key: Option<string>,
    subject: string, namespace: string, request: Request, params: string, hooks: bool)
  {
    function Fingerprint(): Command { Command(kind, service, action, request) }

    function Caller(): string { if subject != "" then subject else "actor:" + actor }

    function Space(): string { if namespace != "" then namespace else "jobs:" + kind }

    function Sender(): Identity { Identity(Caller(), Space(), Some(Fingerprint())) }

    predicate Acceptable() {
      && kind in SAFE_KINDS && service != "" && action != "" && actor != ""
      && (key.Some? ==> !Blank(key.value) && |key.value| <= 128)
    }

    function Slot(): RequestKey
      requires key.Some?
    {
      RequestKey(Caller(), Space(), key.value)
    }
  }

  predicate Blank(text: string) { forall c <- text :: c in " \t\r\n" }

  /** The job an earlier request with this key led to, if it was this very request. */
  function Replay(s: Store, key: RequestKey, command: Command): Result<Option<nat>, Refusal> {
    if key in s.requests then
      if s.requests[key].command == command then Ok(Some(s.requests[key].job)) else Err(IdempotencyConflict)
    else if exists job <- s.jobs :: job.key == Some(key.key) && job.identity.command.None? then Err(IdempotencyConflict)
    else Ok(None)
  }

  /** The newest active job on a resource. */
  function ActiveOn(jobs: seq<Job>, service: string): (r: Option<nat>)
    ensures r.Some? ==> r.value < |jobs| && jobs[r.value].service == service && Active(jobs[r.value].state)
    ensures r.None? ==> forall job <- jobs :: job.service == service ==> !Active(job.state)
  {
    if jobs == [] then None else
    var n := |jobs| - 1;
    if jobs[n].service == service && Active(jobs[n].state) then Some(n) else ActiveOn(jobs[..n], service)
  }

  function Remember(s: Store, x: Submission, job: nat): Store {
    if x.key.None? then s else s.(requests := s.requests[x.Slot() := Remembered(x.Fingerprint(), job)])
  }

  function Create(s: Store, x: Submission): (Store, Result<nat, Refusal>) {
    if !x.Acceptable() then (s, Err(Invalid)) else
    var previous := if x.key.Some? then Replay(s, x.Slot(), x.Fingerprint()) else Ok(None);
    if previous.Err? then (s, Err(previous.error))
    else if previous.value.Some? then (s, Ok(previous.value.value))
    else
      match ActiveOn(s.jobs, x.service)
      case Some(active) =>
        if s.jobs[active].identity != x.Sender() then (s, Err(ResourceBusy(active)))
        else (Remember(s, x, active), Ok(active))
      case None =>
        if !x.hooks then (s, Err(HookFailed)) else
        var job := Job(x.kind, x.service, x.action, Queued, s.clock, x.key, x.Sender(), x.params, "", None, false);
        (Remember(s.(jobs := s.jobs + [job]), x, |s.jobs|), Ok(|s.jobs|))
  }

  /** Looks up a request without submitting it; an active job for the same command answers it too. */
  function ByKey(s: Store, x: Submission, checkActive: bool): (Store, Result<Option<nat>, Refusal>) {
    var previous := if x.key.Some? && x.key.value != "" then Replay(s, x.Slot(), x.Fingerprint()) else Ok(None);
    if previous.Err? || previous.value.Some? || !checkActive then (s, previous)
    else
      match ActiveOn(s.jobs, x.service)
      case None => (s, Ok(None))
      case Some(active) =>
        if s.jobs[active].identity != x.Sender() then (s, Err(ResourceBusy(active)))
        else if x.key.Some? && x.key.value != "" then (Remember(s, x, active), Ok(Some(active)))
        else (s, Ok(Some(active)))
  }

  // ---- Moving a job -------------------------------------------------------------------

  function Moved(job: Job, state: State): Job {
    if state == Running then job.(state := state) else job.(state := state, leaseOwner := "", leaseExpires := None)
  }

  /** `runner` is the worker whose thread this is, when it is running this job; else "". */
  function Transition(s: Store, id: nat, state: State, runner: string): (Store, Result<State, Refusal>) {
    if id >= |s.jobs| then (s, Err(Unknown)) else
    var job := s.jobs[id];
    if runner != "" && job.state == Running && job.leaseOwner != runner then (s, Err(LeaseLost))
    else if runner != "" && job.state == Cancelled && state != Cancelled then (s, Err(CancelRequested))
    else if runner != "" && job.cancelRequested && state in {Running, Waiting} then (s, Err(CancelRequested))
    else if state != job.state && state !in Transitions(job.state) then (s, Err(BadTransition))
    else (s.(jobs := s.jobs[id := Moved(job, state)]), Ok(state))
  }

  predicate Expired(job: Job, now: int) { job.leaseExpires.Some? && job.leaseExpires.value < now }

  predicate Claimable(job: Job, now: int) { job.state == Queued || (job.state == Running && Expired(job, now)) }

  /** Someone asked to cancel it and its worker died: it is finished, never started again. */
  predicate Abandoned(job: Job, now: int) { job.state == Running && job.cancelRequested && Expired(job, now) }

  function Buried(jobs: seq<Job>, now: int): (r: seq<Job>)
    ensures |r| == |jobs|
    ensures forall i :: 0 <= i < |jobs| ==>
      r[i] == if Abandoned(jobs[i], now) then Moved(jobs[i], Cancelled) else jobs[i]
  {
    seq(|jobs|, i requires 0 <= i < |jobs| => if Abandoned(jobs[i], now) then Moved(jobs[i], Cancelled) else jobs[i])
  }

  /** The first row in creation order, then row order. */
  function Oldest(jobs: seq<Job>, now: int): (r: Option<nat>)
    ensures r.Some? ==> r.value < |jobs| && Claimable(jobs[r.value], now)
    ensures r.None? ==> forall job <- jobs :: !Claimable(job, now)
    ensures r.Some? ==> forall i :: 0 <= i < |jobs| && Claimable(jobs[i], now) ==>
      jobs[r.value].createdAt < jobs[i].createdAt || (jobs[r.value].createdAt == jobs[i].createdAt && r.value <= i)
  {
    if jobs == [] then None else
    var n := |jobs| - 1;
    var before := Oldest(jobs[..n], now);
    if Claimable(jobs[n], now) && (before.None? || jobs[n].createdAt < jobs[before.value].createdAt) then Some(n) else before
  }

  function Leased(job: Job, worker: string, until: int): Job {
    job.(state := Running, leaseOwner := worker, leaseExpires := Some(until))
  }

  function Claim(s: Store, worker: string, lease: int): (Store, Result<Option<nat>, Refusal>) {
    if worker == "" || lease < 10 then (s, Err(Invalid)) else
    var jobs := Buried(s.jobs, s.clock);
    match Oldest(jobs, s.clock)
    case None => (s.(jobs := jobs), Ok(None))
    case Some(id) => (s.(jobs := jobs[id := Leased(jobs[id], worker, s.clock + lease)]), Ok(Some(id)))
  }

  predicate LeasedTo(s: Store, id: nat, worker: string) {
    id < |s.jobs| && s.jobs[id].state == Running && s.jobs[id].leaseOwner == worker
  }

  function Heartbeat(s: Store, id: nat, worker: string, lease: int): (Store, bool) {
    if !LeasedTo(s, id, worker) then (s, false)
    else (s.(jobs := s.jobs[id := s.jobs[id].(leaseExpires := Some(s.clock + lease))]), true)
  }

  function Cancel(s: Store, id: nat): (Store, Result<State, Refusal>) {
    if id >= |s.jobs| then (s, Err(Unknown))
    else if s.jobs[id].state == Running then
      (s.(jobs := s.jobs[id := s.jobs[id].(cancelRequested := true)]), Ok(Running))
    else Transition(s, id, Cancelled, "")
  }

  /** Reading the row and moving a job that does not run are two transactions; a worker may claim in between. */
  function CancelInTwo(s: Store, id: nat, between: Option<(string, int)>): (Store, Result<State, Refusal>) {
    if between.None? || id >= |s.jobs| || s.jobs[id].state == Running then Cancel(s, id)
    else Transition(Claim(s, between.value.0, between.value.1).0, id, Cancelled, "")
  }

  /** A job that waits is cancelled all the same, and whoever has just claimed it is told to stop. */
  lemma CancelledAnyway(s: Store, id: nat, between: Option<(string, int)>, worker: string)
    requires id < |s.jobs| && s.jobs[id].state in {Queued, Waiting}
    ensures var (t, r) := CancelInTwo(s, id, between);
      r == Ok(Cancelled) && id < |t.jobs| && t.jobs[id].state == Cancelled && Interruption(t, id, worker) == StopCancelled
  {
  }

  function AcknowledgeCancel(s: Store, id: nat, worker: string): (Store, bool) {
    if !LeasedTo(s, id, worker) then (s, false)
    else (s.(jobs := s.jobs[id := Moved(s.jobs[id], Cancelled)]), true)
  }

  datatype Reason = CarryOn | StopCancelled | StopLeaseLost

  function Interruption(s: Store, id: nat, worker: string): Reason {
    if id >= |s.jobs| then StopLeaseLost else
    var job := s.jobs[id];
    if job.state == Cancelled then StopCancelled
    else if job.state == Queued || (job.state == Running && job.leaseOwner != worker) then StopLeaseLost
    else if job.state == Running && job.cancelRequested then StopCancelled
    else CarryOn
  }

  // ---- Retrying -----------------------------------------------------------------------

  function RetryOf(job: Job, id: nat, actor: string, key: Option<string>, subject: string, hooks: bool): Submission {
    Submission(job.kind, job.service, job.action, actor, key, subject, RETRY_NAMESPACE, Again(id), job.params, hooks)
  }

  /** One transaction: when the new attempt is refused, the waiting job it would replace is not cancelled either. */
  function Retry(s: Store, id: nat, actor: string, key: Option<string>, subject: string, hooks: bool):
    (Store, Result<nat, Refusal>)
  {
    if id >= |s.jobs| then (s, Err(Unknown)) else
    var x := RetryOf(s.jobs[id], id, actor, key, subject, hooks);
    var previous := ByKey(s, x, false).1;
    if previous.Err? then (s, Err(previous.error))
    else if previous.value.Some? then (s, Ok(previous.value.value))
    else if s.jobs[id].state !in {Failed, Waiting} then (s, Err(NotRetryable))
    else
      var (ready, moved) := if s.jobs[id].state == Waiting then Transition(s, id, Cancelled, "") else (s, Ok(Cancelled));
      if moved.Err? then (s, Err(moved.error)) else
      var (t, result) := Create(ready, x);
      (if result.Ok? then t else s, result)
  }

  // ---- The store --------------------------------------------------------------------------

  /** The tables and the last reading of the clock, which never runs backwards. */
  class JobStore {
    var jobs: seq<Job>
    var requests: map<RequestKey, Remembered>
    var clock: int

    function Rows(now: int): Store
      reads this
    {
      Store(jobs, requests, now)
    }

    constructor (now: int)
      ensures Rows(now) == Store([], map[], now) && clock == now
    {
      jobs, requests, clock := [], map[], now;
    }

    method CreateJob(x: Submission, now: int) returns (r: Result<nat, Refusal>)
      requires clock <= now
      modifies this
      ensures clock == now && (Rows(now), r) == Create(old(Rows(now)), x)
    {
      clock := now;
      if !x.Acceptable() { return Err(Invalid); }
      if x.key.Some? {
        var previous := Replay(Rows(now), x.Slot(), x.Fingerprint());
        if previous.Err? { return Err(previous.error); }
        if previous.value.Some? { return Ok(previous.value.value); }
      }
      var active := ActiveOn(jobs, x.service);
      if active.Some? {
        if jobs[active.value].identity != x.Sender() { return Err(ResourceBusy(active.value)); }
        RememberRequest(x, active.value);
        return Ok(active.value);
      }
      if !x.hooks { return Err(HookFailed); }
      var id := |jobs|;
      jobs := jobs + [Job(x.kind, x.service, x.action, Queued, now, x.key, x.Sender(), x.params, "", None, false)];
      RememberRequest(x, id);
      return Ok(id);
    }

    method RememberRequest(x: Submission, job: nat)
      modifies this`requests
      ensures Rows(clock) == Remember(old(Rows(clock)), x, job)
    {
      if x.key.Some? {
        requests := requests[x.Slot() := Remembered(x.Fingerprint(), job)];
      }
    }

    method FindByKey(x: Submission, checkActive: bool, now: int) returns (r: Result<Option<nat>, Refusal>)
      requires clock <= now
      modifies this
      ensures clock == now && (Rows(now), r) == ByKey(old(Rows(now)), x, checkActive)
    {
      clock := now;
      var keyed := x.key.Some? && x.key.value != "";
      if keyed {
        var previous := Replay(Rows(now), x.Slot(), x.Fingerprint());
        if previous.Err? || previous.value.Some? { return previous; }
      }
      if !checkActive { return Ok(None); }
      var active := ActiveOn(jobs, x.service);
      if active.None? { return Ok(None); }
      if jobs[active.value].identity != x.Sender() { return Err(ResourceBusy(active.value)); }
      if keyed { RememberRequest(x, active.value); }
      return Ok(Some(active.value));
    }

    method MoveJob(id: nat, state: State, runner: string, now: int) returns (r: Result<State, Refusal>)
      requires clock <= now
      modifies this
      ensures clock == now && (Rows(now), r) == Transition(old(Rows(now)), id, state, runner)
    {
      clock := now;
      if id >= |jobs| { return Err(Unknown); }
      var row := jobs[id];
      if runner != "" {
        if row.state == Running && row.leaseOwner != runner { return Err(LeaseLost); }
        if row.state == Cancelled && state != Cancelled { return Err(CancelRequested); }
        if row.cancelRequested && state in {Running, Waiting} { return Err(CancelRequested); }
      }
      if state != row.state && state !in Transitions(row.state) { return Err(BadTransition); }
      var owner := if state == Running then row.leaseOwner else "";
      var expires := if state == Running then row.leaseExpires else None;
      jobs := jobs[id := row.(state := state, leaseOwner := owner, leaseExpires := expires)];
      return Ok(state);
    }

    /** First finishes what nobody will finish, then takes the oldest job there is to take. */
    method ClaimJob(worker: string, lease: int, now: int) returns (r: Result<Option<nat>, Refusal>)
      requires clock <= now
      modifies this
      ensures clock == now && (Rows(now), r) == Claim(old(Rows(now)), worker, lease)
    {
      clock := now;
      if worker == "" || lease < 10 { return Err(Invalid); }
      var i := 0;
      while i < |jobs|
        invariant 0 <= i <= |jobs| && |jobs| == |old(jobs)|
        invariant forall k :: 0 <= k < i ==> jobs[k] == Buried(old(jobs), now)[k]
        invariant forall k :: i <= k < |jobs| ==> jobs[k] == old(jobs)[k]
        invariant requests == old(requests) && clock == now
      {
        if Abandoned(jobs[i], now) {
          jobs := jobs[i := jobs[i].(state := Cancelled, leaseOwner := "", leaseExpires := None)];
        }
        i := i + 1;
      }
      assert jobs == Buried(old(jobs), now);
      var row := Oldest(jobs, now);
      if row.None? { return Ok(None); }
      var id := row.value;
      jobs := jobs[id := jobs[id].(state := Running, leaseOwner := worker, leaseExpires := Some(now + lease))];
      return Ok(Some(id));
    }

    method RenewLease(id: nat, worker: string, lease: int, now: int) returns (renewed: bool)
      requires clock <= now
      modifies this
      ensures clock == now && (Rows(now), renewed) == Heartbeat(old(Rows(now)), id, worker, lease)
    {
      clock := now;
      renewed := id < |jobs| && jobs[id].state == Running && jobs[id].leaseOwner == worker;
      if renewed {
        jobs := jobs[id := jobs[id].(leaseExpires := Some(now + lease))];
      }
    }

    method CancelJob(id: nat, between: Option<(string, int)>, now: int) returns (r: Result<State, Refusal>)
      requires clock <= now
      modifies this
      ensures clock == now && (Rows(now), r) == CancelInTwo(old(Rows(now)), id, between)
    {
      hide Claim;
      clock := now;
      if id >= |jobs| { return Err(Unknown); }
      if jobs[id].state == Running {
        jobs := jobs[id := jobs[id].(cancelRequested := true)];
        return Ok(Running);
      }
      if between.Some? { var claimed := ClaimJob(between.value.0, between.value.1, now); }
      r := MoveJob(id, Cancelled, "", now);
    }

    method Acknowledge(id: nat, worker: string, now: int) returns (stopped: bool)
      requires clock <= now
      modifies this
      ensures clock == now && (Rows(now), stopped) == AcknowledgeCancel(old(Rows(now)), id, worker)
    {
      clock := now;
      stopped := id < |jobs| && jobs[id].state == Running && jobs[id].leaseOwner == worker;
      if stopped {
        jobs := jobs[id := jobs[id].(state := Cancelled, leaseOwner := "", leaseExpires := None)];
      }
    }

    /** Rolls its own cancellation back when the new attempt is refused. */
    method RetryJob(id: nat, actor: string, key: Option<string>, subject: string, hooks: bool, now: int)
      returns (r: Result<nat, Refusal>)
      requires clock <= now
      modifies this
      ensures clock == now && (Rows(now), r) == Retry(old(Rows(now)), id, actor, key, subject, hooks)
    {
      clock := now;
      if id >= |jobs| { return Err(Unknown); }
      var savedJobs, savedRequests := jobs, requests;
      var x := RetryOf(jobs[id], id, actor, key, subject, hooks);
      var previous := FindByKey(x, false, now);
      if previous.Err? { return Err(previous.error); }
      if previous.value.Some? { return Ok(previous.value.value); }
      if jobs[id].state !in {Failed, Waiting} { return Err(NotRetryable); }
      if jobs[id].state == Waiting {
        var moved := MoveJob(id, Cancelled, "", now);
      }
      r := CreateJob(x, now);
      if r.Err? { jobs, requests := savedJobs, savedRequests; }
    }
  }
}
