/** What each call to the job store does, exactly, in terms of the rows it finds. */
module JobFacts {
  import opened Wrappers
  import opened Jobs

  /** The moves the table allows from one state to another. */
  predicate MayFollow(before: State, after: State) {
    match before
    case Queued => after.Running? || after.Waiting? || after.Failed? || after.Cancelled?
    case Running => after.Waiting? || after.Succeeded? || after.Failed? || after.Cancelled?
    case Waiting => after.Queued? || after.Running? || after.Failed? || after.Cancelled?
    case _ => false
  }

  /** Another worker has it. */
  predicate TakenFrom(job: Job, runner: string) { runner != "" && job.state.Running? && job.leaseOwner != runner }

  /** Its runner must stop instead. */
  predicate ToldToStop(job: Job, runner: string, state: State) {
    && runner != ""
    && ((job.state.Cancelled? && !state.Cancelled?) || (job.cancelRequested && (state.Running? || state.Waiting?)))
  }

  /** A job is moved exactly along the table, by its lease holder if it runs for one; only a running job keeps its lease. */
  lemma MovesExactly(s: Store, id: nat, state: State, runner: string)
    ensures var (t, r) := Transition(s, id, state, runner);
      && (r.Ok? <==> id < |s.jobs| && !TakenFrom(s.jobs[id], runner) && !ToldToStop(s.jobs[id], runner, state)
                     && (state == s.jobs[id].state || MayFollow(s.jobs[id].state, state)))
      && (r.Ok? ==>
            && r.value == state
            && t == s.(jobs := s.jobs[id := s.jobs[id].(
                 state := state, leaseOwner := if state.Running? then s.jobs[id].leaseOwner else "",
                 leaseExpires := if state.Running? then s.jobs[id].leaseExpires else None)]))
      && (r.Err? ==> t == s)
      && (r == Err(Unknown) <==> id >= |s.jobs|)
      && (r == Err(LeaseLost) <==> id < |s.jobs| && TakenFrom(s.jobs[id], runner))
      && (r == Err(CancelRequested) <==>
            id < |s.jobs| && !TakenFrom(s.jobs[id], runner) && ToldToStop(s.jobs[id], runner, state))
  {
  }

  /** Its lease ended before this moment. */
  predicate Over(job: Job, now: int) { job.leaseExpires.Some? && job.leaseExpires.value < now }

  /** A worker may take it: queued, or left running by a worker that did not renew, and nobody asked to cancel it. */
  predicate Free(job: Job, now: int) {
    job.state.Queued? || (job.state.Running? && Over(job, now) && !job.cancelRequested)
  }

  predicate Left(job: Job, now: int) { job.state.Running? && Over(job, now) && job.cancelRequested }

  /** The oldest, and of several equally old the first row. */
  predicate FirstFree(s: Store, id: nat) {
    && id < |s.jobs| && Free(s.jobs[id], s.clock)
    && forall i :: 0 <= i < |s.jobs| && Free(s.jobs[i], s.clock) ==>
      s.jobs[id].createdAt < s.jobs[i].createdAt || (s.jobs[id].createdAt == s.jobs[i].createdAt && id <= i)
  }

  /** A claim takes the first free job for so long, ends those left over after a cancel, and changes no other row. */
  lemma ClaimsExactly(s: Store, worker: string, lease: int)
    ensures var (t, r) := Claim(s, worker, lease);
      && (r.Err? <==> worker == "" || lease < 10) && (r.Err? ==> t == s && r == Err(Invalid))
      && (forall id: nat :: r == Ok(Some(id)) ==> FirstFree(s, id))
      && (r == Ok(None) ==> forall job <- s.jobs :: !Free(job, s.clock))
      && t.requests == s.requests && t.clock == s.clock && |t.jobs| == |s.jobs|
      && (forall i: nat :: r == Ok(Some(i)) ==>
            t.jobs[i] == s.jobs[i].(state := Running, leaseOwner := worker, leaseExpires := Some(s.clock + lease)))
      && (forall i: nat :: r.Ok? && i < |s.jobs| && Left(s.jobs[i], s.clock) ==>
            t.jobs[i] == s.jobs[i].(state := Cancelled, leaseOwner := "", leaseExpires := None))
      && (forall i: nat :: r.Ok? && i < |s.jobs| && r.value != Some(i) && !Left(s.jobs[i], s.clock) ==> t.jobs[i] == s.jobs[i])
  {
    if worker != "" && lease >= 10 {
      var jobs := Buried(s.jobs, s.clock);
      assert forall i :: 0 <= i < |jobs| ==> (Claimable(jobs[i], s.clock) <==> Free(s.jobs[i], s.clock));
      assert forall i :: 0 <= i < |jobs| ==> jobs[i].createdAt == s.jobs[i].createdAt;
      if Oldest(jobs, s.clock).None? {
        forall i | 0 <= i < |s.jobs| ensures !Free(s.jobs[i], s.clock) { assert jobs[i] in jobs; }
      }
    }
  }

  /** The worker a job runs for renews it, and nobody else. */
  lemma RenewsExactly(s: Store, id: nat, worker: string, lease: int)
    ensures var (t, renewed) := Heartbeat(s, id, worker, lease);
      && (renewed <==> id < |s.jobs| && s.jobs[id].state.Running? && s.jobs[id].leaseOwner == worker)
      && t == if renewed then s.(jobs := s.jobs[id := s.jobs[id].(leaseExpires := Some(s.clock + lease))]) else s
  {
  }

  /** A running job is marked and goes on; any other is cancelled, if the table allows it. */
  lemma CancelsExactly(s: Store, id: nat)
    ensures var (t, r) := Cancel(s, id);
      && (id >= |s.jobs| ==> t == s && r == Err(Unknown))
      && (id < |s.jobs| && s.jobs[id].state.Running? ==>
            r == Ok(Running) && t == s.(jobs := s.jobs[id := s.jobs[id].(cancelRequested := true)]))
      && (id < |s.jobs| && (s.jobs[id].state.Queued? || s.jobs[id].state.Waiting?) ==>
            r == Ok(Cancelled) &&
            t == s.(jobs := s.jobs[id := s.jobs[id].(state := Cancelled, leaseOwner := "", leaseExpires := None)]))
      && (id < |s.jobs| && (s.jobs[id].state.Succeeded? || s.jobs[id].state.Failed?) ==> t == s && r == Err(BadTransition))
  {
  }

  /** A running job is marked at once; what else is cancelled may have been claimed between the two transactions. */
  lemma CancelsInTwoExactly(s: Store, id: nat, between: Option<(string, int)>)
    ensures between.None? || (id < |s.jobs| && s.jobs[id].state.Running?) ==> CancelInTwo(s, id, between) == Cancel(s, id)
    ensures between.Some? && id < |s.jobs| && !s.jobs[id].state.Running? ==>
      CancelInTwo(s, id, between) == Transition(Claim(s, between.value.0, between.value.1).0, id, Cancelled, "")
  {
    hide Claim, Transition;
  }

  /** Only the worker a job runs for can record that it stopped. */
  lemma AcknowledgesExactly(s: Store, id: nat, worker: string)
    ensures var (t, stopped) := AcknowledgeCancel(s, id, worker);
      && (stopped <==> id < |s.jobs| && s.jobs[id].state.Running? && s.jobs[id].leaseOwner == worker)
      && t == if stopped then
           s.(jobs := s.jobs[id := s.jobs[id].(state := Cancelled, leaseOwner := "", leaseExpires := None)])
         else s
  {
  }

  /** When a runner carries on, when it is told that it was cancelled, and when that its job is no longer its own. */
  lemma InterruptsExactly(s: Store, id: nat, worker: string)
    ensures var r := Interruption(s, id, worker);
      && (r == StopLeaseLost <==>
            id >= |s.jobs| || s.jobs[id].state.Queued? || (s.jobs[id].state.Running? && s.jobs[id].leaseOwner != worker))
      && (r == StopCancelled <==>
            id < |s.jobs| && (s.jobs[id].state.Cancelled?
              || (s.jobs[id].state.Running? && s.jobs[id].leaseOwner == worker && s.jobs[id].cancelRequested)))
  {
  }

  // ---- Submitting ------------------------------------------------------------------------------

  /** What a submission must be. */
  predicate WellFormed(x: Submission) {
    && (x.kind == "lifecycle" || x.kind == "backup" || x.kind == "restore" || x.kind == "wiring" || x.kind == "update"
        || x.kind == "verification")
    && x.service != "" && x.action != "" && x.actor != ""
    && (x.key.Some? ==> |x.key.value| <= 128 && exists c <- x.key.value :: c !in {' ', '\t', '\r', '\n'})
  }

  /** Where an answer to this request is remembered: by caller, namespace and key. */
  function Place(x: Submission): RequestKey
    requires x.key.Some?
  {
    RequestKey(if x.subject == "" then "actor:" + x.actor else x.subject,
               if x.namespace == "" then "jobs:" + x.kind else x.namespace, x.key.value)
  }

  function Sender(x: Submission): Identity {
    Identity(if x.subject == "" then "actor:" + x.actor else x.subject,
             if x.namespace == "" then "jobs:" + x.kind else x.namespace,
             Some(Command(x.kind, x.service, x.action, x.request)))
  }

  predicate Clashes(s: Store, x: Submission)
    requires x.key.Some?
  {
    if Place(x) in s.requests then s.requests[Place(x)].command != Command(x.kind, x.service, x.action, x.request)
    else exists job <- s.jobs :: job.key == x.key && job.identity.command.None?
  }

  predicate Answered(s: Store, x: Submission)
    requires x.key.Some?
  {
    Place(x) in s.requests && s.requests[Place(x)].command == Command(x.kind, x.service, x.action, x.request)
  }

  /** The newest job of the service that has not ended. */
  predicate Holds(s: Store, service: string, id: nat) {
    && id < |s.jobs| && s.jobs[id].service == service && Unended(s.jobs[id].state)
    && forall i :: id < i < |s.jobs| && s.jobs[i].service == service ==> !Unended(s.jobs[i].state)
  }

  predicate Unended(state: State) { state.Queued? || state.Running? || state.Waiting? }

  function Noted(s: Store, x: Submission, job: nat): map<RequestKey, Remembered> {
    if x.key.None? then s.requests
    else s.requests[Place(x) := Remembered(Command(x.kind, x.service, x.action, x.request), job)]
  }

  lemma {:induction false} ActiveExactly(jobs: seq<Job>, service: string)
    ensures var r := ActiveOn(jobs, service);
      && (r.Some? ==> forall i :: r.value < i < |jobs| && jobs[i].service == service ==> !Unended(jobs[i].state))
      && (r.None? ==> forall i :: 0 <= i < |jobs| && jobs[i].service == service ==> !Unended(jobs[i].state))
    decreases |jobs|
  {
    if jobs != [] { ActiveExactly(jobs[..|jobs| - 1], service); }
  }

  lemma HoldsExactly(s: Store, service: string)
    ensures forall id: nat :: Holds(s, service, id) <==> ActiveOn(s.jobs, service) == Some(id)
  {
    ActiveExactly(s.jobs, service);
    hide ActiveOn;
  }

  lemma Readable(x: Submission)
    ensures x.Acceptable() <==> WellFormed(x)
    ensures x.Sender() == Sender(x) && x.Fingerprint() == Command(x.kind, x.service, x.action, x.request)
    ensures x.key.Some? ==> x.Slot() == Place(x)
  {
    if x.key.Some? && !Blank(x.key.value) {
      var c :| c in x.key.value && c !in " \t\r\n";
      assert " \t\r\n"[0] == ' ' && " \t\r\n"[1] == '\t' && " \t\r\n"[2] == '\r' && " \t\r\n"[3] == '\n';
    }
  }

  /**
   * A request is answered by the job it led to before, refused where its key stands for another
   * command or another caller's job holds the service, joined to the same caller's same job, or
   * inserted as one queued row.
   */
  lemma CreatesExactly(s: Store, x: Submission)
    ensures var (t, r) := Create(s, x);
      && (!WellFormed(x) ==> t == s && r == Err(Invalid))
      && (WellFormed(x) && x.key.Some? && Clashes(s, x) ==> t == s && r == Err(IdempotencyConflict))
      && (WellFormed(x) && x.key.Some? && Answered(s, x) ==> t == s && r == Ok(s.requests[Place(x)].job))
      && (WellFormed(x) && (x.key.Some? ==> !Clashes(s, x) && !Answered(s, x)) ==>
            && (forall id: nat :: Holds(s, x.service, id) ==>
                  if s.jobs[id].identity == Sender(x) then r == Ok(id) && t == s.(requests := Noted(s, x, id))
                  else t == s && r == Err(ResourceBusy(id)))
            && ((forall id: nat :: !Holds(s, x.service, id)) ==>
                  if x.hooks then
                    && r == Ok(|s.jobs|)
                    && t == s.(requests := Noted(s, x, |s.jobs|), jobs := s.jobs + [
                         Job(x.kind, x.service, x.action, Queued, s.clock, x.key, Sender(x), x.params, "", None, false)])
                  else t == s && r == Err(HookFailed)))
  {
    Readable(x);
    HoldsExactly(s, x.service);
    hide ActiveOn, Submission.Acceptable, WellFormed, Holds;
    var active := ActiveOn(s.jobs, x.service);
    if active.Some? { assert Holds(s, x.service, active.value); }
  }

  /** Looking a request up says what submitting it would, and inserts nothing. */
  lemma LooksUpExactly(s: Store, x: Submission, checkActive: bool)
    ensures var (t, r) := ByKey(s, x, checkActive);
      var keyed := x.key.Some? && x.key.value != "";
      && t.jobs == s.jobs && t.clock == s.clock
      && (keyed && Clashes(s, x) ==> t == s && r == Err(IdempotencyConflict))
      && (keyed && Answered(s, x) ==> t == s && r == Ok(Some(s.requests[Place(x)].job)))
      && ((keyed ==> !Clashes(s, x) && !Answered(s, x)) ==>
            && (!checkActive ==> t == s && r == Ok(None))
            && (checkActive ==>
                  && (forall id: nat :: Holds(s, x.service, id) ==>
                        if s.jobs[id].identity == Sender(x) then
                          r == Ok(Some(id)) && t == if keyed then s.(requests := Noted(s, x, id)) else s
                        else t == s && r == Err(ResourceBusy(id)))
                  && ((forall id: nat :: !Holds(s, x.service, id)) ==> t == s && r == Ok(None))))
  {
    Readable(x);
    HoldsExactly(s, x.service);
    hide ActiveOn, Submission.Acceptable, WellFormed, Holds;
    var active := ActiveOn(s.jobs, x.service);
    if active.Some? { assert Holds(s, x.service, active.value); }
  }

  /**
   * A retry submits the job's own command again, as "try this job again". A waiting job is cancelled
   * with it, and only if the new attempt is accepted; other unfinished or successful jobs are refused.
   */
  lemma RetriesExactly(s: Store, id: nat, actor: string, key: Option<string>, subject: string, hooks: bool)
    ensures var (t, r) := Retry(s, id, actor, key, subject, hooks);
      && (id >= |s.jobs| ==> t == s && r == Err(Unknown))
      && (id < |s.jobs| ==>
            var job := s.jobs[id];
            var x := Submission(job.kind, job.service, job.action, actor, key, subject, "jobs.retry", Again(id), job.params, hooks);
            var known := ByKey(s, x, false).1;
            && (known.Err? ==> t == s && r == Err(known.error))
            && (known.Ok? && known.value.Some? ==> t == s && r == Ok(known.value.value))
            && (known == Ok(None) && !job.state.Failed? && !job.state.Waiting? ==> t == s && r == Err(NotRetryable))
            && (known == Ok(None) && job.state.Failed? ==> (t, r) == Create(s, x))
            && (known == Ok(None) && job.state.Waiting? ==>
                  var (u, made) := Create(
                    s.(jobs := s.jobs[id := job.(state := Cancelled, leaseOwner := "", leaseExpires := None)]), x);
                  r == made && t == if made.Ok? then u else s))
  {
    hide ByKey, Submission.Acceptable, ActiveOn, Replay;
    if id < |s.jobs| {
      var job := s.jobs[id];
      MovesExactly(s, id, Cancelled, "");
      CreateRefused(s, RetryOf(job, id, actor, key, subject, hooks));
    }
  }

  lemma CreateRefused(s: Store, x: Submission)
    ensures Create(s, x).1.Err? ==> Create(s, x).0 == s
  {
  }
}
