/**
 * How a cancelled or taken-over job's side effects stop. A runner checks the
 * store right before each effect; between its own steps any other worker or
 * caller may act on the store.
 */
module JobGuard {
  import opened Wrappers
  import opened Jobs
  import opened JobRuns

  /** One worker's run of one job. `cleared` holds from a passed checkpoint to the effect it was for. */
  datatype Runner = Runner(
    job: nat, worker: string, lost: bool, shielded: nat, cleared: bool, stopped: bool, effects: nat, unshielded: nat)

  datatype Event =
    | Others(op: Op)        // any operation on the store
    | LeaseNotRenewed       // the heartbeat thread could not renew the lease
    | EnterShield
    | LeaveShield
    | Check
    | Effect

  /** Whether a checkpoint raises: the lease may be gone, or someone asked to cancel and no shield is up. */
  predicate MustStop(s: Store, r: Runner) {
    r.lost || (var reason := Interruption(s, r.job, r.worker);
               reason != CarryOn && !(reason == StopCancelled && r.shielded > 0))
  }

  function Next(s: Store, r: Runner, e: Event): (Store, Runner) {
    match e
    case Others(op) => (Apply(s, op), r)
    case LeaseNotRenewed => (s, r.(lost := true))
    case EnterShield => (s, if r.stopped || r.cleared then r else r.(shielded := r.shielded + 1))
    case LeaveShield =>
      (s, if r.stopped || r.cleared || r.shielded == 0 then r else r.(shielded := r.shielded - 1))
    case Check => (s, if r.stopped || r.cleared then r else if MustStop(s, r) then r.(stopped := true) else r.(cleared := true))
    case Effect =>
      (s, if r.stopped || !r.cleared then r
          else r.(cleared := false, effects := r.effects + 1,
                  unshielded := r.unshielded + if r.shielded == 0 then 1 else 0))
  }

  function Trace(s: Store, r: Runner, events: seq<Event>): (Store, Runner)
    decreases |events|
  {
    if events == [] then (s, r) else var (t, q) := Next(s, r, events[0]); Trace(t, q, events[1..])
  }

  /** The effect, if any, that a checkpoint already passed. */
  function Allowance(r: Runner): nat { if r.cleared && r.shielded == 0 then 1 else 0 }

  predicate ByRunnerOnly(e: Event, job: nat) { e.Others? ==> MovedByRunner(e.op, job) }

  /** Cancellation was asked for, or has been carried out. */
  predicate Cancelling(s: Store, job: nat) {
    job < |s.jobs| && (Doomed(s, job) || s.jobs[job].state == Cancelled)
  }

  function StateOf(s: Store, job: nat): Option<State> {
    if job < |s.jobs| then Some(s.jobs[job].state) else None
  }

  /** None of these events brings the job to another end than being cancelled. */
  ghost predicate NotFinishedBy(s: Store, r: Runner, events: seq<Event>) {
    forall k :: 0 <= k <= |events| ==> StateOf(Trace(s, r, events[..k]).0, r.job) !in {Some(Succeeded), Some(Failed)}
  }

  lemma TraceTail(s: Store, r: Runner, events: seq<Event>)
    requires events != [] && NotFinishedBy(s, r, events)
    ensures var (t, q) := Next(s, r, events[0]);
      && NotFinishedBy(t, q, events[1..]) && q.job == r.job && q.worker == r.worker
      && StateOf(t, r.job) !in {Some(Succeeded), Some(Failed)}
  {
    hide Apply, MustStop;
    var (t, q) := Next(s, r, events[0]);
    forall k | 0 <= k <= |events| - 1
      ensures StateOf(Trace(t, q, events[1..][..k]).0, q.job) !in {Some(Succeeded), Some(Failed)}
    {
      assert events[..k + 1][0] == events[0] && events[..k + 1][1..] == events[1..][..k];
      assert StateOf(Trace(s, r, events[..k + 1]).0, r.job) !in {Some(Succeeded), Some(Failed)};
    }
    assert events[1..][..0] == [];
    assert StateOf(Trace(t, q, events[1..][..0]).0, q.job) !in {Some(Succeeded), Some(Failed)};
  }

  lemma {:induction false} CancellingStep(s: Store, r: Runner, e: Event)
    requires Inv(s) && Cancelling(s, r.job) && ByRunnerOnly(e, r.job)
    requires StateOf(Next(s, r, e).0, r.job) !in {Some(Succeeded), Some(Failed)}
    ensures var (t, q) := Next(s, r, e);
      && Inv(t) && Cancelling(t, q.job) && q.unshielded + Allowance(q) <= r.unshielded + Allowance(r)
  {
    if e.Others? {
      hide Apply, Inv;
      ApplyInv(s, e.op);
      if Doomed(s, r.job) { DoomedStep(s, e.op, r.job); } else { assert Progress(s.jobs[r.job], Apply(s, e.op).jobs[r.job]); }
    }
  }

  /**
   * After a cancel request a runner performs at most the one unshielded effect it had already been
   * cleared for, whatever else happens, until the job is recorded with some other outcome.
   */
  lemma {:induction false} AtMostOneEffectAfterCancel(s: Store, r: Runner, events: seq<Event>)
    requires Inv(s) && Cancelling(s, r.job) && NotFinishedBy(s, r, events)
    requires forall e <- events :: ByRunnerOnly(e, r.job)
    ensures Trace(s, r, events).1.unshielded <= r.unshielded + 1
    ensures !r.cleared ==> Trace(s, r, events).1.unshielded == r.unshielded
    decreases |events|
  {
    AllowanceOnly(s, r, events);
  }

  lemma {:induction false} AllowanceOnly(s: Store, r: Runner, events: seq<Event>)
    requires Inv(s) && Cancelling(s, r.job) && NotFinishedBy(s, r, events)
    requires forall e <- events :: ByRunnerOnly(e, r.job)
    ensures var q := Trace(s, r, events).1; r.unshielded <= q.unshielded <= r.unshielded + Allowance(r)
    decreases |events|
  {
    if events == [] { return; }
    hide Inv, Cancelling, ByRunnerOnly;
    TraceTail(s, r, events);
    CancellingStep(s, r, events[0]);
    var (t, q) := Next(s, r, events[0]);
    AllowanceOnly(t, q, events[1..]);
  }

  // ---- Losing the job to another worker ---------------------------------------------------

  /** Someone else holds the job's lease, or it waits to be claimed. */
  predicate Lost(s: Store, r: Runner) {
    r.job < |s.jobs| && s.jobs[r.job].state in {Queued, Running} && s.jobs[r.job].leaseOwner != r.worker
  }

  ghost predicate StaysUnfinished(s: Store, r: Runner, events: seq<Event>) {
    forall k :: 0 <= k <= |events| ==> StateOf(Trace(s, r, events[..k]).0, r.job) in {Some(Queued), Some(Running)}
  }

  lemma UnfinishedTail(s: Store, r: Runner, events: seq<Event>)
    requires events != [] && StaysUnfinished(s, r, events)
    ensures var (t, q) := Next(s, r, events[0]);
      && StaysUnfinished(t, q, events[1..]) && q.job == r.job && q.worker == r.worker
      && StateOf(t, r.job) in {Some(Queued), Some(Running)}
  {
    hide Apply, MustStop;
    var (t, q) := Next(s, r, events[0]);
    forall k | 0 <= k <= |events| - 1
      ensures StateOf(Trace(t, q, events[1..][..k]).0, q.job) in {Some(Queued), Some(Running)}
    {
      assert events[..k + 1][0] == events[0] && events[..k + 1][1..] == events[1..][..k];
      assert StateOf(Trace(s, r, events[..k + 1]).0, r.job) in {Some(Queued), Some(Running)};
    }
    assert events[1..][..0] == [];
    assert StateOf(Trace(t, q, events[1..][..0]).0, q.job) in {Some(Queued), Some(Running)};
  }

  /** While another worker has the job, the earlier one performs at most the effect it was cleared for - shield or not. */
  lemma {:induction false} AtMostOneEffectAfterTakeover(s: Store, r: Runner, events: seq<Event>)
    requires Inv(s) && Lost(s, r) && r.worker != "" && StaysUnfinished(s, r, events)
    requires forall e <- events :: e.Others? ==> !ClaimBy(e.op, r.worker)
    ensures var q := Trace(s, r, events).1; r.effects <= q.effects <= r.effects + if r.cleared then 1 else 0
    decreases |events|
  {
    if events == [] { return; }
    UnfinishedTail(s, r, events);
    var (t, q) := Next(s, r, events[0]);
    LostStep(s, r, events[0]);
    hide Inv, Next;
    AtMostOneEffectAfterTakeover(t, q, events[1..]);
  }

  lemma {:induction false} LostStep(s: Store, r: Runner, e: Event)
    requires Inv(s) && Lost(s, r) && r.worker != "" && (e.Others? ==> !ClaimBy(e.op, r.worker))
    requires StateOf(Next(s, r, e).0, r.job) in {Some(Queued), Some(Running)}
    ensures var (t, q) := Next(s, r, e);
      && Inv(t) && Lost(t, q) && r.effects <= q.effects
      && q.effects + (if q.cleared then 1 else 0) <= r.effects + if r.cleared then 1 else 0
  {
    if e.Others? {
      hide Apply, Inv;
      ApplyInv(s, e.op);
      OwnerStep(s, e.op, r.job, r.worker);
    }
  }

  // ---- What a run does when nothing stops it ------------------------------------------------

  /** A job this runner must leave now: no longer its own, or to be cancelled with no shield up. */
  predicate MustLeave(s: Store, r: Runner) {
    || r.lost || r.job >= |s.jobs| || s.jobs[r.job].state.Queued?
    || (s.jobs[r.job].state.Running? && s.jobs[r.job].leaseOwner != r.worker)
    || (r.shielded == 0
        && (s.jobs[r.job].state.Cancelled? || (s.jobs[r.job].state.Running? && s.jobs[r.job].cancelRequested)))
  }

  function Effects(n: nat): seq<Event> { if n == 0 then [] else [Check, Effect] + Effects(n - 1) }

  lemma EffectTakesPlace(s: Store, r: Runner)
    requires !r.stopped && !r.cleared
    ensures Trace(s, r, [Check, Effect]) == (s,
      if MustLeave(s, r) then r.(stopped := true)
      else r.(effects := r.effects + 1, unshielded := if r.shielded == 0 then r.unshielded + 1 else r.unshielded))
  {
    assert [Check, Effect][1..] == [Effect] && [Effect][1..] == [];
    assert MustStop(s, r) <==> MustLeave(s, r);
  }

  lemma {:induction false} StoppedStays(s: Store, r: Runner, n: nat)
    requires r.stopped
    ensures Trace(s, r, Effects(n)) == (s, r)
    decreases n
  {
    if n > 0 {
      TraceJoin(s, r, [Check, Effect], Effects(n - 1));
      assert [Check, Effect][1..] == [Effect] && [Effect][1..] == [];
      StoppedStays(s, r, n - 1);
    }
  }

  lemma {:induction false} TraceJoin(s: Store, r: Runner, a: seq<Event>, b: seq<Event>)
    ensures Trace(s, r, a + b) == (var (t, q) := Trace(s, r, a); Trace(t, q, b))
    decreases |a|
  {
    if a == [] {
      assert a + b == b;
    } else {
      hide Next;
      assert (a + b)[1..] == a[1..] + b;
      var (t, q) := Next(s, r, a[0]);
      TraceJoin(t, q, a[1..], b);
    }
  }

  /** While the store does not change, a runner performs all its effects, or, if it must leave the job, none. */
  lemma {:induction false} AllOrNothing(s: Store, r: Runner, n: nat)
    requires !r.stopped && !r.cleared
    ensures var q := Trace(s, r, Effects(n)).1;
      && q.effects == r.effects + (if MustLeave(s, r) then 0 else n)
      && q.unshielded == r.unshielded + (if MustLeave(s, r) || r.shielded > 0 then 0 else n)
      && (q.stopped <==> n > 0 && MustLeave(s, r))
    decreases n
  {
    if n > 0 {
      TraceJoin(s, r, [Check, Effect], Effects(n - 1));
      EffectTakesPlace(s, r);
      hide Next;
      var q := Trace(s, r, [Check, Effect]).1;
      if q.stopped { StoppedStays(s, q, n - 1); } else { AllOrNothing(s, q, n - 1); }
    }
  }

  /** A shield holds until as many are left as were entered; the loss of the lease is not forgotten; the rest are others' acts. */
  lemma ShieldsNest(s: Store, r: Runner, e: Event)
    ensures Next(s, r, EnterShield) == (s, if r.stopped || r.cleared then r else r.(shielded := r.shielded + 1))
    ensures !r.stopped && !r.cleared ==> Trace(s, r, [EnterShield, LeaveShield]) == (s, r)
    ensures r.stopped || r.cleared || r.shielded == 0 ==> Next(s, r, LeaveShield) == (s, r)
    ensures r.cleared ==> Next(s, r, Check) == (s, r)
    ensures !r.cleared ==> Next(s, r, Effect) == (s, r)
    ensures e.Others? || e.LeaseNotRenewed? ==> Next(s, r, e).1 == r.(lost := r.lost || e.LeaseNotRenewed?)
  {
    assert [EnterShield, LeaveShield][1..] == [LeaveShield] && [LeaveShield][1..] == [];
  }

  // ---- The record a runner's thread keeps ---------------------------------------------------

  class Execution {
    const job: nat
    const worker: string
    var lost: bool
    var shielded: nat
    ghost var progress: Runner

    ghost predicate Valid()
      reads this
    {
      progress.job == job && progress.worker == worker && progress.lost == lost && progress.shielded == shielded
    }

    constructor (job: nat, worker: string)
      ensures Valid() && this.job == job && this.worker == worker
      ensures progress == Runner(job, worker, false, 0, false, false, 0, 0)
    {
      this.job, this.worker, lost, shielded := job, worker, false, 0;
      progress := Runner(job, worker, false, 0, false, false, 0, 0);
    }

    method LoseLease()
      requires Valid()
      modifies this
      ensures Valid() && forall s :: Next(s, old(progress), LeaseNotRenewed) == (s, progress)
      ensures lost && shielded == old(shielded)
    {
      lost := true;
      progress := progress.(lost := true);
    }

    method Shield()
      requires Valid() && !progress.stopped && !progress.cleared
      modifies this
      ensures Valid() && forall s :: Next(s, old(progress), EnterShield) == (s, progress)
      ensures shielded == old(shielded) + 1 && lost == old(lost)
    {
      shielded := shielded + 1;
      progress := progress.(shielded := shielded);
    }

    method Unshield()
      requires Valid() && !progress.stopped && !progress.cleared && shielded > 0
      modifies this
      ensures Valid() && forall s :: Next(s, old(progress), LeaveShield) == (s, progress)
      ensures shielded == old(shielded) - 1 && lost == old(lost)
    {
      shielded := shielded - 1;
      progress := progress.(shielded := shielded);
    }

    /** Raises when the job must stop now; the reason tells the worker how to end it. */
    method Checkpoint(store: JobStore, now: int) returns (raised: Option<Reason>)
      requires Valid() && !progress.stopped && !progress.cleared && store.clock <= now
      modifies this
      ensures Valid() && (store.Rows(now), progress) == Next(old(store.Rows(now)), old(progress), Check)
      ensures raised.Some? <==> progress.stopped
      ensures raised.Some? <==> MustLeave(store.Rows(now), old(progress))
      ensures lost == old(lost) && shielded == old(shielded)
      ensures raised.Some? ==> raised.value == if lost then StopLeaseLost else Interruption(store.Rows(now), job, worker)
    {
      raised := None;
      if lost {
        raised := Some(StopLeaseLost);
      } else {
        var reason := Interruption(store.Rows(now), job, worker);
        if reason != CarryOn && !(reason == StopCancelled && shielded > 0) { raised := Some(reason); }
      }
      progress := if raised.Some? then progress.(stopped := true) else progress.(cleared := true);
    }
  }
}
