/** One change to a person, as it runs when nothing comes between its steps. */
module PeopleAdmin {
  import opened Wrappers
  import opened Access

  class PeopleService {
    const access: AccessStore
    const authentik: Directory
    ghost var demoted: set<string>

    constructor (access: AccessStore, authentik: Directory)
      ensures this.access == access && this.authentik == authentik && demoted == {}
    {
      this.access, this.authentik, demoted := access, authentik, {};
    }

    ghost function Value(change: Option<Step>): Household
      reads this, access, authentik
    {
      Household.People(authentik.users, access.holds, change, {}, demoted)
    }

    /** Calls Authentik in order until a call fails; `working` is how many succeed. */
    method CallAll(uid: string, calls: seq<Call>, working: nat) returns (ok: bool, ghost steps: seq<Event>)
      requires uid in authentik.users
      modifies authentik
      ensures Runs(old(Value(Some(Calls(uid, calls)))), steps) == Value(None)
      ensures forall e <- steps :: e in {Proceed, CallFails}
      ensures ok <==> |calls| <= working
      ensures authentik.users == Answered(old(authentik.users), uid, calls, working)
      ensures authentik.users.Keys == old(authentik.users).Keys
      ensures forall other <- authentik.users :: other != uid ==> authentik.users[other] == old(authentik.users)[other]
    {
      hide Next, Runs;
      ghost var start := Value(Some(Calls(uid, calls)));
      RunsNone(start);
      steps := [];
      var i := 0;
      assert calls[0..] == calls;
      while i < |calls|
        invariant 0 <= i <= |calls| && i <= working && uid in authentik.users && forall e <- steps :: e == Proceed
        invariant Runs(start, steps) == Value(Some(Calls(uid, calls[i..])))
        invariant Answered(authentik.users, uid, calls[i..], working - i)
               == Answered(old(authentik.users), uid, calls, working)
        invariant authentik.users.Keys == old(authentik.users).Keys
        invariant forall other <- authentik.users :: other != uid ==> authentik.users[other] == old(authentik.users)[other]
      {
        ghost var here := Value(Some(Calls(uid, calls[i..])));
        CallStep(here, uid, calls[i..]);
        if i == working {
          RunsOne(start, steps, CallFails);
          return false, steps + [CallFails];
        }
        RunsOne(start, steps, Proceed);
        assert calls[i..][1..] == calls[i + 1..];
        authentik.Call(uid, calls[i]);
        steps := steps + [Proceed];
        i := i + 1;
      }
      RunsOne(start, steps, Proceed);
      CallStep(Value(Some(Calls(uid, calls[i..]))), uid, calls[i..]);
      return true, steps + [Proceed];
    }

    /** Refuses what would leave no administrator; else records the hold first, then asks Authentik. */
    method Change(uid: string, action: Action, working: nat) returns (refused: bool, ghost steps: seq<Event>)
      modifies this, access, authentik
      ensures Runs(old(Value(None)), steps) == Value(None)
      ensures forall e <- steps :: e in {Ask(uid, action), Proceed, CallFails}
      ensures refused <==> Refused(old(authentik.users), old(access.holds), uid, action)
      ensures refused ==> authentik.users == old(authentik.users) && access.holds == old(access.holds)
      ensures !refused && Removes(action) && Effective(old(authentik.users), old(access.holds), uid) ==> uid in access.holds
      ensures !refused ==> uid in old(authentik.users)
      ensures !refused && action == AskDeactivate ==>
        authentik.users == old(authentik.users) && access.holds == Recorded(old(access.holds), uid, Deactivated)
      ensures !refused && action == AskReactivate ==>
        var released := Released(old(access.holds), uid, Deactivated);
        && authentik.users == Answered(old(authentik.users), uid, [Enable], working)
        && access.holds == (if IsPending(old(access.holds), uid, RoleGroups) then Recorded(released, uid, Demoted) else released)
      ensures !refused && action == AskRole(Admin) ==>
        && authentik.users == Answered(old(authentik.users), uid, [Join(Operators), Leave(Household)], working)
        && access.holds == Released(old(access.holds), uid, Demoted)
      ensures !refused && action == AskRole(Member) ==>
        && authentik.users == Answered(old(authentik.users), uid, [Join(Household), Leave(Superusers), Leave(Operators)], working)
        && access.holds == (if IsAdmin(old(authentik.users)[uid]) then Recorded(old(access.holds), uid, Demoted)
                            else old(access.holds))
    {
      hide Next, Runs, Refused;
      ghost var start := Value(None);
      RunsNone(start);
      if Refused(authentik.users, access.holds, uid, action) { return true, []; }
      Known(authentik.users, access.holds, uid, action);
      AskStep(start, uid, action);
      RunsOne(start, [], Ask(uid, action));
      steps := [] + [Ask(uid, action)];
      if action == AskDeactivate {
        ProceedStep(Value(Some(Deactivate(uid))));
        access.Record(uid, Deactivated);
        RunsOne(start, steps, Proceed);
        return false, steps + [Proceed];
      }
      var calls;
      if action == AskReactivate {
        var unfinished := Unfinished(access.holds, uid);
        ProceedStep(Value(Some(Release(uid, unfinished))));
        access.ReleaseHold(uid, Deactivated);
        RunsOne(start, steps, Proceed);
        steps := steps + [Proceed];
        if unfinished {
          ProceedStep(Value(Some(DemoteAgain(uid))));
          access.Record(uid, Demoted);
          demoted := demoted + {uid};
          RunsOne(start, steps, Proceed);
          steps := steps + [Proceed];
        }
        calls := [Enable];
      } else if action == AskRole(Admin) {
        ProceedStep(Value(Some(Promote(uid))));
        access.ReleaseHold(uid, Demoted);
        demoted := demoted - {uid};
        RunsOne(start, steps, Proceed);
        steps := steps + [Proceed];
        calls := RoleCalls(Admin);
      } else {
        if IsAdmin(authentik.users[uid]) {
          ProceedStep(Value(Some(Demote(uid))));
          demoted := demoted + {uid};
          access.Record(uid, Demoted);
          RunsOne(start, steps, Proceed);
          steps := steps + [Proceed];
        }
        calls := RoleCalls(Member);
      }
      ghost var here := Value(Some(Calls(uid, calls)));
      assert Runs(start, steps) == here;
      ghost var more;
      var ok;
      ok, more := CallAll(uid, calls, working);
      RunsJoin(start, steps, more);
      return false, steps + more;
    }
  }

  /** Authentik after these calls, when so many are answered before one fails. */
  function Answered(users: Users, uid: string, calls: seq<Call>, working: int): Users
    requires uid in users
    decreases |calls|
  {
    if calls == [] || working <= 0 then users
    else Answered(users[uid := Called(users[uid], calls[0])], uid, calls[1..], working - 1)
  }

  lemma CallStep(s: Household, uid: string, calls: seq<Call>)
    requires s.change == Some(Calls(uid, calls)) && uid in s.users
    ensures Next(s, CallFails) == s.(change := None)
    ensures calls == [] ==> Next(s, Proceed) == s.(change := None)
    ensures calls != [] ==> Next(s, Proceed) == Proceeded(s, s.change.value)
  {
  }

  lemma ProceedStep(s: Household)
    requires s.change.Some?
    ensures Next(s, Proceed) == Proceeded(s, s.change.value)
  {
  }

  lemma Known(users: Users, holds: Holds, uid: string, action: Action)
    requires !Refused(users, holds, uid, action)
    ensures uid in users
  {
  }

  lemma AskStep(s: Household, uid: string, action: Action)
    requires s.change.None? && !Refused(s.users, s.holds, uid, action)
    ensures uid in s.users && Next(s, Ask(uid, action)) == s.(change := Some(Begun(s.users, s.holds, uid, action)))
  {
  }
}
