/** What each write to the holds, and each refusal, comes to. */
module AccessFacts {
  import opened Wrappers
  import opened Access

  /** What a change of this kind revokes. */
  predicate MustRevoke(kind: Kind, target: Target) {
    match kind
    case Deactivated => !target.RoleGroups?
    case Demoted => target.RoleGroups? || target.ContextAdmin?
  }

  /**
   * A deactivation, or a demotion of someone not deactivated, is held at once with every revocation it
   * needs pending again and any other task as it was; a demotion of someone deactivated changes nothing.
   */
  lemma RecordsExactly(holds: Holds, uid: string, kind: Kind)
    ensures var r := Recorded(holds, uid, kind);
      if uid in holds && holds[uid].kind.Deactivated? && kind.Demoted? then r == holds
      else
        && r.Keys == holds.Keys + {uid} && r[uid].kind == kind
        && (forall other <- holds :: other != uid ==> r[other] == holds[other])
        && (forall t :: MustRevoke(kind, t) ==> t in r[uid].tasks && r[uid].tasks[t].Pending?)
        && (forall t :: !MustRevoke(kind, t) ==>
              (t in r[uid].tasks <==> uid in holds && t in holds[uid].tasks) &&
              (t in r[uid].tasks ==> r[uid].tasks[t] == holds[uid].tasks[t]))
  {
    forall t: Target ensures t in Targets(kind) <==> MustRevoke(kind, t) {
    }
    hide Targets, Queued;
  }

  /** Only a hold of this kind goes, with its tasks. */
  lemma ReleasesExactly(holds: Holds, uid: string, kind: Kind)
    ensures var r := Released(holds, uid, kind);
      && (forall other :: other in r <==> other in holds && !(other == uid && holds[uid].kind == kind))
      && (forall other <- r :: r[other] == holds[other])
  {
  }

  /** The outcome is noted on the row of this person and target if that is still there, and nowhere else. */
  lemma NotesExactly(holds: Holds, uid: string, target: Target, progress: Progress)
    ensures var r := Noted(holds, uid, target, progress);
      && r.Keys == holds.Keys
      && (forall x <- holds :: r[x].kind == holds[x].kind && r[x].tasks.Keys == holds[x].tasks.Keys)
      && (forall x <- holds, t <- holds[x].tasks ::
            r[x].tasks[t] == if x == uid && t == target then progress else holds[x].tasks[t])
  {
  }

  /** A revoked account is disabled, a revoked role leaves both administrator groups; the rest is outside Authentik. */
  lemma RevokesExactly(users: Users, uid: string, target: Target)
    ensures var r := RevokedIn(users, uid, target);
      && r.Keys == users.Keys && (forall x <- users :: x != uid ==> r[x] == users[x])
      && (uid in users ==>
            && r[uid].username == users[uid].username
            && r[uid].active == (users[uid].active && !target.Account?)
            && (forall g :: g in r[uid].groups <==> g in users[uid].groups && !(target.RoleGroups? && !g.Household?)))
  {
  }

  lemma CallsExactly(user: User, group: Group)
    ensures Called(user, Join(group)) == user.(groups := user.groups + {group})
    ensures Called(user, Leave(group)) == user.(groups := user.groups - {group})
    ensures Called(user, Enable) == user.(active := true)
  {
  }

  /** Of the household: in one of its groups, and no service account. */
  predicate Belongs(user: User) {
    && (Operators in user.groups || Superusers in user.groups || Household in user.groups)
    && !(|user.username| >= 3 && user.username[0] == 'a' && user.username[1] == 'k' && user.username[2] == '-')
  }

  predicate InCharge(users: Users, holds: Holds, uid: string) {
    && uid in users && users[uid].active && (Operators in users[uid].groups || Superusers in users[uid].groups)
    && uid !in holds
  }

  predicate TakesAway(action: Action) { action.AskDeactivate? || (action.AskRole? && action.role.Member?) }

  /**
   * Refused exactly: people not of the household; taking the rights of the only one in charge; and
   * taking anything from the account the installation itself uses.
   */
  lemma RefusesExactly(users: Users, holds: Holds, uid: string, action: Action)
    ensures Refused(users, holds, uid, action) <==>
      || uid !in users || !Belongs(users[uid])
      || (TakesAway(action) && InCharge(users, holds, uid)
          && forall other <- users :: other != uid && Belongs(users[other]) ==> !InCharge(users, holds, other))
      || (TakesAway(action) && users[uid].username == "akadmin")
  {
    forall user: User ensures Listed(user) <==> Belongs(user) {
      assert |user.username| >= 3 ==> |user.username[..3]| == 3;
      assert "ak-"[0] == 'a' && "ak-"[1] == 'k' && "ak-"[2] == '-';
    }
    hide Listed, Belongs;
  }

  // ---- The steps around a change --------------------------------------------------------------

  /** A revocation is read when it is pending, and attempted whatever happened since. */
  lemma RevocationsExactly(s: Household, uid: string, target: Target, ok: bool)
    ensures var t := Next(s, ReadDue(uid, target));
      var found := uid in s.holds && target in s.holds[uid].tasks && s.holds[uid].tasks[target].Pending?;
      t == s.(due := if found then s.due + {(uid, target)} else s.due)
    ensures var t := Next(s, Handle(uid, target, ok));
      && ((uid, target) !in s.due ==> t == s)
      && ((uid, target) in s.due ==>
            && t.due == s.due - {(uid, target)} && t.change == s.change && t.demoted == s.demoted
            && t.users == (if ok then RevokedIn(s.users, uid, target) else s.users)
            && t.holds == Noted(s.holds, uid, target, if ok then Done else Pending))
  {
  }

  /** One change at a time; it stops where it is when Mu3Lab stops, and at a call that fails. */
  lemma ChangesExactly(s: Household, uid: string, action: Action)
    ensures Next(s, Dies) == s.(change := None)
    ensures Next(s, CallFails) == if s.change.Some? && s.change.value.Calls? then s.(change := None) else s
    ensures s.change.Some? || Refused(s.users, s.holds, uid, action) ==> Next(s, Ask(uid, action)) == s
    ensures s.change.None? && !Refused(s.users, s.holds, uid, action) ==>
      uid in s.users &&
      Next(s, Ask(uid, action)) == s.(change := Some(match action
        case AskDeactivate => Deactivate(uid)
        case AskReactivate =>
          Release(uid, uid in s.holds && RoleGroups in s.holds[uid].tasks && s.holds[uid].tasks[RoleGroups].Pending?)
        case AskRole(Admin) => Promote(uid)
        case AskRole(Member) =>
          if Operators in s.users[uid].groups || Superusers in s.users[uid].groups then Demote(uid)
          else Calls(uid, [Join(Household), Leave(Superusers), Leave(Operators)])))
  {
  }

  /** A new person is enabled, in no group yet, and then given a role; nobody who is known or held is replaced. */
  lemma AddsExactly(s: Household, uid: string, user: User, role: Role)
    ensures var t := Next(s, AddPerson(uid, user, role));
      if s.change.Some? || uid in s.users || uid in s.holds || uid in s.demoted then t == s
      else
        && t == s.(users := t.users, change := t.change) && t.users == s.users[uid := User(user.username, true, {})]
        && t.change == Some(Calls(uid, if role.Admin? then [Join(Operators), Leave(Household)]
                                       else [Join(Household), Leave(Superusers), Leave(Operators)]))
  {
  }

  /** What each step of a change writes, and what is left to do after it. */
  lemma ProceedsExactly(s: Household, uid: string, unfinished: bool)
    ensures Proceeded(s, Deactivate(uid)) == s.(holds := Recorded(s.holds, uid, Deactivated), change := None)
    ensures Proceeded(s, Demote(uid)) == s.(
      holds := Recorded(s.holds, uid, Demoted), demoted := s.demoted + {uid},
      change := Some(Calls(uid, [Join(Household), Leave(Superusers), Leave(Operators)])))
    ensures Proceeded(s, Promote(uid)) == s.(
      holds := Released(s.holds, uid, Demoted), demoted := s.demoted - {uid},
      change := Some(Calls(uid, [Join(Operators), Leave(Household)])))
    ensures Proceeded(s, Release(uid, unfinished)) == s.(
      holds := Released(s.holds, uid, Deactivated),
      change := Some(if unfinished then DemoteAgain(uid) else Calls(uid, [Enable])))
    ensures Proceeded(s, DemoteAgain(uid)) == s.(
      holds := Recorded(s.holds, uid, Demoted), demoted := s.demoted + {uid}, change := Some(Calls(uid, [Enable])))
  {
  }

  // ---- A round of revocations -----------------------------------------------------------------

  predicate Attempts(due: seq<(string, Target)>, i: int, uid: string, target: Target) {
    0 <= i < |due| && due[i] == (uid, target)
  }

  /** One of the round's attempts at this revocation works. */
  ghost predicate Works(due: seq<(string, Target)>, works: seq<bool>, uid: string, target: Target)
    requires |works| == |due|
  {
    exists i :: Attempts(due, i, uid, target) && works[i]
  }

  lemma WorksFirst(due: seq<(string, Target)>, works: seq<bool>, uid: string, target: Target)
    requires due != [] && |works| == |due|
    ensures Works(due, works, uid, target) <==> (due[0] == (uid, target) && works[0]) || Works(due[1..], works[1..], uid, target)
  {
    if i :| Attempts(due, i, uid, target) && works[i] {
      if i > 0 { assert Attempts(due[1..], i - 1, uid, target) && works[1..][i - 1]; }
    }
    if Works(due[1..], works[1..], uid, target) {
      var i :| Attempts(due[1..], i, uid, target) && works[1..][i];
      assert Attempts(due, i + 1, uid, target) && works[i + 1];
    }
    if due[0] == (uid, target) && works[0] { assert Attempts(due, 0, uid, target) && works[0]; }
  }

  /**
   * After a round, whose revocations are all different: exactly those whose account revocation worked
   * are disabled, and exactly those whose role revocation worked lost it; each row still there says how it
   * went, and no row comes or goes.
   */
  lemma {:induction false} RoundsExactly(users: Users, holds: Holds, due: seq<(string, Target)>, works: seq<bool>)
    requires |works| == |due| && forall i, j :: 0 <= i < j < |due| ==> due[i] != due[j]
    ensures var (u, h) := Attempted(users, holds, due, works);
      && u.Keys == users.Keys && h.Keys == holds.Keys
      && (forall x <- users ::
            && (u[x].active <==> users[x].active && !Works(due, works, x, Account)) && u[x].username == users[x].username
            && (Operators in u[x].groups <==> Operators in users[x].groups && !Works(due, works, x, RoleGroups))
            && (Superusers in u[x].groups <==> Superusers in users[x].groups && !Works(due, works, x, RoleGroups))
            && (Household in u[x].groups <==> Household in users[x].groups))
      && (forall x <- holds :: h[x].kind == holds[x].kind && h[x].tasks.Keys == holds[x].tasks.Keys)
      && (forall x <- holds, t <- holds[x].tasks ::
            h[x].tasks[t] == if Works(due, works, x, t) then Done else if (x, t) in due then Pending else holds[x].tasks[t])
    decreases |due|
  {
    if due == [] { return; }
    var (uid, target) := due[0];
    RevokesExactly(users, uid, target);
    NotesExactly(holds, uid, target, if works[0] then Done else Pending);
    forall x, t: Target ensures Works(due, works, x, t) <==> (due[0] == (x, t) && works[0]) || Works(due[1..], works[1..], x, t) {
      WorksFirst(due, works, x, t);
    }
    NotAgain(due, works);
    hide RevokedIn, Noted, Works;
    RoundsExactly(if works[0] then RevokedIn(users, uid, target) else users,
                  Noted(holds, uid, target, if works[0] then Done else Pending), due[1..], works[1..]);
    assert forall x, t: Target :: (x, t) in due <==> (x, t) == due[0] || (x, t) in due[1..];
  }

  lemma NotAgain(due: seq<(string, Target)>, works: seq<bool>)
    requires due != [] && |works| == |due| && forall i, j :: 0 <= i < j < |due| ==> due[i] != due[j]
    ensures due[0] !in due[1..] && !Works(due[1..], works[1..], due[0].0, due[0].1)
  {
  }
}
