/**
 * Access holds and roles. A hold denies at once; what Mu3Lab gave out is then
 * revoked task by task. Changes to people run one at a time under a lock, but
 * their steps - a database transaction, one call to Authentik - may be stopped
 * after any of them, and revocations run beside them.
 */
module Access {
  import opened Wrappers

  datatype Group = Operators | Household | Superusers

  datatype User = User(username: string, active: bool, groups: set<Group>)

  datatype Kind = Deactivated | Demoted

  datatype Target = Account | Sessions | RoleGroups | Gateway | ContextAdmin | VoiceKey | Chat

  datatype Progress = Pending | Done

  /** A hold and its revocations, which go when it does. */
  datatype Hold = Hold(kind: Kind, tasks: map<Target, Progress>)

  function Targets(kind: Kind): seq<Target> {
    match kind
    case Deactivated => [Account, Sessions, Gateway, ContextAdmin, VoiceKey, Chat]
    case Demoted => [RoleGroups, ContextAdmin]
  }

  // ---- Holds ---------------------------------------------------------------------------------

  function Queued(tasks: map<Target, Progress>, targets: seq<Target>): (r: map<Target, Progress>)
    ensures forall t :: t in r <==> t in tasks || t in targets
    ensures forall t <- r :: r[t] == if t in targets then Pending else tasks[t]
  {
    if targets == [] then tasks
    else Queued(tasks, targets[..|targets| - 1])[targets[|targets| - 1] := Pending]
  }

  type Holds = map<string, Hold>

  /** Deactivating replaces a demotion and keeps its tasks; a demotion never weakens a deactivation. */
  function Recorded(holds: Holds, uid: string, kind: Kind): Holds {
    if uid in holds && holds[uid].kind == Deactivated && kind == Demoted then holds
    else holds[uid := Hold(kind, Queued(if uid in holds then holds[uid].tasks else map[], Targets(kind)))]
  }

  function Released(holds: Holds, uid: string, kind: Kind): Holds {
    if uid in holds && holds[uid].kind == kind then holds - {uid} else holds
  }

  /** A revocation's outcome is noted on its row, if that is still there. */
  function Noted(holds: Holds, uid: string, target: Target, progress: Progress): Holds {
    if uid in holds && target in holds[uid].tasks then
      holds[uid := holds[uid].(tasks := holds[uid].tasks[target := progress])]
    else holds
  }

  // ---- People ----------------------------------------------------------------------------------

  type Users = map<string, User>

  predicate IsAdmin(user: User) { Operators in user.groups || Superusers in user.groups }

  predicate Service(user: User) { |user.username| >= 3 && user.username[..3] == "ak-" }

  /** Of the household: it has a role and is not a service account. */
  predicate Listed(user: User) { (IsAdmin(user) || Household in user.groups) && !Service(user) }

  predicate Effective(users: Users, holds: Holds, uid: string) {
    uid in users && users[uid].active && IsAdmin(users[uid]) && uid !in holds
  }

  /** What a successful revocation changes in Authentik. */
  function Revoked(user: User, target: Target): User {
    match target
    case Account => user.(active := false)
    case RoleGroups => user.(groups := user.groups - {Operators, Superusers})
    case _ => user
  }

  datatype Role = Admin | Member

  datatype Call = Join(group: Group) | Leave(group: Group) | Enable

  /** First in, then out, in the order of the groups' names. */
  function RoleCalls(role: Role): seq<Call> {
    match role
    case Admin => [Join(Operators), Leave(Household)]
    case Member => [Join(Household), Leave(Superusers), Leave(Operators)]
  }

  function Called(user: User, call: Call): User {
    match call
    case Join(group) => user.(groups := user.groups + {group})
    case Leave(group) => user.(groups := user.groups - {group})
    case Enable => user.(active := true)
  }

  /** What is left to do of one change: its holds, then its calls to Authentik. */
  datatype Step =
    | Deactivate(uid: string)
    | Demote(uid: string)
    | Promote(uid: string)
    | Release(uid: string, unfinished: bool)
    | DemoteAgain(uid: string)
    | Calls(uid: string, calls: seq<Call>)

  datatype Action = AskDeactivate | AskReactivate | AskRole(role: Role)

  /**
   * `due` holds the revocations a runner has read as pending and is about to attempt, whatever
   * happens meanwhile; `demoted` keeps who was demoted and not promoted since.
   */
  datatype Household = People(
    users: Users, holds: Holds, change: Option<Step>, due: set<(string, Target)>, demoted: set<string>)

  datatype Event =
    | Ask(uid: string, action: Action)
    | Proceed
    | CallFails
    | Dies
    | ReadDue(uid: string, target: Target)
    | Handle(uid: string, target: Target, ok: bool)
    | AddPerson(uid: string, user: User, role: Role)

  predicate Removes(action: Action) { action == AskDeactivate || action == AskRole(Member) }

  predicate AnotherAdmin(users: Users, holds: Holds, uid: string) {
    exists other <- users :: other != uid && Listed(users[other]) && Effective(users, holds, other)
  }

  /** Unknown people, the last administrator and the installation's own account are left as they are. */
  predicate Refused(users: Users, holds: Holds, uid: string, action: Action) {
    || uid !in users || !Listed(users[uid])
    || (Removes(action) && Effective(users, holds, uid) && !AnotherAdmin(users, holds, uid))
    || (Removes(action) && users[uid].username == "akadmin")
  }

  predicate IsPending(holds: Holds, uid: string, target: Target) {
    uid in holds && target in holds[uid].tasks && holds[uid].tasks[target] == Pending
  }

  predicate Unfinished(holds: Holds, uid: string) { IsPending(holds, uid, RoleGroups) }

  function Begun(users: Users, holds: Holds, uid: string, action: Action): Step
    requires uid in users
  {
    match action
    case AskDeactivate => Deactivate(uid)
    case AskReactivate => Release(uid, Unfinished(holds, uid))
    case AskRole(Admin) => Promote(uid)
    case AskRole(Member) => if IsAdmin(users[uid]) then Demote(uid) else Calls(uid, RoleCalls(Member))
  }

  /** The next step of the change under way. */
  function Proceeded(s: Household, step: Step): Household {
    match step
    case Deactivate(uid) => s.(holds := Recorded(s.holds, uid, Deactivated), change := None)
    case Demote(uid) =>
      s.(holds := Recorded(s.holds, uid, Demoted), change := Some(Calls(uid, RoleCalls(Member))), demoted := s.demoted + {uid})
    case Promote(uid) =>
      s.(holds := Released(s.holds, uid, Demoted), change := Some(Calls(uid, RoleCalls(Admin))),
         demoted := s.demoted - {uid})
    case Release(uid, unfinished) =>
      s.(holds := Released(s.holds, uid, Deactivated),
         change := Some(if unfinished then DemoteAgain(uid) else Calls(uid, [Enable])))
    case DemoteAgain(uid) =>
      s.(holds := Recorded(s.holds, uid, Demoted), change := Some(Calls(uid, [Enable])), demoted := s.demoted + {uid})
    case Calls(uid, calls) =>
      if calls == [] || uid !in s.users then s.(change := None)
      else s.(users := s.users[uid := Called(s.users[uid], calls[0])], change := Some(Calls(uid, calls[1..])))
  }

  function Next(s: Household, e: Event): Household {
    match e
    case Ask(uid, action) =>
      if s.change.Some? || Refused(s.users, s.holds, uid, action) then s
      else s.(change := Some(Begun(s.users, s.holds, uid, action)))
    case Proceed => if s.change.Some? then Proceeded(s, s.change.value) else s
    case CallFails => if s.change.Some? && s.change.value.Calls? then s.(change := None) else s
    case Dies => s.(change := None)
    case ReadDue(uid, target) => if IsPending(s.holds, uid, target) then s.(due := s.due + {(uid, target)}) else s
    case Handle(uid, target, ok) =>
      if (uid, target) !in s.due then s else
      s.(users := if ok then RevokedIn(s.users, uid, target) else s.users,
         holds := Noted(s.holds, uid, target, if ok then Done else Pending), due := s.due - {(uid, target)})
    case AddPerson(uid, user, role) =>
      if s.change.Some? || uid in s.users || uid in s.holds || uid in s.demoted then s
      else s.(users := s.users[uid := user.(groups := {}, active := true)], change := Some(Calls(uid, RoleCalls(role))))
  }

  function Runs(s: Household, events: seq<Event>): Household
    decreases |events|
  {
    if events == [] then s else Runs(Next(s, events[0]), events[1..])
  }

  lemma RunsNone(s: Household)
    ensures Runs(s, []) == s
  {
  }

  lemma {:induction false} RunsJoin(s: Household, a: seq<Event>, b: seq<Event>)
    ensures Runs(s, a + b) == Runs(Runs(s, a), b)
    decreases |a|
  {
    if a == [] {
      assert a + b == b;
    } else {
      hide Next;
      assert (a + b)[1..] == a[1..] + b;
      RunsJoin(Next(s, a[0]), a[1..], b);
    }
  }

  lemma RunsOne(s: Household, events: seq<Event>, e: Event)
    ensures Runs(s, events + [e]) == Next(Runs(s, events), e)
  {
    hide Next;
    RunsJoin(s, events, [e]);
    assert [e][1..] == [];
  }

  // ---- The store of holds as it is updated in place -------------------------------------------

  class AccessStore {
    var holds: Holds

    constructor ()
      ensures holds == map[]
    {
      holds := map[];
    }

    /** Denies at once and queues every revocation; repeating it starts them again. */
    method Record(uid: string, kind: Kind)
      modifies this
      ensures holds == Recorded(old(holds), uid, kind)
    {
      hide Targets, Queued;
      if uid in holds && holds[uid].kind == Deactivated && kind == Demoted { return; }
      holds := holds[uid := Hold(kind, if uid in holds then holds[uid].tasks else map[])];
      QueueTasks(uid, Targets(kind));
    }

    method QueueTasks(uid: string, targets: seq<Target>)
      requires uid in holds
      modifies this
      ensures holds == old(holds)[uid := old(holds)[uid].(tasks := Queued(old(holds)[uid].tasks, targets))]
    {
      ghost var tasks := holds[uid].tasks;
      var i := 0;
      while i < |targets|
        invariant 0 <= i <= |targets| && uid in holds && holds[uid].tasks == Queued(tasks, targets[..i])
        invariant holds == old(holds)[uid := old(holds)[uid].(tasks := holds[uid].tasks)]
      {
        assert targets[..i + 1][..i] == targets[..i];
        holds := holds[uid := holds[uid].(tasks := holds[uid].tasks[targets[i] := Pending])];
        i := i + 1;
      }
      assert targets[..i] == targets;
    }

    method ReleaseHold(uid: string, kind: Kind)
      modifies this
      ensures holds == Released(old(holds), uid, kind)
    {
      if uid in holds && holds[uid].kind == kind { holds := holds - {uid}; }
    }

    /**
     * Attempts the revocations found due; `works` says which of them succeed.
     * A row released meanwhile is not brought back.
     */
    method RunDue(due: seq<(string, Target)>, works: seq<bool>, authentik: Directory)
      requires |works| == |due|
      modifies this, authentik
      ensures holds == Attempted(old(authentik.users), old(holds), due, works).1
      ensures authentik.users == Attempted(old(authentik.users), old(holds), due, works).0
    {
      var i := 0;
      while i < |due|
        invariant 0 <= i <= |due|
        invariant Attempted(authentik.users, holds, due[i..], works[i..])
               == Attempted(old(authentik.users), old(holds), due, works)
      {
        var (uid, target) := due[i];
        assert due[i..][1..] == due[i + 1..] && works[i..][1..] == works[i + 1..];
        if works[i] { authentik.Revoke(uid, target); }
        holds := Noted(holds, uid, target, if works[i] then Done else Pending);
        i := i + 1;
      }
    }
  }

  /** Authentik's accounts, changed by calls to its API. */
  class Directory {
    var users: Users

    constructor (users: Users)
      ensures this.users == users
    {
      this.users := users;
    }

    method Revoke(uid: string, target: Target)
      modifies this
      ensures users == RevokedIn(old(users), uid, target)
    {
      if uid in users {
        var user := users[uid];
        if target == Account && user.active { user := user.(active := false); }
        if target == RoleGroups { user := user.(groups := user.groups - {Superusers} - {Operators}); }
        assert user == Revoked(users[uid], target);
        users := users[uid := user];
      }
    }

    method Call(uid: string, call: Call)
      requires uid in users
      modifies this
      ensures users == old(users)[uid := Called(old(users)[uid], call)]
    {
      var user := users[uid];
      match call {
        case Join(group) => user := user.(groups := user.groups + {group});
        case Leave(group) => user := user.(groups := user.groups - {group});
        case Enable => user := user.(active := true);
      }
      users := users[uid := user];
    }
  }

  function RevokedIn(users: Users, uid: string, target: Target): Users {
    if uid in users then users[uid := Revoked(users[uid], target)] else users
  }

  function Attempted(users: Users, holds: Holds, due: seq<(string, Target)>, works: seq<bool>): (Users, Holds)
    requires |works| == |due|
    decreases |due|
  {
    if due == [] then (users, holds) else
    var (uid, target) := due[0];
    Attempted(if works[0] then RevokedIn(users, uid, target) else users,
              Noted(holds, uid, target, if works[0] then Done else Pending), due[1..], works[1..])
  }
}
