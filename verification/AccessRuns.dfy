/** Who may administer, over every run of changes, revocations, failed calls and crashes. */
module AccessRuns {
  import opened Wrappers
  import opened Access

  // ---- A demoted person is not an administrator ----------------------------------------------

  /** Between letting go of a deactivation and demoting again. */
  predicate InBetween(s: Household, uid: string) { s.change == Some(DemoteAgain(uid)) }

  predicate AdminNow(users: Users, uid: string) { uid in users && IsAdmin(users[uid]) }

  predicate Known(users: Users, uid: string) { uid in users && !Service(users[uid]) }

  /** Held, with the removal of the role still to be done. */
  predicate Guarded(s: Household, uid: string) { uid in s.holds && Unfinished(s.holds, uid) }

  /** What the calls still to be made take away is all that makes the user an administrator. */
  predicate LeavesAll(user: User, calls: seq<Call>) {
    (Operators in user.groups ==> Leave(Operators) in calls) && (Superusers in user.groups ==> Leave(Superusers) in calls)
  }

  /** Nothing but the rest of the change under way will deny the role: it demotes again, or a deactivated person. */
  predicate OnItsWay(s: Household, uid: string) {
    || InBetween(s, uid)
    || (&& s.change.Some? && s.change.value.Calls? && s.change.value.uid == uid && uid in s.users
        && LeavesAll(s.users[uid], s.change.value.calls) && uid in s.holds && s.holds[uid].kind == Deactivated)
  }

  /** A demoted person who is an administrator in Authentik is guarded, or about to be denied. */
  predicate DeniedTo(s: Household, uid: string) {
    && (uid in s.demoted ==> Known(s.users, uid) && (AdminNow(s.users, uid) ==> Guarded(s, uid) || OnItsWay(s, uid)))
    && (s.change.Some? && s.change.value.uid == uid ==> ChangeOk(s, s.change.value))
  }

  /** A change that hands out a role is not about a demoted person, nor is one that forgets a demotion. */
  predicate ChangeOk(s: Household, step: Step) {
    match step
    case Calls(uid, calls) => uid in s.demoted ==> Join(Operators) !in calls && Join(Superusers) !in calls
    case Release(uid, unfinished) => Known(s.users, uid) && (uid in s.demoted && AdminNow(s.users, uid) ==> unfinished)
    case DemoteAgain(uid) =>
      && Known(s.users, uid)
      && (uid in s.holds ==> s.holds[uid].kind == Demoted && (uid in s.demoted && AdminNow(s.users, uid) ==> Guarded(s, uid)))
    case Demote(uid) => Known(s.users, uid)
    case _ => true
  }

  /** The person's own change stops where only its next steps would have denied the role. */
  predicate CutsOff(s: Household, e: Event, uid: string) {
    && s.change.Some? && s.change.value.uid == uid && (e.Dies? || (e.CallFails? && s.change.value.Calls?))
    && uid in s.demoted && AdminNow(s.users, uid) && !Guarded(s, uid)
  }

  lemma {:induction false} StepDenied(s: Household, e: Event, uid: string)
    requires DeniedTo(s, uid)
    ensures DeniedTo(Next(s, e), uid) <==> !CutsOff(s, e, uid)
  {
    match e
    case Proceed => if s.change.Some? { ProceedDenied(s, uid); }
    case Handle(other, target, ok) => HandleDenied(s, other, target, ok, uid);
    case _ =>
  }

  lemma HandleDenied(s: Household, other: string, target: Target, ok: bool, uid: string)
    requires DeniedTo(s, uid)
    ensures DeniedTo(Next(s, Handle(other, target, ok)), uid)
  {
  }

  lemma ProceedDenied(s: Household, uid: string)
    requires DeniedTo(s, uid) && s.change.Some?
    ensures DeniedTo(Proceeded(s, s.change.value), uid)
  {
    match s.change.value
    case Calls(other, calls) => CallDenied(s, other, calls, uid);
    case _ =>
  }

  lemma CallDenied(s: Household, other: string, calls: seq<Call>, uid: string)
    requires DeniedTo(s, uid) && s.change == Some(Calls(other, calls))
    ensures DeniedTo(Proceeded(s, s.change.value), uid)
  {
    if calls != [] {
      assert forall c <- calls :: c == calls[0] || c in calls[1..];
      assert forall c <- calls[1..] :: c in calls;
    }
  }

  ghost predicate Uncut(s: Household, events: seq<Event>, uid: string)
    decreases |events|
  {
    events == [] || (!CutsOff(s, events[0], uid) && Uncut(Next(s, events[0]), events[1..], uid))
  }

  lemma {:induction false} RunDenied(s: Household, events: seq<Event>, uid: string)
    requires DeniedTo(s, uid) && Uncut(s, events, uid)
    ensures DeniedTo(Runs(s, events), uid)
    decreases |events|
  {
    hide DeniedTo, Next, CutsOff;
    if events != [] {
      StepDenied(s, events[0], uid);
      RunDenied(Next(s, events[0]), events[1..], uid);
    }
  }

  /** Nobody is being changed and nobody was demoted yet. */
  predicate Settled(s: Household) { s.change.None? && s.demoted == {} }

  /** An administrator again without a promotion, and not only until the next write. */
  predicate AdminAgain(s: Household, uid: string) {
    uid in s.demoted && Effective(s.users, s.holds, uid) && !InBetween(s, uid)
  }

  /**
   * From a demotion to the next promotion a person is never an effective
   * administrator, whatever is deactivated, reactivated, revoked or fails,
   * except between a reactivation's two writes.
   */
  lemma DemotedPeopleStayDemoted(s: Household, events: seq<Event>, uid: string)
    requires Settled(s) && Uncut(s, events, uid)
    ensures !AdminAgain(Runs(s, events), uid)
  {
    hide Runs, Uncut;
    assert DeniedTo(s, uid);
    RunDenied(s, events, uid);
  }

  /** Some course of events, in which no change of this person is cut off, makes an administrator of the demoted. */
  ghost predicate CanReturn(s: Household, uid: string) {
    exists more :: Uncut(s, more, uid) && AdminAgain(Runs(s, more), uid)
  }

  /** The account is enabled again, if need be by a reactivation, which finds no unfinished demotion. */
  lemma ReturnsAfterCut(s: Household, e: Event, uid: string)
    requires DeniedTo(s, uid) && CutsOff(s, e, uid)
    ensures CanReturn(Next(s, e), uid)
  {
    var t := Next(s, e);
    assert Known(t.users, uid) && Listed(t.users[uid]) && (uid in t.holds ==> t.holds[uid].kind == Deactivated);
    var u := t.(change := Some(Release(uid, false)));
    assert Next(t, Ask(uid, AskReactivate)) == u;
    var v := Next(u, Proceed);
    assert v == t.(holds := Released(t.holds, uid, Deactivated), change := Some(Calls(uid, [Enable])));
    assert AdminAgain(Next(v, Proceed), uid);
    hide Next, AdminAgain, Runs;
    var more := [] + [Ask(uid, AskReactivate)] + [Proceed] + [Proceed];
    RunsNone(t);
    RunsOne(t, [], Ask(uid, AskReactivate));
    RunsOne(t, [] + [Ask(uid, AskReactivate)], Proceed);
    RunsOne(t, [] + [Ask(uid, AskReactivate)] + [Proceed], Proceed);
    StepsUncut(t, more, uid);
  }

  lemma {:induction false} StepsUncut(s: Household, events: seq<Event>, uid: string)
    requires forall e <- events :: !e.Dies? && !e.CallFails?
    ensures Uncut(s, events, uid)
    decreases |events|
  {
    if events != [] { StepsUncut(Next(s, events[0]), events[1..], uid); }
  }

  lemma {:induction false} SomeCut(s: Household, events: seq<Event>, uid: string) returns (j: nat)
    requires DeniedTo(s, uid) && !Uncut(s, events, uid)
    ensures j <= |events| && CanReturn(Runs(s, events[..j]), uid)
    decreases |events|
  {
    hide DeniedTo, Next, CutsOff, CanReturn;
    if CutsOff(s, events[0], uid) {
      j := 1;
      ReturnsAfterCut(s, events[0], uid);
      assert events[..1][1..] == [];
      RunsNone(Next(s, events[0]));
    } else {
      StepDenied(s, events[0], uid);
      j := SomeCut(Next(s, events[0]), events[1..], uid);
      j := j + 1;
      assert events[..j][1..] == events[1..][..j - 1];
    }
  }

  lemma {:induction false} UncutPrefix(s: Household, events: seq<Event>, uid: string, j: nat)
    requires Uncut(s, events, uid) && j <= |events|
    ensures Uncut(s, events[..j], uid)
    decreases j
  {
    hide Next, CutsOff;
    if j > 0 {
      UncutPrefix(Next(s, events[0]), events[1..], uid, j - 1);
      assert events[..j][1..] == events[1..][..j - 1];
    }
  }

  /**
   * A demotion can be lost - after some moment of the run the person can become an
   * administrator again without a promotion - exactly when one of the person's changes
   * stopped while Authentik still had them in an administrator group and no removal
   * of the role was queued.
   */
  lemma {:induction false} DemotionsAreLostExactlyWhenCutOff(s: Household, events: seq<Event>, uid: string)
    requires Settled(s)
    ensures (exists j :: 0 <= j <= |events| && CanReturn(Runs(s, events[..j]), uid)) <==> !Uncut(s, events, uid)
  {
    assert DeniedTo(s, uid);
    if Uncut(s, events, uid) {
      forall j | 0 <= j <= |events| ensures !CanReturn(Runs(s, events[..j]), uid) {
        UncutPrefix(s, events, uid, j);
        RunDenied(s, events[..j], uid);
        NoReturn(Runs(s, events[..j]), uid);
      }
    } else {
      var j := SomeCut(s, events, uid);
    }
  }

  lemma NoReturn(s: Household, uid: string)
    requires DeniedTo(s, uid)
    ensures !CanReturn(s, uid)
  {
    forall more | Uncut(s, more, uid) ensures !AdminAgain(Runs(s, more), uid) {
      RunDenied(s, more, uid);
    }
  }

  // ---- There is always an administrator -----------------------------------------------------------

  /** Whose rights the change under way is taking. */
  function Losing(s: Household): Option<string> {
    if s.change.None? then None else
    match s.change.value
    case Deactivate(uid) => Some(uid)
    case Demote(uid) => Some(uid)
    case DemoteAgain(uid) => Some(uid)
    case Release(uid, unfinished) => if unfinished then Some(uid) else None
    case Calls(uid, calls) => if Leave(Operators) in calls || Leave(Superusers) in calls then Some(uid) else None
    case Promote(_) => None
  }

  /** An effective administrator, whose rights the change under way does not take. */
  predicate Remains(s: Household, uid: string) { Effective(s.users, s.holds, uid) && Losing(s) != Some(uid) }

  ghost predicate SomeAdmin(s: Household) { exists uid :: Remains(s, uid) }

  /** A revocation of the account or the role succeeds for the only administrator who remains. */
  ghost predicate Harmful(s: Household, e: Event) {
    && e.Handle? && e.ok && (e.uid, e.target) in s.due && e.target in {Account, RoleGroups}
    && (forall other :: Remains(s, other) ==> other == e.uid)
  }

  lemma StepSomeAdmin(s: Household, e: Event)
    requires SomeAdmin(s)
    ensures SomeAdmin(Next(s, e)) <==> !Harmful(s, e)
  {
    var t := Next(s, e);
    match e
    case Ask(uid, action) =>
      var a :| Remains(s, a);
      if t != s && Losing(t) == Some(a) {
        assert AnotherAdmin(s.users, s.holds, a);
        var other :| other in s.users && other != a && Listed(s.users[other]) && Effective(s.users, s.holds, other);
        assert Remains(t, other);
      } else {
        assert Remains(t, a);
      }
    case Proceed =>
      var a :| Remains(s, a);
      if s.change.Some? { ProceedKeeps(s, a); }
    case Handle(uid, target, ok) =>
      assert forall other :: Remains(t, other) ==> Remains(s, other);
      if !Harmful(s, e) {
        var a :| Remains(s, a) &&
          (ok && (uid, target) in s.due && target in {Account, RoleGroups} ==> a != uid);
        assert Remains(t, a);
      }
    case _ =>
      var a :| Remains(s, a);
      assert Remains(t, a);
  }

  lemma ProceedKeeps(s: Household, a: string)
    requires s.change.Some? && Remains(s, a)
    ensures Remains(Proceeded(s, s.change.value), a)
  {
  }

  ghost predicate Harmless(s: Household, events: seq<Event>)
    decreases |events|
  {
    events == [] || (!Harmful(s, events[0]) && Harmless(Next(s, events[0]), events[1..]))
  }

  /** No run of changes and harmless revocations, however it fails, leaves the household without an effective administrator. */
  lemma {:induction false} AlwaysAnAdmin(s: Household, events: seq<Event>)
    requires SomeAdmin(s) && Harmless(s, events)
    ensures SomeAdmin(Runs(s, events))
    decreases |events|
  {
    hide SomeAdmin, Next, Harmful;
    if events != [] {
      StepSomeAdmin(s, events[0]);
      AlwaysAnAdmin(Next(s, events[0]), events[1..]);
    }
  }

  predicate NobodyInCharge(s: Household) { forall uid <- s.users :: !Effective(s.users, s.holds, uid) }

  /** Some course of events, without a further harmful revocation, leaves nobody in charge. */
  ghost predicate CanLoseAll(s: Household) {
    exists more :: Harmless(s, more) && NobodyInCharge(Runs(s, more))
  }

  /** Calls that take the role are about someone held, or no administrator in the first place. */
  predicate TakesFromHeld(s: Household) {
    s.change.Some? && s.change.value.Calls? ==>
      var (uid, calls) := (s.change.value.uid, s.change.value.calls);
      Leave(Operators) in calls || Leave(Superusers) in calls ==>
        uid in s.holds || (!AdminNow(s.users, uid) && Join(Operators) !in calls && Join(Superusers) !in calls)
  }

  lemma StepTakesFromHeld(s: Household, e: Event)
    requires TakesFromHeld(s)
    ensures TakesFromHeld(Next(s, e))
  {
    if e.Proceed? && s.change.Some? && s.change.value.Calls? && s.change.value.calls != [] {
      assert forall c <- s.change.value.calls[1..] :: c in s.change.value.calls;
    }
  }

  lemma {:induction false} RunTakesFromHeld(s: Household, events: seq<Event>)
    requires TakesFromHeld(s)
    ensures TakesFromHeld(Runs(s, events))
    decreases |events|
  {
    hide TakesFromHeld, Next;
    if events != [] {
      StepTakesFromHeld(s, events[0]);
      RunTakesFromHeld(Next(s, events[0]), events[1..]);
    }
  }

  /** With nobody who remains, at most two more steps of the change under way leave nobody in charge. */
  lemma ProceedsToNobody(s: Household)
    requires TakesFromHeld(s) && !SomeAdmin(s)
    ensures CanLoseAll(s)
  {
    forall uid | Effective(s.users, s.holds, uid) ensures Losing(s) == Some(uid) {
      assert !Remains(s, uid);
    }
    var more := if s.change.None? then []
                else if s.change.value.Release? && s.change.value.unfinished then [Proceed, Proceed]
                else if s.change.value.Calls? || s.change.value.Promote? || s.change.value.Release? then []
                else [Proceed];
    var t := Next(s, Proceed);
    assert [Proceed][1..] == [] && [Proceed, Proceed][1..] == [Proceed];
    assert Runs(s, []) == s && Runs(s, [Proceed]) == t && Runs(s, [Proceed, Proceed]) == Next(t, Proceed);
    forall uid | uid in Runs(s, more).users ensures !Effective(Runs(s, more).users, Runs(s, more).holds, uid) {
      assert Effective(Runs(s, more).users, Runs(s, more).holds, uid) ==> Effective(s.users, s.holds, uid) || more == [Proceed, Proceed];
    }
    StepsHarmless(s, more);
  }

  lemma {:induction false} StepsHarmless(s: Household, events: seq<Event>)
    requires forall e <- events :: !e.Handle?
    ensures Harmless(s, events)
    decreases |events|
  {
    if events != [] { StepsHarmless(Next(s, events[0]), events[1..]); }
  }

  lemma {:induction false} SomeHarm(s: Household, events: seq<Event>) returns (j: nat)
    requires SomeAdmin(s) && TakesFromHeld(s) && !Harmless(s, events)
    ensures j <= |events| && CanLoseAll(Runs(s, events[..j]))
    decreases |events|
  {
    hide SomeAdmin, Next, Harmful, TakesFromHeld, CanLoseAll;
    StepSomeAdmin(s, events[0]);
    StepTakesFromHeld(s, events[0]);
    if Harmful(s, events[0]) {
      j := 1;
      ProceedsToNobody(Next(s, events[0]));
      assert events[..1][1..] == [];
      RunsNone(Next(s, events[0]));
    } else {
      j := SomeHarm(Next(s, events[0]), events[1..]);
      j := j + 1;
      assert events[..j][1..] == events[1..][..j - 1];
    }
  }

  lemma {:induction false} HarmlessPrefix(s: Household, events: seq<Event>, j: nat)
    requires Harmless(s, events) && j <= |events|
    ensures Harmless(s, events[..j])
    decreases j
  {
    hide Next, Harmful;
    if j > 0 {
      HarmlessPrefix(Next(s, events[0]), events[1..], j - 1);
      assert events[..j][1..] == events[1..][..j - 1];
    }
  }

  /**
   * The household can come to have no administrator exactly when a revocation took
   * the account or the role of the only one who remained.
   */
  lemma {:induction false} NobodyIsLeftExactlyAfterHarm(s: Household, events: seq<Event>)
    requires SomeAdmin(s) && TakesFromHeld(s)
    ensures (exists j :: 0 <= j <= |events| && CanLoseAll(Runs(s, events[..j]))) <==> !Harmless(s, events)
  {
    if Harmless(s, events) {
      forall j | 0 <= j <= |events| ensures !CanLoseAll(Runs(s, events[..j])) {
        HarmlessPrefix(s, events, j);
        AlwaysAnAdmin(s, events[..j]);
        NotLost(Runs(s, events[..j]));
      }
    } else {
      var j := SomeHarm(s, events);
    }
  }

  lemma NotLost(s: Household)
    requires SomeAdmin(s)
    ensures !CanLoseAll(s)
  {
    forall more | Harmless(s, more) ensures !NobodyInCharge(Runs(s, more)) {
      AlwaysAnAdmin(s, more);
    }
  }

  // ---- Runs in which a condition fails --------------------------------------------------------------

  const FIRST := User("anna", true, {Operators})
  const SECOND := User("ben", true, {Operators})
  const DEMOTION := Hold(Demoted, Queued(map[], Targets(Demoted)))

  const ROLE_OF_A := ("a", RoleGroups)

  function TwoAdmins(holds: Holds, change: Option<Step>, due: set<(string, Target)>, demoted: set<string>): Household {
    People(map["a" := FIRST, "b" := SECOND], holds, change, due, demoted)
  }

  /** From two administrators and no holds, some steps lead here. */
  ghost predicate Reached(s: Household) {
    exists events :: s == Runs(TwoAdmins(map[], None, {}, {}), events)
  }

  lemma ReachedNext(s: Household, e: Event)
    requires Reached(s)
    ensures Reached(Next(s, e))
  {
    hide Next;
    var events :| s == Runs(TwoAdmins(map[], None, {}, {}), events);
    RunsOne(TwoAdmins(map[], None, {}, {}), events, e);
    assert Next(s, e) == Runs(TwoAdmins(map[], None, {}, {}), events + [e]);
  }

  /** Neither is the installation's own account or a service account. */
  lemma BothListed()
    ensures Listed(FIRST) && Listed(SECOND) && FIRST.username != "akadmin" && SECOND.username != "akadmin"
  {
    assert FIRST.username[..3][1] == 'n' && SECOND.username[..3][1] == 'e';
    assert FIRST.username[1] == 'n' && SECOND.username[1] == 'e';
  }

  /** One is demoted while Authentik does not answer. */
  lemma OneDemoted()
    ensures Reached(TwoAdmins(map["a" := DEMOTION], None, {}, {"a"}))
  {
    var s := TwoAdmins(map[], None, {}, {});
    assert Reached(s) by { assert Runs(s, []) == s; }
    BothListed();
    assert Effective(s.users, s.holds, "b");
    hide Reached, Queued, Targets;
    assert Next(s, Ask("a", AskRole(Member))) == TwoAdmins(map[], Some(Demote("a")), {}, {});
    ReachedNext(s, Ask("a", AskRole(Member)));
    var t := TwoAdmins(map[], Some(Demote("a")), {}, {});
    ReachedNext(t, Proceed);
    ReachedNext(Next(t, Proceed), CallFails);
  }

  const BOTH := Hold(Deactivated, Queued(DEMOTION.tasks, Targets(Deactivated)))

  /** Deactivated, she keeps the task that a demotion left. */
  lemma StillToRevoke()
    ensures IsPending(map["a" := BOTH], "a", RoleGroups)
  {
  }

  /** She is deactivated next. */
  lemma ThenDeactivated()
    ensures Reached(TwoAdmins(map["a" := BOTH], None, {}, {"a"}))
  {
    OneDemoted();
    BothListed();
    hide Reached, Queued, Targets;
    ReachedNext(TwoAdmins(map["a" := DEMOTION], None, {}, {"a"}), Ask("a", AskDeactivate));
    var t := TwoAdmins(map["a" := DEMOTION], Some(Deactivate("a")), {}, {"a"});
    ReachedNext(t, Proceed);
    assert Next(t, Proceed) == TwoAdmins(map["a" := BOTH], None, {}, {"a"});
  }

  /**
   * Stopped between the two writes of a reactivation, an administrator whose
   * demotion Authentik never got is an administrator again.
   */
  lemma AReactivationCutShort() returns (s: Household)
    ensures Reached(s) && "a" in s.demoted && s.change.None? && Effective(s.users, s.holds, "a")
  {
    ThenDeactivated();
    BothListed();
    StillToRevoke();
    hide Reached, Queued, Targets, IsPending;
    ReachedNext(TwoAdmins(map["a" := BOTH], None, {}, {"a"}), Ask("a", AskReactivate));
    var t := TwoAdmins(map["a" := BOTH], Some(Release("a", true)), {}, {"a"});
    ReachedNext(t, Proceed);
    ReachedNext(Next(t, Proceed), Dies);
    s := Next(Next(t, Proceed), Dies);
    assert s == TwoAdmins(map[], None, {}, {"a"});
  }

  const ABSENCE := Hold(Deactivated, Queued(map[], Targets(Deactivated)))

  lemma NoRoleTask()
    ensures !Unfinished(map["a" := ABSENCE], "a")
  {
  }

  /**
   * Demoted while deactivated, with Authentik not answering, an administrator is one again
   * after the reactivation: no removal of the role was ever queued.
   */
  lemma ADemotionNeverQueued() returns (s: Household)
    ensures Reached(s) && "a" in s.demoted && s.change.None? && Effective(s.users, s.holds, "a")
  {
    AwayThenDemoted();
    BothListed();
    hide Reached, Queued, Targets;
    var t := TwoAdmins(map["a" := ABSENCE], Some(Demote("a")), {}, {});
    ReachedNext(t, Proceed);
    ReachedNext(Next(t, Proceed), CallFails);
    assert Next(Next(t, Proceed), CallFails) == TwoAdmins(map["a" := ABSENCE], None, {}, {"a"});
    s := ReactivatedAgain(Next(Next(t, Proceed), CallFails));
  }

  lemma AwayThenDemoted()
    ensures Reached(TwoAdmins(map["a" := ABSENCE], Some(Demote("a")), {}, {}))
  {
    var s := TwoAdmins(map[], None, {}, {});
    assert Reached(s) by { assert Runs(s, []) == s; }
    BothListed();
    assert Effective(s.users, s.holds, "b");
    hide Reached, Queued, Targets;
    ReachedNext(s, Ask("a", AskDeactivate));
    var t := TwoAdmins(map[], Some(Deactivate("a")), {}, {});
    ReachedNext(t, Proceed);
    assert Next(t, Proceed) == TwoAdmins(map["a" := ABSENCE], None, {}, {});
    ReachedNext(Next(t, Proceed), Ask("a", AskRole(Member)));
  }

  lemma ReactivatedAgain(t: Household) returns (s: Household)
    requires Reached(t) && t == TwoAdmins(map["a" := ABSENCE], None, {}, {"a"})
    ensures Reached(s) && "a" in s.demoted && s.change.None? && Effective(s.users, s.holds, "a")
  {
    BothListed();
    NoRoleTask();
    hide Reached, Queued, Targets, Unfinished;
    ReachedNext(t, Ask("a", AskReactivate));
    var u := TwoAdmins(map["a" := ABSENCE], Some(Release("a", false)), {}, {"a"});
    assert Next(t, Ask("a", AskReactivate)) == u;
    ReachedNext(u, Proceed);
    ReachedNext(Next(u, Proceed), Proceed);
    s := Next(Next(u, Proceed), Proceed);
    ReachedNext(s, Proceed);
    s := Next(s, Proceed);
  }

  /** A runner reads her revocation as due; then she is promoted again: her hold goes, Authentik never changed. */
  lemma PromotedAgain()
    ensures Reached(TwoAdmins(map[], None, {ROLE_OF_A}, {}))
  {
    OneDemoted();
    BothListed();
    assert IsPending(map["a" := DEMOTION], "a", RoleGroups);
    hide Reached, Queued, Targets, IsPending;
    ReachedNext(TwoAdmins(map["a" := DEMOTION], None, {}, {"a"}), ReadDue("a", RoleGroups));
    var s := TwoAdmins(map["a" := DEMOTION], None, {ROLE_OF_A}, {"a"});
    ReachedNext(s, Ask("a", AskRole(Admin)));
    var t := TwoAdmins(map["a" := DEMOTION], Some(Promote("a")), {ROLE_OF_A}, {"a"});
    ReachedNext(t, Proceed);
    assert Next(t, Proceed) == TwoAdmins(map[], Some(Calls("a", RoleCalls(Admin))), {ROLE_OF_A}, {});
    ReachedNext(Next(t, Proceed), CallFails);
  }

  /**
   * That revocation, carried out after the other administrator was demoted,
   * leaves nobody in charge.
   */
  lemma AStaleRevocation() returns (s: Household)
    ensures Reached(s) && forall uid :: !Effective(s.users, s.holds, uid)
  {
    PromotedAgain();
    BothListed();
    hide Reached, Queued, Targets;
    var s0 := TwoAdmins(map[], None, {ROLE_OF_A}, {});
    assert Effective(s0.users, s0.holds, "a");
    assert Next(s0, Ask("b", AskRole(Member))) == TwoAdmins(map[], Some(Demote("b")), {ROLE_OF_A}, {});
    ReachedNext(s0, Ask("b", AskRole(Member)));
    var t := TwoAdmins(map[], Some(Demote("b")), {ROLE_OF_A}, {});
    ReachedNext(t, Proceed);
    var u := TwoAdmins(map["b" := DEMOTION], Some(Calls("b", RoleCalls(Member))), {ROLE_OF_A}, {"b"});
    assert Next(t, Proceed) == u;
    ReachedNext(u, Handle("a", RoleGroups, true));
    s := Next(u, Handle("a", RoleGroups, true));
    assert s.users["a"].groups == {} && s.holds == map["b" := DEMOTION];
  }
}
