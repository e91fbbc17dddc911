/** What becomes of a promotion when an earlier demotion's removal of the role is still to be done. */
module Promotions {
  import opened Wrappers
  import opened Access
  import opened AccessRuns

  /** The removal of this person's role is queued, or a runner has read it and is about to attempt it. */
  predicate RemovalToCome(s: Household, uid: string) {
    IsPending(s.holds, uid, RoleGroups) || (uid, RoleGroups) in s.due
  }

  predicate IsAsked(e: Event, uid: string) { e.Ask? && e.uid == uid }

  ghost predicate Unasked(events: seq<Event>, uid: string) { forall e <- events :: !IsAsked(e, uid) }

  /** Some course of events, with no change of this person asked for, takes the role. */
  ghost predicate CanBeTaken(s: Household, uid: string) {
    exists more :: Unasked(more, uid) && !AdminNow(Runs(s, more).users, uid)
  }

  /** An administrator whom nothing queued or under way concerns. */
  predicate Safe(s: Household, uid: string) {
    AdminNow(s.users, uid) && !RemovalToCome(s, uid) && (s.change.Some? ==> s.change.value.uid != uid)
  }

  lemma StepSafe(s: Household, e: Event, uid: string)
    requires Safe(s, uid) && !IsAsked(e, uid)
    ensures Safe(Next(s, e), uid)
  {
  }

  lemma {:induction false} RunSafe(s: Household, events: seq<Event>, uid: string)
    requires Safe(s, uid) && Unasked(events, uid)
    ensures Safe(Runs(s, events), uid)
    decreases |events|
  {
    hide Safe, Next, IsAsked;
    if events != [] {
      assert !IsAsked(events[0], uid);
      StepSafe(s, events[0], uid);
      RunSafe(Next(s, events[0]), events[1..], uid);
    }
  }

  lemma Removed(s: Household, uid: string) returns (more: seq<Event>)
    requires uid in s.users && RemovalToCome(s, uid)
    ensures Unasked(more, uid) && |more| <= 2 && !AdminNow(Runs(s, more).users, uid)
    ensures Runs(s, more).demoted == s.demoted
  {
    var read := Next(s, ReadDue(uid, RoleGroups));
    assert (uid, RoleGroups) in read.due && read.users == s.users;
    RunsNone(s);
    RunsOne(s, [], ReadDue(uid, RoleGroups));
    RunsOne(s, [] + [ReadDue(uid, RoleGroups)], Handle(uid, RoleGroups, true));
    more := [] + [ReadDue(uid, RoleGroups)] + [Handle(uid, RoleGroups, true)];
    if !IsPending(s.holds, uid, RoleGroups) { assert read == s; }
  }

  /** An administrator can lose the role unasked exactly while a removal of it is to come. */
  lemma {:induction false} RolesAreTakenExactly(s: Household, uid: string)
    requires AdminNow(s.users, uid) && (s.change.Some? ==> s.change.value.uid != uid)
    ensures CanBeTaken(s, uid) <==> RemovalToCome(s, uid)
  {
    if RemovalToCome(s, uid) {
      var more := Removed(s, uid);
    } else {
      forall more | Unasked(more, uid) ensures AdminNow(Runs(s, more).users, uid) { RunSafe(s, more, uid); }
    }
  }

  // ---- A promotion that nothing interrupts ---------------------------------------------------------

  /** The state after it: a demotion's hold is released, a deactivation's stays with all its revocations. */
  function Promoted(s: Household, uid: string): Household
    requires uid in s.users
  {
    s.(users := s.users[uid := s.users[uid].(groups := s.users[uid].groups + {Operators} - {Household})],
       holds := Released(s.holds, uid, Demoted), demoted := s.demoted - {uid})
  }

  const PROMOTION: seq<Event> := [Proceed, Proceed, Proceed, Proceed]

  lemma PromotionRuns(s: Household, uid: string)
    requires s.change.None? && !Refused(s.users, s.holds, uid, AskRole(Admin))
    ensures Runs(s, [Ask(uid, AskRole(Admin))] + PROMOTION) == Promoted(s, uid)
  {
    var e := Ask(uid, AskRole(Admin));
    var a := s.(change := Some(Promote(uid)));
    assert Next(s, e) == a;
    hide Refused, Released;
    var b := s.(holds := Released(s.holds, uid, Demoted), demoted := s.demoted - {uid});
    var joined := s.users[uid].(groups := s.users[uid].groups + {Operators});
    var left := joined.(groups := joined.groups - {Household});
    assert Next(a, Proceed) == b.(change := Some(Calls(uid, RoleCalls(Admin))));
    var c := b.(users := s.users[uid := joined], change := Some(Calls(uid, [Leave(Household)])));
    assert RoleCalls(Admin)[1..] == [Leave(Household)];
    assert Next(b.(change := Some(Calls(uid, RoleCalls(Admin)))), Proceed) == c;
    var d := b.(users := s.users[uid := left], change := Some(Calls(uid, [])));
    assert [Leave(Household)][1..] == [];
    assert s.users[uid := joined][uid := left] == s.users[uid := left];
    assert Next(c, Proceed) == d;
    assert Next(d, Proceed) == Promoted(s, uid);
    hide Next;
    RunsNone(s);
    RunsOne(s, [], e);
    RunsOne(s, [] + [e], Proceed);
    RunsOne(s, [] + [e] + [Proceed], Proceed);
    RunsOne(s, [] + [e] + [Proceed] + [Proceed], Proceed);
    RunsOne(s, [] + [e] + [Proceed] + [Proceed] + [Proceed], Proceed);
    assert [] + [e] + [Proceed] + [Proceed] + [Proceed] + [Proceed] == [e] + PROMOTION;
  }

  /**
   * A promotion can be undone with no further change asked for if and only if, when it was
   * asked for, the person was deactivated with an earlier demotion's removal of the role still
   * pending, or a runner had read that removal as due.
   */
  lemma {:induction false} PromotionsAreUndoneExactly(s: Household, uid: string)
    requires s.change.None? && !Refused(s.users, s.holds, uid, AskRole(Admin))
    ensures var t := Runs(s, [Ask(uid, AskRole(Admin))] + PROMOTION);
      && t.change.None? && uid !in t.demoted && AdminNow(t.users, uid)
      && (CanBeTaken(t, uid) <==>
            (IsPending(s.holds, uid, RoleGroups) && s.holds[uid].kind == Deactivated) || (uid, RoleGroups) in s.due)
  {
    PromotionRuns(s, uid);
    RolesAreTakenExactly(Promoted(s, uid), uid);
    hide Runs, CanBeTaken, Refused;
  }

  // ---- A promotion with anything in between --------------------------------------------------------

  /** The person's own change is stopped. */
  predicate Stops(s: Household, e: Event, uid: string) {
    s.change.Some? && s.change.value.uid == uid && (e.Dies? || (e.CallFails? && s.change.value.Calls?))
  }

  /** Nothing about this person is asked for, and no change of theirs is stopped. */
  ghost predicate Undisturbed(s: Household, events: seq<Event>, uid: string)
    decreases |events|
  {
    events == [] ||
    (!IsAsked(events[0], uid) && !Stops(s, events[0], uid) && Undisturbed(Next(s, events[0]), events[1..], uid))
  }

  /** An administrator, or a promotion under way that makes one, and no removal to come. */
  predicate OnTheWay(s: Household, uid: string) {
    && uid in s.users && !RemovalToCome(s, uid)
    && if s.change.Some? && s.change.value.uid == uid then Promoting(s, uid) else AdminNow(s.users, uid)
  }

  predicate Promoting(s: Household, uid: string)
    requires s.change.Some? && uid in s.users
  {
    match s.change.value
    case Promote(_) => true
    case Calls(_, calls) =>
      && (Join(Operators) in calls || AdminNow(s.users, uid))
      && Leave(Operators) !in calls && Leave(Superusers) !in calls
    case _ => false
  }

  lemma StepOnTheWay(s: Household, e: Event, uid: string)
    requires OnTheWay(s, uid) && !IsAsked(e, uid) && !Stops(s, e, uid)
    ensures OnTheWay(Next(s, e), uid)
  {
    if e.Proceed? && s.change.Some? && s.change.value.Calls? && s.change.value.calls != [] {
      var calls := s.change.value.calls;
      assert forall c <- calls :: c == calls[0] || c in calls[1..];
      assert forall c <- calls[1..] :: c in calls;
    }
  }

  lemma {:induction false} RunOnTheWay(s: Household, events: seq<Event>, uid: string)
    requires OnTheWay(s, uid) && Undisturbed(s, events, uid)
    ensures OnTheWay(Runs(s, events), uid)
    decreases |events|
  {
    hide OnTheWay, Next, IsAsked, Stops;
    if events != [] {
      StepOnTheWay(s, events[0], uid);
      RunOnTheWay(Next(s, events[0]), events[1..], uid);
    }
  }

  /** Once asked for, the promotion goes through, and some course of events around it takes the role all the same. */
  ghost predicate CanEndUndone(s: Household, uid: string) {
    exists more :: EndsUndone(Next(s, Ask(uid, AskRole(Admin))), more, uid)
  }

  ghost predicate EndsUndone(s: Household, more: seq<Event>, uid: string) {
    Undisturbed(s, more, uid) && Runs(s, more).change.None? && !AdminNow(Runs(s, more).users, uid)
  }

  /** The removal is read as due at once, and carried out when the promotion is done. */
  lemma ReadAndRemoved(s: Household, uid: string)
    requires s.change.None? && !Refused(s.users, s.holds, uid, AskRole(Admin)) && RemovalToCome(s, uid)
    ensures CanEndUndone(s, uid)
  {
    var read := s.(due := s.due + {(uid, RoleGroups)});
    var a, b := Next(s, Ask(uid, AskRole(Admin))), Next(read, Ask(uid, AskRole(Admin)));
    assert Next(a, ReadDue(uid, RoleGroups)) == b by {
      hide Refused;
      assert (uid, RoleGroups) in s.due ==> s.due + {(uid, RoleGroups)} == s.due;
    }
    PromotionRuns(read, uid);
    var t := Promoted(read, uid);
    var removal := Handle(uid, RoleGroups, true);
    assert Next(t, removal).change.None? && !AdminNow(Next(t, removal).users, uid);
    var more := [ReadDue(uid, RoleGroups)] + PROMOTION + [removal];
    hide Next, Promoted, Refused;
    assert ([Ask(uid, AskRole(Admin))] + PROMOTION)[1..] == PROMOTION;
    assert Runs(read, [Ask(uid, AskRole(Admin))] + PROMOTION) == Runs(b, PROMOTION) == t;
    RunsOne(b, PROMOTION, removal);
    assert more[1..] == PROMOTION + [removal] && more[0] == ReadDue(uid, RoleGroups);
    assert Runs(a, more) == Next(t, removal);
    QuietIsUndisturbed(a, more, uid);
    assert EndsUndone(a, more, uid);
  }

  lemma {:induction false} QuietIsUndisturbed(s: Household, events: seq<Event>, uid: string)
    requires forall e <- events :: !e.Ask? && !e.Dies? && !e.CallFails?
    ensures Undisturbed(s, events, uid)
    decreases |events|
  {
    hide Next;
    if events != [] {
      assert events[0] in events;
      QuietIsUndisturbed(Next(s, events[0]), events[1..], uid);
    }
  }

  /**
   * With anything in between - revocations read and attempted at any moment, changes of other people -
   * a promotion that goes through can end undone if and only if a removal of the role was pending,
   * or read as due, when it was asked for.
   */
  lemma {:induction false} PromotionsCanEndUndoneExactly(s: Household, uid: string)
    requires s.change.None? && !Refused(s.users, s.holds, uid, AskRole(Admin))
    ensures CanEndUndone(s, uid) <==> RemovalToCome(s, uid)
  {
    if RemovalToCome(s, uid) {
      ReadAndRemoved(s, uid);
    } else {
      var a := Next(s, Ask(uid, AskRole(Admin)));
      assert OnTheWay(a, uid);
      hide Next, Runs;
      forall more | Undisturbed(a, more, uid) && Runs(a, more).change.None? ensures AdminNow(Runs(a, more).users, uid) {
        RunOnTheWay(a, more, uid);
      }
    }
  }

  /** Demoted while Authentik does not answer, then deactivated, then promoted: the queued removal takes the role again. */
  lemma APromotionUndone() returns (t: Household, more: seq<Event>)
    ensures Reached(t) && "a" !in t.demoted && AdminNow(t.users, "a")
    ensures Unasked(more, "a") && "a" !in Runs(t, more).demoted && !AdminNow(Runs(t, more).users, "a")
  {
    var s := TwoAdmins(map["a" := BOTH], None, {}, {"a"});
    ThenDeactivated();
    StillToRevoke();
    BothListed();
    t := Runs(s, [Ask("a", AskRole(Admin))] + PROMOTION);
    PromotionRuns(s, "a");
    RunReached(s, [Ask("a", AskRole(Admin))] + PROMOTION);
    hide Reached, Queued, Targets, IsPending;
    assert t.holds == s.holds;
    more := Removed(t, "a");
  }

  lemma RunReached(s: Household, events: seq<Event>)
    requires Reached(s)
    ensures Reached(Runs(s, events))
  {
    hide Runs;
    var before :| s == Runs(TwoAdmins(map[], None, {}, {}), before);
    RunsJoin(TwoAdmins(map[], None, {}, {}), before, events);
  }
}
