/**
 * The two jobs that change AI settings, chat's and voice's: what is recorded,
 * what is written for LiteLLM, what it may be running with, and whether the
 * record promises more privacy than there is, wherever a job ends.
 */
module AiSettings {
  import opened Wrappers
  import opened AiRouting

  /** What was saved is read back unchanged. */
  lemma SavedIsRead(s: Settings, server: Server)
    requires Proper(s, server.runners)
    ensures Read(AsStored(s), server) == s
  {
    ProperIsAccepted(s, server.runners);
    hide SourcesIn;
  }

  // ---- Records and routings -----------------------------------------------------------------

  /** Chat's record, and voice's own if there is one. */
  datatype Records = Records(chat: Stored, voice: Option<VoiceStored>)

  datatype Use = ForChat | ForVoice

  function VoiceOf(r: Records, server: Server): Voice {
    ReadIsUsable(r.chat, server);
    VoiceRead(r.voice, Read(r.chat, server))
  }

  function RoutingOf(r: Records, server: Server): seq<Route> {
    ReadIsUsable(r.chat, server);
    Routes(Read(r.chat, server), VoiceOf(r, server))
  }

  /** The record says that this use stays on the server. */
  predicate Private(r: Records, server: Server, use: Use) {
    match use
    case ForChat => OUTSIDE !in Read(r.chat, server).sources
    case ForVoice => VoiceOf(r, server).privacy == LocalOnly
  }

  /** No route of this use leaves the server. */
  predicate Stays(routes: seq<Route>, use: Use) {
    forall r <- routes :: (r.name == VOICE_ALIAS <==> use == ForVoice) ==> !r.place.Gateway?
  }

  lemma ChatStaysExactly(s: Settings)
    requires s.sources in {[LOCAL], [OUTSIDE], [LOCAL, OUTSIDE], [OUTSIDE, LOCAL]}
    ensures (forall r <- ChatRoutes(s) :: r.name != VOICE_ALIAS)
    ensures (forall r <- ChatRoutes(s) :: !r.place.Gateway?) <==> OUTSIDE !in s.sources
  {
    assert LOCAL[0] != OUTSIDE[0];
    NamesDiffer();
    if s.sources[0] == OUTSIDE { assert Route(FAST, Gateway("auto:fastest")) in ChatRoutes(s); }
    if s.sources == [LOCAL, OUTSIDE] { assert Route(OUTSIDE_ALIAS, Gateway("auto:smartest")) in ChatRoutes(s); }
  }

  lemma VoiceStaysExactly(v: Voice)
    ensures (forall r <- VoiceRoutes(v) :: r.name == VOICE_ALIAS)
    ensures (forall r <- VoiceRoutes(v) :: !r.place.Gateway?) <==> v.privacy == LocalOnly
  {
    VoiceNamed(v);
    if v.privacy != LocalOnly { assert Route(VOICE_ALIAS, Gateway("auto:smartest")) in VoiceRoutes(v); }
  }

  /** The routing a record gives keeps a use on the server exactly when the record says so. */
  lemma StaysExactly(r: Records, server: Server, use: Use)
    ensures Stays(RoutingOf(r, server), use) <==> Private(r, server, use)
  {
    var (s, v) := (Read(r.chat, server), VoiceOf(r, server));
    ReadIsUsable(r.chat, server);
    ChatStaysExactly(s);
    VoiceStaysExactly(v);
    NamesDiffer();
    hide Read, VoiceOf, ChatRoutes, VoiceRoutes;
    var all := RoutingOf(r, server);
    assert all == ChatRoutes(s) + VoiceRoutes(v) + [Route(EMBED, OnServer(s.embedding))];
    assert forall x :: x in all <==> x in ChatRoutes(s) || x in VoiceRoutes(v) || x == Route(EMBED, OnServer(s.embedding));
    hide RoutingOf;
  }

  // ---- What is written, and what may be in force ----------------------------------------------

  /** What the model proxy's files hold: the routes, and everything else in them. */
  datatype Files = Files(routes: seq<Route>, rest: nat)

  /**
   * What the server offers, the records, the files, and the routings that LiteLLM may be running
   * with: it reads its files when it is started, and only then.
   */
  datatype Ai = Ai(server: Server, records: Records, files: Files, inForce: set<seq<Route>>)

  /** How far one apply gets: not to the files; so far; or through bringing LiteLLM up. */
  datatype Reach = Untouched | Wrote | BroughtUp

  datatype Attempt = Attempt(rest: nat, reach: Reach)

  /** Steps of the settings jobs, of anything else that writes or starts LiteLLM, and of what the server offers. */
  datatype Event =
    | Save(records: Records)
    | Reconcile(attempt: Attempt)
    | Rewrite(rest: nat)
    | Restart
    | Offer(server: Server)

  function Routing(a: Ai): seq<Route> { RoutingOf(a.records, a.server) }

  /** Bringing LiteLLM up starts it anew only when this apply changed its files. */
  function Next(a: Ai, e: Event): Ai {
    match e
    case Save(records) => a.(records := records)
    case Reconcile(Attempt(rest, reach)) =>
      if reach.Untouched? then a
      else if reach.Wrote? then a.(files := Files(Routing(a), rest), inForce := a.inForce + {Routing(a)})
      else if Changes(a, rest) then a.(files := Files(Routing(a), rest), inForce := {Routing(a)})
      else a
    case Rewrite(rest) => a.(files := a.files.(rest := rest))
    case Restart => a.(inForce := {a.files.routes})
    case Offer(server) => a.(server := server)
  }

  predicate Changes(a: Ai, rest: nat) { Files(Routing(a), rest) != a.files }

  function Runs(a: Ai, events: seq<Event>): Ai
    decreases |events|
  {
    if events == [] then a else Runs(Next(a, events[0]), events[1..])
  }

  /** Whatever is written is read whenever LiteLLM starts, which it may do by itself. */
  predicate MayBeRead(a: Ai) { a.files.routes in a.inForce }

  predicate AllStay(inForce: set<seq<Route>>, use: Use) { forall routes <- inForce :: Stays(routes, use) }

  lemma AllStayJoin(some: set<seq<Route>>, routes: seq<Route>, use: Use)
    ensures AllStay(some + {routes}, use) <==> AllStay(some, use) && Stays(routes, use)
    ensures AllStay({routes}, use) <==> Stays(routes, use)
  {
  }

  predicate Promised(a: Ai, use: Use) { Private(a.records, a.server, use) }

  /** What the record promises for a use is true of every routing there may be. */
  predicate Truthful(a: Ai, use: Use) { Promised(a, use) ==> AllStay(a.inForce, use) }

  // ---- Over any steps -------------------------------------------------------------------------

  /** An apply gets as far as the files while the record lets this use out. */
  predicate Opens(a: Ai, e: Event, use: Use) { e.Reconcile? && !e.attempt.reach.Untouched? && !Promised(a, use) }

  /** LiteLLM is started with files that keep this use here: by an apply that changed them, or otherwise. */
  predicate Closes(a: Ai, e: Event, use: Use) {
    match e
    case Reconcile(Attempt(rest, BroughtUp)) => Changes(a, rest) && Promised(a, use)
    case Restart => Stays(a.files.routes, use)
    case _ => false
  }

  lemma StepAccounts(a: Ai, e: Event, use: Use)
    requires MayBeRead(a)
    ensures var t := Next(a, e);
      MayBeRead(t) && (!AllStay(t.inForce, use) <==> Opens(a, e, use) || (!AllStay(a.inForce, use) && !Closes(a, e, use)))
  {
    ReadStays(a, use);
    hide RoutingOf, Private, Stays, AllStay;
    if e.Reconcile? { ReconcileAccounts(a, e.attempt, use); }
    AllStayJoin({}, a.files.routes, use);
    hide Changes, Routing;
  }

  lemma ReadStays(a: Ai, use: Use)
    requires MayBeRead(a)
    ensures AllStay(a.inForce, use) ==> Stays(a.files.routes, use)
  {
  }

  lemma ReconcileAccounts(a: Ai, attempt: Attempt, use: Use)
    requires MayBeRead(a)
    ensures var t, e := Next(a, Reconcile(attempt)), Reconcile(attempt);
      MayBeRead(t) && (!AllStay(t.inForce, use) <==> Opens(a, e, use) || (!AllStay(a.inForce, use) && !Closes(a, e, use)))
  {
    hide RoutingOf, Private, Stays, AllStay;
    ReadStays(a, use);
    StaysExactly(a.records, a.server, use);
    var routes := Routing(a);
    assert Stays(routes, use) <==> Promised(a, use);
    AllStayJoin(a.inForce, routes, use);
    hide Routing, Promised;
  }

  ghost predicate ClosedLater(a: Ai, events: seq<Event>, use: Use)
    decreases |events|
  {
    events != [] && (Closes(a, events[0], use) || ClosedLater(Next(a, events[0]), events[1..], use))
  }

  /** Some step opens this use, and no later one closes it. */
  ghost predicate StaysOpen(a: Ai, events: seq<Event>, use: Use)
    decreases |events|
  {
    events != [] &&
    var t := Next(a, events[0]);
    (Opens(a, events[0], use) && !ClosedLater(t, events[1..], use)) || StaysOpen(t, events[1..], use)
  }

  lemma OneWay(a: Ai, e: Event, use: Use)
    ensures !(Opens(a, e, use) && Closes(a, e, use))
  {
    hide Private, Stays;
  }

  lemma {:induction false} OpenExactly(a: Ai, events: seq<Event>, use: Use)
    requires MayBeRead(a)
    ensures var t := Runs(a, events);
      MayBeRead(t) && (!AllStay(t.inForce, use) <==>
        StaysOpen(a, events, use) || (!AllStay(a.inForce, use) && !ClosedLater(a, events, use)))
    decreases |events|
  {
    hide MayBeRead, Next, AllStay, Opens, Closes;
    if events != [] {
      StepAccounts(a, events[0], use);
      OneWay(a, events[0], use);
      OpenExactly(Next(a, events[0]), events[1..], use);
    }
  }

  /** The files are as the records give them, and LiteLLM runs with nothing else. */
  predicate Settled(a: Ai) { a.files.routes == Routing(a) && a.inForce == {a.files.routes} }

  lemma SettledIsTruthful(a: Ai, use: Use)
    requires Settled(a)
    ensures MayBeRead(a) && (AllStay(a.inForce, use) <==> Promised(a, use)) && Truthful(a, use)
  {
    StaysExactly(a.records, a.server, use);
    AllStayJoin({}, Routing(a), use);
    hide RoutingOf, Private, Stays, AllStay;
  }

  /**
   * After any steps - saves, applies however far they got, other writes, restarts - a record that
   * promises chat or voice to stay on this server is true of every routing there may be if and
   * only if, since each apply that wrote routes leading out for that use, and since the start if
   * those did, LiteLLM was started with files that do not.
   */
  lemma {:induction false} PromisesAreTrueExactly(a: Ai, events: seq<Event>, use: Use)
    requires Settled(a)
    ensures var t := Runs(a, events);
      Truthful(t, use) <==>
        (Promised(t, use) ==> !StaysOpen(a, events, use) && (Promised(a, use) || ClosedLater(a, events, use)))
  {
    SettledIsTruthful(a, use);
    hide Settled, MayBeRead, AllStay, Promised, Runs;
    OpenExactly(a, events, use);
  }

  // ---- One job ----------------------------------------------------------------------------------

  datatype Job = ChatJob(chosen: Settings) | VoiceJob(choice: Option<VoiceStored>)

  predicate VoiceFits(v: VoiceStored) {
    && PrivacyWord(v.privacy).Some? && (v.model == "" || v.model in CHAT_MODELS)
    && (PrivacyWord(v.privacy) != Some(OutsideAllowed) ==> v.model != "")
  }

  predicate Fits(job: Job, server: Server) {
    match job
    case ChatJob(chosen) => Proper(chosen, server.runners)
    case VoiceJob(choice) => choice.Some? ==> VoiceFits(choice.value)
  }

  /**
   * How a job ends, with its applies: before it saves anything; with the choice recorded; with the
   * earlier settings recorded; or with chat's record widened, because they could not be put back.
   */
  datatype Ending =
    | NotBegun
    | OnChoice(first: Attempt)
    | BackOnEarlier(first: Attempt, second: Attempt)
    | Widened(first: Attempt, second: Attempt)

  function Choice(r: Records, job: Job): Records {
    match job
    case ChatJob(chosen) => r.(chat := AsStored(chosen))
    case VoiceJob(choice) => r.(voice := choice)
  }

  /** The earlier settings as they are saved again; None where they are not fit to be saved. */
  function Earlier(r: Records, job: Job, server: Server): Option<Records> {
    match job
    case ChatJob(_) =>
      var before := Read(r.chat, server);
      if Proper(before, server.runners) then Some(r.(chat := AsStored(before))) else None
    case VoiceJob(_) => Some(r)
  }

  /** Either the earlier or the chosen settings of chat let it out. */
  predicate EitherOut(r: Records, job: Job, server: Server) {
    job.ChatJob? && (OUTSIDE in Read(r.chat, server).sources || OUTSIDE in job.chosen.sources)
  }

  /** What is recorded when the earlier routing could not be put back: chat is let out. */
  function Open(r: Records, server: Server): Records {
    var before := Read(r.chat, server);
    r.(chat := AsStored(before.(sources := [OUTSIDE] + Without(before.sources))))
  }

  predicate Possible(a: Ai, job: Job, e: Ending) {
    && (!e.NotBegun? ==> Fits(job, a.server))
    && (e.BackOnEarlier? || e.Widened? ==> Earlier(a.records, job, a.server).Some?)
    && (e.Widened? ==> EitherOut(a.records, job, a.server))
  }

  function StepsOf(a: Ai, job: Job, e: Ending): seq<Event>
    requires Possible(a, job, e)
  {
    var tried := [Save(Choice(a.records, job)), Reconcile(if e.NotBegun? then Attempt(0, Untouched) else e.first)];
    match e
    case NotBegun => []
    case OnChoice(_) => tried
    case BackOnEarlier(_, second) => tried + [Save(Earlier(a.records, job, a.server).value), Reconcile(second)]
    case Widened(_, second) =>
      tried + [Save(Earlier(a.records, job, a.server).value), Reconcile(second), Save(Open(a.records, a.server))]
  }

  function After(a: Ai, job: Job, e: Ending): Ai
    requires Possible(a, job, e)
  {
    Runs(a, StepsOf(a, job, e))
  }

  function Tried(a: Ai, records: Records, attempt: Attempt): Ai { Next(Next(a, Save(records)), Reconcile(attempt)) }

  /** The steps of a job, one by one. */
  lemma AfterSteps(a: Ai, job: Job, e: Ending)
    requires Possible(a, job, e)
    ensures e.NotBegun? ==> After(a, job, e) == a
    ensures e.OnChoice? ==> After(a, job, e) == Tried(a, Choice(a.records, job), e.first)
    ensures e.BackOnEarlier? || e.Widened? ==>
      var t := Tried(Tried(a, Choice(a.records, job), e.first), Earlier(a.records, job, a.server).value, e.second);
      After(a, job, e) == if e.Widened? then t.(records := Open(a.records, a.server)) else t
  {
    if e.NotBegun? { return; }
    var steps := StepsOf(a, job, e);
    var t := Tried(a, steps[0].records, e.first);
    RunsTwo(a, steps);
    if e.OnChoice? { return; }
    var rest := steps[2..];
    assert rest[0] == Save(Earlier(a.records, job, a.server).value) && rest[1] == Reconcile(e.second);
    assert e.BackOnEarlier? ==> rest[2..] == [];
    assert e.Widened? ==> rest[2..] == [Save(Open(a.records, a.server))];
    hide Choice, Earlier, Open, EitherOut, Fits, Changes, Routing;
    RunsTwo(t, rest);
  }

  lemma RunsTwo(a: Ai, events: seq<Event>)
    requires |events| >= 2
    ensures Runs(a, events) == Runs(Next(Next(a, events[0]), events[1]), events[2..])
  {
    hide Next;
    assert events[1..][1..] == events[2..];
  }

  function Without(sources: seq<string>): seq<string> {
    if sources == [] then []
    else if sources[0] == OUTSIDE then Without(sources[1..])
    else [sources[0]] + Without(sources[1..])
  }
  lemma WithoutOutside(sources: seq<string>)
    requires sources in {[LOCAL], [OUTSIDE], [LOCAL, OUTSIDE], [OUTSIDE, LOCAL]}
    ensures Without(sources) == if LOCAL in sources then [LOCAL] else []
  {
  }

  lemma OpenIsProper(s: Settings, runners: set<string>)
    requires Proper(s, runners)
    ensures var open := s.(sources := [OUTSIDE] + Without(s.sources)); Proper(open, runners) && OUTSIDE in open.sources
  {
    assert LOCAL[0] != OUTSIDE[0];
    WithoutOutside(s.sources);
    assert [OUTSIDE] + [LOCAL] == [OUTSIDE, LOCAL] && [OUTSIDE] + [] == [OUTSIDE];
  }

  /** What is put back is read as it was before. */
  lemma EarlierIsRead(r: Records, job: Job, server: Server, use: Use)
    requires Earlier(r, job, server).Some?
    ensures var back := Earlier(r, job, server).value;
      RoutingOf(back, server) == RoutingOf(r, server) && Private(back, server, use) == Private(r, server, use)
  {
    if job.ChatJob? { SavedIsRead(Read(r.chat, server), server); }
    hide Read, Proper;
  }

  /** Chat's record, widened, promises nothing that either settings do not; voice's own is as it was. */
  lemma OpenIsRead(r: Records, job: Job, server: Server, use: Use)
    requires Fits(job, server) && Earlier(r, job, server).Some? && EitherOut(r, job, server)
    ensures Private(Open(r, server), server, use) <==> Private(r, server, use) && Private(Choice(r, job), server, use)
  {
    var before := Read(r.chat, server);
    SavedIsRead(job.chosen, server);
    SavedIsRead(before, server);
    OpenIsProper(before, server.runners);
    SavedIsRead(before.(sources := [OUTSIDE] + Without(before.sources)), server);
    hide Read, Proper, AsStored;
  }

  /** Records that promise differently are written differently. */
  lemma RoutingsDiffer(r: Records, other: Records, server: Server, use: Use)
    requires Private(r, server, use) != Private(other, server, use)
    ensures RoutingOf(r, server) != RoutingOf(other, server)
  {
    StaysExactly(r, server, use);
    StaysExactly(other, server, use);
    hide RoutingOf, Private, Stays;
  }

  lemma TriedAccounts(a: Ai, records: Records, attempt: Attempt, use: Use)
    requires MayBeRead(a)
    ensures var t, changes := Tried(a, records, attempt), Changes(a.(records := records), attempt.rest);
      && MayBeRead(t) && t.records == records && t.server == a.server
      && t.files.routes == (if attempt.reach.Untouched? then a.files.routes else RoutingOf(records, a.server))
      && (AllStay(t.inForce, use) <==>
            (attempt.reach.Untouched? || Private(records, a.server, use)) &&
            (AllStay(a.inForce, use) || (attempt.reach.BroughtUp? && changes && Private(records, a.server, use))))
  {
    StepAccounts(Next(a, Save(records)), Reconcile(attempt), use);
    hide RoutingOf, Private, Stays, AllStay;
  }

  /**
   * What one job, ended in this way, exposes: a use taken off outside providers whose apply did not
   * get through; or one let out whose apply reached the files, and the apply that puts it back did not.
   */
  predicate Exposes(a: Ai, job: Job, e: Ending, use: Use) {
    var before, chosen := Promised(a, use), Private(Choice(a.records, job), a.server, use);
    match e
    case OnChoice(first) => !before && chosen && !first.reach.BroughtUp?
    case BackOnEarlier(first, second) => before && !chosen && !first.reach.Untouched? && !second.reach.BroughtUp?
    case _ => false
  }

  /** One job, with nothing but its records' own routing in force before it. */
  lemma JobAccounts(a: Ai, job: Job, e: Ending, use: Use)
    requires Settled(a) && Possible(a, job, e)
    ensures Truthful(After(a, job, e), use) <==> !Exposes(a, job, e, use)
  {
    SettledIsTruthful(a, use);
    AfterSteps(a, job, e);
    var chosen := Choice(a.records, job);
    hide RoutingOf, Private, Stays, AllStay, Choice, Earlier, Open, EitherOut, Fits, After, MayBeRead;
    if e.NotBegun? { return; }
    TriedAccounts(a, chosen, e.first, use);
    if Private(chosen, a.server, use) != Promised(a, use) { RoutingsDiffer(chosen, a.records, a.server, use); }
    if e.OnChoice? { return; }
    var t, earlier := Tried(a, chosen, e.first), Earlier(a.records, job, a.server).value;
    hide Tried;
    EarlierIsRead(a.records, job, a.server, use);
    TriedAccounts(t, earlier, e.second, use);
    if e.Widened? { OpenIsRead(a.records, job, a.server, use); }
  }

  /** The job works, on its choice or back on the earlier settings. */
  predicate Works(e: Ending) {
    match e
    case OnChoice(first) => first.reach.BroughtUp?
    case BackOnEarlier(_, second) => second.reach.BroughtUp?
    case _ => false
  }

  /** LiteLLM may run with what these files hold, or with these routes, and nothing else. */
  predicate OneOfTwo(a: Ai, routes: seq<Route>) { MayBeRead(a) && forall x <- a.inForce :: x in {a.files.routes, routes} }

  lemma BroughtUpSettles(a: Ai, records: Records, attempt: Attempt)
    requires OneOfTwo(a, RoutingOf(records, a.server)) && attempt.reach.BroughtUp?
    ensures Settled(Tried(a, records, attempt))
  {
    hide RoutingOf;
  }

  lemma FirstTried(a: Ai, records: Records, attempt: Attempt)
    requires Settled(a)
    ensures OneOfTwo(Tried(a, records, attempt), Routing(a))
  {
    hide RoutingOf;
  }

  /** And then nothing else is in force after it either. */
  lemma WorkingJobsSettle(a: Ai, job: Job, e: Ending)
    requires Settled(a) && Possible(a, job, e) && Works(e)
    ensures Settled(After(a, job, e))
  {
    AfterSteps(a, job, e);
    var chosen := Choice(a.records, job);
    hide Private, Choice, Earlier, Open, EitherOut, Fits, After, RoutingOf;
    if e.OnChoice? {
      BroughtUpSettles(a, chosen, e.first);
    } else {
      EarlierIsRead(a.records, job, a.server, ForChat);
      FirstTried(a, chosen, e.first);
      assert Tried(a, chosen, e.first).server == a.server;
      hide Tried, Settled, OneOfTwo;
      BroughtUpSettles(Tried(a, chosen, e.first), Earlier(a.records, job, a.server).value, e.second);
    }
  }

  /**
   * After anything else went before: a success makes a promise true exactly when its apply changed
   * the files, or no routing that leads out could be in force anyway.
   */
  lemma ASuccessIsTrueExactly(a: Ai, job: Job, first: Attempt, use: Use)
    requires MayBeRead(a) && Possible(a, job, OnChoice(first)) && first.reach.BroughtUp?
    requires Private(Choice(a.records, job), a.server, use)
    ensures Truthful(After(a, job, OnChoice(first)), use) <==>
      Changes(a.(records := Choice(a.records, job)), first.rest) || AllStay(a.inForce, use)
  {
    AfterSteps(a, job, OnChoice(first));
    TriedAccounts(a, Choice(a.records, job), first, use);
    hide RoutingOf, Private, Stays, AllStay, Choice, Fits, After, Tried;
  }

  // ---- Runs that expose ---------------------------------------------------------------------------

  const MODEL := "phi4-mini"
  const CLOSED := Settings([LOCAL], MODEL, "bge-m3", "")
  const LET_OUT := Settings([OUTSIDE, LOCAL], MODEL, "bge-m3", "")
  const HERE := VoiceStored("local_only", MODEL)
  const ANYWHERE := VoiceStored("outside_allowed", "")

  /** Nothing but these records' own routing is in force. */
  function At(server: Server, records: Records): Ai {
    Ai(server, records, Files(RoutingOf(records, server), 0), {RoutingOf(records, server)})
  }

  function ChatAt(server: Server, chat: Settings): Ai { At(server, Records(AsStored(chat), None)) }

  /** Two settings of chat, told apart. */
  lemma TwoSettings(server: Server)
    ensures Proper(CLOSED, server.runners) && Proper(LET_OUT, server.runners)
    ensures Read(AsStored(CLOSED), server) == CLOSED && Read(AsStored(LET_OUT), server) == LET_OUT
    ensures OUTSIDE !in CLOSED.sources && OUTSIDE in LET_OUT.sources
  {
    assert LOCAL[0] != OUTSIDE[0];
    SavedIsRead(CLOSED, server);
    SavedIsRead(LET_OUT, server);
  }

  /** Chat is taken off outside providers, and the job is cancelled with the files written and LiteLLM as it was. */
  lemma ACancelledNarrowing(server: Server) returns (t: Ai)
    ensures var a, e := ChatAt(server, LET_OUT), OnChoice(Attempt(0, Wrote));
      Possible(a, ChatJob(CLOSED), e) && t == After(a, ChatJob(CLOSED), e)
    ensures Promised(t, ForChat) && !Truthful(t, ForChat)
  {
    TwoSettings(server);
    var a, e := ChatAt(server, LET_OUT), OnChoice(Attempt(0, Wrote));
    AfterSteps(a, ChatJob(CLOSED), e);
    JobAccounts(a, ChatJob(CLOSED), e, ForChat);
    hide RoutingOf, AsStored, Proper, After, AllStay;
    t := After(a, ChatJob(CLOSED), e);
  }

  /** Chosen again, the same settings change no file: the job succeeds, and what was in force still is. */
  lemma ARetryThatChangesNothing(server: Server) returns (t: Ai)
    ensures var e, again := OnChoice(Attempt(0, Wrote)), OnChoice(Attempt(0, BroughtUp));
      Possible(ChatAt(server, LET_OUT), ChatJob(CLOSED), e) &&
      var a := After(ChatAt(server, LET_OUT), ChatJob(CLOSED), e);
      Possible(a, ChatJob(CLOSED), again) && t == After(a, ChatJob(CLOSED), again)
    ensures Promised(t, ForChat) && !Truthful(t, ForChat)
  {
    TwoSettings(server);
    var a := ACancelledNarrowing(server);
    var again := OnChoice(Attempt(0, BroughtUp));
    AfterSteps(ChatAt(server, LET_OUT), ChatJob(CLOSED), OnChoice(Attempt(0, Wrote)));
    AfterSteps(a, ChatJob(CLOSED), again);
    hide RoutingOf, AsStored, Proper, After, AllStay, Private;
    t := After(a, ChatJob(CLOSED), again);
  }

  /**
   * A widening does not answer, and putting it back gets no further than the files: chat's record is widened.
   * Chosen again, the earlier settings change no file either, and what let chat out still does.
   */
  lemma AWideningLeftInForce(server: Server) returns (t: Ai)
    ensures var a, e := ChatAt(server, CLOSED), Widened(Attempt(0, BroughtUp), Attempt(0, Wrote));
      Possible(a, ChatJob(LET_OUT), e) &&
      var b, again := After(a, ChatJob(LET_OUT), e), OnChoice(Attempt(0, BroughtUp));
      Truthful(b, ForChat) && Possible(b, ChatJob(CLOSED), again) && t == After(b, ChatJob(CLOSED), again)
    ensures Promised(t, ForChat) && !Truthful(t, ForChat)
  {
    TwoSettings(server);
    var a, e := ChatAt(server, CLOSED), Widened(Attempt(0, BroughtUp), Attempt(0, Wrote));
    var closed, out := Records(AsStored(CLOSED), None), Records(AsStored(LET_OUT), None);
    RoutingsDiffer(closed, out, server, ForChat);
    AfterSteps(a, ChatJob(LET_OUT), e);
    JobAccounts(a, ChatJob(LET_OUT), e, ForChat);
    hide RoutingOf, AsStored, Proper, After, AllStay, Stays;
    var u := Tried(a, out, e.first);
    assert u == Ai(server, out, Files(RoutingOf(out, server), 0), {RoutingOf(out, server)});
    assert Earlier(a.records, ChatJob(LET_OUT), server).value == closed;
    var b := After(a, ChatJob(LET_OUT), e);
    assert b.files == Files(RoutingOf(closed, server), 0) && RoutingOf(out, server) in b.inForce;
    var again := OnChoice(Attempt(0, BroughtUp));
    AfterSteps(b, ChatJob(CLOSED), again);
    t := After(b, ChatJob(CLOSED), again);
    assert Choice(b.records, ChatJob(CLOSED)) == closed;
    assert t.inForce == b.inForce;
    StaysExactly(out, server, ForChat);
    LeavesOne(t.inForce, RoutingOf(out, server), ForChat);
  }

  lemma LeavesOne(inForce: set<seq<Route>>, routes: seq<Route>, use: Use)
    requires routes in inForce && !Stays(routes, use)
    ensures !AllStay(inForce, use)
  {
  }

  /** A widening does not answer, and the job is cancelled while it is put back. */
  lemma ACancelledRollback(server: Server) returns (t: Ai)
    ensures var a, e := ChatAt(server, CLOSED), BackOnEarlier(Attempt(0, BroughtUp), Attempt(0, Wrote));
      Possible(a, ChatJob(LET_OUT), e) && t == After(a, ChatJob(LET_OUT), e)
    ensures Promised(t, ForChat) && !Truthful(t, ForChat)
  {
    TwoSettings(server);
    var a, e := ChatAt(server, CLOSED), BackOnEarlier(Attempt(0, BroughtUp), Attempt(0, Wrote));
    AfterSteps(a, ChatJob(LET_OUT), e);
    JobAccounts(a, ChatJob(LET_OUT), e, ForChat);
    hide RoutingOf, AsStored, Proper, After, AllStay;
    t := After(a, ChatJob(LET_OUT), e);
  }

  /** Voice is to use outside providers; its apply fails after the files, and so does the one that puts the earlier back. */
  lemma AFailedVoiceRollback(server: Server, chat: Stored) returns (t: Ai)
    ensures var a, job := At(server, Records(chat, Some(HERE))), VoiceJob(Some(ANYWHERE));
      var e := BackOnEarlier(Attempt(0, Wrote), Attempt(0, Wrote));
      Possible(a, job, e) && t == After(a, job, e)
    ensures Promised(t, ForVoice) && !Truthful(t, ForVoice)
  {
    var a, job := At(server, Records(chat, Some(HERE))), VoiceJob(Some(ANYWHERE));
    var e := BackOnEarlier(Attempt(0, Wrote), Attempt(0, Wrote));
    AfterSteps(a, job, e);
    JobAccounts(a, job, e, ForVoice);
    hide RoutingOf, After, AllStay;
    t := After(a, job, e);
  }
}
