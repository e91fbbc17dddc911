/**
 * The two jobs as they run: which requests change nothing, which steps the others are, and how
 * each ends. An apply writes LiteLLM's files and starts it anew when they changed.
 */
module AiJobs {
  import opened Wrappers
  import opened AiRouting
  import opened AiSettings

  datatype Outcome =
    | InvalidSettings
    | IndexTied
    | RunnerMissing
    | ModelFailed
    | Succeeded
    | FollowersIncomplete
    | SettingsKept       // the earlier settings were put back
    | RollbackFailed
    | Interrupted        // by a checkpoint, or an error the job does not handle

  /** A step works, fails with an error the job handles, or ends the job. */
  datatype Try = Works | Fails | Ends

  /** How an apply goes; one that does not work may have got anywhere. */
  datatype Course = Course(how: Try, rest: nat, reach: Reach)

  function AttemptOf(c: Course): Attempt { Attempt(c.rest, if c.how.Works? then BroughtUp else c.reach) }

  /** What the rest of the world does during a job. */
  datatype World = World(
    indexTied: bool, runner: Option<string>, modelsWork: bool, saved: bool, apply: Course, answer: Try,
    savedBack: bool, applyBack: Course, savedOpen: bool, followers: Try)

  /** Which endings of a job its outcome stands for. */
  predicate EndsAs(outcome: Outcome, e: Ending) {
    match outcome
    case Succeeded => e.OnChoice? && e.first.reach.BroughtUp?
    case FollowersIncomplete => e.OnChoice? && e.first.reach.BroughtUp?
    case SettingsKept => e.BackOnEarlier? && e.second.reach.BroughtUp?
    case RollbackFailed => e.BackOnEarlier? || e.Widened?
    case Interrupted => !e.Widened?
    case _ => e.NotBegun?
  }

  /** The routing could not be brought in line, or did not answer when asked. */
  predicate Failing(w: World, asks: bool) { w.apply.how.Fails? || (w.apply.how.Works? && asks && w.answer.Fails?) }

  /**
   * Where a job that saved its choice ends; `back` says that the earlier settings can be saved
   * again, `widens` that chat's record is to be widened when they cannot be put back.
   */
  predicate Leads(w: World, asks: bool, back: bool, widens: bool, e: Ending) {
    && !e.NotBegun? && e.first == AttemptOf(w.apply)
    && (e.OnChoice? <==> !(Failing(w, asks) && back))
    && (e.BackOnEarlier? || e.Widened? ==> e.second == AttemptOf(w.applyBack))
    && (e.Widened? <==> Failing(w, asks) && back && w.applyBack.how.Fails? && widens && w.savedOpen)
  }

  predicate Working(w: World, asks: bool) { w.apply.how.Works? && (asks ==> w.answer.Works?) }

  /** What a job that saved its choice reports. */
  predicate Reports(w: World, asks: bool, back: bool, widens: bool, followers: Try, outcome: Outcome) {
    && (outcome == Succeeded <==> Working(w, asks) && followers.Works?)
    && (outcome == FollowersIncomplete <==> Working(w, asks) && followers.Fails?)
    && (outcome == SettingsKept <==> Failing(w, asks) && back && w.applyBack.how.Works?)
    && (outcome == RollbackFailed <==> Failing(w, asks) && back && w.applyBack.how.Fails? && (widens ==> w.savedOpen))
    && outcome in {Succeeded, FollowersIncomplete, SettingsKept, RollbackFailed, Interrupted}
  }

  function Word(privacy: Privacy): string {
    match privacy
    case OutsideAllowed => "outside_allowed"
    case LocalFirst => "local_first"
    case LocalOnly => "local_only"
  }

  /** What voice does while it has no record of its own, as such a record. */
  function FromChat(chat: Settings): VoiceStored
    requires chat.sources != []
  {
    VoiceStored(Word(PrivacyOf(chat.sources)), if LOCAL in chat.sources then chat.chat else "")
  }

  class AiRecord {
    const server: Server
    var chat: Stored
    var voice: Option<VoiceStored>
    var files: Files
    /** The routings that LiteLLM may be running with. */
    ghost var inForce: set<seq<Route>>

    ghost function Value(): Ai
      reads this
    {
      Ai(server, Records(chat, voice), files, inForce)
    }

    constructor (server: Server, chat: Stored, voice: Option<VoiceStored>)
      ensures this.server == server && this.chat == chat && this.voice == voice && Settled(Value())
    {
      this.server, this.chat, this.voice := server, chat, voice;
      files := Files(RoutingOf(Records(chat, voice), server), 0);
      inForce := {RoutingOf(Records(chat, voice), server)};
    }

    /** Refuses what is not fit to be stored. */
    method SaveChat(s: Settings) returns (ok: bool)
      modifies this`chat
      ensures ok <==> Proper(s, server.runners)
      ensures chat == if ok then AsStored(s) else old(chat)
    {
      ok := Validated(AsStored(s), server.runners) == Some(s);
      ProperIsAccepted(s, server.runners);
      if ok { chat := AsStored(s); }
    }

    /** Writes the files by the records and brings LiteLLM up, anew when the files changed; as far as it gets. */
    method Apply(c: Course)
      modifies this`files, this`inForce
      ensures Value() == Next(old(Value()), Reconcile(AttemptOf(c)))
    {
      hide RoutingOf;
      var attempt := AttemptOf(c);
      if attempt.reach.Untouched? { return; }
      var before := files;
      files := Files(RoutingOf(Records(chat, voice), server), attempt.rest);
      var changed := files != before;
      if attempt.reach.Wrote? {
        inForce := inForce + {files.routes};
      } else if changed {
        inForce := {files.routes};
      }
    }

    predicate Ties(before: Stored, params: Stored, w: World) {
      var valid := Validated(params, server.runners);
      valid.Some? && valid.value.embedding != Read(before, server).embedding && w.indexTied
    }

    predicate HasRunner(w: World) { w.runner.Some? && w.runner.value in server.runners }

    /** Chat's job ends before it changes anything. */
    predicate Refuses(before: Stored, params: Stored, w: World) {
      || Validated(params, server.runners).None? || Ties(before, params, w) || !HasRunner(w) || !w.modelsWork
    }

    /** For the first of these reasons; or its choice could not be saved. */
    predicate RefusedAs(before: Stored, params: Stored, w: World, outcome: Outcome) {
      var valid := Validated(params, server.runners).Some?;
      && (outcome == InvalidSettings <==> !valid)
      && (outcome == IndexTied <==> Ties(before, params, w))
      && (outcome == RunnerMissing <==> valid && !Ties(before, params, w) && !HasRunner(w))
      && (outcome == ModelFailed <==> valid && !Ties(before, params, w) && HasRunner(w) && !w.modelsWork)
      && (!Refuses(before, params, w) && !w.saved ==> outcome == Interrupted)
    }

    /** Voice's job does. */
    predicate RefusesVoice(chosen: VoiceStored, w: World) {
      !VoiceFits(chosen) || (PrivacyWord(chosen.privacy) != Some(OutsideAllowed) && (w.runner.None? || !w.modelsWork))
    }

    predicate VoiceRefusedAs(chosen: VoiceStored, w: World, outcome: Outcome) {
      var here := VoiceFits(chosen) && PrivacyWord(chosen.privacy) != Some(OutsideAllowed);
      && (outcome == InvalidSettings <==> !VoiceFits(chosen))
      && (outcome == RunnerMissing <==> here && w.runner.None?)
      && (outcome == ModelFailed <==> here && w.runner.Some? && !w.modelsWork)
      && (!RefusesVoice(chosen, w) && !w.saved ==> outcome == Interrupted)
    }

    /** Chat's settings: checked, saved, applied and followed; or put back; or left where the job ended. */
    method ChangeSettings(params: Stored, w: World) returns (outcome: Outcome, ghost job: Job, ghost ending: Ending)
      modifies this
      ensures Possible(old(Value()), job, ending) && Value() == After(old(Value()), job, ending) && EndsAs(outcome, ending)
      ensures ending.NotBegun? <==> Refuses(old(chat), params, w) || !w.saved
      ensures RefusedAs(old(chat), params, w, outcome)
      ensures !ending.NotBegun? ==>
        var chosen, before := Validated(params, server.runners), Read(old(chat), server);
        && chosen.Some? && w.runner.Some? && job == ChatJob(chosen.value.(runner := w.runner.value))
        && var asks, back := ChatModel(job.chosen).Some?, w.savedBack && Proper(before, server.runners);
           var widens := EitherOut(old(Value()).records, job, server);
           Leads(w, asks, back, widens, ending) && Reports(w, asks, back, widens, w.followers, outcome)
    {
      hide Read, RoutingOf, SourcesIn, Proper, Next, Runs, After;
      ghost var start := Value();
      var before := Read(chat, server);
      job, ending := VoiceJob(None), NotBegun;
      AfterNothing(start, job);
      var valid := Validated(params, server.runners);
      if valid.None? { return InvalidSettings, job, ending; }
      var chosen := valid.value;
      if chosen.embedding != before.embedding && w.indexTied { return IndexTied, job, ending; }
      if w.runner.None? || w.runner.value !in server.runners { return RunnerMissing, job, ending; }
      RunnerIsProper(chosen, w.runner.value, server.runners);
      chosen := chosen.(runner := w.runner.value);
      if !w.modelsWork { return ModelFailed, job, ending; }
      if !w.saved { return Interrupted, job, ending; }
      job := ChatJob(chosen);
      outcome, ending := CarryOut(before, chosen, w);
    }

    /** Saves the choice, brings the routing in line, asks it, and tells the followers; or puts the earlier settings back. */
    method CarryOut(before: Settings, chosen: Settings, w: World) returns (outcome: Outcome, ghost ending: Ending)
      requires before == Read(chat, server) && Fits(ChatJob(chosen), server)
      modifies this
      ensures Possible(old(Value()), ChatJob(chosen), ending) && Value() == After(old(Value()), ChatJob(chosen), ending)
      ensures EndsAs(outcome, ending)
      ensures var asks, back := ChatModel(chosen).Some?, w.savedBack && Proper(before, server.runners);
        var widens := EitherOut(old(Value()).records, ChatJob(chosen), server);
        Leads(w, asks, back, widens, ending) && Reports(w, asks, back, widens, w.followers, outcome)
    {
      hide Read, RoutingOf, SourcesIn, Proper, Next, Runs, After;
      ghost var start, job := Value(), ChatJob(chosen);
      ending := OnChoice(AttemptOf(w.apply));
      AfterSteps(start, job, ending);
      var ok := SaveChat(chosen);
      SaveStep(start, Value().records);
      Apply(w.apply);
      var asks := ChatModel(chosen).Some?;
      if w.apply.how.Ends? || (w.apply.how.Works? && asks && w.answer.Ends?) { return Interrupted, ending; }
      if w.apply.how.Works? && (asks ==> w.answer.Works?) {
        outcome := match w.followers case Works => Succeeded case Fails => FollowersIncomplete case Ends => Interrupted;
        return outcome, ending;
      }
      outcome, ending := RollBack(before, chosen, w, start);
    }

    /** Puts the earlier settings back; where that fails, chat's record admits what either settings allow. */
    method RollBack(before: Settings, chosen: Settings, w: World, ghost start: Ai)
      returns (outcome: Outcome, ghost ending: Ending)
      requires start.server == server && before == Read(start.records.chat, server) && Fits(ChatJob(chosen), server)
      requires Value() == After(start, ChatJob(chosen), OnChoice(AttemptOf(w.apply)))
      modifies this
      ensures Possible(start, ChatJob(chosen), ending) && Value() == After(start, ChatJob(chosen), ending)
      ensures EndsAs(outcome, ending)
      ensures ending == OnChoice(AttemptOf(w.apply)) ==> Value() == old(Value())
      ensures var back := w.savedBack && Proper(before, server.runners);
        && Leads(w.(apply := w.apply.(how := Fails, reach := AttemptOf(w.apply).reach)), true, back,
                 EitherOut(start.records, ChatJob(chosen), server), ending)
        && (outcome == SettingsKept <==> back && w.applyBack.how.Works?)
        && (outcome == RollbackFailed <==>
              back && w.applyBack.how.Fails? && (EitherOut(start.records, ChatJob(chosen), server) ==> w.savedOpen))
        && outcome in {SettingsKept, RollbackFailed, Interrupted}
    {
      hide RoutingOf, Proper, Read, Next, Runs, After, Without;
      ghost var job := ChatJob(chosen);
      ending := OnChoice(AttemptOf(w.apply));
      AfterSteps(start, job, ending);
      TriedRecords(start, Choice(start.records, job), ending.first);
      if !w.savedBack { return Interrupted, ending; }
      ghost var here := Value();
      var ok := SaveChat(before);
      if !ok { return Interrupted, ending; }
      ending := BackOnEarlier(AttemptOf(w.apply), AttemptOf(w.applyBack));
      AfterSteps(start, job, ending);
      SaveStep(here, Value().records);
      Apply(w.applyBack);
      if w.applyBack.how.Works? { return SettingsKept, ending; }
      if w.applyBack.how.Ends? { return Interrupted, ending; }
      if OUTSIDE in before.sources || OUTSIDE in chosen.sources {
        if !w.savedOpen { return Interrupted, ending; }
        OpenIsProper(before, server.runners);
        here := Value();
        ok := SaveChat(before.(sources := [OUTSIDE] + Without(before.sources)));
        SaveStep(here, Value().records);
        ending := Widened(AttemptOf(w.apply), AttemptOf(w.applyBack));
        AfterSteps(start, job, ending);
      }
      return RollbackFailed, ending;
    }

    function ChosenVoice(chat: Stored, params: VoiceStored, follow: bool): (r: VoiceStored)
      ensures !follow ==> r == params
      ensures follow ==> Read(chat, server).sources != [] && r == FromChat(Read(chat, server))
    {
      ReadIsUsable(chat, server);
      if follow then FromChat(Read(chat, server)) else params
    }

    /** Voice's own record: chosen, or given up so that voice follows chat again. */
    method ChangeVoice(params: VoiceStored, follow: bool, w: World)
      returns (outcome: Outcome, ghost job: Job, ghost ending: Ending)
      modifies this
      ensures Possible(old(Value()), job, ending) && Value() == After(old(Value()), job, ending) && EndsAs(outcome, ending)
      ensures chat == old(chat) && job == VoiceJob(if follow then None else Some(params))
      ensures ending.NotBegun? <==> RefusesVoice(ChosenVoice(chat, params, follow), w) || !w.saved
      ensures VoiceRefusedAs(ChosenVoice(chat, params, follow), w, outcome)
      ensures !ending.NotBegun? ==>
        Leads(w, true, w.savedBack, false, ending) && Reports(w, true, w.savedBack, false, Works, outcome)
    {
      hide Read, RoutingOf, Next, Runs, After;
      ghost var start := Value();
      var chosen := ChosenVoice(chat, params, follow);
      job, ending := VoiceJob(if follow then None else Some(params)), NotBegun;
      AfterNothing(start, job);
      if !VoiceFits(chosen) { return InvalidSettings, job, ending; }
      if PrivacyWord(chosen.privacy) != Some(OutsideAllowed) {
        if w.runner.None? { return RunnerMissing, job, ending; }
        if !w.modelsWork { return ModelFailed, job, ending; }
      }
      if !w.saved { return Interrupted, job, ending; }
      var before := voice;
      voice := if follow then None else Some(params);
      ending := OnChoice(AttemptOf(w.apply));
      AfterSteps(start, job, ending);
      SaveStep(start, Value().records);
      Apply(w.apply);
      if w.apply.how.Ends? || (w.apply.how.Works? && w.answer.Ends?) { return Interrupted, job, ending; }
      if w.apply.how.Works? && w.answer.Works? { return Succeeded, job, ending; }
      if !w.savedBack { return Interrupted, job, ending; }
      ghost var here := Value();
      voice := before;
      ending := BackOnEarlier(AttemptOf(w.apply), AttemptOf(w.applyBack));
      AfterSteps(start, job, ending);
      SaveStep(here, Value().records);
      Apply(w.applyBack);
      outcome := match w.applyBack.how case Works => SettingsKept case Ends => Interrupted case Fails => RollbackFailed;
    }
  }

  lemma AfterNothing(a: Ai, job: Job)
    ensures Possible(a, job, NotBegun) && After(a, job, NotBegun) == a
  {
  }

  lemma TriedRecords(a: Ai, records: Records, attempt: Attempt)
    ensures Tried(a, records, attempt).records == records
  {
  }

  lemma SaveStep(a: Ai, records: Records)
    ensures Next(a, Save(records)) == a.(records := records)
  {
  }

  lemma RunnerIsProper(s: Settings, runner: string, runners: set<string>)
    requires Proper(s, runners) && runner in runners
    ensures Proper(s.(runner := runner), runners)
  {
  }
}
