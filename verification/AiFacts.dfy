/** Which stored settings are usable and how they are read, and where each name then leads, exactly. */
module AiFacts {
  import opened Wrappers
  import opened AiRouting
  import opened AiSettings
  import opened AiJobs

  predicate IsChatModel(model: string) {
    || model == "qwen3.5-2b" || model == "phi4-mini" || model == "qwen3.5-4b" || model == "qwen3-8b"
    || model == "gemma4-e4b" || model == "qwen3.5-9b" || model == "gemma4-12b"
  }

  predicate IsEmbedding(model: string) { model == "bge-m3" || model == "nomic-embed-text" }

  /** The sources a record names, by list or - before lists - by a privacy word; None when it names none. */
  function Named(x: Stored): Option<seq<string>> {
    match x.sources
    case Some(Some(listed)) =>
      if listed == ["local"] || listed == ["outside"] || listed == ["local", "outside"] || listed == ["outside", "local"]
      then Some(listed) else None
    case Some(None) => None
    case None =>
      if x.privacy == Some("local_only") then Some(["local"])
      else if x.privacy == Some("local_first") then Some(["local", "outside"])
      else if x.privacy != Some("outside_allowed") then None
      else if x.chat.None? || x.chat == Some("") then Some(["outside"])
      else Some(["outside", "local"])
  }

  function Text(x: Option<string>): string { if x.None? then "" else x.value }

  lemma NamedExactly(x: Stored)
    ensures SourcesIn(x) == Named(x)
  {
    assert LOCAL[0] != OUTSIDE[0];
    if x.sources.Some? && x.sources.value.Some? && Named(x).Some? { NotRepeated(Named(x).value); }
    if x.sources.Some? && x.sources.value.Some? {
      var listed := x.sources.value.value;
      assert Named(x).Some? ==> forall s <- listed :: s in {LOCAL, OUTSIDE};
    }
  }

  /** Accepted exactly: sources, a known model wherever local ones are used, a known embedding and runner. */
  lemma AcceptedExactly(x: Stored, runners: set<string>)
    ensures var r := Validated(x, runners);
      && (r.Some? <==>
            && Named(x).Some? && (Text(x.chat) == "" || IsChatModel(Text(x.chat))) && IsEmbedding(Text(x.embedding))
            && ("local" in Named(x).value ==> Text(x.chat) != "")
            && (Text(x.runner) == "" || Text(x.runner) in runners))
      && (r.Some? ==> r.value == Settings(Named(x).value, Text(x.chat), Text(x.embedding), Text(x.runner)))
  {
    NamedExactly(x);
    hide SourcesIn, Named;
  }

  /** What a record is read as: itself where it is acceptable with the defaults put in, and else local only. */
  lemma ReadExactly(x: Stored, server: Server)
    ensures var fuller := Stored(
        if x.sources.None? && x.privacy.None? then Some(Some(["outside"])) else x.sources, x.privacy, Some(Text(x.chat)),
        Some(if x.embedding.None? then server.embedding else x.embedding.value), Some(Text(x.runner)));
      var s := Read(x, server);
      && (Validated(fuller, server.runners).Some? ==> s == Validated(fuller, server.runners).value)
      && (Validated(fuller, server.runners).None? ==>
            && s.sources == ["local"] && s.runner == "" && s.chat == (if IsChatModel(Text(x.chat)) then Text(x.chat) else "")
            && s.embedding == (if IsEmbedding(Text(x.embedding)) then Text(x.embedding) else server.embedding))
  {
    hide Validated, SourcesIn;
  }

  /** Voice follows chat without a record of its own; one that cannot be used is read as local only. */
  lemma VoiceReadExactly(y: Option<VoiceStored>, chat: Settings)
    requires chat.sources in {["local"], ["outside"], ["local", "outside"], ["outside", "local"]}
    ensures var v := VoiceRead(y, chat);
      && (y.None? ==>
            && (v.privacy.LocalOnly? <==> chat.sources == ["local"])
            && (v.privacy.LocalFirst? <==> chat.sources == ["local", "outside"])
            && v.model == if chat.sources == ["outside"] then "" else chat.chat)
      && (y.Some? ==>
            var (word, model) := (y.value.privacy, y.value.model);
            var usable := (model == "" || IsChatModel(model)) &&
              (word == "outside_allowed" || (model != "" && (word == "local_only" || word == "local_first")));
            && (v.privacy.OutsideAllowed? <==> usable && word == "outside_allowed")
            && (v.privacy.LocalFirst? <==> usable && word == "local_first")
            && v.model == if IsChatModel(model) then model else "")
  {
    assert LOCAL[0] != OUTSIDE[0];
  }

  /** Where each name leads: every route there is, and no other. */
  lemma LeadsExactly(s: Settings, v: Voice, r: Route)
    requires s.sources in {["local"], ["outside"], ["local", "outside"], ["outside", "local"]}
    ensures r in Routes(s, v) <==> (
      var here := s.sources[0] == "local";
      var known := "local" in s.sources && IsChatModel(s.chat);
      || ((r == Route("mu3lab-chat", OnServer(s.chat)) || r == Route("mu3lab-fast", OnServer(s.chat))) && here && known)
      || ((r == Route("mu3lab-chat", Gateway("auto:smartest")) || r == Route("mu3lab-fast", Gateway("auto:fastest"))) && !here)
      || (r == Route("mu3lab-outside", Gateway("auto:smartest")) && s.sources == ["local", "outside"])
      || (r == Route("mu3lab-local", OnServer(s.chat)) && known)
      || (r == Route("mu3lab-voice", OnServer(v.model)) && !v.privacy.OutsideAllowed? && IsChatModel(v.model))
      || ((r == Route("mu3lab-voice", Gateway("auto:mu3lab-voice")) || r == Route("mu3lab-voice", Gateway("auto:smartest")))
          && !v.privacy.LocalOnly?)
      || r == Route("mu3lab-embed", OnServer(s.embedding)))
  {
    assert LOCAL[0] != OUTSIDE[0];
    var (chat, voice, last) := (ChatRoutes(s), VoiceRoutes(v), Route(EMBED, OnServer(s.embedding)));
    assert r in Routes(s, v) <==> r in chat || r in voice || r == last;
    ChatLeads(s, r);
    VoiceLeads(v, r);
    hide ChatRoutes, VoiceRoutes, Routes;
  }

  lemma ChatLeads(s: Settings, r: Route)
    requires s.sources in {["local"], ["outside"], ["local", "outside"], ["outside", "local"]}
    ensures r in ChatRoutes(s) <==> (
      var here := s.sources[0] == "local";
      var known := "local" in s.sources && IsChatModel(s.chat);
      || ((r == Route("mu3lab-chat", OnServer(s.chat)) || r == Route("mu3lab-fast", OnServer(s.chat))) && here && known)
      || ((r == Route("mu3lab-chat", Gateway("auto:smartest")) || r == Route("mu3lab-fast", Gateway("auto:fastest"))) && !here)
      || (r == Route("mu3lab-outside", Gateway("auto:smartest")) && s.sources == ["local", "outside"])
      || (r == Route("mu3lab-local", OnServer(s.chat)) && known))
  {
    assert LOCAL[0] != OUTSIDE[0];
  }

  lemma VoiceLeads(v: Voice, r: Route)
    ensures r in VoiceRoutes(v) <==> (
      || (r == Route("mu3lab-voice", OnServer(v.model)) && !v.privacy.OutsideAllowed? && IsChatModel(v.model))
      || ((r == Route("mu3lab-voice", Gateway("auto:mu3lab-voice")) || r == Route("mu3lab-voice", Gateway("auto:smartest")))
          && !v.privacy.LocalOnly?))
  {
  }

  /** Voice tries the model on this server before it goes outside, and its own list there before any model. */
  lemma VoiceTriesInOrder(s: Settings, v: Voice, i: nat, j: nat)
    requires s.sources != [] && i < |Routes(s, v)| && j < |Routes(s, v)|
    requires var routes := Routes(s, v); routes[i].name == "mu3lab-voice" && routes[j].name == "mu3lab-voice"
    ensures var routes := Routes(s, v);
      && (routes[i].place.OnServer? && routes[j].place.Gateway? ==> i < j)
      && (routes[i].place == Gateway("auto:mu3lab-voice") && routes[j].place == Gateway("auto:smartest") ==> i < j)
  {
    NamesDiffer();
    ChatIsNotVoice(s);
    var (chat, voice) := (ChatRoutes(s), VoiceRoutes(v));
    var routes := Routes(s, v);
    assert routes == chat + voice + [Route(EMBED, OnServer(s.embedding))];
    assert |chat| <= i < |chat| + |voice| && |chat| <= j < |chat| + |voice|;
    assert routes[i] == voice[i - |chat|] && routes[j] == voice[j - |chat|];
    VoiceOrder(v, i - |chat|, j - |chat|);
    hide ChatRoutes, VoiceRoutes, Routes;
  }

  lemma ChatIsNotVoice(s: Settings)
    requires s.sources != []
    ensures forall r <- ChatRoutes(s) :: r.name != VOICE_ALIAS
  {
    NamesDiffer();
  }

  lemma VoiceOrder(v: Voice, i: nat, j: nat)
    requires i < |VoiceRoutes(v)| && j < |VoiceRoutes(v)|
    ensures var routes := VoiceRoutes(v);
      && (routes[i].place.OnServer? && routes[j].place.Gateway? ==> i < j)
      && (routes[i].place == Gateway("auto:mu3lab-voice") && routes[j].place == Gateway("auto:smartest") ==> i < j)
  {
    assert "auto:mu3lab-voice"[5] != "auto:smartest"[5];
  }

  /** The names chat offers, in order: where it goes first, and the other place where both are allowed. */
  lemma OffersExactly(s: Settings)
    requires s.sources in {["local"], ["outside"], ["local", "outside"], ["outside", "local"]}
    ensures var (offered, known) := (ChatList(s), IsChatModel(s.chat));
      && (s.sources == ["local"] ==> offered == if known then [("mu3lab-chat", Here(s.chat))] else [])
      && (s.sources == ["outside"] || (s.sources != ["local"] && !known) ==> offered == [("mu3lab-chat", OutsideProviders)])
      && (s.sources == ["local", "outside"] && known ==>
            offered == [("mu3lab-chat", Here(s.chat)), ("mu3lab-outside", OutsideProviders)])
      && (s.sources == ["outside", "local"] && known ==>
            offered == [("mu3lab-chat", OutsideProviders), ("mu3lab-local", Here(s.chat))])
  {
    assert LOCAL[0] != OUTSIDE[0];
    assert "local" in s.sources <==> s.sources != ["outside"];
  }

  /** The one stands before the other. */
  ghost predicate Before(providers: seq<string>, one: string, other: string) {
    exists k, l :: 0 <= k < l < |providers| && providers[k] == one && providers[l] == other
  }

  /** Of the providers, the known ones, in the same order. */
  lemma {:induction false} KeysExactly(providers: seq<string>, known: set<string>)
    ensures forall p :: p in KnownOf(providers, known) <==> p in providers && p in known
    ensures forall i, j :: 0 <= i < j < |KnownOf(providers, known)| ==>
      Before(providers, KnownOf(providers, known)[i], KnownOf(providers, known)[j])
    decreases |providers|
  {
    if providers == [] { return; }
    var n := |providers| - 1;
    KeysExactly(providers[..n], known);
    var before := KnownOf(providers[..n], known);
    assert forall p :: p in providers <==> p in providers[..n] || p == providers[n];
    forall one, other | Before(providers[..n], one, other) ensures Before(providers, one, other) {
      var k, l :| 0 <= k < l < n && providers[..n][k] == one && providers[..n][l] == other;
      assert providers[k] == one && providers[l] == other;
    }
    forall i | 0 <= i < |before| ensures Before(providers, before[i], providers[n]) {
      assert before[i] in before && before[i] in providers[..n];
      var k :| 0 <= k < n && providers[..n][k] == before[i];
      assert providers[k] == before[i];
    }
  }

  lemma EnabledExactly(provider: string, connections: Option<map<string, Connection>>, outside: bool)
    ensures Enabled(provider, connections, outside) <==>
      outside && (connections.None? || (provider in connections.value && connections.value[provider].enabled
        && (connections.value[provider].state == "verifying" || connections.value[provider].state == "verified")))
  {
  }

  /** A voice choice is acceptable exactly with one of the three words, a known model or none, and one to run here. */
  lemma VoiceFitsExactly(v: VoiceStored)
    ensures VoiceFits(v) <==>
      && (v.privacy == "outside_allowed" || v.privacy == "local_first" || v.privacy == "local_only")
      && (v.model == "" || IsChatModel(v.model)) && (v.privacy != "outside_allowed" ==> v.model != "")
  {
  }

  /** Following chat again is checked as the record that voice then behaves as if it had. */
  lemma FollowsAsChecked(chat: Settings)
    requires chat.sources in {["local"], ["outside"], ["local", "outside"], ["outside", "local"]}
    ensures VoiceFits(FromChat(chat)) ==> VoiceRead(Some(FromChat(chat)), chat) == VoiceRead(None, chat)
    ensures FromChat(chat).model == if chat.sources == ["outside"] then "" else chat.chat
    ensures FromChat(chat).privacy == "local_only" <==> chat.sources == ["local"]
    ensures FromChat(chat).privacy == "local_first" <==> chat.sources == ["local", "outside"]
  {
    assert LOCAL[0] != OUTSIDE[0];
    assert "local_only"[6] != "local_first"[6] && "local_only"[0] != "outside_allowed"[0];
  }
}
