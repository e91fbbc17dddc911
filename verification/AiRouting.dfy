/**
 * Which models answer the household's AI requests: the stored settings, valid or not,
 * as the routes LiteLLM gets, the list the chat app shows and the provider
 * keys the gateway keeps enabled. All three read the same settings.
 */
module AiRouting {
  import opened Wrappers

  // ---- The settings, as stored and as read --------------------------------------------------

  const LOCAL := "local"
  const OUTSIDE := "outside"
  const CHAT_MODELS := {"qwen3.5-2b", "phi4-mini", "qwen3.5-4b", "qwen3-8b", "gemma4-e4b", "qwen3.5-9b", "gemma4-12b"}
  const EMBEDDING_MODELS := {"bge-m3", "nomic-embed-text"}

  /** A record read back: any field may be missing or wrong; None for sources that are no list. */
  datatype Stored = Stored(
    sources: Option<Option<seq<string>>>, privacy: Option<string>, chat: Option<string>, embedding: Option<string>,
    runner: Option<string>)

  datatype Settings = Settings(sources: seq<string>, chat: string, embedding: string, runner: string)

  datatype Privacy = OutsideAllowed | LocalFirst | LocalOnly

  predicate Repeats(s: seq<string>) { s != [] && (s[0] in s[1..] || Repeats(s[1..])) }

  function SourcesIn(x: Stored): (r: Option<seq<string>>)
    ensures r.Some? ==> r.value in {[LOCAL], [OUTSIDE], [LOCAL, OUTSIDE], [OUTSIDE, LOCAL]}
  {
    match x.sources
    case Some(listed) =>
      if listed.None? || listed.value == [] || Repeats(listed.value) || exists s <- listed.value :: s !in {LOCAL, OUTSIDE} then
        None
      else
        OneOrTwo(listed.value);
        listed
    case None =>
      match x.privacy
      case Some("local_only") => Some([LOCAL])
      case Some("local_first") => Some([LOCAL, OUTSIDE])
      case Some("outside_allowed") => Some(if x.chat.Some? && x.chat.value != "" then [OUTSIDE, LOCAL] else [OUTSIDE])
      case _ => None
  }

  function Or(x: Option<string>, default: string): string { if x.Some? then x.value else default }

  /** The settings a record gives; None where validation refuses it. */
  function Validated(x: Stored, runners: set<string>): (r: Option<Settings>)
    ensures r.Some? ==> Proper(r.value, runners)
  {
    var sources, chat, embedding, runner := SourcesIn(x), Or(x.chat, ""), Or(x.embedding, ""), Or(x.runner, "");
    if sources.None? || (chat != "" && chat !in CHAT_MODELS) || embedding !in EMBEDDING_MODELS
       || (LOCAL in sources.value && chat == "") || (runner != "" && runner !in runners) then None
    else Some(Settings(sources.value, chat, embedding, runner))
  }

  /** One or both sources, in order, and a model when local is one of them; all from the lists. */
  predicate Proper(s: Settings, runners: set<string>) {
    && s.sources in {[LOCAL], [OUTSIDE], [LOCAL, OUTSIDE], [OUTSIDE, LOCAL]}
    && (s.chat == "" || s.chat in CHAT_MODELS) && (LOCAL in s.sources ==> s.chat != "")
    && s.embedding in EMBEDDING_MODELS && (s.runner == "" || s.runner in runners)
  }

  /** Settings as they are stored. */
  function AsStored(s: Settings): Stored {
    Stored(Some(Some(s.sources)), None, Some(s.chat), Some(s.embedding), Some(s.runner))
  }

  lemma NotRepeated(sources: seq<string>)
    requires sources in {[LOCAL], [OUTSIDE], [LOCAL, OUTSIDE], [OUTSIDE, LOCAL]}
    ensures !Repeats(sources)
  {
  }

  /** Exactly the proper settings are accepted, unchanged. */
  lemma ProperIsAccepted(s: Settings, runners: set<string>)
    ensures Validated(AsStored(s), runners) == Some(s) <==> Proper(s, runners)
  {
    assert LOCAL[0] != OUTSIDE[0];
    if Proper(s, runners) {
      assert forall x <- s.sources :: x in {LOCAL, OUTSIDE};
      NotRepeated(s.sources);
    }
  }

  lemma OneOrTwo(sources: seq<string>)
    requires sources != [] && !Repeats(sources) && forall s <- sources :: s in {LOCAL, OUTSIDE}
    ensures sources in {[LOCAL], [OUTSIDE], [LOCAL, OUTSIDE], [OUTSIDE, LOCAL]}
  {
    var rest := sources[1..];
    assert sources[0] !in rest && !Repeats(rest);
    assert |sources| > 1 ==> rest[0] == sources[1] && rest[0] in rest && rest[0] !in rest[1..];
    assert |sources| > 2 ==> rest[1] == sources[2] && rest[1] in rest && rest[1..][0] == rest[1] && rest[1] in rest[1..];
    assert forall i :: 0 <= i < |sources| ==> sources[i] in sources;
    assert |sources| <= 2;
    assert |sources| == 1 ==> sources == [sources[0]];
    assert |sources| == 2 ==> sources == [sources[0], sources[1]];
  }

  /** What this server has to offer: the embedding model an older install uses, and the model runners. */
  datatype Server = Server(embedding: string, runners: set<string>)

  /** An invalid record cannot authorise outside inference: it is read as local only. */
  function Read(x: Stored, server: Server): Settings {
    var merged := Stored(
      if x.sources.None? && x.privacy.None? then Some(Some([OUTSIDE])) else x.sources, x.privacy,
      Some(Or(x.chat, "")), Some(Or(x.embedding, server.embedding)), Some(Or(x.runner, "")));
    match Validated(merged, server.runners)
    case Some(settings) => settings
    case None =>
      Settings([LOCAL], if Or(x.chat, "") in CHAT_MODELS then x.chat.value else "",
        if Or(x.embedding, "") in EMBEDDING_MODELS then x.embedding.value else server.embedding, "")
  }

  function PrivacyOf(sources: seq<string>): Privacy
    requires sources != []
  {
    if OUTSIDE !in sources then LocalOnly else if sources[0] == LOCAL then LocalFirst else OutsideAllowed
  }

  /** None when the settings leave the server's own models out, or name none of those known. */
  function ChatModel(s: Settings): Option<string> {
    if LOCAL in s.sources && s.chat in CHAT_MODELS then Some(s.chat) else None
  }

  datatype Voice = Voice(privacy: Privacy, model: string)

  /** The voice record's own words; None while voice matches chat. */
  datatype VoiceStored = VoiceStored(privacy: string, model: string)

  function PrivacyWord(word: string): Option<Privacy> {
    match word
    case "outside_allowed" => Some(OutsideAllowed)
    case "local_first" => Some(LocalFirst)
    case "local_only" => Some(LocalOnly)
    case _ => None
  }

  function VoiceRead(x: Option<VoiceStored>, chat: Settings): Voice
    requires chat.sources != []
  {
    match x
    case None => Voice(PrivacyOf(chat.sources), if LOCAL in chat.sources then chat.chat else "")
    case Some(record) =>
      var privacy := PrivacyWord(record.privacy);
      if privacy.None? || (record.model != "" && record.model !in CHAT_MODELS)
         || (privacy.value != OutsideAllowed && record.model == "") then
        Voice(LocalOnly, if record.model in CHAT_MODELS then record.model else "")
      else Voice(privacy.value, record.model)
  }

  // ---- The routes LiteLLM gets ---------------------------------------------------------------

  const CHAT := "mu3lab-chat"
  const FAST := "mu3lab-fast"
  const LOCAL_ALIAS := "mu3lab-local"
  const OUTSIDE_ALIAS := "mu3lab-outside"
  const VOICE_ALIAS := "mu3lab-voice"
  const EMBED := "mu3lab-embed"

  datatype Where = OnServer(model: string) | Gateway(list: string)

  datatype Route = Route(name: string, place: Where)

  function ChatRoutes(s: Settings): seq<Route>
    requires s.sources != []
  {
    var local := ChatModel(s);
    (if s.sources[0] == LOCAL then
       (if local.Some? then [Route(CHAT, OnServer(local.value)), Route(FAST, OnServer(local.value))] else [])
       + (if OUTSIDE in s.sources then [Route(OUTSIDE_ALIAS, Gateway("auto:smartest"))] else [])
     else [Route(CHAT, Gateway("auto:smartest")), Route(FAST, Gateway("auto:fastest"))])
    + (if local.Some? then [Route(LOCAL_ALIAS, OnServer(local.value))] else [])
  }

  /** The voice alias may have several routes; an earlier one is preferred. */
  function VoiceRoutes(v: Voice): seq<Route> {
    (if v.privacy != OutsideAllowed && v.model in CHAT_MODELS then [Route(VOICE_ALIAS, OnServer(v.model))] else [])
    + (if v.privacy != LocalOnly then
         [Route(VOICE_ALIAS, Gateway("auto:mu3lab-voice")), Route(VOICE_ALIAS, Gateway("auto:smartest"))]
       else [])
  }

  function Routes(s: Settings, v: Voice): seq<Route>
    requires s.sources != []
  {
    ChatRoutes(s) + VoiceRoutes(v) + [Route(EMBED, OnServer(s.embedding))]
  }

  predicate OutsideUsed(s: Settings, v: Voice)
    requires s.sources != []
  {
    PrivacyOf(s.sources) != LocalOnly || v.privacy != LocalOnly
  }

  /** Whatever was stored, the settings read have sources, and local ones with a model unless they are all. */
  lemma ReadIsUsable(x: Stored, server: Server)
    ensures var s := Read(x, server);
      && s.sources in {[LOCAL], [OUTSIDE], [LOCAL, OUTSIDE], [OUTSIDE, LOCAL]}
      && (s.chat == "" || s.chat in CHAT_MODELS)
      && (LOCAL in s.sources && OUTSIDE in s.sources ==> s.chat in CHAT_MODELS)
  {
  }

  /** For every stored records, valid or corrupt: some route leaves the server exactly when outside providers count as used. */
  lemma {:induction false} RoutesLeaveExactlyWhenUsed(x: Stored, y: Option<VoiceStored>, server: Server)
    ensures var s := Read(x, server);
      s.sources != [] &&
      var v := VoiceRead(y, s);
      (exists r <- Routes(s, v) :: r.place.Gateway?) <==> OutsideUsed(s, v)
  {
    ReadIsUsable(x, server);
    var s := Read(x, server);
    var v := VoiceRead(y, s);
    hide Read, VoiceRead;
    LeavesExactly(s, v);
  }

  lemma LeavesExactly(s: Settings, v: Voice)
    requires s.sources in {[LOCAL], [OUTSIDE], [LOCAL, OUTSIDE], [OUTSIDE, LOCAL]}
    ensures (exists r <- Routes(s, v) :: r.place.Gateway?) <==> OutsideUsed(s, v)
  {
    assert LOCAL[0] != OUTSIDE[0];
    var all := Routes(s, v);
    if s.sources[0] == OUTSIDE { assert Route(FAST, Gateway("auto:fastest")) in all; }
    if s.sources == [LOCAL, OUTSIDE] { assert Route(OUTSIDE_ALIAS, Gateway("auto:smartest")) in all; }
    if v.privacy != LocalOnly { assert Route(VOICE_ALIAS, Gateway("auto:smartest")) in all; }
  }

  // ---- What the chat app shows -----------------------------------------------------------------

  datatype Label = Here(model: string) | OutsideProviders

  /** The names chat offers, each saying where it answers. */
  function ChatList(s: Settings): seq<(string, Label)>
    requires s.sources != []
  {
    var model := ChatModel(s);
    if s.sources == [LOCAL] then (if model.Some? then [(CHAT, Here(model.value))] else [])
    else if s.sources[0] == LOCAL && model.Some? then [(CHAT, Here(model.value)), (OUTSIDE_ALIAS, OutsideProviders)]
    else if model.None? then [(CHAT, OutsideProviders)]
    else [(CHAT, OutsideProviders), (LOCAL_ALIAS, Here(model.value))]
  }

  predicate Says(shown: Label, place: Where) {
    match shown
    case Here(model) => place == OnServer(model)
    case OutsideProviders => place.Gateway?
  }

  /** Every name shown in chat has a route, and every route of that name is where its label says. */
  lemma LabelsAreTrue(x: Stored, y: Option<VoiceStored>, server: Server, name: string, shown: Label)
    requires var s := Read(x, server); s.sources != [] && (name, shown) in ChatList(s)
    ensures var s := Read(x, server);
      var routes := Routes(s, VoiceRead(y, s));
      (exists r <- routes :: r.name == name) && (forall r <- routes :: r.name == name ==> Says(shown, r.place))
  {
    ReadIsUsable(x, server);
    var s := Read(x, server);
    var v := VoiceRead(y, s);
    hide Read, VoiceRead;
    ListedIsRouted(s, v, name, shown);
  }

  lemma ListedIsRouted(s: Settings, v: Voice, name: string, shown: Label)
    requires s.sources in {[LOCAL], [OUTSIDE], [LOCAL, OUTSIDE], [OUTSIDE, LOCAL]}
    requires LOCAL in s.sources && OUTSIDE in s.sources ==> s.chat in CHAT_MODELS
    requires (name, shown) in ChatList(s)
    ensures var routes := Routes(s, v);
      (exists r <- routes :: r.name == name) && (forall r <- routes :: r.name == name ==> Says(shown, r.place))
  {
    ListedIsChatRouted(s, name, shown);
    VoiceNamed(v);
    hide VoiceRoutes, ChatRoutes, ChatList, ChatModel;
    var r :| r in ChatRoutes(s) && r.name == name;
    assert r in Routes(s, v);
  }

  lemma VoiceNamed(v: Voice)
    ensures forall q <- VoiceRoutes(v) :: q.name == VOICE_ALIAS
  {
  }

  lemma ListedIsChatRouted(s: Settings, name: string, shown: Label)
    requires s.sources in {[LOCAL], [OUTSIDE], [LOCAL, OUTSIDE], [OUTSIDE, LOCAL]}
    requires LOCAL in s.sources && OUTSIDE in s.sources ==> s.chat in CHAT_MODELS
    requires (name, shown) in ChatList(s)
    ensures name != VOICE_ALIAS && name != EMBED && exists r <- ChatRoutes(s) :: r.name == name
    ensures forall r <- ChatRoutes(s) :: r.name == name ==> Says(shown, r.place)
  {
    assert LOCAL[0] != OUTSIDE[0];
    NamesDiffer();
    var r := Route(name, if shown.Here? then OnServer(shown.model) else Gateway("auto:smartest"));
    assert r in ChatRoutes(s);
  }

  lemma NamesDiffer()
    ensures CHAT != FAST && CHAT != LOCAL_ALIAS && CHAT != OUTSIDE_ALIAS && CHAT != VOICE_ALIAS && CHAT != EMBED
    ensures LOCAL_ALIAS != OUTSIDE_ALIAS && LOCAL_ALIAS != VOICE_ALIAS && LOCAL_ALIAS != EMBED && LOCAL_ALIAS != FAST
    ensures OUTSIDE_ALIAS != VOICE_ALIAS && OUTSIDE_ALIAS != EMBED && OUTSIDE_ALIAS != FAST
  {
  }

  // ---- The provider keys ------------------------------------------------------------------------

  datatype Connection = Connection(enabled: bool, state: string)

  /** A provider's key is exported enabled only when its connection works and something may go outside. */
  predicate Enabled(provider: string, connections: Option<map<string, Connection>>, outside: bool) {
    && outside
    && (connections.Some? ==>
          provider in connections.value && connections.value[provider].enabled
          && connections.value[provider].state in {"verifying", "verified"})
  }

  function KnownOf(providers: seq<string>, known: set<string>): seq<string> {
    if providers == [] then [] else
    var last := providers[|providers| - 1];
    KnownOf(providers[..|providers| - 1], known) + (if last in known then [last] else [])
  }

  /** The keys of the providers Mu3Lab knows, in order, disabled ones too, so that they cannot keep routing. */
  method ProviderKeys(providers: seq<string>, known: set<string>, connections: Option<map<string, Connection>>, outside: bool)
    returns (keys: seq<(string, bool)>)
    ensures |keys| == |KnownOf(providers, known)|
    ensures forall i :: 0 <= i < |keys| ==>
      keys[i].0 == KnownOf(providers, known)[i] && (keys[i].1 <==> Enabled(keys[i].0, connections, outside))
    ensures !outside ==> forall k <- keys :: !k.1
  {
    keys := [];
    var i := 0;
    while i < |providers|
      invariant 0 <= i <= |providers| && |keys| == |KnownOf(providers[..i], known)|
      invariant forall j :: 0 <= j < |keys| ==>
        keys[j].0 == KnownOf(providers[..i], known)[j] && (keys[j].1 <==> Enabled(keys[j].0, connections, outside))
    {
      assert providers[..i + 1][..i] == providers[..i];
      if providers[i] in known { keys := keys + [(providers[i], Enabled(providers[i], connections, outside))]; }
      i := i + 1;
    }
    assert providers[..i] == providers;
  }
}
