/**
 * The remote side of the calendar: a CalDAV collection that other clients may
 * change at any moment, reached over a network that may lose a request or a
 * reply. Preconditions follow sections 13.1.1 (If-Match) and 13.1.2
 * (If-None-Match) of RFC 9110; creating with `If-None-Match: *` follows
 * section 5.3.2 of RFC 4791.
 */
module CalDav {
  import opened Wrappers

  /** An event's text, and what an iCalendar parser reads out of it (None when it cannot). */
  datatype Ics = Ics(raw: string, parsed: Option<Parsed>)

  datatype Parsed = Parsed(uid: string, title: string, recurring: bool, readable: bool, items: seq<string>)

  /** Both can be read, and hold the same items; unreadable text equals nothing. */
  predicate SameIcs(left: Ics, right: Ics) {
    left.parsed.Some? && right.parsed.Some? && left.parsed.value.items == right.parsed.value.items
  }

  datatype Resource = Resource(version: nat, text: Ics)

  type Files = map<string, Resource>

  datatype Who = Mu3Lab | Others

  /** One change of one file: what stood there before it and what stands there after it. */
  datatype Effect = Effect(who: Who, name: string, before: Option<Resource>, after: Option<Resource>)

  /** The collection, with every state it has been in (`past`, ending in the present one) and why. */
  datatype Server = Server(files: Files, next: nat, past: seq<Files>, log: seq<Effect>)

  datatype RemoteEdit = RemotePut(name: string, text: Ics) | RemoteDelete(name: string)

  datatype Condition = IfMatch(version: nat) | IfNoneMatch

  datatype Request =
    | Put(name: string, text: Ics, condition: Condition)
    | Delete(name: string, version: nat)
    | Get(name: string)

  /** A status the server uses only for requests it did not carry out (404 included: the collection may be gone). */
  type FailureStatus = s: int | s !in {200, 201, 204, 412} witness 500

  /**
   * What happens to one request. `gone` picks 404 over 412 for a missing file, `tagged` sends an ETag, and
   * `plain` answers a change with 200 instead of 201 or 204.
   */
  datatype Fate =
    | Served(gone: bool, tagged: bool, plain: bool)
    | Refused(refusal: FailureStatus)
    | Garbled(failure: FailureStatus)
    | RequestLost
    | ReplyLost

  /** Other clients' edits up to the moment one request arrives, and that request's fate. */
  datatype Weather = Weather(edits: seq<RemoteEdit>, fate: Fate)

  datatype Reply = NoReply | Status(code: int) | Content(text: Ics, etag: Option<nat>)

  const CALM := Weather([], Served(false, true, false))

  /** Every request is carried out and answered, and nobody else edits meanwhile. */
  predicate Calm(env: seq<Weather>) {
    forall w <- env :: Quiet(w) && w.fate.Served?
  }

  predicate Undisturbed(env: seq<Weather>) {
    forall w <- env :: Quiet(w)
  }

  predicate Quiet(w: Weather) { w.edits == [] }

  function Now(env: seq<Weather>): Weather { if env == [] then CALM else env[0] }

  function Later(env: seq<Weather>): seq<Weather> { if env == [] then [] else env[1..] }

  function At(files: Files, name: string): Option<Resource> {
    if name in files then Some(files[name]) else None
  }

  function Place(files: Files, name: string, content: Option<Resource>): Files {
    match content
    case Some(resource) => files[name := resource]
    case None => files - {name}
  }

  function Changed(s: Server, who: Who, name: string, content: Option<Resource>, next: nat): Server {
    var files := Place(s.files, name, content);
    Server(files, next, s.past + [files], s.log + [Effect(who, name, At(s.files, name), content)])
  }

  /** Every write gets a version never used before. */
  function Write(s: Server, who: Who, name: string, text: Ics): Server {
    Changed(s, who, name, Some(Resource(s.next, text)), s.next + 1)
  }

  function Erase(s: Server, who: Who, name: string): Server {
    Changed(s, who, name, None, s.next)
  }

  function Edit(s: Server, edit: RemoteEdit): Server {
    match edit
    case RemotePut(name, text) => Write(s, Others, name, text)
    case RemoteDelete(name) => if name in s.files then Erase(s, Others, name) else s
  }

  function Edits(s: Server, edits: seq<RemoteEdit>): Server
    decreases |edits|
  {
    if edits == [] then s else Edits(Edit(s, edits[0]), edits[1..])
  }

  predicate Holds(s: Server, name: string, condition: Condition) {
    match condition
    case IfNoneMatch => name !in s.files
    case IfMatch(version) => name in s.files && s.files[name].version == version
  }

  /** A request the server carries out, and its answer. */
  function Serve(s: Server, request: Request, gone: bool, tagged: bool, plain: bool): (Server, Reply) {
    var missing := if gone then 404 else 412;
    match request
    case Put(name, text, condition) =>
      if Holds(s, name, condition) then
        (Write(s, Mu3Lab, name, text), Status(if plain then 200 else if name in s.files then 204 else 201))
      else
        (s, Status(if name in s.files || condition == IfNoneMatch then 412 else missing))
    case Delete(name, version) =>
      if Holds(s, name, IfMatch(version)) then (Erase(s, Mu3Lab, name), Status(if plain then 200 else 204))
      else (s, Status(if name in s.files then 412 else missing))
    case Get(name) =>
      if name in s.files then
        (s, Content(s.files[name].text, if tagged then Some(s.files[name].version) else None))
      else (s, Status(404))
  }

  /** One request over the network. */
  function Exchange(s: Server, request: Request, w: Weather): (Server, Reply) {
    var here := Edits(s, w.edits);
    match w.fate
    case Served(gone, tagged, plain) => Serve(here, request, gone, tagged, plain)
    case Refused(status) => (here, Status(status))
    case Garbled(status) => (Serve(here, request, false, true, false).0, Status(status))
    case RequestLost => (here, NoReply)
    case ReplyLost => (Serve(here, request, false, true, false).0, NoReply)
  }

  // ---- What is always true of a collection's history ---------------------------------

  /** `past` and `log` tell one story, each version was written once, and none is about to be reused. */
  ghost predicate Sound(s: Server) {
    && |s.past| == |s.log| + 1
    && s.past[|s.log|] == s.files
    && (forall k :: 0 <= k < |s.log| ==> Follows(s.past[k], s.log[k], s.past[k + 1]))
    && (forall k :: 0 <= k < |s.past| ==> Below(s.past[k], s.next))
    && (forall k, l :: 0 <= k < |s.past| && 0 <= l < |s.past| ==> Agree(s.past[k], s.past[l]))
  }

  ghost predicate Follows(before: Files, e: Effect, after: Files) {
    e.before == At(before, e.name) && e.before != e.after && after == Place(before, e.name, e.after)
  }

  ghost predicate Below(files: Files, next: nat) {
    forall a :: a in files ==> files[a].version < next
  }

  /** The same version is the same file with the same text. */
  ghost predicate Agree(f: Files, g: Files) {
    forall a, b :: (a in f && b in g && f[a].version == g[b].version) ==> (a == b && f[a] == g[b])
  }

  /** `t` is a later state of `s`: nothing of its history is rewritten. */
  ghost predicate Grows(s: Server, t: Server) {
    s.past <= t.past && s.log <= t.log && s.next <= t.next
  }

  /** Identical, or identical up to how the server writes it. */
  predicate Same(left: Ics, right: Ics) {
    left == right || (left.parsed.Some? && right.parsed.Some? && left.parsed.value.items == right.parsed.value.items)
  }

  lemma ChangedSound(s: Server, who: Who, name: string, content: Option<Resource>, next: nat)
    requires Sound(s) && s.next <= next && At(s.files, name) != content
    requires content.Some? ==> s.next <= content.value.version < next
    ensures var t := Changed(s, who, name, content, next); Sound(t) && Grows(s, t)
  {
    var t := Changed(s, who, name, content, next);
    var n := |s.log|;
    forall k | 0 <= k < |t.log| ensures Follows(t.past[k], t.log[k], t.past[k + 1]) {
      if k < n { assert Follows(s.past[k], s.log[k], s.past[k + 1]); }
    }
    forall k | 0 <= k < |t.past| ensures Below(t.past[k], t.next) {
      assert Below(s.files, s.next);
      if k < n { assert Below(s.past[k], s.next); }
    }
    forall l | 0 <= l <= n ensures Agree(t.files, s.past[l]) && Agree(s.past[l], t.files) {
      assert Agree(s.files, s.past[l]) && Agree(s.past[l], s.files) && Below(s.past[l], s.next);
    }
    assert Agree(s.files, s.files) && Below(s.files, s.next);
    assert Agree(t.files, t.files);
    forall k, l | 0 <= k < |t.past| && 0 <= l < |t.past| ensures Agree(t.past[k], t.past[l]) {
      if k <= n && l <= n { assert Agree(s.past[k], s.past[l]); }
    }
  }

  lemma WriteSound(s: Server, who: Who, name: string, text: Ics)
    requires Sound(s)
    ensures Sound(Write(s, who, name, text)) && Grows(s, Write(s, who, name, text))
  {
    assert Below(s.past[|s.log|], s.next);
    ChangedSound(s, who, name, Some(Resource(s.next, text)), s.next + 1);
  }

  lemma EraseSound(s: Server, who: Who, name: string)
    requires Sound(s) && name in s.files
    ensures Sound(Erase(s, who, name)) && Grows(s, Erase(s, who, name))
  {
    ChangedSound(s, who, name, None, s.next);
  }

  lemma {:induction false} EditsSound(s: Server, edits: seq<RemoteEdit>)
    requires Sound(s)
    ensures Sound(Edits(s, edits)) && Grows(s, Edits(s, edits))
    ensures forall k :: |s.log| <= k < |Edits(s, edits).log| ==> Edits(s, edits).log[k].who == Others
    decreases |edits|
  {
    if edits != [] {
      match edits[0] {
        case RemotePut(name, text) => WriteSound(s, Others, name, text);
        case RemoteDelete(name) => if name in s.files { EraseSound(s, Others, name); }
      }
      EditsSound(Edit(s, edits[0]), edits[1..]);
    }
  }

  /** What a request may do to the collection: only the change asked for, only onto the state its condition names. */
  predicate Permitted(request: Request, e: Effect) {
    match request
    case Put(name, text, condition) =>
      && e.name == name && e.after.Some? && e.after.value.text == text
      && (match condition
          case IfNoneMatch => e.before.None?
          case IfMatch(version) => e.before.Some? && e.before.value.version == version)
    case Delete(name, version) =>
      e.name == name && e.after.None? && e.before.Some? && e.before.value.version == version
    case Get(_) => false
  }

  /** Every change Mu3Lab made from `s` to `t` is one `request` permits. */
  ghost predicate OnlyBy(s: Server, t: Server, request: Request) {
    forall k :: |s.log| <= k < |t.log| && t.log[k].who == Mu3Lab ==> Permitted(request, t.log[k])
  }

  lemma ServeSound(s: Server, request: Request, gone: bool, tagged: bool, plain: bool)
    requires Sound(s)
    ensures var t := Serve(s, request, gone, tagged, plain).0; Sound(t) && Grows(s, t) && OnlyBy(s, t, request)
  {
    match request
    case Put(name, text, _) => WriteSound(s, Mu3Lab, name, text);
    case Delete(name, _) => if name in s.files { EraseSound(s, Mu3Lab, name); }
    case Get(_) =>
  }

  /** Whatever the network does, a request changes the collection only as its precondition allows. */
  lemma ExchangeSound(s: Server, request: Request, w: Weather)
    requires Sound(s)
    ensures var t := Exchange(s, request, w).0; Sound(t) && Grows(s, t) && OnlyBy(s, t, request)
  {
    EditsSound(s, w.edits);
    var here := Edits(s, w.edits);
    match w.fate
    case Served(gone, tagged, plain) => ServeSound(here, request, gone, tagged, plain);
    case _ => ServeSound(here, request, false, true, false);
  }

  /** What an answer says about the collection at the moment it was given. */
  lemma AnswerTells(s: Server, request: Request, w: Weather)
    ensures var (t, reply) := Exchange(s, request, w);
      match request
      case Put(name, text, condition) =>
        && (reply.Status? && reply.code in {200, 201, 204} ==> name in t.files && t.files[name].text == text)
        && (reply.Status? && reply.code == 412 && condition == IfNoneMatch ==> name in t.files)
        && !reply.Content?
      case Delete(name, _) => !reply.Content?
      case Get(name) =>
        && t == Edits(s, w.edits)
        && (reply.Content? ==> name in t.files && t.files[name].text == reply.text)
        && (reply.Content? && reply.etag.Some? ==> reply.etag.value == t.files[name].version)
        && (reply.Status? ==> reply.code !in {200, 201, 204, 412})
  {
  }

  /** Each request meets the next weather, and calm once none is left. */
  lemma WeatherInTurn(w: Weather, env: seq<Weather>)
    ensures Now([w] + env) == w && Later([w] + env) == env
    ensures Now([]) == CALM && Later([]) == []
  {
    assert ([w] + env)[1..] == env;
  }

  /** What a change asks for stands: nothing, or the version it names. */
  predicate Stands(files: Files, request: Request) {
    match request
    case Put(name, _, IfNoneMatch) => name !in files
    case Put(name, _, IfMatch(version)) => name in files && files[name].version == version
    case Delete(name, version) => name in files && files[name].version == version
    case Get(_) => false
  }

  /** The collection after a change has been made in it. */
  function Carried(s: Server, request: Request): Server
    requires !request.Get?
  {
    var name := request.name;
    var after := if request.Put? then Some(Resource(s.next, request.text)) else None;
    var files := if request.Put? then s.files[name := Resource(s.next, request.text)] else map x | x in s.files && x != name :: s.files[x];
    var next := if request.Put? then s.next + 1 else s.next;
    Server(files, next, s.past + [files],
           s.log + [Effect(Mu3Lab, name, if name in s.files then Some(s.files[name]) else None, after)])
  }

  /**
   * A change is made exactly when its request arrives and, after what other clients did until
   * then, what it asks for stands.
   */
  lemma ChangesExactly(s: Server, request: Request, w: Weather)
    ensures var here := Edits(s, w.edits);
      Exchange(s, request, w).0 ==
      if Stands(here.files, request) && !w.fate.Refused? && !w.fate.RequestLost? then Carried(here, request) else here
  {
    var here := Edits(s, w.edits);
    if Stands(here.files, request) && request.Delete? {
      assert Place(here.files, request.name, None) == map x | x in here.files && x != request.name :: here.files[x];
    }
  }

  /** What is answered: to a change made, to one that no longer applies, to a reading, and where none is carried out. */
  lemma AnswersExactly(s: Server, request: Request, w: Weather)
    ensures var (files, reply) := (Edits(s, w.edits).files, Exchange(s, request, w).1);
      match w.fate
      case Refused(status) => reply == Status(status)
      case Garbled(status) => reply == Status(status)
      case RequestLost => reply == NoReply
      case ReplyLost => reply == NoReply
      case Served(gone, tagged, plain) =>
        reply == match request {
          case Get(name) =>
            if name !in files then Status(404)
            else Content(files[name].text, if tagged then Some(files[name].version) else None)
          case Put(name, _, condition) =>
            if Stands(files, request) then Status(if plain then 200 else if condition.IfNoneMatch? then 201 else 204)
            else Status(if gone && name !in files then 404 else 412)
          case Delete(name, _) =>
            if Stands(files, request) then Status(if plain then 200 else 204)
            else Status(if gone && name !in files then 404 else 412)
        }
  {
    hide Edits;
  }

  /** Other clients write whatever they like, each version anew, and delete what is there. */
  lemma EditsExactly(s: Server, edit: RemoteEdit)
    ensures var t := Edit(s, edit);
      match edit
      case RemotePut(name, text) =>
        t.files == s.files[name := Resource(s.next, text)] && t.next == s.next + 1 && t.past == s.past + [t.files]
        && t.log == s.log + [Effect(Others, name, if name in s.files then Some(s.files[name]) else None, Some(t.files[name]))]
      case RemoteDelete(name) =>
        if name !in s.files then t == s
        else t.files == s.files - {name} && t.next == s.next && t.past == s.past + [t.files]
             && t.log == s.log + [Effect(Others, name, Some(s.files[name]), None)]
  {
  }

  // ---- Counting what was created and removed -------------------------------------------

  function Creations(log: seq<Effect>, name: string): nat {
    if log == [] then 0 else
    var e := log[|log| - 1];
    Creations(log[..|log| - 1], name) + if e.name == name && e.before.None? && e.after.Some? then 1 else 0
  }

  function Removals(log: seq<Effect>, name: string): nat {
    if log == [] then 0 else
    var e := log[|log| - 1];
    Removals(log[..|log| - 1], name) + if e.name == name && e.before.Some? && e.after.None? then 1 else 0
  }

  function Present(files: Files, name: string): nat { if name in files then 1 else 0 }

  lemma {:induction false} CountsJoin(a: seq<Effect>, b: seq<Effect>, name: string)
    ensures Creations(a + b, name) == Creations(a, name) + Creations(b, name)
    ensures Removals(a + b, name) == Removals(a, name) + Removals(b, name)
    decreases |b|
  {
    if b == [] {
      assert a + b == a;
    } else {
      var n := |b| - 1;
      assert (a + b)[..|a| + n] == a + b[..n] && (a + b)[|a| + n] == b[n];
      CountsJoin(a, b[..n], name);
    }
  }

  /** From any moment on, a file is there exactly when it was created (or there at first) once more than it was removed. */
  lemma CreatedLessRemoved(s: Server, from: nat, name: string)
    requires Sound(s) && from <= |s.log|
    ensures Creations(s.log[from..], name) + Present(s.past[from], name)
         == Removals(s.log[from..], name) + Present(s.files, name)
  {
    var past, log := s.past[from..], s.log[from..];
    forall k | 0 <= k < |log| ensures Follows(past[k], log[k], past[k + 1]) {
      assert Follows(s.past[from + k], s.log[from + k], s.past[from + k + 1]);
    }
    Balance(past, log, name);
  }

  lemma {:induction false} Balance(past: seq<Files>, log: seq<Effect>, name: string)
    requires |past| == |log| + 1
    requires forall k :: 0 <= k < |log| ==> Follows(past[k], log[k], past[k + 1])
    ensures Creations(log, name) + Present(past[0], name) == Removals(log, name) + Present(past[|log|], name)
    decreases |log|
  {
    if log != [] {
      var k := |log| - 1;
      Balance(past[..k + 1], log[..k], name);
      assert Follows(past[k], log[k], past[k + 1]);
    }
  }
}
