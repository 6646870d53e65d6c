/** The two OpenAI-to-Gemini turn builders: the REST one of internal/proxy/gemini.go and
    the SDK one of internal/proxy/gemini_sdk.go. Messages are already parsed. */
module GeminiTurns {
  import opened Text

  // ----- Input -----

  datatype ContentPart = TextPart(text: string) | ImagePart(url: Option<string>) | UnknownPart

  /** User content: one string, or a list of parts. */
  datatype UserContent = Single(text: string) | Several(parts: seq<ContentPart>)

  datatype Call = Call(id: string, kind: string, name: string, arguments: string)

  datatype Message = Message(
    role: string, content: UserContent, text: string, calls: seq<Call>,
    name: string, toolCallId: string, raw: string)

  datatype Image = Image(mime: string, base64: string, bytes: string)

  /** The calls out of the two files: reading a data URI, fetching a remote image (which
      gives a data URI), making a JSON object of a value, and decoding an object. */
  datatype Env = Env(
    extract: string -> Option<Image>,
    fetch: string -> Option<string>,
    coerce: string -> string,
    decode: string -> Option<map<string, string>>)

  predicate IsRemote(url: string) {
    "http://" <= url || "https://" <= url
  }

  // ----- Output -----

  datatype Role = User | Model

  datatype Turn<P> = Turn(role: Role, parts: seq<P>)

  datatype RestPart =
    | RText(text: string)
    | RInline(mime: string, base64: string)
    | RCall(name: string, args: string, signed: bool)
    | RResponse(name: string, response: string)

  datatype SdkPart =
    | SText(text: string)
    | SInline(mime: string, bytes: string)
    | SCall(name: string, args: map<string, string>, signed: bool)
    | SResponse(name: string, response: map<string, string>)

  /** What the last message that counted was. */
  datatype Prev = NoneYet | PrevUser | PrevModel | PrevTool

  datatype Progress<P> = Progress(turns: seq<Turn<P>>, prev: Prev, names: map<string, string>)

  // ----- Shared by both builders: the names of calls -----

  function Register(names: map<string, string>, calls: seq<Call>): map<string, string> {
    if calls == [] then names
    else
      var c := calls[|calls| - 1];
      var before := Register(names, calls[..|calls| - 1]);
      if c.id != "" && c.name != "" then before[c.id := c.name] else before
  }

  function ResponseName(names: map<string, string>, m: Message): string {
    if m.name != "" then m.name
    else if m.toolCallId in names then names[m.toolCallId]
    else "function_result"
  }

  function AllCalls(msgs: seq<Message>): seq<Call> {
    if msgs == [] then []
    else
      var m := msgs[|msgs| - 1];
      AllCalls(msgs[..|msgs| - 1]) + (if m.role == "assistant" then m.calls else [])
  }

  /** The name of the latest call with this id, among those that have a name. */
  function LatestName(calls: seq<Call>, id: string): Option<string> {
    if calls == [] then None
    else
      var c := calls[|calls| - 1];
      if c.id == id && id != "" && c.name != "" then Some(c.name)
      else LatestName(calls[..|calls| - 1], id)
  }

  lemma {:induction false} RegisterIsLatest(calls: seq<Call>, id: string)
    ensures var names := Register(map[], calls);
            (if id in names then Some(names[id]) else None) == LatestName(calls, id)
  {
    if calls != [] {
      RegisterIsLatest(calls[..|calls| - 1], id);
    }
  }

  lemma {:induction false} RegisterAppend(names: map<string, string>, a: seq<Call>, b: seq<Call>)
    ensures Register(names, a + b) == Register(Register(names, a), b)
  {
    if b == [] {
      assert a + b == a;
    } else {
      assert (a + b)[..|a + b| - 1] == a + b[..|b| - 1];
      RegisterAppend(names, a, b[..|b| - 1]);
    }
  }

  method RegisterCalls(names: map<string, string>, calls: seq<Call>) returns (r: map<string, string>)
    ensures r == Register(names, calls)
  {
    r := names;
    for i := 0 to |calls|
      invariant r == Register(names, calls[..i])
    {
      assert calls[..i + 1][..i] == calls[..i];
      if calls[i].id != "" && calls[i].name != "" {
        r := r[calls[i].id := calls[i].name];
      }
    }
    assert calls[..|calls|] == calls;
  }

  // ----- REST -----

  function RestImage(url: string, env: Env): Option<RestPart> {
    if "data:" <= url then
      match env.extract(url)
      case None => None
      case Some(img) => Some(RInline(img.mime, img.base64))
    else if IsRemote(url) then
      match env.fetch(url)
      case None => None
      case Some(uri) =>
        (match env.extract(uri)
         case None => None
         case Some(img) => Some(RInline(img.mime, img.base64)))
    else None
  }

  function RestParts(parts: seq<ContentPart>, env: Env): Option<seq<RestPart>> {
    if parts == [] then Some([])
    else
      match RestParts(parts[..|parts| - 1], env)
      case None => None
      case Some(front) =>
        (match parts[|parts| - 1]
         case TextPart(text) => Some(front + [RText(text)])
         case ImagePart(Some(url)) =>
           (match RestImage(url, env)
            case None => None
            case Some(part) => Some(front + [part]))
         case _ => Some(front))
  }

  function RestUserParts(content: UserContent, env: Env): (r: Option<seq<RestPart>>)
    ensures r.Some? ==> r.value != []
  {
    match content
    case Single(text) => Some([RText(text)])
    case Several(parts) =>
      match RestParts(parts, env)
      case None => None
      case Some(ps) => Some(if ps == [] then [RText("")] else ps)
  }

  function RestCalls(calls: seq<Call>, signed: bool, env: Env): seq<RestPart> {
    if calls == [] then []
    else
      var c := calls[|calls| - 1];
      RestCalls(calls[..|calls| - 1], signed, env)
      + (if c.kind == "function" then [RCall(c.name, env.coerce(c.arguments), signed)] else [])
  }

  function RestAssistantParts(m: Message, signed: bool, env: Env): seq<RestPart> {
    (if m.text == "" then [] else [RText(m.text)]) + RestCalls(m.calls, signed, env)
  }

  function RestResponse(m: Message, names: map<string, string>, env: Env): RestPart {
    RResponse(ResponseName(names, m), env.coerce(if m.raw == "" then "\"\"" else m.raw))
  }

  /** A turn for these parts, or their place at the end of the last turn. */
  function Emit<P>(turns: seq<Turn<P>>, merge: bool, role: Role, parts: seq<P>): seq<Turn<P>> {
    if merge && turns != [] then
      var last := turns[|turns| - 1];
      turns[..|turns| - 1] + [last.(parts := last.parts + parts)]
    else turns + [Turn(role, parts)]
  }

  function RestAdvance(p: Progress<RestPart>, m: Message, signed: bool, env: Env): Option<Progress<RestPart>> {
    if m.role == "user" then
      match RestUserParts(m.content, env)
      case None => None
      case Some(parts) =>
        Some(Progress(Emit(p.turns, p.prev == PrevUser, User, parts), PrevUser, p.names))
    else if m.role == "assistant" then
      var parts := RestAssistantParts(m, signed, env);
      var names := Register(p.names, m.calls);
      if parts == [] then Some(p.(names := names))
      else Some(Progress(p.turns + [Turn(Model, parts)], PrevModel, names))
    else if m.role == "tool" then
      Some(Progress(Emit(p.turns, p.prev == PrevTool, User, [RestResponse(m, p.names, env)]), PrevTool, p.names))
    else Some(p)
  }

  function RestProgress(msgs: seq<Message>, signed: bool, env: Env): Option<Progress<RestPart>> {
    if msgs == [] then Some(Progress([], NoneYet, map[]))
    else
      match RestProgress(msgs[..|msgs| - 1], signed, env)
      case None => None
      case Some(p) => RestAdvance(p, msgs[|msgs| - 1], signed, env)
  }

  method BuildRestTurns(msgs: seq<Message>, signed: bool, env: Env) returns (r: Option<seq<Turn<RestPart>>>)
    ensures r == match RestProgress(msgs, signed, env)
                 case None => None
                 case Some(p) => Some(p.turns)
  {
    var turns, prev := [], NoneYet;
    var names := map[];
    ghost var done := [];
    for i := 0 to |msgs|
      invariant done == msgs[..i]
      invariant RestProgress(done, signed, env) == Some(Progress(turns, prev, names))
    {
      var m := msgs[i];
      ghost var p := Progress(turns, prev, names);
      done := done + [m];
      assert done[..i] == msgs[..i];
      assert RestProgress(done, signed, env) == RestAdvance(p, m, signed, env);
      match m.role {
        case "user" =>
          var parts := RestUserParts(m.content, env);
          if parts.None? {
            RestErrorSticks(msgs, i + 1, signed, env);
            return None;
          }
          turns := Emit(turns, prev == PrevUser, User, parts.value);
          prev := PrevUser;
        case "assistant" =>
          names := RegisterCalls(names, m.calls);
          var parts := RestAssistantParts(m, signed, env);
          if |parts| > 0 {
            turns := turns + [Turn(Model, parts)];
            prev := PrevModel;
          }
        case "tool" =>
          turns := Emit(turns, prev == PrevTool, User, [RestResponse(m, names, env)]);
          prev := PrevTool;
        case _ =>
      }
    }
    assert done == msgs;
    return Some(turns);
  }

  lemma {:induction false} RestErrorSticks(msgs: seq<Message>, n: nat, signed: bool, env: Env)
    requires n <= |msgs| && RestProgress(msgs[..n], signed, env).None?
    ensures RestProgress(msgs, signed, env).None?
  {
    if n < |msgs| {
      assert msgs[..|msgs| - 1][..n] == msgs[..n];
      RestErrorSticks(msgs[..|msgs| - 1], n, signed, env);
    } else {
      assert msgs[..n] == msgs;
    }
  }

  // ----- SDK -----

  function SdkImage(url: string, env: Env): Option<SdkPart> {
    var uri := if "data:" <= url then Some(url) else if IsRemote(url) then env.fetch(url) else None;
    match uri
    case None => None
    case Some(u) =>
      match env.extract(u)
      case None => None
      case Some(img) => Some(SInline(img.mime, img.bytes))
  }

  function SdkParts(parts: seq<ContentPart>, env: Env): Option<seq<SdkPart>> {
    if parts == [] then Some([])
    else
      match SdkParts(parts[..|parts| - 1], env)
      case None => None
      case Some(front) =>
        (match parts[|parts| - 1]
         case TextPart(text) => Some(front + [SText(text)])
         case ImagePart(Some(url)) =>
           (match SdkImage(url, env)
            case None => None
            case Some(part) => Some(front + [part]))
         case _ => Some(front))
  }

  function SdkUserParts(content: UserContent, env: Env): (r: Option<seq<SdkPart>>)
    ensures r.Some? ==> r.value != []
  {
    match content
    case Single(text) => Some([SText(text)])
    case Several(parts) =>
      match SdkParts(parts, env)
      case None => None
      case Some(ps) => Some(if ps == [] then [SText("")] else ps)
  }

  function SdkCalls(calls: seq<Call>, signed: bool, env: Env): seq<SdkPart> {
    if calls == [] then []
    else
      var c := calls[|calls| - 1];
      var args := env.decode(env.coerce(c.arguments));
      SdkCalls(calls[..|calls| - 1], signed, env)
      + (if c.kind == "function"
         then [SCall(c.name, if args.None? then map[] else args.value, signed)] else [])
  }

  function SdkAssistantParts(m: Message, signed: bool, env: Env): seq<SdkPart> {
    (if m.text == "" then [] else [SText(m.text)]) + SdkCalls(m.calls, signed, env)
  }

  function SdkResponse(m: Message, names: map<string, string>, env: Env): SdkPart {
    var json := env.coerce(m.raw);
    var decoded := env.decode(json);
    SResponse(ResponseName(names, m), if decoded.None? then map["output" := json] else decoded.value)
  }

  function SdkAdvance(p: Progress<SdkPart>, m: Message, signed: bool, env: Env): Option<Progress<SdkPart>> {
    if m.role == "user" then
      match SdkUserParts(m.content, env)
      case None => None
      case Some(parts) =>
        Some(Progress(Emit(p.turns, p.prev == PrevUser, User, parts), PrevUser, p.names))
    else if m.role == "assistant" then
      var parts := SdkAssistantParts(m, signed, env);
      var names := Register(p.names, m.calls);
      if parts == [] then Some(p.(names := names))
      else Some(Progress(p.turns + [Turn(Model, parts)], PrevModel, names))
    else if m.role == "tool" then
      Some(Progress(Emit(p.turns, p.prev == PrevTool, User, [SdkResponse(m, p.names, env)]), PrevTool, p.names))
    else Some(p)
  }

  function SdkProgress(msgs: seq<Message>, signed: bool, env: Env): Option<Progress<SdkPart>> {
    if msgs == [] then Some(Progress([], NoneYet, map[]))
    else
      match SdkProgress(msgs[..|msgs| - 1], signed, env)
      case None => None
      case Some(p) => SdkAdvance(p, msgs[|msgs| - 1], signed, env)
  }

  method BuildSdkTurns(msgs: seq<Message>, signed: bool, env: Env) returns (r: Option<seq<Turn<SdkPart>>>)
    ensures r == match SdkProgress(msgs, signed, env)
                 case None => None
                 case Some(p) => Some(p.turns)
  {
    var turns, prev := [], NoneYet;
    var names := map[];
    ghost var done := [];
    for i := 0 to |msgs|
      invariant done == msgs[..i]
      invariant SdkProgress(done, signed, env) == Some(Progress(turns, prev, names))
    {
      var m := msgs[i];
      ghost var p := Progress(turns, prev, names);
      done := done + [m];
      assert done[..i] == msgs[..i];
      assert SdkProgress(done, signed, env) == SdkAdvance(p, m, signed, env);
      match m.role {
        case "user" =>
          var parts := SdkUserParts(m.content, env);
          if parts.None? {
            SdkErrorSticks(msgs, i + 1, signed, env);
            return None;
          }
          turns := Emit(turns, prev == PrevUser, User, parts.value);
          prev := PrevUser;
        case "assistant" =>
          names := RegisterCalls(names, m.calls);
          var parts := SdkAssistantParts(m, signed, env);
          if |parts| > 0 {
            turns := turns + [Turn(Model, parts)];
            prev := PrevModel;
          }
        case "tool" =>
          turns := Emit(turns, prev == PrevTool, User, [SdkResponse(m, names, env)]);
          prev := PrevTool;
        case _ =>
      }
    }
    assert done == msgs;
    return Some(turns);
  }

  lemma {:induction false} SdkErrorSticks(msgs: seq<Message>, n: nat, signed: bool, env: Env)
    requires n <= |msgs| && SdkProgress(msgs[..n], signed, env).None?
    ensures SdkProgress(msgs, signed, env).None?
  {
    if n < |msgs| {
      assert msgs[..|msgs| - 1][..n] == msgs[..n];
      SdkErrorSticks(msgs[..|msgs| - 1], n, signed, env);
    } else {
      assert msgs[..n] == msgs;
    }
  }

  // ----- Order: nothing is lost, moved or renamed -----

  function PartsOf<P>(turns: seq<Turn<P>>): seq<P> {
    if turns == [] then [] else PartsOf(turns[..|turns| - 1]) + turns[|turns| - 1].parts
  }

  /** The parts one message stands for, after the messages `before`. */
  function OwnParts(before: seq<Message>, m: Message, signed: bool, env: Env): seq<RestPart> {
    if m.role == "user" then
      var parts := RestUserParts(m.content, env);
      if parts.None? then [] else parts.value
    else if m.role == "assistant" then RestAssistantParts(m, signed, env)
    else if m.role == "tool" then
      var latest := LatestName(AllCalls(before), m.toolCallId);
      var name := if m.name != "" then m.name
                  else if latest.Some? then latest.value else "function_result";
      [RResponse(name, env.coerce(if m.raw == "" then "\"\"" else m.raw))]
    else []
  }

  function InOrder(msgs: seq<Message>, signed: bool, env: Env): seq<RestPart> {
    if msgs == [] then []
    else
      var front := msgs[..|msgs| - 1];
      InOrder(front, signed, env) + OwnParts(front, msgs[|msgs| - 1], signed, env)
  }

  lemma PartsOfAppend<P>(turns: seq<Turn<P>>, turn: Turn<P>)
    ensures PartsOf(turns + [turn]) == PartsOf(turns) + turn.parts
  {
    assert (turns + [turn])[..|turns|] == turns;
  }

  lemma EmitAddsParts<P>(turns: seq<Turn<P>>, merge: bool, role: Role, parts: seq<P>)
    ensures PartsOf(Emit(turns, merge, role, parts)) == PartsOf(turns) + parts
  {
    if merge && turns != [] {
      var front, last := turns[..|turns| - 1], turns[|turns| - 1];
      PartsOfAppend(front, last.(parts := last.parts + parts));
      AppendAssociative(PartsOf(front), last.parts, parts);
    } else {
      PartsOfAppend(turns, Turn(role, parts));
    }
  }

  lemma AdvanceInOrder(p: Progress<RestPart>, before: seq<Message>, m: Message, signed: bool, env: Env)
    requires p.names == Register(map[], AllCalls(before)) && RestAdvance(p, m, signed, env).Some?
    ensures var next := RestAdvance(p, m, signed, env).value;
            && PartsOf(next.turns) == PartsOf(p.turns) + OwnParts(before, m, signed, env)
            && next.names == Register(map[], AllCalls(before) + (if m.role == "assistant" then m.calls else []))
  {
    assert AllCalls(before) + [] == AllCalls(before);
    assert PartsOf(p.turns) + [] == PartsOf(p.turns);
    if m.role == "user" {
      EmitAddsParts(p.turns, p.prev == PrevUser, User, RestUserParts(m.content, env).value);
    } else if m.role == "assistant" {
      RegisterAppend(map[], AllCalls(before), m.calls);
      PartsOfAppend(p.turns, Turn(Model, RestAssistantParts(m, signed, env)));
    } else if m.role == "tool" {
      ResponseInOrder(p.names, before, m, signed, env);
      EmitAddsParts(p.turns, p.prev == PrevTool, User, [RestResponse(m, p.names, env)]);
    }
  }

  lemma ResponseInOrder(names: map<string, string>, before: seq<Message>, m: Message, signed: bool, env: Env)
    requires names == Register(map[], AllCalls(before)) && m.role == "tool"
    ensures OwnParts(before, m, signed, env) == [RestResponse(m, names, env)]
  {
    RegisterIsLatest(AllCalls(before), m.toolCallId);
  }

  /** The flattened parts are the parts of each message in order, and an unnamed tool
      result bears the name of the latest earlier call with its id. */
  lemma {:induction false} PartsInOrder(msgs: seq<Message>, signed: bool, env: Env)
    requires RestProgress(msgs, signed, env).Some?
    ensures var p := RestProgress(msgs, signed, env).value;
            && PartsOf(p.turns) == InOrder(msgs, signed, env)
            && p.names == Register(map[], AllCalls(msgs))
  {
    if msgs != [] {
      var front, m := msgs[..|msgs| - 1], msgs[|msgs| - 1];
      PartsInOrder(front, signed, env);
      AdvanceInOrder(RestProgress(front, signed, env).value, front, m, signed, env);
    }
  }

  // ----- Which turns stand side by side -----

  predicate IsToolTurn(t: Turn<RestPart>) {
    t.role == User && t.parts != [] && forall i :: 0 <= i < |t.parts| ==> t.parts[i].RResponse?
  }

  predicate IsTextTurn(t: Turn<RestPart>) {
    t.role == User && t.parts != [] && forall i :: 0 <= i < |t.parts| ==> !t.parts[i].RResponse?
  }

  predicate MatchesPrev(turns: seq<Turn<RestPart>>, prev: Prev) {
    match prev
    case NoneYet => turns == []
    case PrevUser => turns != [] && IsTextTurn(turns[|turns| - 1])
    case PrevTool => turns != [] && IsToolTurn(turns[|turns| - 1])
    case PrevModel => turns != [] && turns[|turns| - 1].role == Model
  }

  /** Two user turns side by side are one of tool results and one of text. */
  ghost predicate UserTurnsDiffer(turns: seq<Turn<RestPart>>) {
    forall i :: 0 <= i < |turns| - 1 ==> Differ(turns[i], turns[i + 1])
  }

  lemma {:induction false} UserPartsAreNoResponses(parts: seq<ContentPart>, env: Env)
    requires RestParts(parts, env).Some?
    ensures var r := RestParts(parts, env).value;
            forall i :: 0 <= i < |r| ==> !r[i].RResponse?
  {
    if parts != [] {
      UserPartsAreNoResponses(parts[..|parts| - 1], env);
    }
  }

  predicate Differ(a: Turn<RestPart>, b: Turn<RestPart>) {
    a.role == User && b.role == User ==> (IsToolTurn(a) && IsTextTurn(b)) || (IsTextTurn(a) && IsToolTurn(b))
  }

  /** A part list that keeps to the kind `mine`. */
  predicate OfKind(t: Turn<RestPart>, mine: Prev) {
    (mine == PrevUser && IsTextTurn(t)) || (mine == PrevTool && IsToolTurn(t))
  }

  lemma EmitKeepsShape(turns: seq<Turn<RestPart>>, prev: Prev, mine: Prev, parts: seq<RestPart>)
    requires MatchesPrev(turns, prev) && UserTurnsDiffer(turns) && OfKind(Turn(User, parts), mine)
    ensures var r := Emit(turns, prev == mine, User, parts);
            MatchesPrev(r, mine) && UserTurnsDiffer(r)
  {
    var r := Emit(turns, prev == mine, User, parts);
    var n := |turns|;
    if prev == mine {
      var last, merged := turns[n - 1], r[n - 1];
      assert merged == last.(parts := last.parts + parts);
      assert OfKind(last, mine) && OfKind(merged, mine);
      assert last.parts[0].RResponse? <==> mine == PrevTool;
      forall i | 0 <= i < |r| - 1
        ensures Differ(r[i], r[i + 1])
      {
        assert r[i] == turns[i] && Differ(turns[i], turns[i + 1]);
        assert i + 1 < n - 1 ==> r[i + 1] == turns[i + 1];
      }
    } else {
      assert r == turns + [Turn(User, parts)];
      forall i | 0 <= i < |r| - 1
        ensures Differ(r[i], r[i + 1])
      {
        assert r[i] == turns[i] && (i + 1 < n ==> r[i + 1] == turns[i + 1]);
        assert i + 1 < n ==> Differ(turns[i], turns[i + 1]);
      }
    }
  }

  lemma {:induction false} AdjacentUserTurns(msgs: seq<Message>, signed: bool, env: Env)
    requires RestProgress(msgs, signed, env).Some?
    ensures var p := RestProgress(msgs, signed, env).value;
            MatchesPrev(p.turns, p.prev) && UserTurnsDiffer(p.turns)
  {
    if msgs != [] {
      var front, m := msgs[..|msgs| - 1], msgs[|msgs| - 1];
      AdjacentUserTurns(front, signed, env);
      var p := RestProgress(front, signed, env).value;
      if m.role == "user" {
        if m.content.Several? {
          UserPartsAreNoResponses(m.content.parts, env);
        }
        EmitKeepsShape(p.turns, p.prev, PrevUser, RestUserParts(m.content, env).value);
      } else if m.role == "tool" {
        EmitKeepsShape(p.turns, p.prev, PrevTool, [RestResponse(m, p.names, env)]);
      }
    }
  }

  /** What a message counts as; None when it leaves no turn. */
  function Effect(m: Message): Prev {
    if m.role == "user" then PrevUser
    else if m.role == "tool" then PrevTool
    else if m.role == "assistant" && (m.text != "" || exists i :: 0 <= i < |m.calls| && m.calls[i].kind == "function")
      then PrevModel
    else NoneYet
  }

  /** The effects of the messages that leave a trace. */
  function Effects(msgs: seq<Message>): seq<Prev> {
    if msgs == [] then []
    else
      Effects(msgs[..|msgs| - 1])
      + (if Effect(msgs[|msgs| - 1]).NoneYet? then [] else [Effect(msgs[|msgs| - 1])])
  }

  ghost predicate Alternates(turns: seq<Turn<RestPart>>) {
    forall i :: 0 <= i < |turns| - 1 ==> turns[i].role != turns[i + 1].role
  }

  /** Each effect either joins the turn of the one before it or is said by the other side. */
  predicate Compatible(a: Prev, b: Prev) {
    if a == b then a != PrevModel else a == PrevModel || b == PrevModel
  }

  ghost predicate AllCompatible(effects: seq<Prev>) {
    forall i :: 0 <= i < |effects| - 1 ==> Compatible(effects[i], effects[i + 1])
  }

  lemma {:induction false} CallPartsExist(calls: seq<Call>, signed: bool, env: Env)
    ensures RestCalls(calls, signed, env) != [] <==> exists i :: 0 <= i < |calls| && calls[i].kind == "function"
  {
    if calls != [] {
      var front := calls[..|calls| - 1];
      CallPartsExist(front, signed, env);
      if RestCalls(front, signed, env) != [] {
        var i :| 0 <= i < |front| && front[i].kind == "function";
        assert calls[i].kind == "function";
      }
      if exists i :: 0 <= i < |calls| && calls[i].kind == "function" {
        var i :| 0 <= i < |calls| && calls[i].kind == "function";
        assert i < |front| ==> front[i].kind == "function";
      }
    }
  }

  lemma AlternatesAppend(turns: seq<Turn<RestPart>>, turn: Turn<RestPart>)
    ensures Alternates(turns + [turn]) <==>
            Alternates(turns) && (turns != [] ==> turns[|turns| - 1].role != turn.role)
  {
    var r := turns + [turn];
    if Alternates(r) {
      assert forall i :: 0 <= i < |turns| ==> r[i] == turns[i];
      forall i | 0 <= i < |turns| - 1 ensures turns[i].role != turns[i + 1].role {
        assert r[i].role != r[i + 1].role;
      }
      assert turns != [] ==> r[|turns| - 1].role != r[|turns| - 1 + 1].role;
    }
  }

  lemma AlternatesMerge(front: seq<Turn<RestPart>>, a: Turn<RestPart>, b: Turn<RestPart>)
    requires a.role == b.role
    ensures Alternates(front + [a]) <==> Alternates(front + [b])
  {
    AlternatesAppend(front, a);
    AlternatesAppend(front, b);
  }

  lemma CompatibleAppend(effects: seq<Prev>, e: Prev)
    ensures AllCompatible(effects + [e]) <==>
            AllCompatible(effects) && (effects != [] ==> Compatible(effects[|effects| - 1], e))
  {
    var r := effects + [e];
    if AllCompatible(r) {
      assert forall i :: 0 <= i < |effects| ==> r[i] == effects[i];
      forall i | 0 <= i < |effects| - 1 ensures Compatible(effects[i], effects[i + 1]) {
        assert Compatible(r[i], r[i + 1]);
      }
      assert effects != [] ==> Compatible(r[|effects| - 1], r[|effects| - 1 + 1]);
    }
  }

  ghost predicate AlternationKnown(p: Progress<RestPart>, effects: seq<Prev>) {
    && (Alternates(p.turns) <==> AllCompatible(effects))
    && (p.turns == [] <==> effects == [])
    && p.prev == if effects == [] then NoneYet else effects[|effects| - 1]
  }

  function RoleOf(e: Prev): Role {
    if e == PrevModel then Model else User
  }

  /** The turn list after an emission, and whether it still alternates. */
  lemma EmitAlternates(turns: seq<Turn<RestPart>>, merge: bool, role: Role, parts: seq<RestPart>)
    requires turns != [] && merge ==> turns[|turns| - 1].role == role
    ensures Alternates(Emit(turns, merge, role, parts)) <==>
            Alternates(turns) && (turns != [] ==> merge || turns[|turns| - 1].role != role)
  {
    if merge && turns != [] {
      var front, last := turns[..|turns| - 1], turns[|turns| - 1];
      assert turns == front + [last];
      AlternatesMerge(front, last, Turn(last.role, last.parts + parts));
    } else {
      AlternatesAppend(turns, Turn(role, parts));
    }
  }

  /** Every message that leaves a trace is an emission; an assistant's never merges. */
  lemma AdvanceEmits(p: Progress<RestPart>, m: Message, signed: bool, env: Env) returns (parts: seq<RestPart>)
    requires !Effect(m).NoneYet? && RestAdvance(p, m, signed, env).Some?
    ensures var q := RestAdvance(p, m, signed, env).value;
            && q.prev == Effect(m)
            && q.turns == Emit(p.turns, p.prev == Effect(m) && Effect(m) != PrevModel, RoleOf(Effect(m)), parts)
  {
    CallPartsExist(m.calls, signed, env);
    parts := if m.role == "user" then RestUserParts(m.content, env).value
             else if m.role == "tool" then [RestResponse(m, p.names, env)]
             else RestAssistantParts(m, signed, env);
  }

  lemma AlternationStep(p: Progress<RestPart>, m: Message, effects: seq<Prev>, signed: bool, env: Env)
    requires AlternationKnown(p, effects) && MatchesPrev(p.turns, p.prev)
    requires !Effect(m).NoneYet? && RestAdvance(p, m, signed, env).Some?
    ensures AlternationKnown(RestAdvance(p, m, signed, env).value, effects + [Effect(m)])
  {
    var e := Effect(m);
    var parts := AdvanceEmits(p, m, signed, env);
    CompatibleAppend(effects, e);
    EmitAlternates(p.turns, p.prev == e && e != PrevModel, RoleOf(e), parts);
  }

  /** Gemini wants strict alternation. The builder delivers it exactly for conversations
      in which no assistant message follows another and no user message stands next to a
      tool message: those neighbours are not merged. */
  lemma {:induction false} AlternatesIff(msgs: seq<Message>, signed: bool, env: Env)
    requires RestProgress(msgs, signed, env).Some?
    ensures AlternationKnown(RestProgress(msgs, signed, env).value, Effects(msgs))
  {
    if msgs != [] {
      var front, m := msgs[..|msgs| - 1], msgs[|msgs| - 1];
      AlternatesIff(front, signed, env);
      AdjacentUserTurns(front, signed, env);
      var p := RestProgress(front, signed, env).value;
      if Effect(m).NoneYet? {
        CallPartsExist(m.calls, signed, env);
        assert Effects(front) + [] == Effects(front);
      } else {
        AlternationStep(p, m, Effects(front), signed, env);
      }
    }
  }

  // ----- The two builders agree -----

  /** A part without its payload: text, kind of media, or the name of a function. */
  datatype Outline = OText(text: string) | OInline(mime: string) | OCall(name: string) | OResponse(name: string)

  function RestOutline(p: RestPart): Outline {
    match p
    case RText(text) => OText(text)
    case RInline(mime, _) => OInline(mime)
    case RCall(name, _, _) => OCall(name)
    case RResponse(name, _) => OResponse(name)
  }

  function SdkOutline(p: SdkPart): Outline {
    match p
    case SText(text) => OText(text)
    case SInline(mime, _) => OInline(mime)
    case SCall(name, _, _) => OCall(name)
    case SResponse(name, _) => OResponse(name)
  }

  ghost predicate SameParts(a: seq<RestPart>, b: seq<SdkPart>) {
    |a| == |b| && forall i :: 0 <= i < |a| ==> RestOutline(a[i]) == SdkOutline(b[i])
  }

  ghost predicate SameTurns(a: seq<Turn<RestPart>>, b: seq<Turn<SdkPart>>) {
    |a| == |b| && forall i :: 0 <= i < |a| ==> a[i].role == b[i].role && SameParts(a[i].parts, b[i].parts)
  }

  lemma {:induction false} SameUserParts(parts: seq<ContentPart>, env: Env)
    ensures RestParts(parts, env).Some? <==> SdkParts(parts, env).Some?
    ensures RestParts(parts, env).Some? ==> SameParts(RestParts(parts, env).value, SdkParts(parts, env).value)
  {
    if parts != [] {
      SameUserParts(parts[..|parts| - 1], env);
    }
  }

  lemma {:induction false} SameCalls(calls: seq<Call>, signed: bool, other: bool, env: Env)
    ensures SameParts(RestCalls(calls, signed, env), SdkCalls(calls, other, env))
  {
    if calls != [] {
      SameCalls(calls[..|calls| - 1], signed, other, env);
    }
  }

  lemma SameEmit(a: seq<Turn<RestPart>>, b: seq<Turn<SdkPart>>, merge: bool, role: Role, x: seq<RestPart>, y: seq<SdkPart>)
    requires SameTurns(a, b) && SameParts(x, y)
    ensures SameTurns(Emit(a, merge, role, x), Emit(b, merge, role, y))
  {
    if merge && a != [] {
      var last, last' := a[|a| - 1], b[|b| - 1];
      assert SameParts(last.parts + x, last'.parts + y);
    }
  }

  /** Both builders fail on the same requests, and otherwise produce the same roles, kinds
      of parts, texts and function names in the same places, whichever of them signs the
      function calls. */
  lemma {:induction false} BuildersAgree(msgs: seq<Message>, signed: bool, other: bool, env: Env)
    ensures RestProgress(msgs, signed, env).Some? <==> SdkProgress(msgs, other, env).Some?
    ensures RestProgress(msgs, signed, env).Some? ==>
              var p, q := RestProgress(msgs, signed, env).value, SdkProgress(msgs, other, env).value;
              SameTurns(p.turns, q.turns) && p.prev == q.prev && p.names == q.names
  {
    if msgs != [] {
      var front, m := msgs[..|msgs| - 1], msgs[|msgs| - 1];
      BuildersAgree(front, signed, other, env);
      if RestProgress(front, signed, env).Some? {
        var p, q := RestProgress(front, signed, env).value, SdkProgress(front, other, env).value;
        StepsAgree(p, q, m, signed, other, env);
      }
    }
  }

  lemma StepsAgree(p: Progress<RestPart>, q: Progress<SdkPart>, m: Message, signed: bool, other: bool, env: Env)
    requires SameTurns(p.turns, q.turns) && p.prev == q.prev && p.names == q.names
    ensures RestAdvance(p, m, signed, env).Some? <==> SdkAdvance(q, m, other, env).Some?
    ensures RestAdvance(p, m, signed, env).Some? ==>
              var p', q' := RestAdvance(p, m, signed, env).value, SdkAdvance(q, m, other, env).value;
              SameTurns(p'.turns, q'.turns) && p'.prev == q'.prev && p'.names == q'.names
  {
    if m.role == "user" {
      SameContent(m.content, env);
      if RestUserParts(m.content, env).Some? {
        SameEmit(p.turns, q.turns, p.prev == PrevUser, User,
                 RestUserParts(m.content, env).value, SdkUserParts(m.content, env).value);
      }
    } else if m.role == "assistant" {
      SameAssistant(m, signed, other, env);
    } else if m.role == "tool" {
      SameEmit(p.turns, q.turns, p.prev == PrevTool, User,
               [RestResponse(m, p.names, env)], [SdkResponse(m, q.names, env)]);
    }
  }

  lemma SameContent(content: UserContent, env: Env)
    ensures RestUserParts(content, env).Some? <==> SdkUserParts(content, env).Some?
    ensures RestUserParts(content, env).Some? ==> SameParts(RestUserParts(content, env).value, SdkUserParts(content, env).value)
  {
    if content.Several? {
      SameUserParts(content.parts, env);
    }
  }

  lemma SameAssistant(m: Message, signed: bool, other: bool, env: Env)
    ensures SameParts(RestAssistantParts(m, signed, env), SdkAssistantParts(m, other, env))
  {
    SameCalls(m.calls, signed, other, env);
  }

  // ----- And when they sign alike -----

  ghost predicate RestSigned(turns: seq<Turn<RestPart>>, signed: bool) {
    forall i, j :: 0 <= i < |turns| && 0 <= j < |turns[i].parts| && turns[i].parts[j].RCall? ==>
      turns[i].parts[j].signed == signed
  }

  ghost predicate SdkSigned(turns: seq<Turn<SdkPart>>, signed: bool) {
    forall i, j :: 0 <= i < |turns| && 0 <= j < |turns[i].parts| && turns[i].parts[j].SCall? ==>
      turns[i].parts[j].signed == signed
  }

  lemma {:induction false} RestCallsSigned(calls: seq<Call>, signed: bool, env: Env)
    ensures forall j :: 0 <= j < |RestCalls(calls, signed, env)| && RestCalls(calls, signed, env)[j].RCall? ==>
              RestCalls(calls, signed, env)[j].signed == signed
  {
    if calls != [] {
      RestCallsSigned(calls[..|calls| - 1], signed, env);
    }
  }

  lemma {:induction false} SdkCallsSigned(calls: seq<Call>, signed: bool, env: Env)
    ensures forall j :: 0 <= j < |SdkCalls(calls, signed, env)| && SdkCalls(calls, signed, env)[j].SCall? ==>
              SdkCalls(calls, signed, env)[j].signed == signed
  {
    if calls != [] {
      SdkCallsSigned(calls[..|calls| - 1], signed, env);
    }
  }

  lemma {:induction false} UserPartsAreNoCalls(parts: seq<ContentPart>, env: Env)
    ensures RestParts(parts, env).Some? ==>
              forall j :: 0 <= j < |RestParts(parts, env).value| ==> !RestParts(parts, env).value[j].RCall?
    ensures SdkParts(parts, env).Some? ==>
              forall j :: 0 <= j < |SdkParts(parts, env).value| ==> !SdkParts(parts, env).value[j].SCall?
  {
    if parts != [] {
      UserPartsAreNoCalls(parts[..|parts| - 1], env);
    }
  }

  ghost predicate RestPartsSigned(parts: seq<RestPart>, signed: bool) {
    forall j :: 0 <= j < |parts| && parts[j].RCall? ==> parts[j].signed == signed
  }

  ghost predicate SdkPartsSigned(parts: seq<SdkPart>, signed: bool) {
    forall j :: 0 <= j < |parts| && parts[j].SCall? ==> parts[j].signed == signed
  }

  lemma RestEmitSigned(turns: seq<Turn<RestPart>>, merge: bool, role: Role, parts: seq<RestPart>, signed: bool)
    requires RestSigned(turns, signed) && RestPartsSigned(parts, signed)
    ensures RestSigned(Emit(turns, merge, role, parts), signed)
  {
  }

  lemma SdkEmitSigned(turns: seq<Turn<SdkPart>>, merge: bool, role: Role, parts: seq<SdkPart>, signed: bool)
    requires SdkSigned(turns, signed) && SdkPartsSigned(parts, signed)
    ensures SdkSigned(Emit(turns, merge, role, parts), signed)
  {
  }

  lemma {:induction false} RestKeepsSigned(msgs: seq<Message>, signed: bool, env: Env)
    requires RestProgress(msgs, signed, env).Some?
    ensures RestSigned(RestProgress(msgs, signed, env).value.turns, signed)
  {
    if msgs != [] {
      var front, m := msgs[..|msgs| - 1], msgs[|msgs| - 1];
      RestKeepsSigned(front, signed, env);
      var p := RestProgress(front, signed, env).value;
      if m.role == "user" {
        if m.content.Several? {
          UserPartsAreNoCalls(m.content.parts, env);
        }
        RestEmitSigned(p.turns, p.prev == PrevUser, User, RestUserParts(m.content, env).value, signed);
      } else if m.role == "assistant" {
        RestCallsSigned(m.calls, signed, env);
        RestEmitSigned(p.turns, false, Model, RestAssistantParts(m, signed, env), signed);
      } else if m.role == "tool" {
        RestEmitSigned(p.turns, p.prev == PrevTool, User, [RestResponse(m, p.names, env)], signed);
      }
    }
  }

  lemma {:induction false} SdkKeepsSigned(msgs: seq<Message>, signed: bool, env: Env)
    requires SdkProgress(msgs, signed, env).Some?
    ensures SdkSigned(SdkProgress(msgs, signed, env).value.turns, signed)
  {
    if msgs != [] {
      var front, m := msgs[..|msgs| - 1], msgs[|msgs| - 1];
      SdkKeepsSigned(front, signed, env);
      var p := SdkProgress(front, signed, env).value;
      if m.role == "user" {
        if m.content.Several? {
          UserPartsAreNoCalls(m.content.parts, env);
        }
        SdkEmitSigned(p.turns, p.prev == PrevUser, User, SdkUserParts(m.content, env).value, signed);
      } else if m.role == "assistant" {
        SdkCallsSigned(m.calls, signed, env);
        SdkEmitSigned(p.turns, false, Model, SdkAssistantParts(m, signed, env), signed);
      } else if m.role == "tool" {
        SdkEmitSigned(p.turns, p.prev == PrevTool, User, [SdkResponse(m, p.names, env)], signed);
      }
    }
  }

  predicate SignedAlike(p: RestPart, q: SdkPart) {
    p.RCall? && q.SCall? ==> p.signed == q.signed
  }

  ghost predicate AllSignedAlike(a: seq<Turn<RestPart>>, b: seq<Turn<SdkPart>>) {
    && |a| == |b|
    && forall i, j :: 0 <= i < |a| && 0 <= j < |a[i].parts| && j < |b[i].parts| ==> SignedAlike(a[i].parts[j], b[i].parts[j])
  }

  ghost predicate HasCall(turns: seq<Turn<RestPart>>) {
    exists i, j :: 0 <= i < |turns| && 0 <= j < |turns[i].parts| && turns[i].parts[j].RCall?
  }

  /** The REST builder asks the model of the request whether to sign, the SDK builder the
      model of the pool: their calls are signed alike exactly when the answers are the same
      or there is no call. */
  lemma SignedAlikeIff(msgs: seq<Message>, signed: bool, other: bool, env: Env)
    requires RestProgress(msgs, signed, env).Some? && SdkProgress(msgs, other, env).Some?
    ensures var a, b := RestProgress(msgs, signed, env).value.turns, SdkProgress(msgs, other, env).value.turns;
            AllSignedAlike(a, b) <==> signed == other || !HasCall(a)
  {
    var a, b := RestProgress(msgs, signed, env).value.turns, SdkProgress(msgs, other, env).value.turns;
    BuildersAgree(msgs, signed, other, env);
    RestKeepsSigned(msgs, signed, env);
    SdkKeepsSigned(msgs, other, env);
    if HasCall(a) {
      var i, j :| 0 <= i < |a| && 0 <= j < |a[i].parts| && a[i].parts[j].RCall?;
      assert SameParts(a[i].parts, b[i].parts);
      assert RestOutline(a[i].parts[j]) == SdkOutline(b[i].parts[j]);
      assert AllSignedAlike(a, b) ==> SignedAlike(a[i].parts[j], b[i].parts[j]);
    }
  }
}
