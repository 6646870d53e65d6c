/** Mid-stream failover of internal/proxy/gemini_sdk.go: the sanitizer of resumed output,
    the prompt that resumes it, and the loop over at most five attempts. */
module StreamFailover {
  import opened Text
  import opened JsonString

  // ----- Fences -----

  const FENCE := "```"

  predicate HasFence(s: string) {
    FENCE <= TrimSpace(s)
  }

  predicate IsLetter(c: char) {
    'a' <= c <= 'z' || 'A' <= c <= 'Z'
  }

  function SkipLetters(s: string, i: nat): (r: nat)
    requires i <= |s|
    ensures i <= r <= |s|
    decreases |s| - i
  {
    if i < |s| && IsLetter(s[i]) then SkipLetters(s, i + 1) else i
  }

  predicate EndsTag(c: char) {
    c == '\n' || c == '\r' || c == ' ' || c == '_' || c == '-'
  }

  /** Where the text proper starts. */
  function Lead(s: string): (n: nat)
    ensures n <= |s| && s[n..] == TrimLeft(s)
  {
    TrimLeftIsTail(s);
    |s| - |TrimLeft(s)|
  }

  lemma TrimLeftIsTail(s: string)
    ensures |TrimLeft(s)| <= |s| && TrimLeft(s) == s[|s| - |TrimLeft(s)|..]
  {
    var l := TrimLeft(s);
    var k :| 0 <= k <= |s| && l == s[k..] && forall j :: 0 <= j < k ==> IsSpace(s[j]);
  }

  lemma FenceInTrimmed(l: string)
    requires FENCE <= TrimRight(l)
    ensures |l| >= 3 && FENCE <= l && l[..3] == FENCE
  {
  }

  lemma FenceIsLong(s: string)
    requires HasFence(s)
    ensures |s| >= 3
    ensures Lead(s) + 3 <= |s| && s[Lead(s)..Lead(s) + 3] == FENCE
  {
    FenceInTrimmed(TrimLeft(s));
    TailStart(s, Lead(s), TrimLeft(s));
  }

  lemma TailStart(s: string, lead: nat, l: string)
    requires lead <= |s| && l == s[lead..] && |l| >= 3
    ensures s[lead..lead + 3] == l[..3]
  {
  }

  /** How much of the text is dropped with the fence. */
  function FenceEnd(s: string): (n: nat)
    ensures n <= |s|
    ensures n > 0 <==> HasFence(s)
  {
    if !HasFence(s) then 0
    else
      var newline, space := Index(s, "\n"), Index(s, " ");
      if newline != -1 then newline + 1
      else if space != -1 then space + 1
      else
        FenceIsLong(s);
        var tag := SkipLetters(s, 3);
        if tag < |s| && EndsTag(s[tag]) then tag + 1 else tag
  }

  /** `stripLeadingFence`: every branch of the source returns a tail of its argument. */
  function StripLeadingFence(s: string): string {
    s[FenceEnd(s)..]
  }

  /** Searching for one character finds its first place. */
  lemma IndexOfChar(s: string, c: char)
    ensures Index(s, [c]) == -1 <==> c !in s
    ensures c in s ==> 0 <= Index(s, [c]) < |s| && s[Index(s, [c])] == c && c !in s[..Index(s, [c])]
  {
    var r := Index(s, [c]);
    if c in s {
      var k :| 0 <= k < |s| && s[k] == c;
      assert OccursAt(s, [c], k);
    }
    if r != -1 {
      assert s[r] == s[r..r + 1][0] == c;
      forall k | 0 <= k < r
        ensures s[k] != c
      {
        assert !OccursAt(s, [c], k);
      }
    }
  }

  /** The cut after the first `c` falls behind a fence at `lead` exactly when no `c`
      stands before the fence. */
  lemma FirstAgainstLead(s: string, c: char, lead: nat)
    requires lead + 3 <= |s| && s[lead..lead + 3] == FENCE
    requires c != '`' && c in s
    ensures 0 <= Index(s, [c])
    ensures Index(s, [c]) + 1 >= lead + 3 <==> c !in s[..lead]
  {
    var r := Index(s, [c]);
    IndexOfChar(s, c);
    FenceChars(s, lead);
    assert r < lead ==> s[..lead][r] == c;
  }

  lemma FenceChars(s: string, lead: nat)
    requires lead + 3 <= |s| && s[lead..lead + 3] == FENCE
    ensures forall k :: lead <= k < lead + 3 ==> s[k] == '`'
  {
    forall k | lead <= k < lead + 3
      ensures s[k] == '`'
    {
      assert s[k] == s[lead..lead + 3][k - lead] == FENCE[k - lead];
    }
  }

  /** The code drops the whole fence exactly when the mark it cuts after stands behind the
      fence: white space before the fence can make it cut too early. */
  lemma FenceIsDroppedIff(s: string)
    requires HasFence(s)
    ensures FenceEnd(s) >= Lead(s) + 3 <==>
            if '\n' in s then '\n' !in s[..Lead(s)]
            else if ' ' in s then ' ' !in s[..Lead(s)]
            else Lead(s) == 0
  {
    IndexOfChar(s, '\n');
    IndexOfChar(s, ' ');
    FenceIsLong(s);
    if '\n' in s {
      FirstAgainstLead(s, '\n', Lead(s));
    } else if ' ' in s {
      FirstAgainstLead(s, ' ', Lead(s));
    } else {
      TagAgainstLead(s, Lead(s));
    }
  }

  /** Without a line end or a space the cut goes by position, so only a fence at the very
      front is dropped whole. */
  lemma TagAgainstLead(s: string, lead: nat)
    requires lead + 3 <= |s| && s[lead..lead + 3] == FENCE
    requires lead <= Lead(s)
    ensures lead > 0 ==> SkipLetters(s, 3) == 3 && 3 < |s| && (EndsTag(s[3]) ==> lead > 3)
  {
    FenceChars(s, lead);
    if lead > 3 {
      SpaceBefore(s, 3);
    }
  }

  lemma SpaceBefore(s: string, i: nat)
    requires i < Lead(s)
    ensures IsSpace(s[i])
  {
    var l := TrimLeft(s);
    var k :| 0 <= k <= |s| && l == s[k..] && forall j :: 0 <= j < k ==> IsSpace(s[j]);
  }

  /** Go's `len` of a string. */
  function Utf8Length(s: string): nat {
    if s == "" then 0
    else
      var c := s[|s| - 1] as int;
      Utf8Length(s[..|s| - 1]) + (if c < 0x80 then 1 else if c < 0x800 then 2 else if c < 0x1_0000 then 3 else 4)
  }

  // ----- The sanitizer -----

  /** Text seen so far is not yet enough to tell whether it starts with a fence. */
  predicate Undecided(s: string) {
    Utf8Length(s) < 15 && '\n' !in s
  }

  /** The three fields of the source's StreamSanitizer. */
  datatype Held = Held(isActive: bool, checkedLeading: bool, buffer: string)

  function Feed(h: Held, text: string): (Held, string) {
    if !h.isActive || h.checkedLeading then (h, text)
    else
      var all := h.buffer + text;
      if Undecided(all) then (Held(true, false, all), "")
      else (Held(true, true, all), StripLeadingFence(all))
  }

  function Rest(h: Held): string {
    if h.checkedLeading then "" else StripLeadingFence(h.buffer)
  }

  /** What the sanitizer has heard and said so far belongs together. */
  ghost predicate Tracks(h: Held, fed: string, said: string) {
    if !h.isActive then !h.checkedLeading && h.buffer == "" && said == fed
    else if !h.checkedLeading then h.buffer == fed && said == ""
    else h.buffer <= fed && said == StripLeadingFence(h.buffer) + fed[|h.buffer|..]
  }

  lemma FeedTracks(h: Held, text: string, fed: string, said: string)
    requires Tracks(h, fed, said)
    ensures Tracks(Feed(h, text).0, fed + text, said + Feed(h, text).1)
  {
    if h.isActive && h.checkedLeading {
      ShiftTail(StripLeadingFence(h.buffer), h.buffer, fed, text);
    } else if h.isActive {
      var all := h.buffer + text;
      ShiftTail(StripLeadingFence(all), all, all, "");
    }
  }

  lemma ShiftTail(head: string, buffer: string, fed: string, text: string)
    requires buffer <= fed
    ensures buffer <= fed + text
    ensures head + (fed + text)[|buffer|..] == head + fed[|buffer|..] + text
    ensures head + fed[|fed|..] == "" + head
  {
    AppendAssociative(head, fed[|buffer|..], text);
    assert (fed + text)[|buffer|..] == fed[|buffer|..] + text;
  }

  /** At the end of a stream everything said is a tail of everything heard: all of it
      unless the text it was decided on began with a fence. */
  lemma RestCompletes(h: Held, fed: string, said: string)
    requires Tracks(h, fed, said)
    ensures IsSuffix(said + Rest(h), fed)
    ensures said + Rest(h) == fed <==> !h.isActive || !HasFence(h.buffer)
    ensures h.buffer <= fed
  {
    if !h.isActive {
      NothingHeld();
      assert said + "" == said;
    } else if h.checkedLeading {
      assert said + "" == said;
      TailIsSuffix(h.buffer, FenceEnd(h.buffer), fed);
    } else {
      WholeTail(h.buffer, FenceEnd(h.buffer));
    }
  }

  lemma WholeTail(fed: string, cut: nat)
    requires cut <= |fed|
    ensures IsSuffix("" + fed[cut..], fed)
    ensures "" + fed[cut..] == fed <==> cut == 0
  {
  }

  lemma NothingHeld()
    ensures StripLeadingFence("") == ""
  {
  }

  lemma TailIsSuffix(decided: string, cut: nat, fed: string)
    requires cut <= |decided| && decided <= fed
    ensures IsSuffix(decided[cut..] + fed[|decided|..], fed)
    ensures decided[cut..] + fed[|decided|..] == fed <==> cut == 0
  {
    assert fed == decided + fed[|decided|..];
    assert fed[cut..] == decided[cut..] + fed[|decided|..];
  }

  class StreamSanitizer {
    const isActive: bool
    var checkedLeading: bool
    var buffer: string

    function State(): Held
      reads this
    {
      Held(isActive, checkedLeading, buffer)
    }

    constructor (isActive: bool)
      ensures State() == Held(isActive, false, "")
    {
      this.isActive, checkedLeading, buffer := isActive, false, "";
    }

    method Sanitize(text: string) returns (r: string)
      modifies this
      ensures (State(), r) == Feed(old(State()), text)
    {
      if !isActive {
        return text;
      }
      if checkedLeading {
        return text;
      }
      buffer := buffer + text;
      if Utf8Length(buffer) < 15 && '\n' !in buffer {
        return "";
      }
      checkedLeading := true;
      r := StripLeadingFence(buffer);
    }

    method Flush() returns (r: string)
      modifies this
      ensures r == Rest(old(State()))
      ensures checkedLeading && buffer == old(buffer)
    {
      if checkedLeading {
        return "";
      }
      checkedLeading := true;
      r := StripLeadingFence(buffer);
    }
  }

  // ----- The prompt of an attempt -----

  datatype Role = User | Model

  /** A part has text and possibly other data; the SDK keeps the signature that Gemini 3
      wants on function calls beside them. */
  datatype Part = Part(text: string, data: Option<string>, signature: Option<string>)

  datatype Turn = Turn(role: Role, parts: seq<Part>)

  const CONTINUE := "[SYSTEM CONTEXT: Your previous output was cut off mid-generation due to a network dropout. Continue generating the response precisely from the last character above. Do NOT output any introductory remarks, do NOT repeat any code, and do NOT wrap code inside markdown blocks. Resume the code output directly.]"

  function PlainText(t: string): Part {
    Part(t, None, None)
  }

  function ExtendTurn(t: Turn, emitted: string): Turn {
    var n := |t.parts|;
    if n == 0 then Turn(t.role, [PlainText(emitted)])
    else
      var last := t.parts[n - 1];
      Turn(t.role, t.parts[..n - 1] + [Part(last.text + emitted, last.data, None)])
  }

  function Prompt(contents: seq<Turn>, emitted: string): seq<Turn> {
    if emitted == "" then contents
    else
      var n := |contents|;
      (if n > 0 && contents[n - 1].role == Model
       then contents[..n - 1] + [ExtendTurn(contents[n - 1], emitted)]
       else contents + [Turn(Model, [PlainText(emitted)])])
      + [Turn(User, [PlainText(CONTINUE)])]
  }

  ghost predicate Alternates(turns: seq<Turn>) {
    forall i :: 0 < i < |turns| ==> turns[i].role != turns[i - 1].role
  }

  /** A resumed prompt ends in a user turn, the turn before is the model's and its text ends
      with everything the client already has; a history that alternates still does. */
  lemma ResumedPrompt(contents: seq<Turn>, emitted: string)
    requires emitted != ""
    ensures var p := Prompt(contents, emitted);
            var n := |p|;
            && n >= 2 && p[n - 1] == Turn(User, [PlainText(CONTINUE)])
            && p[n - 2].role == Model
            && p[n - 2].parts != []
            && IsSuffix(emitted, p[n - 2].parts[|p[n - 2].parts| - 1].text)
            && p[..n - 2] <= contents
            && |contents| <= n - 1 <= |contents| + 1
    ensures Alternates(contents) ==> Alternates(Prompt(contents, emitted))
  {
    var p, n := Prompt(contents, emitted), |contents|;
    if n > 0 && contents[n - 1].role == Model {
      assert p[..|p| - 2] == contents[..n - 1];
    } else {
      assert p[..|p| - 2] == contents;
    }
  }

  predicate Signed(t: Turn) {
    t.parts != [] && t.parts[|t.parts| - 1].signature.Some?
  }

  /** The signatures of a turn, in order. */
  function Signatures(parts: seq<Part>): seq<string> {
    if parts == [] then []
    else
      var last := parts[|parts| - 1].signature;
      Signatures(parts[..|parts| - 1]) + (if last.Some? then [last.value] else [])
  }

  lemma SignaturesOfExtended(t: Turn, emitted: string)
    ensures Signatures(ExtendTurn(t, emitted).parts) == Signatures(t.parts) <==> !Signed(t)
  {
    var n := |t.parts|;
    if n == 0 {
      assert [PlainText(emitted)][..0] == [];
    } else {
      var front, last := t.parts[..n - 1], t.parts[n - 1];
      var merged := Part(last.text + emitted, last.data, None);
      assert (front + [merged])[..n - 1] == front;
      assert Signatures(front + [merged]) == Signatures(front) + [];
    }
  }

  /** The turn that is extended. */
  predicate Extends(contents: seq<Turn>, i: nat) {
    i == |contents| - 1 && contents[i].role == Model
  }

  lemma TurnKeepsSignaturesIff(contents: seq<Turn>, emitted: string, i: nat)
    requires emitted != "" && i < |contents|
    ensures i < |Prompt(contents, emitted)|
    ensures Signatures(Prompt(contents, emitted)[i].parts) == Signatures(contents[i].parts)
       <==> !(Extends(contents, i) && Signed(contents[i]))
  {
    if Extends(contents, i) {
      SignaturesOfExtended(contents[i], emitted);
      assert Prompt(contents, emitted)[i] == ExtendTurn(contents[i], emitted);
    } else {
      assert Prompt(contents, emitted)[i] == contents[i];
    }
  }

  /** Merging into a model turn loses the signature of its last part: the history is sent
      again with all its signatures exactly when there was none to lose. */
  lemma SignatureIsLostIff(contents: seq<Turn>, emitted: string)
    requires emitted != "" && contents != []
    ensures var n := |contents|;
            (forall i :: 0 <= i < n ==> Signatures(Prompt(contents, emitted)[i].parts) == Signatures(contents[i].parts))
            <==> !(contents[n - 1].role == Model && Signed(contents[n - 1]))
  {
    forall i | 0 <= i < |contents|
      ensures Signatures(Prompt(contents, emitted)[i].parts) == Signatures(contents[i].parts)
         <==> !(Extends(contents, i) && Signed(contents[i]))
    {
      TurnKeepsSignaturesIff(contents, emitted, i);
    }
  }

  // ----- One attempt -----

  /** How the text of a chunk is written: as the translator wrote it, put between quotation
      marks as it stands, or by Go's `%q`. */
  datatype Origin = Translated(literal: string) | Rewritten | Quoted

  /** A translated chunk; the empty string stands for an absent finish reason. */
  datatype Delta = Delta(
    content: Option<string>, reasoning: Option<string>, tools: bool,
    finish: string, deltaFinish: string, rest: string, origin: Origin)

  /** An item of the SDK's stream: an error, or a chunk with its finish reason in upper case
      and its translation if there is one. */
  datatype Chunk = Broken | Chunk(reason: string, delta: Option<Delta>)

  predicate Blocked(reason: string) {
    reason != "" && reason != "STOP" && reason != "MAX_TOKENS" && reason != "STOP_SEQUENCE"
  }

  predicate Filtered(d: Delta) {
    || d.finish == "content_filter" || d.finish == "error"
    || d.deltaFinish == "content_filter" || d.deltaFinish == "error"
  }

  function Shown(d: Delta): Option<string> {
    if d.content.Some? then d.content else d.reasoning
  }

  /** The chunk with the cleaned text, rewritten if that differs. */
  function WithShown(d: Delta, t: string): Delta {
    if Shown(d) == Some(t) then d
    else if d.content.Some? then Delta(Some(t), d.reasoning, d.tools, d.finish, d.deltaFinish, d.rest, Rewritten)
    else Delta(d.content, Some(t), d.tools, d.finish, d.deltaFinish, d.rest, Rewritten)
  }

  /** Text or a tool call: what makes an answer an answer. */
  predicate Substantial(d: Delta) {
    match Shown(d)
    case Some(t) => t != ""
    case None => d.tools
  }

  /** What the sanitizer lets through of one chunk. */
  function Pass(h: Held, d: Delta): (Held, seq<Delta>) {
    match Shown(d)
    case None => (h, [d])
    case Some(t) =>
      var (after, clean) := Feed(h, t);
      (after, if clean == "" then [] else [WithShown(d, clean)])
  }

  datatype Round = Round(held: Held, heard: seq<Delta>, sent: seq<Delta>, valid: bool, failed: bool)

  function Take(r: Round, c: Chunk): Round {
    if r.failed then r
    else if c.Broken? || (Blocked(c.reason) && !r.valid) then r.(failed := true)
    else if c.delta.None? then r
    else if Filtered(c.delta.value) && !r.valid then r.(failed := true)
    else
      var (held, out) := Pass(r.held, c.delta.value);
      Round(held, r.heard + [c.delta.value], r.sent + out, r.valid || (out != [] && Substantial(out[0])), false)
  }

  function Opened(active: bool, valid: bool): Round {
    Round(Held(active, false, ""), [], [], valid, false)
  }

  function Played(active: bool, valid: bool, chunks: seq<Chunk>): Round {
    if chunks == [] then Opened(active, valid)
    else Take(Played(active, valid, chunks[..|chunks| - 1]), chunks[|chunks| - 1])
  }

  function FlushDelta(t: string): Delta {
    Delta(Some(t), None, false, "", "", "chatcmpl-gate", Quoted)
  }

  function Flushed(h: Held): seq<Delta> {
    if Rest(h) == "" then [] else [FlushDelta(Rest(h))]
  }

  function Closed(r: Round): Round {
    if r.failed then r
    else if !r.valid && r.held.buffer == "" then r.(failed := true)
    else Round(r.held, r.heard, r.sent + Flushed(r.held), r.valid || Rest(r.held) != "", false)
  }

  // ----- What an attempt says -----

  /** The text of a run of deltas. */
  function TextOf(ds: seq<Delta>): string {
    if ds == [] then ""
    else
      TextOf(ds[..|ds| - 1]) + Shown(ds[|ds| - 1]).GetOr("")
  }

  function TextCount(ds: seq<Delta>): nat {
    if ds == [] then 0
    else TextCount(ds[..|ds| - 1]) + (if Shown(ds[|ds| - 1]).Some? then 1 else 0)
  }

  /** The deltas without text: tool calls and metadata. */
  function Others(ds: seq<Delta>): seq<Delta> {
    if ds == [] then []
    else Others(ds[..|ds| - 1]) + (if Shown(ds[|ds| - 1]).None? then [ds[|ds| - 1]] else [])
  }

  lemma OneMore(ds: seq<Delta>, d: Delta)
    ensures TextOf(ds + [d]) == TextOf(ds) + Shown(d).GetOr("")
    ensures TextCount(ds + [d]) == TextCount(ds) + (if Shown(d).Some? then 1 else 0)
    ensures Others(ds + [d]) == Others(ds) + (if Shown(d).None? then [d] else [])
  {
    assert (ds + [d])[..|ds|] == ds;
  }

  lemma {:induction false} TextOfAppend(a: seq<Delta>, b: seq<Delta>)
    ensures TextOf(a + b) == TextOf(a) + TextOf(b)
    ensures TextCount(a + b) == TextCount(a) + TextCount(b)
  {
    if b == [] {
      assert a + b == a;
    } else {
      var front, last := b[..|b| - 1], b[|b| - 1];
      TextOfAppend(a, front);
      assert a + b == (a + front) + [last];
      OneMore(a + front, last);
      AppendAssociative(TextOf(a), TextOf(front), Shown(last).GetOr(""));
    }
  }

  /** What is let through of one chunk has the text the sanitizer gave. */
  lemma PassSays(h: Held, d: Delta, sent: seq<Delta>)
    ensures var (after, out) := Pass(h, d);
            && Others(sent + out) == Others(sent) + (if Shown(d).None? then [d] else [])
            && (Shown(d).Some? ==> (after, TextOf(sent + out)) == (Feed(h, Shown(d).value).0, TextOf(sent) + Feed(h, Shown(d).value).1))
            && (Shown(d).None? ==> (after, TextOf(sent + out)) == (h, TextOf(sent)))
  {
    var out := Pass(h, d).1;
    assert TextOf(sent) + "" == TextOf(sent);
    if out == [] {
      assert sent + out == sent;
    } else {
      OneMore(sent, out[0]);
    }
  }

  ghost predicate SaysWhatItHears(r: Round) {
    && Tracks(r.held, TextOf(r.heard), TextOf(r.sent))
    && Others(r.sent) == Others(r.heard)
  }

  lemma PassTracks(h: Held, d: Delta, heard: seq<Delta>, sent: seq<Delta>, fed: string, said: string)
    requires Tracks(h, fed, said) && fed == TextOf(heard) && said == TextOf(sent)
    ensures Tracks(Pass(h, d).0, TextOf(heard + [d]), TextOf(sent + Pass(h, d).1))
  {
    OneMore(heard, d);
    PassSays(h, d, sent);
    if Shown(d).Some? {
      FeedTracks(h, Shown(d).value, fed, said);
    } else {
      assert fed + "" == fed;
    }
  }

  lemma PassKeeps(r: Round, d: Delta, valid: bool)
    requires SaysWhatItHears(r)
    ensures SaysWhatItHears(Round(Pass(r.held, d).0, r.heard + [d], r.sent + Pass(r.held, d).1, valid, false))
  {
    OneMore(r.heard, d);
    PassSays(r.held, d, r.sent);
    PassTracks(r.held, d, r.heard, r.sent, TextOf(r.heard), TextOf(r.sent));
  }

  /** A chunk either changes nothing that was said or heard, or is passed on. */
  lemma TakeShape(r: Round, c: Chunk)
    ensures var t := Take(r, c);
            || (t.held == r.held && t.heard == r.heard && t.sent == r.sent)
            || (c.Chunk? && c.delta.Some? && var d := c.delta.value;
                t == Round(Pass(r.held, d).0, r.heard + [d], r.sent + Pass(r.held, d).1, t.valid, false))
  {
  }

  lemma PassStaysActive(h: Held, d: Delta)
    ensures Pass(h, d).0.isActive == h.isActive
  {
  }

  lemma TakeKeeps(r: Round, c: Chunk)
    requires SaysWhatItHears(r)
    ensures SaysWhatItHears(Take(r, c)) && Take(r, c).held.isActive == r.held.isActive
  {
    var t := Take(r, c);
    TakeShape(r, c);
    if c.Chunk? && c.delta.Some? {
      PassKeeps(r, c.delta.value, t.valid);
      PassStaysActive(r.held, c.delta.value);
    }
  }

  lemma {:induction false} RoundTracks(active: bool, valid: bool, chunks: seq<Chunk>)
    ensures var r := Played(active, valid, chunks);
            r.held.isActive == active && SaysWhatItHears(r)
  {
    if chunks != [] {
      RoundTracks(active, valid, chunks[..|chunks| - 1]);
      TakeKeeps(Played(active, valid, chunks[..|chunks| - 1]), chunks[|chunks| - 1]);
    }
  }

  lemma FlushSays(h: Held, sent: seq<Delta>)
    ensures TextOf(sent + Flushed(h)) == TextOf(sent) + Rest(h)
    ensures Others(sent + Flushed(h)) == Others(sent)
  {
    if Rest(h) == "" {
      assert sent + Flushed(h) == sent;
      assert TextOf(sent) + "" == TextOf(sent);
    } else {
      OneMore(sent, FlushDelta(Rest(h)));
    }
  }

  /** A completed attempt passes on every other delta in order, and of the text it heard a
      tail: the whole of it unless it was resuming and the text it looked at first began
      with a fence. */
  lemma CompletedRound(active: bool, valid: bool, chunks: seq<Chunk>)
    requires !Closed(Played(active, valid, chunks)).failed
    ensures var r := Closed(Played(active, valid, chunks));
            && Others(r.sent) == Others(r.heard)
            && IsSuffix(TextOf(r.sent), TextOf(r.heard))
            && (TextOf(r.sent) == TextOf(r.heard) <==> !active || !HasFence(r.held.buffer))
            && r.held.buffer <= TextOf(r.heard)
  {
    RoundTracks(active, valid, chunks);
    var r := Played(active, valid, chunks);
    RestCompletes(r.held, TextOf(r.heard), TextOf(r.sent));
    FlushSays(r.held, r.sent);
  }

  function ToolCount(ds: seq<Delta>): nat {
    if ds == [] then 0 else ToolCount(ds[..|ds| - 1]) + (if ds[|ds| - 1].tools then 1 else 0)
  }

  /** Tool calls in a chunk whose text is present but empty. */
  predicate EmptyWithTools(d: Delta) {
    d.tools && Shown(d) == Some("")
  }

  predicate AnyEmptyWithTools(ds: seq<Delta>) {
    ds != [] && (EmptyWithTools(ds[|ds| - 1]) || AnyEmptyWithTools(ds[..|ds| - 1]))
  }

  lemma OneMoreTool(ds: seq<Delta>, d: Delta)
    ensures ToolCount(ds + [d]) == ToolCount(ds) + (if d.tools then 1 else 0)
    ensures AnyEmptyWithTools(ds + [d]) <==> AnyEmptyWithTools(ds) || EmptyWithTools(d)
  {
    assert (ds + [d])[..|ds|] == ds;
  }

  /** Without the sanitizer the chunks that go missing are those with empty text. */
  ghost predicate ToolsTracked(r: Round) {
    && !r.held.isActive && ToolCount(r.sent) <= ToolCount(r.heard)
    && (ToolCount(r.sent) == ToolCount(r.heard) <==> !AnyEmptyWithTools(r.heard))
  }

  lemma PassTools(r: Round, d: Delta, valid: bool)
    requires ToolsTracked(r)
    ensures ToolsTracked(Round(Pass(r.held, d).0, r.heard + [d], r.sent + Pass(r.held, d).1, valid, false))
  {
    var out := Pass(r.held, d).1;
    OneMoreTool(r.heard, d);
    if out == [] {
      assert r.sent + out == r.sent;
    } else {
      OneMoreTool(r.sent, out[0]);
    }
  }

  lemma {:induction false} RoundTools(valid: bool, chunks: seq<Chunk>)
    ensures ToolsTracked(Played(false, valid, chunks))
  {
    if chunks != [] {
      var r, c := Played(false, valid, chunks[..|chunks| - 1]), chunks[|chunks| - 1];
      RoundTools(valid, chunks[..|chunks| - 1]);
      TakeShape(r, c);
      if c.Chunk? && c.delta.Some? {
        PassTools(r, c.delta.value, Take(r, c).valid);
      }
    }
  }

  /** A first attempt passes on every tool call exactly when none came in a chunk whose text
      was present but empty: such a chunk is taken for text held back. */
  lemma ToolCallsKeptIff(valid: bool, chunks: seq<Chunk>)
    ensures var r := Closed(Played(false, valid, chunks));
            ToolCount(r.sent) == ToolCount(r.heard) <==> !AnyEmptyWithTools(r.heard)
  {
    var r := Played(false, valid, chunks);
    RoundTools(valid, chunks);
    FlushHasNoTools(r.sent, r.held);
  }

  lemma FlushHasNoTools(sent: seq<Delta>, h: Held)
    ensures ToolCount(sent + Flushed(h)) == ToolCount(sent)
  {
    if Rest(h) == "" {
      assert sent + Flushed(h) == sent;
    } else {
      OneMoreTool(sent, FlushDelta(Rest(h)));
    }
  }

  // ----- What the client reads -----

  /** Text that the sanitizer changed is put between quotation marks as it stands. */
  function Spliced(clean: string): string {
    "\"" + clean + "\""
  }

  /** The JSON text of what a chunk shows. */
  function Literal(d: Delta, printable: char -> bool): string {
    if Shown(d).None? then ""
    else
      match d.origin
      case Translated(literal) => literal
      case Rewritten => Spliced(Shown(d).value)
      case Quoted => GoQuote(Shown(d).value, printable)
  }

  function Literals(ds: seq<Delta>, printable: char -> bool): seq<string> {
    if ds == [] then [] else Literals(ds[..|ds| - 1], printable) + [Literal(ds[|ds| - 1], printable)]
  }

  /** What a reader after section 7 of RFC 8259 gets from the literals. */
  function ReadAll(literals: seq<string>): string {
    if literals == [] then "" else ReadAll(literals[..|literals| - 1]) + ReadText(literals[|literals| - 1])
  }

  /** The translator writes JSON: its literal reads as the text it stands for. */
  predicate Faithful(d: Delta) {
    d.origin.Translated? && Shown(d).Some? ==> ReadText(d.origin.literal) == Shown(d).value
  }

  predicate FromTranslator(c: Chunk) {
    c.Chunk? && c.delta.Some? ==> c.delta.value.origin.Translated? && Faithful(c.delta.value)
  }

  /** The text needs no escape beyond what its chunk gave it: none if it was rewritten, none
      but those of Go that are also JSON's if it was flushed. */
  predicate Unharmed(d: Delta, printable: char -> bool) {
    Shown(d).Some? ==>
      match d.origin
      case Translated(_) => true
      case Rewritten => NeedsNoEscape(Shown(d).value)
      case Quoted => AllQuoteAsJson(Shown(d).value, printable)
  }

  predicate AllUnharmed(ds: seq<Delta>, printable: char -> bool) {
    ds == [] || (AllUnharmed(ds[..|ds| - 1], printable) && Unharmed(ds[|ds| - 1], printable))
  }

  /** What a chunk may be that went out. */
  predicate Sendable(d: Delta) {
    Faithful(d) && (d.origin.Rewritten? || d.origin.Quoted? ==> Shown(d).Some? && Shown(d).value != "")
  }

  predicate AllSendable(ds: seq<Delta>) {
    ds == [] || (AllSendable(ds[..|ds| - 1]) && Sendable(ds[|ds| - 1]))
  }

  /** From one chunk the client gets no more than the text it stands for, and that text
      exactly when it came to no harm. */
  lemma LiteralReads(d: Delta, printable: char -> bool)
    requires LeavesControls(printable) && Sendable(d)
    ensures var shown, got := Shown(d).GetOr(""), ReadText(Literal(d, printable));
            && |got| <= |shown|
            && (|got| == |shown| <==> Unharmed(d, printable))
            && (Unharmed(d, printable) ==> got == shown)
  {
    if Shown(d).Some? {
      var t := Shown(d).value;
      match d.origin
      case Translated(_) =>
      case Rewritten => RawTextIsShorter(t);
      case Quoted => GoQuoteReadsBackIff(t, printable);
    }
  }

  /** The client reads all of the text exactly when every chunk came through unharmed. */
  lemma {:induction false} ClientReadsIff(ds: seq<Delta>, printable: char -> bool)
    requires LeavesControls(printable) && AllSendable(ds)
    ensures var got, text := ReadAll(Literals(ds, printable)), TextOf(ds);
            && |got| <= |text|
            && (|got| == |text| <==> AllUnharmed(ds, printable))
            && (AllUnharmed(ds, printable) ==> got == text)
  {
    if ds != [] {
      var front, last := ds[..|ds| - 1], ds[|ds| - 1];
      ClientReadsIff(front, printable);
      LiteralReads(last, printable);
      ReadAllOneMore(Literals(front, printable), Literal(last, printable));
    }
  }

  lemma ReadAllOneMore(literals: seq<string>, l: string)
    ensures ReadAll(literals + [l]) == ReadAll(literals) + ReadText(l)
  {
    assert (literals + [l])[..|literals|] == literals;
  }

  lemma {:induction false} SendableAppend(a: seq<Delta>, b: seq<Delta>)
    ensures AllSendable(a + b) <==> AllSendable(a) && AllSendable(b)
  {
    if b == [] {
      assert a + b == a;
    } else {
      SendableAppend(a, b[..|b| - 1]);
      assert (a + b)[..|a + b| - 1] == a + b[..|b| - 1];
    }
  }

  lemma PassSendable(h: Held, d: Delta)
    requires d.origin.Translated? && Faithful(d)
    ensures AllSendable(Pass(h, d).1)
  {
    var out := Pass(h, d).1;
    if out != [] {
      assert Sendable(out[0]);
      OneSendable(out[0]);
      assert out == [out[0]];
    }
  }

  lemma OneSendable(d: Delta)
    requires Sendable(d)
    ensures AllSendable([d])
  {
    assert AllSendable([d][..0]);
  }

  lemma {:induction false} RoundSendable(active: bool, valid: bool, chunks: seq<Chunk>)
    requires forall i :: 0 <= i < |chunks| ==> FromTranslator(chunks[i])
    ensures AllSendable(Played(active, valid, chunks).sent)
  {
    if chunks != [] {
      var r, c := Played(active, valid, chunks[..|chunks| - 1]), chunks[|chunks| - 1];
      RoundSendable(active, valid, chunks[..|chunks| - 1]);
      TakeShape(r, c);
      if c.Chunk? && c.delta.Some? {
        PassSendable(r.held, c.delta.value);
        SendableAppend(r.sent, Pass(r.held, c.delta.value).1);
      }
    }
  }

  lemma ClosedSendable(r: Round)
    requires AllSendable(r.sent)
    ensures AllSendable(Closed(r).sent)
  {
    var f := Flushed(r.held);
    if f != [] {
      OneSendable(f[0]);
      assert f == [f[0]];
    }
    SendableAppend(r.sent, f);
  }

  // ----- All attempts -----

  const MAX_ATTEMPTS: nat := 5

  /** The other side: the stream that answers the i-th call, and whether a further key and
      its client are there after the i-th call failed. */
  datatype Upstream = Upstream(stream: (nat, seq<Turn>) -> seq<Chunk>, renew: nat -> bool)

  datatype Session = Session(sent: seq<Delta>, calls: seq<seq<Turn>>, valid: bool, over: bool, completed: bool)

  /** The attempt that follows. */
  function RoundOf(s: Session, contents: seq<Turn>, u: Upstream): Round {
    var emitted := TextOf(s.sent);
    Closed(Played(emitted != "", s.valid, u.stream(|s.calls|, Prompt(contents, emitted))))
  }

  function Attempt(s: Session, contents: seq<Turn>, u: Upstream): Session {
    if s.over then s
    else
      var r := RoundOf(s, contents, u);
      Session(s.sent + r.sent, s.calls + [Prompt(contents, TextOf(s.sent))], r.valid,
              !r.failed || !u.renew(|s.calls|), !r.failed)
  }

  function Attempts(contents: seq<Turn>, u: Upstream, n: nat): Session {
    if n == 0 then Session([], [], false, false, false)
    else Attempt(Attempts(contents, u, n - 1), contents, u)
  }

  ghost predicate WritesJson(u: Upstream) {
    forall n, prompt, i :: 0 <= i < |u.stream(n, prompt)| ==> FromTranslator(u.stream(n, prompt)[i])
  }

  lemma AttemptSendable(s: Session, contents: seq<Turn>, u: Upstream)
    requires WritesJson(u) && AllSendable(s.sent)
    ensures AllSendable(Attempt(s, contents, u).sent)
  {
    var emitted := TextOf(s.sent);
    var chunks := u.stream(|s.calls|, Prompt(contents, emitted));
    RoundSendable(emitted != "", s.valid, chunks);
    ClosedSendable(Played(emitted != "", s.valid, chunks));
    SendableAppend(s.sent, RoundOf(s, contents, u).sent);
  }

  lemma {:induction false} AttemptsSendable(contents: seq<Turn>, u: Upstream, n: nat)
    requires WritesJson(u)
    ensures AllSendable(Attempts(contents, u, n).sent)
  {
    if n > 0 {
      AttemptsSendable(contents, u, n - 1);
      AttemptSendable(Attempts(contents, u, n - 1), contents, u);
    }
  }

  /** In every session, after every attempt: the text the client reads from the chunks is
      the text the gateway accounts for, resumes from and reports exactly when no chunk came
      to harm, that is when no text the sanitizer changed needs an escape and no text it
      flushed one that only Go knows. */
  lemma ClientTextIff(contents: seq<Turn>, u: Upstream, n: nat, printable: char -> bool)
    requires WritesJson(u) && LeavesControls(printable)
    ensures var sent := Attempts(contents, u, n).sent;
            ReadAll(Literals(sent, printable)) == TextOf(sent) <==> AllUnharmed(sent, printable)
  {
    AttemptsSendable(contents, u, n);
    ClientReadsIff(Attempts(contents, u, n).sent, printable);
  }

  predicate AnySubstantial(ds: seq<Delta>) {
    ds != [] && (Substantial(ds[|ds| - 1]) || AnySubstantial(ds[..|ds| - 1]))
  }

  lemma {:induction false} AnySubstantialAppend(a: seq<Delta>, b: seq<Delta>)
    ensures AnySubstantial(a + b) <==> AnySubstantial(a) || AnySubstantial(b)
  {
    if b == [] {
      assert a + b == a;
    } else {
      AnySubstantialAppend(a, b[..|b| - 1]);
      assert (a + b)[..|a + b| - 1] == a + b[..|b| - 1];
    }
  }

  lemma {:induction false} TextIsSubstantial(ds: seq<Delta>)
    ensures TextOf(ds) != "" ==> AnySubstantial(ds)
  {
    if ds != [] {
      TextIsSubstantial(ds[..|ds| - 1]);
    }
  }

  lemma PassValid(h: Held, d: Delta, sent: seq<Delta>)
    ensures var out := Pass(h, d).1;
            AnySubstantial(sent + out) <==> AnySubstantial(sent) || (out != [] && Substantial(out[0]))
  {
    var out := Pass(h, d).1;
    AnySubstantialAppend(sent, out);
    assert out != [] ==> out == [out[0]];
  }

  lemma TakeValid(r: Round, c: Chunk, valid: bool)
    requires r.valid <==> valid || AnySubstantial(r.sent)
    ensures Take(r, c).valid <==> valid || AnySubstantial(Take(r, c).sent)
  {
    if c.Chunk? && c.delta.Some? {
      PassValid(r.held, c.delta.value, r.sent);
    }
  }

  lemma {:induction false} RoundValid(active: bool, valid: bool, chunks: seq<Chunk>)
    ensures var r := Played(active, valid, chunks);
            r.valid <==> valid || AnySubstantial(r.sent)
  {
    if chunks != [] {
      RoundValid(active, valid, chunks[..|chunks| - 1]);
      TakeValid(Played(active, valid, chunks[..|chunks| - 1]), chunks[|chunks| - 1], valid);
    }
  }

  lemma ClosedValid(active: bool, valid: bool, chunks: seq<Chunk>)
    ensures var r := Closed(Played(active, valid, chunks));
            && (r.valid <==> valid || AnySubstantial(r.sent))
            && (!r.failed && !active ==> r.valid)
  {
    RoundValid(active, valid, chunks);
    RoundTracks(active, valid, chunks);
    var r := Played(active, valid, chunks);
    AnySubstantialAppend(r.sent, Flushed(r.held));
  }

  ghost predicate SessionOk(s: Session) {
    (s.valid <==> AnySubstantial(s.sent)) && (s.completed ==> s.over && s.valid)
  }

  lemma AttemptKeeps(s: Session, contents: seq<Turn>, u: Upstream)
    requires SessionOk(s)
    ensures SessionOk(Attempt(s, contents, u))
  {
    var emitted := TextOf(s.sent);
    if !s.over {
      ClosedValid(emitted != "", s.valid, u.stream(|s.calls|, Prompt(contents, emitted)));
      AnySubstantialAppend(s.sent, RoundOf(s, contents, u).sent);
      TextIsSubstantial(s.sent);
    }
  }

  /** At every attempt: the flag for valid data says whether any text or tool call was
      sent, no more calls were made than attempts, and a session that counts as completed
      has sent such data. */
  lemma {:induction false} AttemptsKeep(contents: seq<Turn>, u: Upstream, n: nat)
    ensures var s := Attempts(contents, u, n);
            && (s.valid <==> AnySubstantial(s.sent))
            && |s.calls| <= n && (!s.over ==> |s.calls| == n)
            && (s.completed ==> s.over && s.valid)
  {
    if n > 0 {
      AttemptsKeep(contents, u, n - 1);
      AttemptKeeps(Attempts(contents, u, n - 1), contents, u);
    }
  }

  lemma AttemptGrows(s: Session, contents: seq<Turn>, u: Upstream)
    ensures var t := Attempt(s, contents, u);
            && s.calls <= t.calls && s.sent <= t.sent
            && (!s.over ==> t.calls == s.calls + [Prompt(contents, TextOf(s.sent))]
                            && TextOf(t.sent) == TextOf(s.sent) + TextOf(RoundOf(s, contents, u).sent))
  {
    TextOfAppend(s.sent, RoundOf(s, contents, u).sent);
  }

  lemma {:induction false} LaterKeeps(contents: seq<Turn>, u: Upstream, m: nat, n: nat)
    requires m <= n
    ensures Attempts(contents, u, m).sent <= Attempts(contents, u, n).sent
    ensures Attempts(contents, u, m).calls <= Attempts(contents, u, n).calls
    decreases n
  {
    if m < n {
      LaterKeeps(contents, u, m, n - 1);
      AttemptGrows(Attempts(contents, u, n - 1), contents, u);
    }
  }

  /** The i-th call is made by the i-th attempt. */
  lemma CallsStart(contents: seq<Turn>, u: Upstream, n: nat, i: nat)
    requires i < |Attempts(contents, u, n).calls|
    ensures i < n && !Attempts(contents, u, i).over && |Attempts(contents, u, i).calls| == i
  {
    AttemptsKeep(contents, u, n);
    AttemptsKeep(contents, u, i);
    OverForGood(contents, u, i, n);
  }

  /** The i-th call asks for what the client had got by then, and what it got later only
      grows by what the attempt says. */
  lemma CallsResumeFromSent(contents: seq<Turn>, u: Upstream, n: nat, i: nat)
    requires i < |Attempts(contents, u, n).calls|
    ensures i < n
    ensures var before := Attempts(contents, u, i);
            && !before.over
            && Attempts(contents, u, n).calls[i] == Prompt(contents, TextOf(before.sent))
            && TextOf(Attempts(contents, u, i + 1).sent) == TextOf(before.sent) + TextOf(RoundOf(before, contents, u).sent)
            && before.sent <= Attempts(contents, u, n).sent
  {
    CallsStart(contents, u, n, i);
    AttemptGrows(Attempts(contents, u, i), contents, u);
    LaterKeeps(contents, u, i, i + 1);
    LaterKeeps(contents, u, i + 1, n);
  }

  /** The attempt that completes the session continues the text that was cut off: with a
      tail of what the resumed model said, the whole of it if it did not open with a fence. */
  lemma CompletionContinues(contents: seq<Turn>, u: Upstream, n: nat)
    requires !Attempts(contents, u, n).over && Attempts(contents, u, n + 1).completed
    ensures var s := Attempts(contents, u, n);
            var r := RoundOf(s, contents, u);
            && TextOf(Attempts(contents, u, n + 1).sent) == TextOf(s.sent) + TextOf(r.sent)
            && IsSuffix(TextOf(r.sent), TextOf(r.heard))
            && (TextOf(r.sent) == TextOf(r.heard) <==> TextOf(s.sent) == "" || !HasFence(r.held.buffer))
            && r.held.buffer <= TextOf(r.heard)
            && Others(r.sent) == Others(r.heard)
  {
    var s := Attempts(contents, u, n);
    var emitted := TextOf(s.sent);
    CompletedRound(emitted != "", s.valid, u.stream(|s.calls|, Prompt(contents, emitted)));
    TextOfAppend(s.sent, RoundOf(s, contents, u).sent);
  }

  // ----- The handler -----

  /** The counters of a response being streamed; `written` is what went to the client and
      `wire` how its text is written there. */
  class Response {
    const printable: char -> bool
    var headersWritten: bool
    var written: seq<Delta>
    var wire: seq<string>
    var emittedText: string
    var telemetry: string
    var tokenEstimate: nat
    var hasEmittedValidData: bool

    ghost predicate Valid()
      reads this
    {
      && emittedText == telemetry == TextOf(written) && wire == Literals(written, printable)
      && tokenEstimate == TextCount(written)
      && (headersWritten <==> written != [])
    }

    constructor (printable: char -> bool)
      ensures Valid() && written == [] && !hasEmittedValidData && this.printable == printable
    {
      this.printable := printable;
      headersWritten, hasEmittedValidData := false, false;
      wire := [];
      written, emittedText, telemetry, tokenEstimate := [], "", "", 0;
    }

    method Write(d: Delta)
      modifies this`headersWritten, this`written, this`wire
      ensures headersWritten && written == old(written) + [d] && wire == old(wire) + [Literal(d, printable)]
    {
      headersWritten := true;
      var literal := "";
      if Shown(d).Some? {
        match d.origin {
          case Translated(l) => literal := l;
          case Rewritten => literal := "\"" + Shown(d).value + "\"";
          case Quoted => literal := GoQuote(Shown(d).value, printable);
        }
      }
      written, wire := written + [d], wire + [literal];
    }

    method Emit(d: Delta)
      requires Valid()
      requires Shown(d).Some? && Shown(d).value != ""
      modifies this
      ensures Valid() && written == old(written) + [d] && hasEmittedValidData
    {
      OneMore(written, d);
      OneMoreLiteral(written, d, printable);
      telemetry := telemetry + Shown(d).value;
      emittedText := emittedText + Shown(d).value;
      tokenEstimate := tokenEstimate + 1;
      hasEmittedValidData := true;
      Write(d);
    }

    /** A chunk with text goes through the sanitizer. */
    method RelayText(sanitizer: StreamSanitizer, d: Delta)
      requires Valid() && Shown(d).Some?
      modifies this, sanitizer
      ensures Valid()
      ensures var (after, clean) := Feed(old(sanitizer.State()), Shown(d).value);
              && sanitizer.State() == after
              && written == old(written) + (if clean == "" then [] else [WithShown(d, clean)])
              && hasEmittedValidData == (old(hasEmittedValidData) || clean != "")
    {
      var cleanText := sanitizer.Sanitize(Shown(d).value);
      if cleanText == "" {
        assert written + [] == written;
        return;
      }
      Emit(WithShown(d, cleanText));
    }

    /** Any other is written as it is. */
    method RelayBare(d: Delta)
      requires Valid() && Shown(d).None?
      modifies this
      ensures Valid() && written == old(written) + [d]
      ensures hasEmittedValidData == (old(hasEmittedValidData) || d.tools)
    {
      if d.tools {
        hasEmittedValidData := true;
      }
      OneMore(written, d);
      OneMoreLiteral(written, d, printable);
      Write(d);
    }

    /** One translated chunk. */
    method Relay(sanitizer: StreamSanitizer, d: Delta)
      requires Valid()
      modifies this, sanitizer
      ensures Valid()
      ensures (sanitizer.State(), written) == (Pass(old(sanitizer.State()), d).0, old(written) + Pass(old(sanitizer.State()), d).1)
      ensures hasEmittedValidData == (old(hasEmittedValidData) ||
              var out := Pass(old(sanitizer.State()), d).1; out != [] && Substantial(out[0]))
    {
      if d.content.Some? || d.reasoning.Some? {
        RelayText(sanitizer, d);
      } else {
        RelayBare(d);
      }
    }

    /** One item of a stream, if no error came before. */
    method Hear(sanitizer: StreamSanitizer, chunk: Chunk, ghost r: Round, ghost before: seq<Delta>) returns (failed: bool)
      requires Valid() && sanitizer.State() == r.held && hasEmittedValidData == r.valid && !r.failed
      requires written == before + r.sent
      modifies this, sanitizer
      ensures Valid() && sanitizer.State() == Take(r, chunk).held && hasEmittedValidData == Take(r, chunk).valid
      ensures written == before + Take(r, chunk).sent && failed == Take(r, chunk).failed
    {
      if chunk.Broken? {
        return true;
      }
      if Blocked(chunk.reason) && !hasEmittedValidData {
        return true;
      }
      if chunk.delta.Some? {
        if Filtered(chunk.delta.value) && !hasEmittedValidData {
          return true;
        }
        Relay(sanitizer, chunk.delta.value);
        AppendAssociative(before, r.sent, Pass(r.held, chunk.delta.value).1);
      }
      return false;
    }

    /** One stream, up to its end or the first error. */
    method Play(sanitizer: StreamSanitizer, chunks: seq<Chunk>) returns (failed: bool)
      requires Valid() && !sanitizer.checkedLeading && sanitizer.buffer == ""
      modifies this, sanitizer
      ensures Valid()
      ensures var r := Played(sanitizer.isActive, old(hasEmittedValidData), chunks);
              && sanitizer.State() == r.held
              && written == old(written) + r.sent
              && hasEmittedValidData == r.valid
              && failed == r.failed
    {
      failed := false;
      ghost var r := Opened(sanitizer.isActive, hasEmittedValidData);
      assert chunks[..0] == [] && written == written + [];
      var i := 0;
      while i < |chunks| && !failed
        invariant i <= |chunks| && Valid()
        invariant r == Played(sanitizer.isActive, old(hasEmittedValidData), chunks[..i])
        invariant sanitizer.State() == r.held && hasEmittedValidData == r.valid && failed == r.failed
        invariant written == old(written) + r.sent
      {
        assert chunks[..i + 1][..i] == chunks[..i];
        failed := Hear(sanitizer, chunks[i], r, old(written));
        r := Take(r, chunks[i]);
        i := i + 1;
      }
      StopsForGood(sanitizer.isActive, old(hasEmittedValidData), chunks, i);
      assert i == |chunks| ==> chunks[..i] == chunks;
    }

    /** The end of a stream: an empty answer is a failure, and what was held back goes out. */
    method Close(sanitizer: StreamSanitizer, failed: bool, ghost r: Round) returns (over: bool)
      requires Valid() && sanitizer.State() == r.held && failed == r.failed && hasEmittedValidData == r.valid
      modifies this, sanitizer
      ensures Valid() && over == !Closed(r).failed && hasEmittedValidData == Closed(r).valid
      ensures written == old(written) + (if over then Flushed(r.held) else [])
    {
      if failed || (!hasEmittedValidData && sanitizer.buffer == "") {
        return false;
      }
      var flushed := sanitizer.Flush();
      if flushed != "" {
        Emit(FlushDelta(flushed));
      }
      return true;
    }

    /** One attempt of the session: the prompt, the stream, its end. */
    method RunAttempt(contents: seq<Turn>, u: Upstream, n: nat, ghost s: Session) returns (over: bool, runContents: seq<Turn>, ghost t: Session)
      requires Valid() && written == s.sent && hasEmittedValidData == s.valid && n == |s.calls| && !s.over
      modifies this
      ensures Valid()
      ensures t == Attempt(s, contents, u)
      ensures written == t.sent && hasEmittedValidData == t.valid && over == t.over
      ensures s.calls + [runContents] == t.calls
    {
      runContents := Prompt(contents, emittedText);
      var sanitizer := new StreamSanitizer(emittedText != "");
      var chunks := u.stream(n, runContents);
      ghost var r := Played(emittedText != "", s.valid, chunks);
      assert RoundOf(s, contents, u) == Closed(r);
      var failed := Play(sanitizer, chunks);
      over := Close(sanitizer, failed, r);
      ClosedSent(s.sent, r);
      if !over {
        over := !u.renew(n);
      }
      t := Attempt(s, contents, u);
    }

    /** The attempts, one after the other, until one completes or no key is left. */
    method RunAttempts(contents: seq<Turn>, u: Upstream) returns (calls: seq<seq<Turn>>)
      requires Valid() && written == [] && !hasEmittedValidData
      modifies this
      ensures Valid()
      ensures written == Attempts(contents, u, MAX_ATTEMPTS).sent && calls == Attempts(contents, u, MAX_ATTEMPTS).calls
    {
      calls := [];
      var attempt, over := 0, false;
      ghost var s := Attempts(contents, u, 0);
      while attempt < MAX_ATTEMPTS && !over
        invariant attempt <= MAX_ATTEMPTS && Valid()
        invariant s == Attempts(contents, u, attempt)
        invariant written == s.sent && hasEmittedValidData == s.valid
        invariant calls == s.calls && over == s.over
      {
        attempt := attempt + 1;
        var runContents;
        over, runContents, s := RunAttempt(contents, u, |calls|, s);
        calls := calls + [runContents];
      }
      OverForGood(contents, u, attempt, MAX_ATTEMPTS);
    }
  }

  lemma OneMoreLiteral(ds: seq<Delta>, d: Delta, printable: char -> bool)
    ensures Literals(ds + [d], printable) == Literals(ds, printable) + [Literal(d, printable)]
  {
    assert (ds + [d])[..|ds|] == ds;
  }

  lemma ClosedSent(before: seq<Delta>, r: Round)
    ensures before + Closed(r).sent == before + r.sent + (if Closed(r).failed then [] else Flushed(r.held))
  {
    AppendAssociative(before, r.sent, Flushed(r.held));
  }

  /** Nothing after the first error is read. */
  lemma {:induction false} StopsForGood(active: bool, valid: bool, chunks: seq<Chunk>, i: nat)
    requires i <= |chunks|
    ensures Played(active, valid, chunks[..i]).failed ==>
              Played(active, valid, chunks) == Played(active, valid, chunks[..i])
    decreases |chunks|
  {
    if i < |chunks| {
      StopsForGood(active, valid, chunks[..|chunks| - 1], i);
      assert chunks[..|chunks| - 1][..i] == chunks[..i];
    } else {
      assert chunks[..i] == chunks;
    }
  }

  /** `geminiSDKStream`: the status, what was sent and how, asked and reported. The text
      reported is what the client reads exactly when no chunk came to harm. */
  method Stream(contents: seq<Turn>, u: Upstream, printable: char -> bool)
    returns (status: int, written: seq<Delta>, wire: seq<string>, calls: seq<seq<Turn>>, text: string, tokens: nat)
    ensures var s := Attempts(contents, u, MAX_ATTEMPTS);
            && written == s.sent && calls == s.calls
            && status == (if s.sent == [] then 502 else 200)
    ensures text == TextOf(written) && tokens == TextCount(written) && wire == Literals(written, printable)
    ensures WritesJson(u) && LeavesControls(printable) ==>
              (ReadAll(wire) == text <==> AllUnharmed(written, printable))
  {
    var out := new Response(printable);
    calls := out.RunAttempts(contents, u);
    written, wire, text, tokens := out.written, out.wire, out.telemetry, out.tokenEstimate;
    if WritesJson(u) && LeavesControls(printable) {
      ClientTextIff(contents, u, MAX_ATTEMPTS, printable);
    }
    status := if !out.headersWritten then 502 else 200;
  }

  lemma {:induction false} OverForGood(contents: seq<Turn>, u: Upstream, m: nat, n: nat)
    requires m <= n
    ensures Attempts(contents, u, m).over ==> Attempts(contents, u, n) == Attempts(contents, u, m)
    decreases n
  {
    if m < n {
      OverForGood(contents, u, m, n - 1);
    }
  }

  // ----- The rewritten chunk -----

  /** Text is changed when the sanitizer held something back or dropped a fence. The client
      then reads the text the gateway accounts for exactly when that holds no quotation mark,
      backslash or control character. */
  lemma SplicedTextReadsBack(h: Held, text: string)
    requires Feed(h, text).1 != text
    ensures var clean := Feed(h, text).1;
            ReadString(Spliced(clean)) == Some((clean, "")) <==> NeedsNoEscape(clean)
  {
    RawTextReadsBack(Feed(h, text).1);
  }

  lemma ShortLine(held: string, text: string)
    requires '\n' in text && |held + text| < 3
    ensures Feed(Held(true, false, held), text) == (Held(true, true, held + text), held + text)
  {
    assert '\n' in held + text;
    if HasFence(held + text) {
      FenceIsLong(held + text);
    }
  }

  lemma LineIsNoString(t: string)
    requires '\n' in t
    ensures ReadString(Spliced(t)) != Some((t, ""))
  {
    RawTextReadsBack(t);
  }

  /** A letter that was held back and the line end that follows it: what the gateway writes
      to the client is no JSON string of the text it accounts for. */
  lemma SplicedLineBreaks(c: char)
    ensures var clean := Feed(Held(true, false, [c]), ['\n']).1;
            clean == [c, '\n'] && ReadString(Spliced(clean)) != Some((clean, ""))
  {
    ShortLine([c], ['\n']);
    LineIsNoString([c, '\n']);
  }

  // ----- A session in which it happens -----

  function TextDelta(t: string): Delta {
    Delta(Some(t), None, false, "", "", "", Translated(JsonQuote(t)))
  }

  lemma TextDeltaIsFaithful(t: string)
    ensures FromTranslator(Chunk("", Some(TextDelta(t))))
  {
    JsonRoundTrip(t, "");
    assert JsonQuote(t) + "" == JsonQuote(t);
  }

  /** A stream that breaks off after one letter, and one that goes on with a letter and a
      line end in two chunks. */
  function BreakingStream(n: nat): seq<Chunk> {
    if n == 0 then [Chunk("", Some(TextDelta("x"))), Broken]
    else [Chunk("", Some(TextDelta("a"))), Chunk("", Some(TextDelta(['\n'])))]
  }

  function BreakingUpstream(): Upstream {
    Upstream((n: nat, prompt: seq<Turn>) => BreakingStream(n), (n: nat) => true)
  }

  lemma BreakingWritesJson()
    ensures WritesJson(BreakingUpstream())
  {
    TextDeltaIsFaithful("x");
    TextDeltaIsFaithful("a");
    TextDeltaIsFaithful(['\n']);
  }

  lemma FirstBreaks()
    ensures var r := Closed(Played(false, false, BreakingStream(0)));
            r.sent == [TextDelta("x")] && r.valid && r.failed
  {
    var chunks := BreakingStream(0);
    assert chunks[..1] == [chunks[0]] && chunks[..1][..0] == [];
    assert Played(false, false, []) == Opened(false, false);
    assert Played(false, false, [chunks[0]]) == Take(Opened(false, false), chunks[0]);
    assert Take(Opened(false, false), chunks[0]).sent == [] + [TextDelta("x")];
    assert Played(false, false, chunks) == Take(Take(Opened(false, false), chunks[0]), Broken);
  }

  const LINE := Delta(Some(['a', '\n']), None, false, "", "", "", Rewritten)

  lemma LetterIsHeld()
    ensures Feed(Held(true, false, ""), "a") == (Held(true, false, "a"), "")
  {
    assert "" + "a" == "a" && "a"[..0] == "" && |"a"| == 1;
    assert Utf8Length("a") == 1;
  }

  lemma LineIsReleased()
    ensures Feed(Held(true, false, ['a']), ['\n']) == (Held(true, true, ['a', '\n']), ['a', '\n'])
  {
    assert ['a'] + ['\n'] == ['a', '\n'];
    ShortLine(['a'], ['\n']);
  }

  lemma LetterTaken()
    ensures Take(Opened(true, true), Chunk("", Some(TextDelta("a")))) ==
            Round(Held(true, false, "a"), [TextDelta("a")], [], true, false)
  {
    LetterIsHeld();
    assert [] + [TextDelta("a")] == [TextDelta("a")];
  }

  lemma LinePassed()
    ensures Pass(Held(true, false, ['a']), TextDelta(['\n'])) == (Held(true, true, ['a', '\n']), [LINE])
  {
    LineIsReleased();
  }

  lemma LineTaken(heard: seq<Delta>)
    ensures var r := Take(Round(Held(true, false, ['a']), heard, [], true, false), Chunk("", Some(TextDelta(['\n']))));
            r.held == Held(true, true, ['a', '\n']) && r.sent == [LINE] && r.valid && !r.failed
  {
    LinePassed();
    TakeShape(Round(Held(true, false, ['a']), heard, [], true, false), Chunk("", Some(TextDelta(['\n']))));
    assert [] + [LINE] == [LINE];
  }

  lemma SecondRewrites()
    ensures var r := Closed(Played(true, true, BreakingStream(1)));
            r.sent == [LINE] && r.valid && !r.failed
  {
    var chunks := BreakingStream(1);
    assert chunks[..1] == [chunks[0]] && chunks[..1][..0] == [];
    assert Played(true, true, []) == Opened(true, true);
    LetterTaken();
    assert "a" == ['a'];
    LineTaken([TextDelta("a")]);
    assert [LINE] + [] == [LINE];
  }

  /** The session completes and reports three characters, of which the client has read one. */
  lemma ClientMissesText(contents: seq<Turn>, printable: char -> bool)
    ensures WritesJson(BreakingUpstream())
    ensures var s := Attempts(contents, BreakingUpstream(), 2);
            && s.completed && s.sent == [TextDelta("x"), LINE]
            && !AllUnharmed(s.sent, printable)
            && (LeavesControls(printable) ==> ReadAll(Literals(s.sent, printable)) != TextOf(s.sent))
  {
    BreakingWritesJson();
    BreakingSession(contents);
    assert LINE.content.value[1] == '\n';
    assert !Unharmed(LINE, printable);
    if LeavesControls(printable) {
      ClientTextIff(contents, BreakingUpstream(), 2, printable);
    }
  }

  lemma BreakingSession(contents: seq<Turn>)
    ensures var s := Attempts(contents, BreakingUpstream(), 2);
            s.completed && s.sent == [TextDelta("x"), LINE]
  {
    var u := BreakingUpstream();
    FirstBreaks();
    SecondRewrites();
    assert Attempts(contents, u, 0) == Session([], [], false, false, false);
    var s := Attempts(contents, u, 1);
    assert s.sent == [] + [TextDelta("x")] && s.valid && !s.over && |s.calls| == 1;
    assert [TextDelta("x")][..0] == [];
    assert TextOf([TextDelta("x")]) == "" + "x";
    assert Attempts(contents, u, 2).sent == [TextDelta("x")] + [LINE];
  }
}
