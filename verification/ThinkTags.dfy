/** Extraction of <think> blocks from a completed answer
    (internal/proxy/handler.go, normalizeNonStreamingReasoning). */
module ThinkTags {
  import opened Text

  const OPEN := "<think>"
  const CLOSE := "</think>"

  /** The shape of an answer: visible text, then blocks of reasoning, the last of which
      may be cut off before its closing tag. */
  datatype Answer =
    | Plain(text: string)
    | CutOff(text: string, reasoning: string)
    | Block(text: string, reasoning: string, rest: Answer)

  function Print(a: Answer): string {
    match a
    case Plain(text) => text
    case CutOff(text, reasoning) => text + OPEN + reasoning
    case Block(text, reasoning, rest) => text + OPEN + reasoning + CLOSE + Print(rest)
  }

  /** Visible text holds no opening tag and reasoning no closing tag. */
  ghost predicate WellFormed(a: Answer) {
    && !Contains(a.text, OPEN)
    && (!a.Plain? ==> !Contains(a.reasoning, CLOSE))
    && (a.Block? ==> WellFormed(a.rest))
  }

  /** The answer a string spells. */
  function Parse(s: string): (a: Answer)
    decreases |s|
  {
    var start := Index(s, OPEN);
    if start == -1 then Plain(s)
    else
      var afterTag := s[start + |OPEN|..];
      var end := Index(afterTag, CLOSE);
      if end == -1 then CutOff(s[..start], afterTag)
      else Block(s[..start], afterTag[..end], Parse(afterTag[end + |CLOSE|..]))
  }

  /** What the client is shown, before trimming. */
  function VisibleText(a: Answer): string {
    if a.Block? then a.text + VisibleText(a.rest) else a.text
  }

  function NonBlank(reasoning: string): seq<string> {
    if TrimSpace(reasoning) == "" then [] else [TrimSpace(reasoning)]
  }

  function ReasoningParts(a: Answer): seq<string> {
    match a
    case Plain(_) => []
    case CutOff(_, reasoning) => NonBlank(reasoning)
    case Block(_, reasoning, rest) => NonBlank(reasoning) + ReasoningParts(rest)
  }

  /** Every string is the print of a well-formed answer, the one it parses to. */
  lemma {:induction false} PrintOfParse(s: string)
    ensures Print(Parse(s)) == s
    ensures WellFormed(Parse(s))
    decreases |s|
  {
    var start := Index(s, OPEN);
    if start != -1 {
      CutAtIndex(s, OPEN);
      var afterTag := s[start + |OPEN|..];
      var end := Index(afterTag, CLOSE);
      if end != -1 {
        CutAtIndex(afterTag, CLOSE);
        var tail := afterTag[end + |CLOSE|..];
        PrintOfParse(tail);
        PrintBlock(s[..start], afterTag[..end], Parse(tail));
      }
    }
  }

  lemma PrintBlock(text: string, reasoning: string, rest: Answer)
    ensures Print(Block(text, reasoning, rest)) == text + OPEN + (reasoning + CLOSE + Print(rest))
  {
    assert text + OPEN + reasoning + CLOSE + Print(rest) == text + OPEN + (reasoning + CLOSE + Print(rest));
  }

  lemma ParseBlock(text: string, reasoning: string, tail: string)
    requires !Contains(text, OPEN) && !Contains(reasoning, CLOSE)
    ensures Parse(text + OPEN + reasoning + CLOSE + tail) == Block(text, reasoning, Parse(tail))
  {
    var afterTag := reasoning + CLOSE + tail;
    assert text + OPEN + reasoning + CLOSE + tail == text + OPEN + afterTag;
    IndexOfAppended(text, OPEN, afterTag);
    IndexOfAppended(reasoning, CLOSE, tail);
  }

  /** Parsing inverts printing. */
  lemma {:induction false} ParseOfPrint(a: Answer)
    requires WellFormed(a)
    ensures Parse(Print(a)) == a
  {
    match a
    case Plain(text) =>
    case CutOff(text, reasoning) =>
      var s := text + OPEN + reasoning;
      IndexOfAppended(text, OPEN, reasoning);
      assert s[|text| + |OPEN|..] == reasoning && s[..|text|] == text;
    case Block(text, reasoning, rest) =>
      ParseOfPrint(rest);
      ParseBlock(text, reasoning, Print(rest));
  }

  /** One block moves to the front of what is already collected. */
  lemma CollectBlock(visible: string, parts: seq<string>, text: string, reasoning: string, rest: Answer)
    ensures visible + VisibleText(Block(text, reasoning, rest)) == (visible + text) + VisibleText(rest)
    ensures parts + ReasoningParts(Block(text, reasoning, rest)) == (parts + NonBlank(reasoning)) + ReasoningParts(rest)
  {
    AppendAssociative(visible, text, VisibleText(rest));
    AppendAssociative(parts, NonBlank(reasoning), ReasoningParts(rest));
  }

  method AppendNonBlank(parts: seq<string>, reasoning: string) returns (r: seq<string>)
    ensures r == parts + NonBlank(reasoning)
  {
    r := parts;
    if TrimSpace(reasoning) != "" {
      r := r + [TrimSpace(reasoning)];
    }
  }

  /** The first tag and what it encloses: one pass of the loop. */
  method NextBlock(remaining: string) returns (text: string, reasoning: Option<string>, rest: Option<string>)
    ensures var a := Parse(remaining);
            && text == a.text
            && reasoning == (if a.Plain? then None else Some(a.reasoning))
            && (rest.Some? <==> a.Block?)
            && (rest.Some? ==> Parse(rest.value) == a.rest && |rest.value| < |remaining|)
  {
    var start := Index(remaining, OPEN);
    if start == -1 {
      return remaining, None, None;
    }
    var afterTag := remaining[start + |OPEN|..];
    var end := Index(afterTag, CLOSE);
    if end == -1 {
      return remaining[..start], Some(afterTag), None;
    }
    return remaining[..start], Some(afterTag[..end]), Some(afterTag[end + |CLOSE|..]);
  }

  /** The loop of the source. It ends on every string. */
  method ExtractThinking(content: string) returns (visible: string, parts: seq<string>)
    ensures visible == VisibleText(Parse(content))
    ensures parts == ReasoningParts(Parse(content))
  {
    visible, parts := "", [];
    var remaining := content;
    ghost var a := Parse(content);
    ghost var allText, allParts := VisibleText(a), ReasoningParts(a);
    while true
      invariant a == Parse(remaining)
      invariant allText == visible + VisibleText(a)
      invariant allParts == parts + ReasoningParts(a)
      decreases |remaining|
    {
      var text, reasoning, rest := NextBlock(remaining);
      if rest.Some? {
        CollectBlock(visible, parts, a.text, a.reasoning, a.rest);
      }
      visible := visible + text;
      if reasoning.Some? {
        parts := AppendNonBlank(parts, reasoning.value);
      }
      if rest.None? {
        break;
      }
      remaining, a := rest.value, a.rest;
    }
  }

  /** The two fields of a message which the function may patch. */
  datatype Message = Message(content: Option<string>, reasoning: Option<string>)

  method NormalizeReasoning(m: Message) returns (r: Message)
    ensures m.content in {None, Some("")} ==> r == m
    ensures m.reasoning.Some? && m.reasoning.value != "" ==> r == m
    ensures m.content.Some? && m.reasoning in {None, Some("")} ==>
              var a := Parse(m.content.value);
              r == if ReasoningParts(a) == [] then m
                   else Message(Some(TrimSpace(VisibleText(a))), Some(Join(ReasoningParts(a), "\n")))
  {
    if m.content.None? || m.content.value == "" {
      return m;
    }
    if m.reasoning.Some? && m.reasoning.value != "" {
      return m;
    }
    var visible, parts := ExtractThinking(m.content.value);
    if parts == [] {
      return m;
    }
    r := Message(Some(TrimSpace(visible)), Some(Join(parts, "\n")));
  }
}
