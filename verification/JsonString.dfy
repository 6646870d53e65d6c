/** The hand-written JSON printers of internal/proxy/gemini.go, against a reader for
    the strings of section 7 of RFC 8259. */
module JsonString {
  import opened Text

  /** `bytes.Buffer` */
  class Buffer {
    var data: string

    constructor ()
      ensures data == ""
    {
      data := "";
    }

    method Write(s: string)
      modifies this
      ensures data == old(data) + s
    {
      data := data + s;
    }
  }

  // ----- The reader -----

  predicate IsHex(c: char) {
    '0' <= c <= '9' || 'a' <= c <= 'f' || 'A' <= c <= 'F'
  }

  function HexValue(c: char): (v: nat)
    requires IsHex(c)
    ensures v < 16
  {
    if c <= '9' then (c - '0') as nat
    else if c <= 'F' then 10 + (c - 'A') as nat
    else 10 + (c - 'a') as nat
  }

  /** The four hexadecimal digits of a \u escape. */
  function CodeUnit(t: string): (u: Option<nat>)
    ensures u.Some? ==> |t| >= 4 && u.value < 0x1_0000
  {
    if |t| >= 4 && IsHex(t[0]) && IsHex(t[1]) && IsHex(t[2]) && IsHex(t[3]) then
      Some(0x1000 * HexValue(t[0]) + 0x100 * HexValue(t[1]) + 0x10 * HexValue(t[2]) + HexValue(t[3]))
    else None
  }

  /** One escape sequence, after its reverse solidus: the character and how many
      further symbols it took. A surrogate pair is two \u escapes for one character. */
  function Escape(t: string): (e: Option<(char, nat)>)
    ensures e.Some? ==> 0 < e.value.1 <= |t|
  {
    if t == "" then None
    else if t[0] == '\"' then Some(('\"', 1))
    else if t[0] == '\\' then Some(('\\', 1))
    else if t[0] == '/' then Some(('/', 1))
    else if t[0] == 'b' then Some(('\U{0008}', 1))
    else if t[0] == 'f' then Some(('\U{000C}', 1))
    else if t[0] == 'n' then Some(('\n', 1))
    else if t[0] == 'r' then Some(('\r', 1))
    else if t[0] == 't' then Some(('\t', 1))
    else if t[0] == 'u' then
      match CodeUnit(t[1..])
      case None => None
      case Some(u) =>
        if u < 0xD800 || 0xE000 <= u then Some((u as char, 5))
        else if 0xDC00 <= u || |t| < 7 || t[5] != '\\' || t[6] != 'u' then None
        else match CodeUnit(t[7..])
          case None => None
          case Some(low) =>
            if 0xDC00 <= low < 0xE000 then
              Some(((0x1_0000 + (u - 0xD800) * 0x400 + (low - 0xDC00)) as char, 11))
            else None
    else None
  }

  /** The characters up to the closing quotation mark, and what follows it. */
  function ReadChars(t: string): Option<(string, string)>
    decreases |t|
  {
    if t == "" || t[0] < ' ' then None
    else if t[0] == '\"' then Some(("", t[1..]))
    else if t[0] == '\\' then
      match Escape(t[1..])
      case None => None
      case Some((c, k)) =>
        (match ReadChars(t[1 + k..])
         case None => None
         case Some((s, rest)) => Some(([c] + s, rest)))
    else
      match ReadChars(t[1..])
      case None => None
      case Some((s, rest)) => Some(([t[0]] + s, rest))
  }

  function ReadString(t: string): Option<(string, string)> {
    if t == "" || t[0] != '\"' then None else ReadChars(t[1..])
  }

  // ----- The printer -----

  function HexDigit(d: nat): char
    requires d < 16
  {
    if d < 10 then '0' + (d as char) else 'a' + ((d - 10) as char)
  }

  function EscapeChar(c: char): string {
    if c == '\"' then "\\\""
    else if c == '\\' then "\\\\"
    else if c == '\n' then "\\n"
    else if c == '\r' then "\\r"
    else if c == '\t' then "\\t"
    else if c < ' ' then "\\u00" + [HexDigit(c as nat / 16), HexDigit(c as nat % 16)]
    else [c]
  }

  function EscapeAll(s: string): string {
    if s == "" then "" else EscapeAll(s[..|s| - 1]) + EscapeChar(s[|s| - 1])
  }

  function JsonQuote(s: string): string {
    "\"" + EscapeAll(s) + "\""
  }

  method WriteChar(buf: Buffer, r: char)
    modifies buf
    ensures buf.data == old(buf.data) + EscapeChar(r)
  {
    match r {
      case '\"' => buf.Write("\\\"");
      case '\\' => buf.Write("\\\\");
      case '\n' => buf.Write("\\n");
      case '\r' => buf.Write("\\r");
      case '\t' => buf.Write("\\t");
      case _ =>
        if r < ' ' {
          buf.Write("\\u00" + [HexDigit(r as nat / 16), HexDigit(r as nat % 16)]);
        } else {
          buf.Write([r]);
        }
    }
  }

  method WriteJSONString(buf: Buffer, s: string)
    modifies buf
    ensures buf.data == old(buf.data) + JsonQuote(s)
  {
    ghost var start := buf.data;
    buf.Write("\"");
    for i := 0 to |s|
      invariant buf.data == start + "\"" + EscapeAll(s[..i])
    {
      assert s[..i + 1][..i] == s[..i];
      AppendAssociative(start + "\"", EscapeAll(s[..i]), EscapeChar(s[i]));
      WriteChar(buf, s[i]);
    }
    assert s[..|s|] == s;
    buf.Write("\"");
    AppendAssociative(start, "\"", EscapeAll(s));
    AppendAssociative(start, "\"" + EscapeAll(s), "\"");
  }

  lemma {:induction false} EscapeAllFront(s: string)
    requires s != ""
    ensures EscapeAll(s) == EscapeChar(s[0]) + EscapeAll(s[1..])
  {
    if |s| > 1 {
      EscapeAllFront(s[..|s| - 1]);
      assert s[..|s| - 1][1..] == s[1..][..|s| - 2];
    } else {
      assert s[..0] == "" && s[1..] == "";
    }
  }

  lemma ReadOneChar(c: char, tail: string)
    ensures ReadChars(EscapeChar(c) + tail) ==
            match ReadChars(tail)
            case None => None
            case Some((s, rest)) => Some(([c] + s, rest))
  {
    var e := EscapeChar(c);
    var t := e + tail;
    assert t[0] == e[0];
    assert t[|e|..] == tail;
    if |e| == 2 {
      assert t[1] == e[1] && t[1..][0] == t[1];
      assert t[1 + 1..] == tail;
    } else if |e| == 6 {
      assert t[1..][..5] == e[1..];
      assert t[1..][1..][..4] == e[2..];
      assert Escape(t[1..]) == Some((c, 5));
      assert t[1 + 5..] == tail;
    }
  }

  /** Reading back what was printed gives the characters and leaves the rest alone. */
  lemma {:induction false} JsonRoundTripTail(s: string, rest: string)
    ensures ReadChars(EscapeAll(s) + "\"" + rest) == Some((s, rest))
  {
    if s == "" {
      assert EscapeAll(s) + "\"" + rest == "\"" + rest;
      assert ("\"" + rest)[1..] == rest;
    } else {
      EscapeAllFront(s);
      JsonRoundTripTail(s[1..], rest);
      var tail := EscapeAll(s[1..]) + "\"" + rest;
      AppendAssociative(EscapeChar(s[0]), EscapeAll(s[1..]), "\"");
      AppendAssociative(EscapeChar(s[0]), EscapeAll(s[1..]) + "\"", rest);
      ReadOneChar(s[0], tail);
      assert [s[0]] + s[1..] == s;
    }
  }

  lemma JsonRoundTrip(s: string, rest: string)
    ensures ReadString(JsonQuote(s) + rest) == Some((s, rest))
  {
    JsonRoundTripTail(s, rest);
    assert (JsonQuote(s) + rest)[1..] == EscapeAll(s) + "\"" + rest;
  }

  /** No raw control character anywhere in the printed string. */
  lemma {:induction false} NoControlCharacter(s: string)
    ensures forall i :: 0 <= i < |EscapeAll(s)| ==> EscapeAll(s)[i] >= ' '
  {
    if s != "" {
      NoControlCharacter(s[..|s| - 1]);
    }
  }

  predicate NeedsNoEscape(s: string) {
    forall i :: 0 <= i < |s| ==> s[i] >= ' ' && s[i] != '\"' && s[i] != '\\'
  }

  /** A reader never returns more symbols than it consumed, and returns exactly as many
      only when the text held no escape: then it returns the text up to the quotation mark. */
  /** What is read off `t` is shorter, unless it stands there unescaped. */
  predicate ReadsShorter(t: string) {
    ReadChars(t).Some? ==>
      var (s, rest) := ReadChars(t).value;
      && |s| + 1 + |rest| <= |t|
      && (|s| + 1 + |rest| == |t| ==> NeedsNoEscape(s) && t == s + "\"" + rest)
  }

  lemma ShorterByEscape(t: string)
    requires t != "" && t[0] == '\\' && Escape(t[1..]).Some? && ReadsShorter(t[1 + Escape(t[1..]).value.1..])
    ensures ReadsShorter(t)
  {
  }

  lemma ShorterByOne(t: string)
    requires t != "" && t[0] >= ' ' && t[0] != '\"' && t[0] != '\\' && ReadsShorter(t[1..])
    ensures ReadsShorter(t)
  {
    if ReadChars(t[1..]).Some? {
      var (s, rest) := ReadChars(t[1..]).value;
      assert [t[0]] + s + "\"" + rest == [t[0]] + (s + "\"" + rest);
      assert t == [t[0]] + t[1..];
    }
  }

  lemma {:induction false} ReadIsShorter(t: string)
    ensures ReadsShorter(t)
    decreases |t|
  {
    if t == "" || t[0] < ' ' || t[0] == '\"' {
      if t != "" && t[0] == '\"' {
        assert t == "" + "\"" + t[1..];
      }
    } else if t[0] == '\\' {
      if Escape(t[1..]).Some? {
        ReadIsShorter(t[1 + Escape(t[1..]).value.1..]);
        ShorterByEscape(t);
      }
    } else {
      ReadIsShorter(t[1..]);
      ShorterByOne(t);
    }
  }

  lemma {:induction false} ReadUnescaped(s: string, rest: string)
    requires NeedsNoEscape(s)
    ensures ReadChars(s + "\"" + rest) == Some((s, rest))
  {
    var t := s + "\"" + rest;
    if s == "" {
      assert t[1..] == rest;
    } else {
      ReadUnescaped(s[1..], rest);
      assert t[0] == s[0] && t[1..] == s[1..] + "\"" + rest;
      assert [s[0]] + s[1..] == s;
    }
  }

  /** Text put between quotation marks unescaped is read back as itself exactly when it
      needed no escape. */
  lemma RawTextReadsBack(s: string)
    ensures ReadString("\"" + s + "\"") == Some((s, "")) <==> NeedsNoEscape(s)
  {
    var t := s + "\"";
    assert ("\"" + s + "\"")[1..] == t;
    assert s + "\"" + "" == t;
    ReadIsShorter(t);
    if NeedsNoEscape(s) {
      ReadUnescaped(s, "");
    }
  }

  /** The text a reader gets from a literal; nothing when it is no string. */
  function ReadText(literal: string): string {
    match ReadString(literal)
    case Some((s, _)) => s
    case None => ""
  }

  /** Of text put between quotation marks unescaped a reader gets at most as much, and as
      much only if it is the same text and needed no escape. */
  lemma RawTextIsShorter(s: string)
    ensures |ReadText("\"" + s + "\"")| <= |s|
    ensures s != "" ==> (|ReadText("\"" + s + "\"")| == |s| <==> NeedsNoEscape(s))
    ensures NeedsNoEscape(s) ==> ReadText("\"" + s + "\"") == s
  {
    var t := s + "\"";
    assert ("\"" + s + "\"")[1..] == t;
    ReadIsShorter(t);
    RawTextReadsBack(s);
    if ReadChars(t).Some? && |ReadChars(t).value.0| == |s| {
      var (r, rest) := ReadChars(t).value;
      assert t == r + "\"" + rest && rest == "";
      assert r == t[..|s|] == s;
    }
  }

  // ----- Go's %q -----

  /** What Go's `unicode.IsPrint` says of control characters. */
  ghost predicate LeavesControls(printable: char -> bool) {
    forall c: char :: printable(c) ==> c >= ' ' && c != '\U{007F}'
  }

  /** `strconv.Quote`, character by character. */
  function GoQuoteChar(c: char, printable: char -> bool): string {
    var n := c as nat;
    if c == '\"' || c == '\\' then ['\\', c]
    else if printable(c) then [c]
    else if n == 7 then "\\a"
    else if n == 8 then "\\b"
    else if n == 12 then "\\f"
    else if c == '\n' then "\\n"
    else if c == '\r' then "\\r"
    else if c == '\t' then "\\t"
    else if n == 11 then "\\v"
    else if c < ' ' || n == 0x7F then "\\x" + [HexDigit(n / 16), HexDigit(n % 16)]
    else if n < 0x1_0000 then "\\u" + Hex4(n)
    else "\\U" + Hex4(n / 0x1_0000) + Hex4(n % 0x1_0000)
  }

  function Hex4(n: nat): string
    requires n < 0x1_0000
  {
    [HexDigit(n / 0x1000), HexDigit(n / 0x100 % 16), HexDigit(n / 16 % 16), HexDigit(n % 16)]
  }

  function GoQuoteAll(s: string, printable: char -> bool): string {
    if s == "" then "" else GoQuoteChar(s[0], printable) + GoQuoteAll(s[1..], printable)
  }

  function GoQuote(s: string, printable: char -> bool): string {
    "\"" + GoQuoteAll(s, printable) + "\""
  }

  /** Go writes this character as JSON does, or in a way JSON reads as well. */
  predicate QuotesAsJson(c: char, printable: char -> bool) {
    var n := c as nat;
    || c == '\"' || c == '\\' || printable(c)
    || n == 8 || n == 9 || n == 10 || n == 12 || n == 13
    || (c >= ' ' && n != 0x7F && n < 0x1_0000)
  }

  predicate AllQuoteAsJson(s: string, printable: char -> bool) {
    s == "" || (QuotesAsJson(s[0], printable) && AllQuoteAsJson(s[1..], printable))
  }

  lemma HexDigitValue(d: nat)
    requires d < 16
    ensures IsHex(HexDigit(d)) && HexValue(HexDigit(d)) == d
  {
  }

  lemma FourDigitsRead(a: nat, b: nat, c: nat, d: nat, tail: string)
    requires a < 16 && b < 16 && c < 16 && d < 16
    ensures CodeUnit([HexDigit(a), HexDigit(b), HexDigit(c), HexDigit(d)] + tail)
         == Some(0x1000 * a + 0x100 * b + 0x10 * c + d)
  {
    HexDigitValue(a);
    HexDigitValue(b);
    HexDigitValue(c);
    HexDigitValue(d);
  }

  lemma DigitsOf(n: nat)
    ensures n == 16 * (n / 16) + n % 16
    ensures n / 16 / 16 == n / 0x100 && n / 0x100 / 16 == n / 0x1000
  {
  }

  lemma Hex4Reads(n: nat, tail: string)
    requires n < 0x1_0000
    ensures CodeUnit(Hex4(n) + tail) == Some(n)
  {
    DigitsOf(n);
    DigitsOf(n / 16);
    DigitsOf(n / 0x100);
    FourDigitsRead(n / 0x1000, n / 0x100 % 16, n / 16 % 16, n % 16, tail);
  }

  /** A \u escape of a character that is no surrogate. */
  lemma UnicodeEscapeReads(c: char, tail: string)
    requires c as nat < 0x1_0000
    ensures Escape("u" + Hex4(c as nat) + tail) == Some((c, 5))
  {
    var t := "u" + Hex4(c as nat) + tail;
    assert t[1..] == Hex4(c as nat) + tail;
    Hex4Reads(c as nat, tail);
  }

  /** What is read after an escape of `c` that `e` spells out. */
  lemma ReadEscaped(e: string, c: char, tail: string)
    requires Escape(e + tail) == Some((c, |e|))
    ensures ReadChars("\\" + e + tail) ==
            (match ReadChars(tail) case None => None case Some((s, rest)) => Some(([c] + s, rest)))
  {
    var t := "\\" + e + tail;
    assert t[1..] == e + tail && t[1 + |e|..] == tail;
  }

  /** An escape that JSON does not know ends the reading. */
  lemma ReadBadEscape(e: string, tail: string)
    requires Escape(e + tail) == None
    ensures ReadChars("\\" + e + tail) == None
  {
    assert ("\\" + e + tail)[1..] == e + tail;
  }

  lemma GoEscape(c: char, printable: char -> bool, tail: string)
    requires LeavesControls(printable) && GoQuoteChar(c, printable) != [c]
    ensures var q := GoQuoteChar(c, printable);
            && q == "\\" + q[1..]
            && Escape(q[1..] + tail) == if QuotesAsJson(c, printable) then Some((c, |q| - 1)) else None
  {
    var q := GoQuoteChar(c, printable);
    if |q| == 6 && q[1] == 'u' {
      assert q[1..] == "u" + Hex4(c as nat);
      UnicodeEscapeReads(c, tail);
    }
  }

  lemma GoQuoteFront(c: char, printable: char -> bool, tail: string)
    requires LeavesControls(printable)
    ensures QuotesAsJson(c, printable) ==>
              ReadChars(GoQuoteChar(c, printable) + tail) ==
              (match ReadChars(tail) case None => None case Some((s, rest)) => Some(([c] + s, rest)))
    ensures !QuotesAsJson(c, printable) ==> ReadChars(GoQuoteChar(c, printable) + tail) == None
  {
    var q := GoQuoteChar(c, printable);
    if q == [c] {
      assert (q + tail)[1..] == tail;
    } else {
      GoEscape(c, printable, tail);
      if QuotesAsJson(c, printable) {
        ReadEscaped(q[1..], c, tail);
      } else {
        ReadBadEscape(q[1..], tail);
      }
    }
  }

  /** The client reads what Go quoted exactly when no character is one that Go writes in a
      way JSON does not know; otherwise the literal is no string at all. */
  lemma {:induction false} GoQuoteReads(s: string, printable: char -> bool)
    requires LeavesControls(printable)
    ensures ReadChars(GoQuoteAll(s, printable) + "\"") == (if AllQuoteAsJson(s, printable) then Some((s, "")) else None)
  {
    var t := GoQuoteAll(s, printable) + "\"";
    if s == "" {
      assert t == "\"" && t[1..] == "";
    } else {
      var tail := GoQuoteAll(s[1..], printable) + "\"";
      AppendAssociative(GoQuoteChar(s[0], printable), GoQuoteAll(s[1..], printable), "\"");
      GoQuoteFront(s[0], printable, tail);
      GoQuoteReads(s[1..], printable);
      assert [s[0]] + s[1..] == s;
    }
  }

  lemma GoQuoteReadsBackIff(s: string, printable: char -> bool)
    requires LeavesControls(printable)
    ensures AllQuoteAsJson(s, printable) ==> ReadText(GoQuote(s, printable)) == s
    ensures !AllQuoteAsJson(s, printable) ==> s != "" && ReadText(GoQuote(s, printable)) == ""
  {
    GoQuoteReads(s, printable);
    assert GoQuote(s, printable)[1..] == GoQuoteAll(s, printable) + "\"";
  }

  // ----- The integer printer -----

  function Pow10(k: nat): (p: nat)
    ensures p > 0
  {
    if k == 0 then 1 else 10 * Pow10(k - 1)
  }

  /** What the printer writes for a Go `int`. */
  function PrintedInt(n: int): string {
    if n < 0 then "" else Decimal(n)
  }

  method WriteInt(buf: Buffer, n: int)
    requires -0x8000_0000_0000_0000 <= n < 0x8000_0000_0000_0000
    modifies buf
    ensures buf.data == old(buf.data) + PrintedInt(n)
  {
    if n == 0 {
      buf.Write("0");
      assert Decimal(0) == "0";
      return;
    }
    var digits := new char[20];
    var pos := digits.Length;
    var m := n;
    assert Pow10(19) == 10_000_000_000_000_000_000 by {
      assert Pow10(5) == 100_000;
      assert Pow10(10) == 10_000_000_000;
      assert Pow10(15) == 1_000_000_000_000_000;
    }
    while m > 0
      invariant buf.data == old(buf.data)
      invariant 1 <= pos <= 20 && m < Pow10(pos - 1)
      invariant n < 0 ==> m == n && pos == 20
      invariant n > 0 && m > 0 ==> Decimal(n) == Decimal(m) + digits[pos..]
      invariant n > 0 ==> m >= 0 && (m == 0 ==> Decimal(n) == digits[pos..])
    {
      pos := pos - 1;
      ghost var written := digits[pos + 1..];
      digits[pos] := DigitChar(m % 10);
      assert digits[pos..] == [DigitChar(m % 10)] + written;
      m := m / 10;
    }
    assert PrintedInt(n) == digits[pos..];
    buf.Write(digits[pos..]);
  }

  lemma {:induction false} NoLeadingZero(n: nat)
    ensures Decimal(n)[0] == '0' <==> n == 0
  {
    if n >= 10 {
      NoLeadingZero(n / 10);
    }
  }

  /** A reader of decimal numbers (section 6 of RFC 8259: digits, no leading zero)
      recovers the printed integer exactly when it is not negative. */
  lemma PrintedIntRoundTrip(n: int)
    ensures var s := PrintedInt(n);
            (s != "" && (s[0] == '0' ==> |s| == 1) && DecimalValue(s) == n) <==> n >= 0
  {
    if n >= 0 {
      DecimalRoundTrip(n);
      NoLeadingZero(n);
    }
  }
}
