/** Strings as the gateway uses them: substring search, decimal printing, trimming.
    These stand for the library calls `strings.Index`, `%d` and `strings.TrimSpace`. */
module Text {

  datatype Option<+T> = None | Some(value: T)
  {
    function GetOr(other: T): T {
      if Some? then value else other
    }
  }

  // ----- Substring search -----

  predicate OccursAt<T(==)>(s: seq<T>, pat: seq<T>, i: int) {
    0 <= i && i + |pat| <= |s| && s[i..i + |pat|] == pat
  }

  ghost predicate Contains<T>(s: seq<T>, pat: seq<T>) {
    exists i :: OccursAt(s, pat, i)
  }

  /** The first position at or after `i` where `pat` occurs, or -1. */
  function IndexFrom<T(==)>(s: seq<T>, pat: seq<T>, i: nat): (r: int)
    requires i <= |s|
    ensures r == -1 ==> forall k :: i <= k ==> !OccursAt(s, pat, k)
    ensures r != -1 ==> i <= r && OccursAt(s, pat, r) && forall k :: i <= k < r ==> !OccursAt(s, pat, k)
    decreases |s| - i
  {
    if OccursAt(s, pat, i) then i
    else if i == |s| then -1
    else IndexFrom(s, pat, i + 1)
  }

  function Index<T(==)>(s: seq<T>, pat: seq<T>): (r: int)
    ensures r == -1 <==> !Contains(s, pat)
    ensures r != -1 ==> OccursAt(s, pat, r) && forall k :: k < r ==> !OccursAt(s, pat, k)
  {
    IndexFrom(s, pat, 0)
  }

  /** A pattern whose first symbol occurs nowhere else in it is found exactly at the
      place where it was appended, whatever follows it. */
  lemma IndexOfAppended<T>(before: seq<T>, pat: seq<T>, after: seq<T>)
    requires |pat| > 0 && pat[0] !in pat[1..]
    requires !Contains(before, pat)
    ensures Index(before + pat + after, pat) == |before|
    ensures (before + pat + after)[..|before|] == before
    ensures (before + pat + after)[|before| + |pat|..] == after
  {
    var s := before + pat + after;
    assert OccursAt(s, pat, |before|);
    forall k | 0 <= k < |before|
      ensures !OccursAt(s, pat, k)
    {
      if k + |pat| <= |before| {
        assert !OccursAt(before, pat, k);
        assert before[k..k + |pat|] == s[k..k + |pat|];
      } else if k + |pat| <= |s| {
        var j := |before| - k;
        assert s[k..k + |pat|][j] == s[|before|] == s[|before|..|before| + |pat|][0];
        assert pat[j] == pat[1..][j - 1];
      }
    }
  }

  /** Cutting at the first occurrence. */
  lemma CutAtIndex<T>(s: seq<T>, pat: seq<T>)
    requires Index(s, pat) != -1
    ensures var i := Index(s, pat);
            s == s[..i] + pat + s[i + |pat|..] && (|pat| > 0 ==> !Contains(s[..i], pat))
  {
    var i := Index(s, pat);
    if |pat| > 0 {
      forall k | OccursAt(s[..i], pat, k)
        ensures OccursAt(s, pat, k)
      {
        assert s[..i][k..k + |pat|] == s[k..k + |pat|];
      }
    }
  }

  // ----- Joining and splitting on a separator -----

  /** Text before the first separator decides where the separator stands. */
  lemma SplitAtSeparator<T>(a: seq<T>, b: seq<T>, x: seq<T>, y: seq<T>, sep: T)
    requires sep !in a && sep !in b
    requires a + [sep] + x == b + [sep] + y
    ensures a == b && x == y
  {
    var s := a + [sep] + x;
    assert s[|a|] == sep && s[|b|] == sep;
    assert forall i :: 0 <= i < |a| ==> s[i] == a[i];
    assert forall i :: 0 <= i < |b| ==> s[i] == b[i];
    assert a == s[..|a|] && b == s[..|b|];
    assert x == s[|a| + 1..] && y == s[|b| + 1..];
  }

  // ----- Decimal integers -----

  predicate IsDigit(c: char) { '0' <= c <= '9' }

  function DigitChar(d: nat): (c: char)
    requires d < 10
    ensures IsDigit(c)
  {
    '0' + (d as char)
  }

  function DigitValue(c: char): (d: nat)
    requires IsDigit(c)
    ensures d < 10
  {
    (c - '0') as nat
  }

  /** Go's `%d` of a non-negative integer. */
  function Decimal(n: nat): (s: string)
    ensures |s| > 0 && forall c | c in s :: IsDigit(c)
  {
    if n < 10 then [DigitChar(n)] else Decimal(n / 10) + [DigitChar(n % 10)]
  }

  /** The value of a digit string, most significant digit first. */
  function DecimalValue(s: string): nat
    requires forall c | c in s :: IsDigit(c)
  {
    if s == [] then 0
    else 10 * DecimalValue(s[..|s| - 1]) + DigitValue(s[|s| - 1])
  }

  lemma {:induction false} DecimalRoundTrip(n: nat)
    ensures DecimalValue(Decimal(n)) == n
  {
    if n >= 10 {
      DecimalRoundTrip(n / 10);
      var s := Decimal(n);
      assert s[..|s| - 1] == Decimal(n / 10);
    } else {
      assert Decimal(n)[..0] == [];
    }
  }

  lemma DecimalInjective(m: nat, n: nat)
    requires Decimal(m) == Decimal(n)
    ensures m == n
  {
    DecimalRoundTrip(m);
    DecimalRoundTrip(n);
  }

  // ----- Trimming -----

  /** The white space of the Unicode standard, as Go's `unicode.IsSpace` lists it. */
  predicate IsSpace(c: char) {
    || '\t' <= c <= '\r' || c == ' '
    || c == '\U{0085}' || c == '\U{00A0}' || c == '\U{1680}'
    || '\U{2000}' <= c <= '\U{200A}'
    || c == '\U{2028}' || c == '\U{2029}' || c == '\U{202F}' || c == '\U{205F}' || c == '\U{3000}'
  }

  function TrimLeft(s: string): (r: string)
    ensures r == [] || !IsSpace(r[0])
    ensures exists k :: 0 <= k <= |s| && r == s[k..] && forall j :: 0 <= j < k ==> IsSpace(s[j])
  {
    if s == [] || !IsSpace(s[0]) then
      assert s == s[0..];
      s
    else
      var r := TrimLeft(s[1..]);
      assert exists k :: 0 <= k <= |s| && r == s[k..] && forall j :: 0 <= j < k ==> IsSpace(s[j]) by {
        var k :| 0 <= k <= |s[1..]| && r == s[1..][k..] && forall j :: 0 <= j < k ==> IsSpace(s[1..][j]);
        assert r == s[k + 1..];
        forall j | 0 <= j < k + 1 ensures IsSpace(s[j]) {
          assert j > 0 ==> s[j] == s[1..][j - 1];
        }
      }
      r
  }

  function TrimRight(s: string): (r: string)
    ensures r <= s
    ensures r == [] || !IsSpace(r[|r| - 1])
    ensures forall j :: |r| <= j < |s| ==> IsSpace(s[j])
  {
    if s == [] || !IsSpace(s[|s| - 1]) then s else TrimRight(s[..|s| - 1])
  }

  function TrimSpace(s: string): string {
    TrimRight(TrimLeft(s))
  }

  ghost predicate IsSuffix<T>(suffix: seq<T>, s: seq<T>) {
    |suffix| <= |s| && s[|s| - |suffix|..] == suffix
  }

  /** `strings.Join`. */
  function Join(parts: seq<string>, sep: string): string {
    if parts == [] then ""
    else if |parts| == 1 then parts[0]
    else parts[0] + sep + Join(parts[1..], sep)
  }

  /** The prefixes a loop over `s` goes through. */
  lemma TakeOneMore<T>(s: seq<T>, i: nat)
    requires i < |s|
    ensures s[..i + 1] == s[..i] + [s[i]]
    ensures s[..i + 1][..i] == s[..i]
    ensures i + 1 == |s| ==> s[..i + 1] == s
  {
  }

  lemma AppendAssociative<T>(a: seq<T>, b: seq<T>, c: seq<T>)
    ensures a + (b + c) == (a + b) + c
  {
  }
}
