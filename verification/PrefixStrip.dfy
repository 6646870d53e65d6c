/** The in-place removal of a routing prefix from the quoted model name of a request
    body (internal/proxy/handler.go). A Go slice is an array with a length. */
module PrefixStrip {
  import opened Text

  newtype byte = b: int | 0 <= b < 256

  const QUOTE: byte := 34

  function Quoted(token: seq<byte>): seq<byte> {
    [QUOTE] + token + [QUOTE]
  }

  /** `bytes.Replace(s, before, after, 1)` */
  function ReplaceFirst(s: seq<byte>, before: seq<byte>, after: seq<byte>): seq<byte> {
    var i := Index(s, before);
    if i == -1 then s else s[..i] + after + s[i + |before|..]
  }

  /** `strings.TrimPrefix` */
  function TrimPrefix(s: seq<byte>, prefix: seq<byte>): seq<byte> {
    if prefix <= s then s[|prefix|..] else s
  }

  /** The allocating form, which the agentrouter branch uses. */
  function StripByReplace(body: seq<byte>, fullModel: seq<byte>, prefix: seq<byte>): seq<byte> {
    ReplaceFirst(body, Quoted(fullModel), Quoted(TrimPrefix(fullModel, prefix)))
  }

  lemma ReplaceBySelf(s: seq<byte>, token: seq<byte>)
    ensures ReplaceFirst(s, token, token) == s
  {
    if Index(s, token) != -1 {
      CutAtIndex(s, token);
    }
  }

  /** `s` with the bytes from `dst` on overwritten by `data`: what Go's `copy` does. */
  function Overwrite(s: seq<byte>, dst: nat, data: seq<byte>): (r: seq<byte>)
    requires dst + |data| <= |s|
    ensures |r| == |s|
  {
    s[..dst] + data + s[dst + |data|..]
  }

  lemma OverwriteIs(s: seq<byte>, dst: nat, data: seq<byte>, r: seq<byte>)
    requires dst + |data| <= |s| == |r|
    requires forall i :: dst <= i < dst + |data| ==> r[i] == data[i - dst]
    requires forall i :: 0 <= i < dst || dst + |data| <= i < |s| ==> r[i] == s[i]
    ensures r == Overwrite(s, dst, data)
  {
  }

  /** Go's `copy` towards lower addresses: the two ranges may overlap. */
  method MoveDown(a: array<byte>, dst: nat, src: nat, end: nat)
    requires dst <= src <= end <= a.Length
    modifies a
    ensures a[..] == Overwrite(old(a[..]), dst, old(a[src..end]))
  {
    ghost var before := a[..];
    ghost var data := a[src..end];
    var k := 0;
    while k < end - src
      invariant k <= end - src
      invariant forall j :: dst <= j < dst + k ==> a[j] == data[j - dst]
      invariant forall j :: 0 <= j < dst || dst + k <= j < a.Length ==> a[j] == before[j]
    {
      assert a[src + k] == before[src + k] == data[k];
      a[dst + k] := a[src + k];
      k := k + 1;
    }
    OverwriteIs(before, dst, data, a[..]);
  }

  /** Go's `copy` from a separate buffer. */
  method CopyIn(a: array<byte>, dst: nat, data: seq<byte>)
    requires dst + |data| <= a.Length
    modifies a
    ensures a[..] == Overwrite(old(a[..]), dst, data)
  {
    ghost var before := a[..];
    var k := 0;
    while k < |data|
      invariant k <= |data|
      invariant forall j :: dst <= j < dst + k ==> a[j] == data[j - dst]
      invariant forall j :: 0 <= j < dst || dst + k <= j < a.Length ==> a[j] == before[j]
    {
      a[dst + k] := data[k];
      k := k + 1;
    }
  }

  /** Closing the gap and writing the shorter token is the replacement. */
  lemma TwoCopiesReplace(s: seq<byte>, n: nat, idx: nat, oldLen: nat, token: seq<byte>)
    requires idx + oldLen <= n <= |s| && |token| <= oldLen
    ensures var moved := Overwrite(s, idx + |token|, s[idx + oldLen..n]);
            var done := Overwrite(moved, idx, token);
            && done[..n - oldLen + |token|] == s[..n][..idx] + token + s[..n][idx + oldLen..]
            && done[n..] == s[n..]
  {
  }

  /** The two copies. */
  method CloseGap(body: array<byte>, n: nat, idx: nat, oldLen: nat, token: seq<byte>)
    requires idx + oldLen <= n <= body.Length && |token| <= oldLen
    modifies body
    ensures body[..] == Overwrite(Overwrite(old(body[..]), idx + |token|, old(body[idx + oldLen..n])), idx, token)
  {
    ghost var moved := Overwrite(body[..], idx + |token|, body[idx + oldLen..n]);
    MoveDown(body, idx + |token|, idx + oldLen, n);
    assert body[..] == moved;
    CopyIn(body, idx, token);
  }

  lemma Slices(a: array<byte>, s: seq<byte>, i: nat, k: nat)
    requires i <= k <= a.Length && a[..] == s
    ensures a[..k] == s[..k] && a[k..] == s[k..] && a[i..k] == s[i..k]
  {
  }

  method ReplaceInPlace(body: array<byte>, n: nat, idx: nat, oldLen: nat, token: seq<byte>)
    requires idx + oldLen <= n <= body.Length && |token| <= oldLen
    modifies body
    ensures body[..n - oldLen + |token|] == old(body[..n])[..idx] + token + old(body[..n])[idx + oldLen..]
    ensures body[n..] == old(body[n..])
  {
    ghost var s := body[..];
    Slices(body, s, idx + oldLen, n);
    TwoCopiesReplace(s, n, idx, oldLen, token);
    CloseGap(body, n, idx, oldLen, token);
    ghost var done := body[..];
    Slices(body, done, 0, n - oldLen + |token|);
    Slices(body, done, 0, n);
  }

  /** `body` holds `n` bytes; the result is the length of the rewritten body. */
  method StripModelPrefixInPlace(body: array<byte>, n: nat, fullModel: seq<byte>, prefix: seq<byte>)
    returns (m: nat)
    requires n <= body.Length
    modifies body
    ensures m <= n
    ensures body[..m] == StripByReplace(old(body[..n]), fullModel, prefix)
    ensures body[n..] == old(body[n..])
  {
    if !(prefix <= fullModel) {
      ReplaceBySelf(body[..n], Quoted(fullModel));
      return n;
    }
    var oldToken := Quoted(fullModel);
    var newToken := Quoted(fullModel[|prefix|..]);
    var idx := Index(body[..n], oldToken);
    if idx == -1 {
      return n;
    }
    ReplaceInPlace(body, n, idx, |oldToken|, newToken);
    return n - (|oldToken| - |newToken|);
  }
}
