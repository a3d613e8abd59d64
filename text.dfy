/** The .NET string operations the core relies on: `Trim`, `IsNullOrWhiteSpace`
    and substring search (`Contains`). */
module Text {

  /** .NET's `char.IsWhiteSpace`: the Unicode space, line and paragraph separators
      plus the controls U+0009 to U+000D and U+0085. */
  predicate IsWhiteSpace(c: char) {
    || ('\t' <= c <= '\r')
    || c == ' '
    || c == '\U{0085}'
    || c == '\U{00A0}'
    || c == '\U{1680}'
    || ('\U{2000}' <= c <= '\U{200A}')
    || c == '\U{2028}'
    || c == '\U{2029}'
    || c == '\U{202F}'
    || c == '\U{205F}'
    || c == '\U{3000}'
  }

  /** `string.IsNullOrWhiteSpace` (a Dafny string is never null). */
  predicate IsNullOrWhiteSpace(s: string) {
    forall i | 0 <= i < |s| :: IsWhiteSpace(s[i])
  }

  /** Drops the leading white space: the result is a suffix of `s`, everything
      dropped is white space, and the result does not start with white space. */
  function TrimStart(s: string): (r: string)
    ensures |r| <= |s| && r == s[|s| - |r|..]
    ensures forall i | 0 <= i < |s| - |r| :: IsWhiteSpace(s[i])
    ensures r == [] || !IsWhiteSpace(r[0])
  {
    if |s| > 0 && IsWhiteSpace(s[0]) then
      var r := TrimStart(s[1..]);
      assert s[|s| - |r|..] == s[1..][|s| - 1 - |r|..];
      assert forall i | 1 <= i < |s| - |r| :: s[i] == s[1..][i - 1];
      r
    else s
  }

  /** Drops the trailing white space: the result is a prefix of `s`, everything
      dropped is white space, and the result does not end with white space. */
  function TrimEnd(s: string): (r: string)
    ensures |r| <= |s| && r == s[..|r|]
    ensures forall i | |r| <= i < |s| :: IsWhiteSpace(s[i])
    ensures r == [] || !IsWhiteSpace(r[|r| - 1])
  {
    if |s| > 0 && IsWhiteSpace(s[|s| - 1]) then
      var r := TrimEnd(s[..|s| - 1]);
      assert s[..|r|] == s[..|s| - 1][..|r|];
      assert forall i | |r| <= i < |s| - 1 :: s[i] == s[..|s| - 1][i];
      r
    else s
  }

  /** `r` is the slice of `s` at position `k`, and everything of `s` before and
      after that slice is white space. */
  predicate StrippedAt(s: string, r: string, k: int)
    requires 0 <= k <= |s| - |r|
  {
    && s[k..k + |r|] == r
    && (forall i | 0 <= i < k :: IsWhiteSpace(s[i]))
    && (forall i | k + |r| <= i < |s| :: IsWhiteSpace(s[i]))
  }

  /** `string.Trim()`: `s` with its leading and trailing white space removed,
      and nothing else. */
  function Trim(s: string): (r: string)
    ensures |r| <= |s|
    ensures exists k | 0 <= k <= |s| - |r| :: StrippedAt(s, r, k)
    ensures r == [] || (!IsWhiteSpace(r[0]) && !IsWhiteSpace(r[|r| - 1]))
  {
    var t := TrimStart(s);
    var r := TrimEnd(t);
    StartThenEndStrips(s, t, r);
    r
  }

  /** Dropping white space from the front of `s` (giving `t`) and then from the
      back of `t` (giving `r`) leaves the slice of `s` where `t` starts, with
      white space at neither of its ends. */
  lemma StartThenEndStrips(s: string, t: string, r: string)
    requires |t| <= |s| && t == s[|s| - |t|..]
    requires forall i | 0 <= i < |s| - |t| :: IsWhiteSpace(s[i])
    requires t == [] || !IsWhiteSpace(t[0])
    requires |r| <= |t| && r == t[..|r|]
    requires forall i | |r| <= i < |t| :: IsWhiteSpace(t[i])
    requires r == [] || !IsWhiteSpace(r[|r| - 1])
    ensures |r| <= |s|
    ensures StrippedAt(s, r, |s| - |t|)
    ensures exists k | 0 <= k <= |s| - |r| :: StrippedAt(s, r, k)
    ensures r == [] || (!IsWhiteSpace(r[0]) && !IsWhiteSpace(r[|r| - 1]))
  {
    var k := |s| - |t|;
    assert s[k..k + |r|] == r;
    forall i | k + |r| <= i < |s| ensures IsWhiteSpace(s[i]) {
      assert s[i] == t[i - k];
    }
    assert StrippedAt(s, r, k);
    if r != [] {
      assert r[0] == t[0];
    }
  }

  /** A string with white space at neither end is its own trim. */
  lemma TrimOfTrimmed(s: string)
    requires s == [] || (!IsWhiteSpace(s[0]) && !IsWhiteSpace(s[|s| - 1]))
    ensures Trim(s) == s
  {
  }

  /** Trimming twice is trimming once. */
  lemma TrimIdempotent(s: string)
    ensures Trim(Trim(s)) == Trim(s)
  {
    TrimOfTrimmed(Trim(s));
  }

  /** After trimming, "null or white space" means exactly "empty". */
  lemma TrimmedBlankIsEmpty(s: string)
    ensures IsNullOrWhiteSpace(Trim(s)) <==> Trim(s) == ""
  {
    var t := Trim(s);
    if t != "" {
      assert !IsWhiteSpace(t[0]);
    }
  }

  /** `s.Contains(sub)`: `sub` occurs in `s` at some position. */
  predicate Contains(s: string, sub: string) {
    exists i | 0 <= i <= |s| - |sub| :: OccursAt(s, sub, i)
  }

  /** `sub` is the slice of `s` that starts at position `i`. */
  predicate OccursAt(s: string, sub: string, i: int)
    requires 0 <= i <= |s| - |sub|
  {
    s[i..i + |sub|] == sub
  }

  /** A witness position establishes `Contains`. */
  lemma ContainsAt(s: string, sub: string, i: int)
    requires 0 <= i <= |s| - |sub| && s[i..i + |sub|] == sub
    ensures Contains(s, sub)
  {
    assert OccursAt(s, sub, i);
  }
}
