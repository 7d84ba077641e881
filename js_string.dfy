/** Small option type shared by the modules below. */
module Optional {
  datatype Option<+T> = None | Some(value: T)
}

/**
 * The JavaScript string operations the chat code depends on:
 * `String.prototype.trim`, `toLowerCase`, `includes` and `length`.
 * A JavaScript string is modelled as a sequence of code points; `Utf16Length`
 * recovers the length JavaScript reports, which counts UTF-16 code units.
 */
module JsString {

  /** The code points `trim` strips: ECMAScript WhiteSpace and LineTerminator. */
  predicate IsSpace(c: char) {
    c == '\t' || c == '\n' || c == '\U{000B}' || c == '\U{000C}' || c == '\r' || c == ' '
    || c == '\U{00A0}' || c == '\U{1680}' || ('\U{2000}' <= c <= '\U{200A}')
    || c == '\U{2028}' || c == '\U{2029}' || c == '\U{202F}' || c == '\U{205F}'
    || c == '\U{3000}' || c == '\U{FEFF}'
  }

  /** Position `i` of `s` holds white space. */
  predicate SpaceAt(s: string, i: int) {
    0 <= i < |s| && IsSpace(s[i])
  }

  predicate AllSpace(s: string) {
    forall i :: 0 <= i < |s| ==> SpaceAt(s, i)
  }

  lemma AllSpaceAt(s: string, i: int)
    requires AllSpace(s) && 0 <= i < |s|
    ensures IsSpace(s[i])
  {
    assert SpaceAt(s, i);
  }

  /** The first index at or after `i` whose code point is not white space, or `|s|`. */
  function SkipSpace(s: string, i: nat): (a: nat)
    requires i <= |s|
    ensures i <= a <= |s|
    ensures forall k :: i <= k < a ==> SpaceAt(s, k)
    ensures a < |s| ==> !IsSpace(s[a])
    decreases |s| - i
  {
    if i < |s| && IsSpace(s[i]) then SkipSpace(s, i + 1) else i
  }

  /** Going back from `j` but not below `lo`: the index just past the last code point that is not white space, or `lo`. */
  function SkipSpaceBack(s: string, lo: nat, j: nat): (b: nat)
    requires lo <= j <= |s|
    ensures lo <= b <= j
    ensures forall k :: b <= k < j ==> SpaceAt(s, k)
    ensures b > lo ==> !IsSpace(s[b - 1])
    decreases j
  {
    if j > lo && IsSpace(s[j - 1]) then SkipSpaceBack(s, lo, j - 1) else j
  }

  /** Where the trimmed text begins. */
  function TrimFrom(s: string): nat {
    SkipSpace(s, 0)
  }

  /** Where the trimmed text ends. */
  function TrimTo(s: string): (b: nat)
    ensures TrimFrom(s) <= b <= |s|
  {
    SkipSpaceBack(s, TrimFrom(s), |s|)
  }

  /** `s.trim()`: the text between the leading and the trailing white space. */
  function Trim(s: string): (r: string)
    ensures |r| <= |s|
    ensures r != [] ==> !IsSpace(r[0]) && !IsSpace(r[|r| - 1])
    ensures r == [] <==> AllSpace(s)
  {
    var a, b := TrimFrom(s), TrimTo(s);
    assert a < |s| ==> !SpaceAt(s, a);
    s[a..b]
  }

  /** The white space `Trim` removes from the front of `s`. */
  function Leading(s: string): string {
    s[..TrimFrom(s)]
  }

  /** The white space `Trim` removes from the back of `s`. */
  function Trailing(s: string): string {
    s[TrimTo(s)..]
  }

  /** `s` is `Trim(s)` surrounded by white space only. */
  lemma TrimSplit(s: string)
    ensures s == Leading(s) + Trim(s) + Trailing(s)
    ensures AllSpace(Leading(s)) && AllSpace(Trailing(s))
  {
    var a, b := TrimFrom(s), TrimTo(s);
    assert s == s[..a] + s[a..b] + s[b..];
    forall k | 0 <= k < a ensures SpaceAt(s[..a], k) {
      assert SpaceAt(s, k);
    }
    forall k | 0 <= k < |s| - b ensures SpaceAt(s[b..], k) {
      assert SpaceAt(s, b + k);
    }
  }

  /** `!s.trim()`: true when `s` is empty after trimming. */
  predicate IsBlank(s: string) {
    Trim(s) == []
  }

  /** Trimming an already trimmed string changes nothing. */
  lemma TrimIdempotent(s: string)
    ensures Trim(Trim(s)) == Trim(s)
  {
    var r := Trim(s);
    if r != [] {
      assert TrimFrom(r) == 0;
      assert TrimTo(r) == |r|;
      assert r[0..|r|] == r;
    }
  }

  /** `c.toLowerCase()` for the ASCII range; other code points are kept. */
  function LowerChar(c: char): char {
    if 'A' <= c <= 'Z' then (c as int + 32) as char else c
  }

  /** `s.toLowerCase()`, with case mapping restricted to ASCII letters. */
  function Lower(s: string): (r: string)
    ensures |r| == |s|
  {
    seq(|s|, i requires 0 <= i < |s| => LowerChar(s[i]))
  }

  /** After lower-casing every ASCII capital is its own small letter, none is left, and every other code point is kept. */
  lemma LowerShape(s: string)
    ensures forall i :: 0 <= i < |s| && 'A' <= s[i] <= 'Z' ==> Lower(s)[i] as int == s[i] as int + 32
    ensures forall i :: 0 <= i < |s| ==> !('A' <= Lower(s)[i] <= 'Z')
    ensures forall i :: 0 <= i < |s| && !('A' <= s[i] <= 'Z') ==> Lower(s)[i] == s[i]
  {
  }

  /** `s` begins with `p`. */
  predicate StartsWith(s: string, p: string) {
    |p| <= |s| && s[..|p|] == p
  }

  /** `p` occurs in `s` starting at index `i`. */
  predicate OccursAt(s: string, p: string, i: int) {
    0 <= i <= |s| && StartsWith(s[i..], p)
  }

  /** `s.includes(p)`, scanning the start positions from left to right. */
  function Contains(s: string, p: string): bool
    decreases |s|
  {
    if StartsWith(s, p) then true
    else if s == [] then false
    else Contains(s[1..], p)
  }

  /** `Contains` finds an occurrence exactly when there is one. */
  lemma {:induction false} ContainsIff(s: string, p: string)
    ensures Contains(s, p) <==> exists i :: OccursAt(s, p, i)
    decreases |s|
  {
    if StartsWith(s, p) {
      assert OccursAt(s, p, 0);
    } else if s == [] {
      assert forall i :: OccursAt(s, p, i) ==> i == 0;
    } else {
      ContainsIff(s[1..], p);
      assert forall i :: 0 < i ==> (OccursAt(s, p, i) <==> OccursAt(s[1..], p, i - 1)) by {
        forall i | 0 < i <= |s| ensures s[i..] == s[1..][i - 1..] { }
      }
      if Contains(s[1..], p) {
        var j :| OccursAt(s[1..], p, j);
        assert OccursAt(s, p, j + 1);
      }
    }
  }

  /**
   * Whether `p` occurs in `s` does not depend on surrounding white space when
   * `p` itself neither starts nor ends with white space.
   */
  lemma ContainsTrim(s: string, p: string)
    requires p != [] && !IsSpace(p[0]) && !IsSpace(p[|p| - 1])
    ensures Contains(Trim(s), p) <==> Contains(s, p)
  {
    var t, pre, post := Trim(s), Leading(s), Trailing(s);
    TrimSplit(s);
    ContainsIff(t, p);
    ContainsIff(s, p);
    if Contains(t, p) {
      var i :| OccursAt(t, p, i);
      OccursInside(pre, t, post, p, i);
    }
    if Contains(s, p) {
      var i :| OccursAt(s, p, i);
      OccursOnlyInside(pre, t, post, p, i);
    }
  }

  /** An occurrence in `t` is an occurrence in `pre + t + post`, shifted by `|pre|`. */
  lemma OccursInside(pre: string, t: string, post: string, p: string, i: int)
    requires OccursAt(t, p, i)
    ensures OccursAt(pre + t + post, p, |pre| + i)
  {
    var s := pre + t + post;
    assert s[|pre| + i..][..|p|] == t[i..][..|p|];
  }

  /** With white space around `t`, a pattern with non-space ends can only occur within `t`. */
  lemma OccursOnlyInside(pre: string, t: string, post: string, p: string, i: int)
    requires AllSpace(pre) && AllSpace(post)
    requires p != [] && !IsSpace(p[0]) && !IsSpace(p[|p| - 1])
    requires OccursAt(pre + t + post, p, i)
    ensures OccursAt(t, p, i - |pre|)
  {
    var s := pre + t + post;
    assert s[i] == s[i..][..|p|][0] == p[0];
    if i < |pre| {
      AllSpaceAt(pre, i);
      assert false;
    }
    var last := i + |p| - 1;
    assert s[last] == s[i..][..|p|][|p| - 1] == p[|p| - 1];
    if last >= |pre| + |t| {
      AllSpaceAt(post, last - |pre| - |t|);
      assert false;
    }
    assert t[i - |pre|..][..|p|] == s[i..][..|p|];
  }

  /** The number of UTF-16 code units of one code point. */
  function Utf16Units(c: char): nat {
    if c as int > 0xFFFF then 2 else 1
  }

  /** The number of UTF-16 code units of the first `j` code points of `s`. */
  function Utf16Prefix(s: string, j: nat): (n: nat)
    requires j <= |s|
    ensures j <= n <= 2 * j
    ensures n == j <==> forall i :: 0 <= i < j ==> s[i] as int <= 0xFFFF
  {
    if j == 0 then 0 else Utf16Prefix(s, j - 1) + Utf16Units(s[j - 1])
  }

  /** `s.length`: JavaScript counts UTF-16 code units, two per astral code point. */
  function Utf16Length(s: string): (n: nat)
    ensures |s| <= n <= 2 * |s|
    ensures n == |s| <==> forall i :: 0 <= i < |s| ==> s[i] as int <= 0xFFFF
  {
    Utf16Prefix(s, |s|)
  }

  /** Code points appended after position `j` do not change the count up to `j`. */
  lemma {:induction false} Utf16PrefixAppend(a: string, b: string, j: nat)
    requires j <= |a|
    ensures Utf16Prefix(a + b, j) == Utf16Prefix(a, j)
  {
    if j > 0 {
      assert (a + b)[j - 1] == a[j - 1];
      Utf16PrefixAppend(a, b, j - 1);
    }
  }

  /** Counting into the appended part adds the count of that part. */
  lemma {:induction false} Utf16PrefixInto(a: string, b: string, k: nat)
    requires k <= |b|
    ensures Utf16Prefix(a + b, |a| + k) == Utf16Length(a) + Utf16Prefix(b, k)
  {
    if k == 0 {
      Utf16PrefixAppend(a, b, |a|);
    } else {
      assert (a + b)[|a| + k - 1] == b[k - 1];
      Utf16PrefixInto(a, b, k - 1);
    }
  }

  /** The UTF-16 length of a concatenation is the sum of the lengths. */
  lemma Utf16LengthAppend(a: string, b: string)
    ensures Utf16Length(a + b) == Utf16Length(a) + Utf16Length(b)
  {
    Utf16PrefixInto(a, b, |b|);
  }
}
