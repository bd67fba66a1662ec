/**
 * The two string operations the record store applies to submitted fields:
 * JavaScript's `String.prototype.trim` and `String.prototype.toLowerCase`.
 */
module Text {

  /**
   * The characters `trim` removes: the ECMAScript WhiteSpace code points
   * (tab, vertical tab, form feed, space, no-break space, byte order mark and
   * the space separators) and the LineTerminator code points.
   */
  predicate IsSpace(c: char)
  {
    || c == '\t' || c == '\n' || c == '\U{B}' || c == '\U{C}' || c == '\r' || c == ' '
    || c == '\U{A0}' || c == '\U{1680}' || ('\U{2000}' <= c <= '\U{200A}')
    || c == '\U{2028}' || c == '\U{2029}' || c == '\U{202F}' || c == '\U{205F}'
    || c == '\U{3000}' || c == '\U{FEFF}'
  }

  /** Every character of `s` at positions `lo` up to (not including) `hi` is whitespace. */
  predicate SpaceIn(s: string, lo: int, hi: int)
    requires 0 <= lo && hi <= |s|
  {
    forall k :: lo <= k < hi ==> IsSpace(s[k])
  }

  predicate AllSpace(s: string)
  {
    SpaceIn(s, 0, |s|)
  }

  /** Neither end of `s` is a whitespace character. */
  predicate IsTrimmed(s: string)
  {
    s == [] || (!IsSpace(s[0]) && !IsSpace(s[|s| - 1]))
  }

  /** The first position at or after `i` that does not hold whitespace, or `|s|`. */
  function SkipSpace(s: string, i: nat): (r: nat)
    requires i <= |s|
    ensures i <= r <= |s| && SpaceIn(s, i, r)
    ensures r < |s| ==> !IsSpace(s[r])
    decreases |s| - i
  {
    if i < |s| && IsSpace(s[i]) then SkipSpace(s, i + 1) else i
  }

  /** The end of `s[lo..j]` once its trailing whitespace is dropped. */
  function SkipSpaceBack(s: string, lo: nat, j: nat): (r: nat)
    requires lo <= j <= |s|
    ensures lo <= r <= j && SpaceIn(s, r, j)
    ensures lo < r ==> !IsSpace(s[r - 1])
    decreases j
  {
    if lo < j && IsSpace(s[j - 1]) then SkipSpaceBack(s, lo, j - 1) else j
  }

  /** Where `trim` starts its result. */
  function Lead(s: string): nat
  {
    SkipSpace(s, 0)
  }

  /** Where `trim` ends its result. */
  function Tail(s: string): nat
  {
    SkipSpaceBack(s, SkipSpace(s, 0), |s|)
  }

  /**
   * JavaScript `s.trim()`: the slice of `s` without whitespace at either end
   * such that everything before and after it is whitespace.
   */
  function Trim(s: string): (r: string)
    ensures IsTrimmed(r) && |r| <= |s|
    ensures Lead(s) + |r| <= |s| && r == s[Lead(s)..Lead(s) + |r|]
    ensures SpaceIn(s, 0, Lead(s)) && SpaceIn(s, Lead(s) + |r|, |s|)
  {
    s[Lead(s)..Tail(s)]
  }

  /** Trimming is determined by its characterisation: a trimmed slice with only whitespace outside it. */
  lemma TrimUnique(s: string, i: nat, j: nat)
    requires i <= j <= |s|
    requires SpaceIn(s, 0, i) && SpaceIn(s, j, |s|) && IsTrimmed(s[i..j])
    ensures Trim(s) == s[i..j]
  {
    var r, k := Trim(s), Lead(s);
    if i == j {
      // Every character of s is whitespace, so the trimmed result is empty.
      assert r == [];
    } else {
      assert s[i..j][0] == s[i] && s[i..j][j - i - 1] == s[j - 1];
      // s[i] is the first non-space and s[j - 1] the last one.
      assert k == i;
      assert r != [];
      assert r[|r| - 1] == s[k + |r| - 1];
      assert k + |r| == j;
    }
  }

  /** Trimming a string without whitespace at its ends changes nothing. */
  lemma TrimOfTrimmed(t: string)
    requires IsTrimmed(t)
    ensures Trim(t) == t
  {
    assert t[0..|t|] == t;
    TrimUnique(t, 0, |t|);
  }

  /** Trimming is idempotent. */
  lemma TrimIdempotent(s: string)
    ensures Trim(Trim(s)) == Trim(s)
  {
    TrimOfTrimmed(Trim(s));
  }

  /** `trim` yields the empty string exactly when the input is all whitespace. */
  lemma TrimEmptyIff(s: string)
    ensures Trim(s) == [] <==> AllSpace(s)
  {
    if AllSpace(s) {
      TrimUnique(s, 0, 0);
    }
  }

  predicate IsUpper(c: char) { 'A' <= c <= 'Z' }

  /** `toLowerCase` on one character, for the ASCII letters. */
  function LowerChar(c: char): (d: char)
    ensures !IsUpper(d)
    ensures IsUpper(c) ==> d == (c as int - 'A' as int + 'a' as int) as char
    ensures !IsUpper(c) ==> d == c
    ensures IsSpace(d) <==> IsSpace(c)
  {
    if IsUpper(c) then (c as int - 'A' as int + 'a' as int) as char else c
  }

  predicate NoUpper(s: string)
  {
    forall i :: 0 <= i < |s| ==> !IsUpper(s[i])
  }

  /** JavaScript `s.toLowerCase()`: same length, no upper-case letter left, everything else kept. */
  function Lower(s: string): (r: string)
    ensures |r| == |s| && NoUpper(r)
    ensures forall i :: 0 <= i < |s| && !IsUpper(s[i]) ==> r[i] == s[i]
    ensures forall i :: 0 <= i < |s| && IsUpper(s[i]) ==>
              r[i] == (s[i] as int - 'A' as int + 'a' as int) as char
  {
    seq(|s|, i requires 0 <= i < |s| => LowerChar(s[i]))
  }

  /** Lower-casing a string without upper-case letters changes nothing. */
  lemma LowerOfNoUpper(s: string)
    requires NoUpper(s)
    ensures Lower(s) == s
  {
  }

  /** Lower-casing twice is lower-casing once. */
  lemma LowerIdempotent(s: string)
    ensures Lower(Lower(s)) == Lower(s)
  {
    LowerOfNoUpper(Lower(s));
  }

  /** Lower-casing a slice is slicing the lower-cased string. */
  lemma LowerSlice(s: string, a: nat, b: nat)
    requires a <= b <= |s|
    ensures Lower(s)[a..b] == Lower(s[a..b])
  {
    forall k | 0 <= k < b - a
      ensures Lower(s)[a..b][k] == Lower(s[a..b])[k]
    {
      assert Lower(s)[a + k] == LowerChar(s[a + k]);
    }
  }

  /** Lower-casing moves no whitespace, so the forward scan stops at the same place. */
  lemma {:induction false} LowerSkipSpace(s: string, i: nat)
    requires i <= |s|
    ensures SkipSpace(Lower(s), i) == SkipSpace(s, i)
    decreases |s| - i
  {
    if i < |s| {
      assert Lower(s)[i] == LowerChar(s[i]);
      if IsSpace(s[i]) {
        LowerSkipSpace(s, i + 1);
      }
    }
  }

  /** Lower-casing moves no whitespace, so the backward scan stops at the same place. */
  lemma {:induction false} LowerSkipSpaceBack(s: string, lo: nat, j: nat)
    requires lo <= j <= |s|
    ensures SkipSpaceBack(Lower(s), lo, j) == SkipSpaceBack(s, lo, j)
    decreases j
  {
    if lo < j {
      assert Lower(s)[j - 1] == LowerChar(s[j - 1]);
      if IsSpace(s[j - 1]) {
        LowerSkipSpaceBack(s, lo, j - 1);
      }
    }
  }

  /**
   * Trimming and lower-casing commute, so the stored e-mail address does not
   * depend on the order in which the two transforms are applied.
   */
  lemma LowerTrimCommute(s: string)
    ensures Trim(Lower(s)) == Lower(Trim(s))
  {
    var a, b := Lead(s), Tail(s);
    LowerSkipSpace(s, 0);
    LowerSkipSpaceBack(s, a, |s|);
    assert Lead(Lower(s)) == a && Tail(Lower(s)) == b;
    LowerSlice(s, a, b);
  }
}
