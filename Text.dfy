/**
 * The three JavaScript string operations the dispatcher and the console rely on:
 * `String.prototype.trim`, `String.prototype.toUpperCase` and
 * `String.prototype.startsWith`. Strings are sequences of Unicode scalar values.
 */
module Text {

  /** The characters `trim` removes: ECMAScript's WhiteSpace and LineTerminator. */
  const Whitespace: set<char> := {
    '\t', '\n', '\U{000B}', '\U{000C}', '\r', ' ', '\U{00A0}', '\U{1680}',
    '\U{2000}', '\U{2001}', '\U{2002}', '\U{2003}', '\U{2004}', '\U{2005}',
    '\U{2006}', '\U{2007}', '\U{2008}', '\U{2009}', '\U{200A}',
    '\U{2028}', '\U{2029}', '\U{202F}', '\U{205F}', '\U{3000}', '\U{FEFF}'
  }

  predicate IsSpace(c: char) {
    c in Whitespace
  }

  predicate AllSpace(s: string) {
    forall i :: 0 <= i < |s| ==> IsSpace(s[i])
  }

  /** The first index at or after `i` whose character is not whitespace, or `|s|`. */
  function SkipSpaces(s: string, i: nat): (j: nat)
    requires i <= |s|
    ensures i <= j <= |s|
    ensures forall k :: i <= k < j ==> IsSpace(s[k])
    ensures j < |s| ==> !IsSpace(s[j])
    decreases |s| - i
  {
    if i == |s| || !IsSpace(s[i]) then i else SkipSpaces(s, i + 1)
  }

  /** The index just after the last non-whitespace character before `j`, or 0. */
  function SkipSpacesBack(s: string, j: nat): (i: nat)
    requires j <= |s|
    ensures i <= j
    ensures forall k :: i <= k < j ==> IsSpace(s[k])
    ensures i > 0 ==> !IsSpace(s[i - 1])
  {
    if j == 0 || !IsSpace(s[j - 1]) then j else SkipSpacesBack(s, j - 1)
  }

  /**
   * `s.trim()`: `s` without its leading and trailing whitespace, that is, from
   * its first to its last non-whitespace character.
   */
  function Trim(s: string): (r: string)
    ensures |r| <= |s|
    ensures r == [] <==> AllSpace(s)
    ensures r != [] ==> !IsSpace(r[0]) && !IsSpace(r[|r| - 1])
  {
    var lo, hi := SkipSpaces(s, 0), SkipSpacesBack(s, |s|);
    if lo < hi then s[lo..hi] else []
  }

  /** True of the strings that `trim` leaves as they are. */
  predicate IsTrimmed(s: string) {
    s == [] || (!IsSpace(s[0]) && !IsSpace(s[|s| - 1]))
  }

  /**
   * The trimmed text is fully determined: whatever whitespace surrounds a
   * string that neither starts nor ends with whitespace, `trim` gives that string.
   */
  lemma TrimUnique(pre: string, core: string, post: string)
    requires AllSpace(pre) && AllSpace(post) && IsTrimmed(core)
    ensures Trim(pre + core + post) == core
  {
    var s := pre + core + post;
    if core == [] {
      assert AllSpace(s) by {
        forall k | 0 <= k < |s| ensures IsSpace(s[k]) {
          if k < |pre| { assert s[k] == pre[k]; } else { assert s[k] == post[k - |pre|]; }
        }
      }
    } else {
      var lo, hi := |pre|, |pre| + |core|;
      assert s[lo] == core[0] && s[hi - 1] == core[|core| - 1];
      assert forall k :: 0 <= k < lo ==> s[k] == pre[k];
      assert forall k :: hi <= k < |s| ==> s[k] == post[k - hi];
      assert SkipSpaces(s, 0) == lo;
      assert SkipSpacesBack(s, |s|) == hi;
      assert s[lo..hi] == core;
    }
  }

  /**
   * Conversely, every string is its trimmed text surrounded by whitespace:
   * what `trim` removes is whitespace and nothing else.
   */
  lemma TrimSplit(s: string)
    ensures SkipSpaces(s, 0) + |Trim(s)| <= |s|
    ensures AllSpace(s[..SkipSpaces(s, 0)])
    ensures s[SkipSpaces(s, 0)..SkipSpaces(s, 0) + |Trim(s)|] == Trim(s)
    ensures AllSpace(s[SkipSpaces(s, 0) + |Trim(s)|..])
  {
    var lo, hi := SkipSpaces(s, 0), SkipSpacesBack(s, |s|);
    if lo >= hi {
      assert Trim(s) == [];
    }
  }

  /** Surrounding whitespace never changes what `trim` returns. */
  lemma TrimIgnoresPadding(pre: string, s: string, post: string)
    requires AllSpace(pre) && AllSpace(post)
    ensures Trim(pre + s + post) == Trim(s)
  {
    TrimSplit(s);
    var n := SkipSpaces(s, 0);
    var t := Trim(s);
    var a, b := s[..n], s[n + |t|..];
    SplitThree(s, n, n + |t|);
    calc {
      pre + s + post;
      pre + (a + t + b) + post;
      { AssociateFive(pre, a, t, b, post); }
      (pre + a) + t + (b + post);
    }
    AllSpaceConcat(pre, a);
    AllSpaceConcat(b, post);
    TrimUnique(pre + a, t, b + post);
  }

  /** `trim` is idempotent. */
  lemma TrimIdempotent(s: string)
    ensures Trim(Trim(s)) == Trim(s)
  {
    assert [] + Trim(s) + [] == Trim(s);
    TrimUnique([], Trim(s), []);
  }

  lemma SplitThree(s: string, i: nat, j: nat)
    requires i <= j <= |s|
    ensures s == s[..i] + s[i..j] + s[j..]
  {
  }

  lemma AssociateFive(p: string, a: string, t: string, b: string, q: string)
    ensures p + (a + t + b) + q == (p + a) + t + (b + q)
  {
  }

  lemma AllSpaceConcat(a: string, b: string)
    requires AllSpace(a) && AllSpace(b)
    ensures AllSpace(a + b)
  {
  }

  /**
   * `toUpperCase` on one character: the ASCII letters, plus the two non-ASCII
   * letters whose upper case is a single ASCII letter (dotless i and long s).
   */
  function UpperChar(c: char): (u: char)
    ensures 'a' <= c <= 'z' ==> u as int == c as int - 32
    ensures u == c || 'A' <= u <= 'Z'
    ensures !('a' <= u <= 'z') && u != '\U{0131}' && u != '\U{017F}'
  {
    if 'a' <= c <= 'z' then (c as int - 32) as char
    else if c == '\U{0131}' then 'I'
    else if c == '\U{017F}' then 'S'
    else c
  }

  /** `s.toUpperCase()`, character by character. */
  function Upper(s: string): (r: string)
    ensures |r| == |s|
  {
    seq(|s|, i requires 0 <= i < |s| => UpperChar(s[i]))
  }

  /** Upper-casing an upper-cased text changes nothing. */
  lemma UpperIdempotent(s: string)
    ensures Upper(Upper(s)) == Upper(s)
  {
  }

  /** Upper-casing neither creates nor removes whitespace. */
  lemma UpperCharKeepsSpace(c: char)
    ensures IsSpace(UpperChar(c)) <==> IsSpace(c)
  {
  }

  /** Trimming and upper-casing can be done in either order. */
  lemma UpperTrimCommute(s: string)
    ensures Upper(Trim(s)) == Trim(Upper(s))
  {
    TrimSplit(s);
    var n := SkipSpaces(s, 0);
    var t := Trim(s);
    var a, b := s[..n], s[n + |t|..];
    SplitThree(s, n, n + |t|);
    UpperConcat(a + t, b);
    UpperConcat(a, t);
    UpperKeepsAllSpace(a);
    UpperKeepsAllSpace(b);
    UpperKeepsTrimmed(t);
    TrimUnique(Upper(a), Upper(t), Upper(b));
  }

  lemma UpperConcat(a: string, b: string)
    ensures Upper(a + b) == Upper(a) + Upper(b)
  {
  }

  lemma UpperKeepsAllSpace(a: string)
    requires AllSpace(a)
    ensures AllSpace(Upper(a))
  {
    forall i | 0 <= i < |a| ensures IsSpace(Upper(a)[i]) {
      UpperCharKeepsSpace(a[i]);
    }
  }

  lemma UpperKeepsTrimmed(t: string)
    requires IsTrimmed(t)
    ensures IsTrimmed(Upper(t))
  {
    if t != [] {
      UpperCharKeepsSpace(t[0]);
      UpperCharKeepsSpace(t[|t| - 1]);
    }
  }

  /** `s.startsWith(p)`: `p` is `s`'s first `|p|` characters, one by one. */
  predicate StartsWith(s: string, p: string)
    ensures StartsWith(s, p) <==> |p| <= |s| && forall i :: 0 <= i < |p| ==> s[i] == p[i]
  {
    |p| <= |s| && s[..|p|] == p
  }
}
