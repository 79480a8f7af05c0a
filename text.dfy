/**
 * The part of JavaScript's String.prototype.trim that the chat game relies on:
 * removing leading and trailing white space from the typed message and from
 * the completion text. Characters are Unicode scalar values; JavaScript works
 * on UTF-16 code units, but every white-space character is a single code unit,
 * so the two views trim the same characters.
 */
module Text {

  /** ECMAScript WhiteSpace and LineTerminator code points (the Zs category listed out). */
  predicate IsWhitespace(c: char) {
    c in {'\t', '\n', '\U{B}', '\U{C}', '\r', ' ', '\U{A0}', '\U{1680}',
          '\U{2000}', '\U{2001}', '\U{2002}', '\U{2003}', '\U{2004}', '\U{2005}',
          '\U{2006}', '\U{2007}', '\U{2008}', '\U{2009}', '\U{200A}',
          '\U{2028}', '\U{2029}', '\U{202F}', '\U{205F}', '\U{3000}', '\U{FEFF}'}
  }

  predicate AllWhitespace(s: string) {
    forall i :: 0 <= i < |s| ==> IsWhitespace(s[i])
  }

  /** Drops the leading white space; what is left does not start with white space. */
  function TrimStart(s: string): (r: string)
    ensures |r| <= |s|
    ensures r == [] || !IsWhitespace(r[0])
  {
    if s == [] || !IsWhitespace(s[0]) then s else TrimStart(s[1..])
  }

  /** Drops the trailing white space; what is left does not end with white space. */
  function TrimEnd(s: string): (r: string)
    ensures |r| <= |s|
    ensures r == [] || !IsWhitespace(r[|r| - 1])
  {
    if s == [] || !IsWhitespace(s[|s| - 1]) then s else TrimEnd(s[..|s| - 1])
  }

  /** What `TrimStart` leaves is a suffix of its input, and all it drops is white space. */
  lemma {:induction false} TrimStartDropsWhitespace(s: string)
    ensures var r := TrimStart(s);
      |r| <= |s| && r == s[|s| - |r|..] && AllWhitespace(s[..|s| - |r|])
    decreases |s|
  {
    if s != [] && IsWhitespace(s[0]) {
      var r := TrimStart(s[1..]);
      TrimStartDropsWhitespace(s[1..]);
      assert s[1..][|s| - 1 - |r|..] == s[|s| - |r|..];
      var dropped := s[..|s| - |r|];
      forall i | 0 <= i < |dropped| ensures IsWhitespace(dropped[i]) {
        if i > 0 { assert dropped[i] == s[1..][..|s| - 1 - |r|][i - 1]; }
      }
    }
  }

  /** What `TrimEnd` leaves is a prefix of its input, and all it drops is white space. */
  lemma {:induction false} TrimEndDropsWhitespace(s: string)
    ensures var r := TrimEnd(s);
      |r| <= |s| && r == s[..|r|] && AllWhitespace(s[|r|..])
    decreases |s|
  {
    if s != [] && IsWhitespace(s[|s| - 1]) {
      var r := TrimEnd(s[..|s| - 1]);
      TrimEndDropsWhitespace(s[..|s| - 1]);
      assert s[..|s| - 1][..|r|] == s[..|r|];
      var dropped := s[|r|..];
      forall i | 0 <= i < |dropped| ensures IsWhitespace(dropped[i]) {
        if i < |s| - 1 - |r| { assert dropped[i] == s[..|s| - 1][|r|..][i]; }
      }
    }
  }

  /** `s.trim()`: drop the leading, then the trailing white space. The result neither starts nor ends with white space. */
  function Trim(s: string): (r: string)
    ensures |r| <= |s|
    ensures r == [] || (!IsWhitespace(r[0]) && !IsWhitespace(r[|r| - 1]))
  {
    var t := TrimStart(s);
    TrimEndDropsWhitespace(t);
    TrimEnd(t)
  }

  /**
   * The trimmed string is the slice of `s` from `start` on, and everything
   * before and after that slice is white space.
   */
  lemma TrimIsSlice(s: string)
    ensures var r, start := Trim(s), |s| - |TrimStart(s)|;
      start + |r| <= |s| && r == s[start..start + |r|] &&
      AllWhitespace(s[..start]) && AllWhitespace(s[start + |r|..])
  {
    var t := TrimStart(s);
    var r := Trim(s);
    var start := |s| - |t|;
    TrimStartDropsWhitespace(s);
    TrimEndDropsWhitespace(t);
    assert r == TrimEnd(t);
    SliceOfSuffix(s, start, |r|);
  }

  /** A prefix of a suffix is a middle slice, and what follows it is the rest of the suffix. */
  lemma SliceOfSuffix(s: string, start: nat, n: nat)
    requires start + n <= |s|
    ensures s[start..][..n] == s[start..start + n] && s[start..][n..] == s[start + n..]
  {
  }

  /** Trimming leaves nothing exactly when the string is all white space. */
  lemma TrimEmptyIff(s: string)
    ensures Trim(s) == [] <==> AllWhitespace(s)
  {
    TrimIsSlice(s);
    var start := |s| - |TrimStart(s)|;
    if Trim(s) == [] {
      forall i | 0 <= i < |s| ensures IsWhitespace(s[i]) {
        if i < start { assert s[i] == s[..start][i]; } else { assert s[i] == s[start..][i - start]; }
      }
    } else {
      assert s[start] == Trim(s)[0];
    }
  }

  /** Trimming a trimmed string changes nothing. */
  lemma TrimIdempotent(s: string)
    ensures Trim(Trim(s)) == Trim(s)
  {
    var r := Trim(s);
    assert TrimStart(r) == r;
    assert TrimEnd(r) == r;
  }
}
