/**
 * The string operations the pages rely on: `String.prototype.trim`, an ASCII
 * model of `toLowerCase`, and `String.prototype.includes`.
 */
module Text {

  /** The single code points JavaScript's `trim` removes, besides the range U+2000 to U+200A. */
  const WhitespaceCodes: set<int> :=
    {0x09, 0x0A, 0x0B, 0x0C, 0x0D, 0x20, 0xA0, 0x1680, 0x2028, 0x2029, 0x202F, 0x205F, 0x3000, 0xFEFF}

  /** The code points JavaScript's `trim` removes: WhiteSpace and LineTerminator. */
  predicate IsWhitespace(c: char) {
    c as int in WhitespaceCodes || 0x2000 <= c as int <= 0x200A
  }

  /** Every character is whitespace (the empty string included). */
  predicate IsBlank(s: string) {
    forall i :: 0 <= i < |s| ==> IsWhitespace(s[i])
  }

  /** Drops leading whitespace. */
  function TrimStart(s: string): (r: string)
    ensures |r| <= |s|
  {
    if s == [] || !IsWhitespace(s[0]) then s else TrimStart(s[1..])
  }

  /** `TrimStart` keeps a suffix of `s` that does not start with whitespace, and drops only whitespace. */
  lemma {:induction false} TrimStartSpec(s: string)
    ensures var r := TrimStart(s);
      && r == s[|s| - |r|..]
      && (r == [] || !IsWhitespace(r[0]))
      && IsBlank(s[..|s| - |r|])
  {
    if s != [] && IsWhitespace(s[0]) {
      var r := TrimStart(s[1..]);
      TrimStartSpec(s[1..]);
      assert s[1..][|s| - 1 - |r|..] == s[|s| - |r|..];
      assert s[..|s| - |r|] == [s[0]] + s[1..][..|s| - 1 - |r|];
    }
  }

  /** Drops trailing whitespace. */
  function TrimEnd(s: string): (r: string)
    ensures |r| <= |s|
  {
    if s == [] || !IsWhitespace(s[|s| - 1]) then s else TrimEnd(s[..|s| - 1])
  }

  /** `TrimEnd` keeps a prefix of `s` that does not end with whitespace, and drops only whitespace. */
  lemma {:induction false} TrimEndSpec(s: string)
    ensures var r := TrimEnd(s);
      && r == s[..|r|]
      && (r == [] || !IsWhitespace(r[|r| - 1]))
      && IsBlank(s[|r|..])
  {
    if s != [] && IsWhitespace(s[|s| - 1]) {
      var r := TrimEnd(s[..|s| - 1]);
      TrimEndSpec(s[..|s| - 1]);
      assert s[..|s| - 1][..|r|] == s[..|r|];
      assert s[|r|..] == s[..|s| - 1][|r|..] + [s[|s| - 1]];
    }
  }

  /** `s.trim()`: empty exactly when `s` is blank, which is how the pages' `!x.trim()` tests read. */
  function Trim(s: string): (r: string)
    ensures |r| <= |s|
    ensures r == [] <==> IsBlank(s)
  {
    var t := TrimStart(s);
    TrimStartSpec(s);
    TrimEndSpec(t);
    assert t == [] ==> s[..|s| - |t|] == s;
    assert t != [] ==> t[0] == s[|s| - |t|] && t[0..] == t;
    TrimEnd(t)
  }

  /** Neither end of a trimmed string is whitespace. */
  lemma TrimHasNoOuterWhitespace(s: string)
    ensures var r := Trim(s);
      r == [] || (!IsWhitespace(r[0]) && !IsWhitespace(r[|r| - 1]))
  {
    var t := TrimStart(s);
    var r := TrimEnd(t);
    TrimStartSpec(s);
    TrimEndSpec(t);
    assert r != [] ==> r[0] == t[0];
  }

  /** `term` occurs in `s` starting at position `i`. */
  predicate OccursAt(s: string, term: string, i: int) {
    0 <= i <= |s| - |term| && s[i..i + |term|] == term
  }

  /** The trimmed string is a contiguous piece of `s` with only whitespace around it. */
  lemma TrimIsInfix(s: string)
    ensures exists i :: OccursAt(s, Trim(s), i) && IsBlank(s[..i]) && IsBlank(s[i + |Trim(s)|..])
  {
    var t := TrimStart(s);
    var r := TrimEnd(t);
    var i := |s| - |t|;
    TrimStartSpec(s);
    TrimEndSpec(t);
    assert s[i..i + |r|] == t[..|r|];
    assert s[i + |r|..] == t[|r|..];
    assert OccursAt(s, r, i) && IsBlank(s[..i]) && IsBlank(s[i + |r|..]);
  }

  /** Trimming twice is trimming once. */
  lemma TrimIdempotent(s: string)
    ensures Trim(Trim(s)) == Trim(s)
  {
    var r := Trim(s);
    TrimHasNoOuterWhitespace(s);
    assert TrimStart(r) == r;
    assert TrimEnd(r) == r;
  }

  /** ASCII upper-case letters map to lower case; every other character is left alone. */
  function LowerChar(c: char): char {
    if 'A' <= c <= 'Z' then (c as int + 32) as char else c
  }

  /** `s.toLowerCase()`, restricted to the ASCII letters. */
  function ToLower(s: string): (r: string)
    ensures |r| == |s|
    ensures forall i :: 0 <= i < |s| ==> r[i] == LowerChar(s[i])
  {
    if s == [] then [] else [LowerChar(s[0])] + ToLower(s[1..])
  }

  predicate StartsWith(s: string, prefix: string) {
    |prefix| <= |s| && s[..|prefix|] == prefix
  }

  /** `s.includes(term)`: `term` occurs in `s` at some position (the empty term occurs everywhere). */
  function Contains(s: string, term: string): (r: bool)
    ensures r <==> exists i :: OccursAt(s, term, i)
    decreases |s|
  {
    if StartsWith(s, term) then
      assert OccursAt(s, term, 0);
      true
    else if s == [] then
      false
    else
      var r := Contains(s[1..], term);
      assert r ==> exists i :: OccursAt(s, term, i) by {
        if r {
          var j :| OccursAt(s[1..], term, j);
          assert s[j + 1..j + 1 + |term|] == s[1..][j..j + |term|];
          assert OccursAt(s, term, j + 1);
        }
      }
      assert (exists i :: OccursAt(s, term, i)) ==> r by {
        if exists i :: OccursAt(s, term, i) {
          var i :| OccursAt(s, term, i);
          assert i != 0;
          assert s[1..][i - 1..i - 1 + |term|] == s[i..i + |term|];
          assert OccursAt(s[1..], term, i - 1);
        }
      }
      r
  }
}
