/**
 * The string primitives of the JavaScript runtime that the app relies on:
 * `toLowerCase`, `trim`, the `\s`, `\p{Letter}` and `\p{Number}` classes and
 * `includes`. The Unicode tables themselves are not written out: they are a
 * parameter, so every property proved here holds whatever tables the engine ships.
 */
module Text {

  /**
   * The engine's Unicode tables. `lower` is `toLowerCase` applied to one code point
   * (a code point may lower-case to several); `isSpace` is the `\s` class, which is
   * also the set of characters `trim` removes.
   */
  datatype CharTables = CharTables(
    lower: char -> string,
    isLetter: char -> bool,
    isNumber: char -> bool,
    isSpace: char -> bool)

  /**
   * `s.toLowerCase()`, code point by code point: the mappings of the characters,
   * concatenated in order. Text whose characters all lower-case to themselves comes
   * back unchanged.
   */
  function ToLower(t: CharTables, s: string): (r: string)
    ensures (forall i :: 0 <= i < |s| ==> t.lower(s[i]) == [s[i]]) ==> r == s
    ensures |s| == 1 ==> r == t.lower(s[0])
  {
    if s == [] then [] else t.lower(s[0]) + ToLower(t, s[1..])
  }

  /**
   * `!s.trim()`: every character of `s` is white space, which is the same as the
   * leading run of white space covering the whole string.
   */
  predicate IsBlank(t: CharTables, s: string): (r: bool)
    ensures r <==> LeadingSpaces(t, s) == |s|
  {
    forall i :: 0 <= i < |s| ==> t.isSpace(s[i])
  }

  /** The length of the run of white space that `s` starts with. */
  function LeadingSpaces(t: CharTables, s: string): (n: nat)
    ensures n <= |s|
    ensures forall i :: 0 <= i < n ==> t.isSpace(s[i])
    ensures n < |s| ==> !t.isSpace(s[n])
  {
    if s == [] || !t.isSpace(s[0]) then 0 else 1 + LeadingSpaces(t, s[1..])
  }

  /** The length of the run of white space that `s` ends with. */
  function TrailingSpaces(t: CharTables, s: string): (n: nat)
    ensures n <= |s|
    ensures forall i :: |s| - n <= i < |s| ==> t.isSpace(s[i])
    ensures n < |s| ==> !t.isSpace(s[|s| - 1 - n])
  {
    if s == [] || !t.isSpace(s[|s| - 1]) then 0 else 1 + TrailingSpaces(t, s[..|s| - 1])
  }

  /**
   * `s.trim()`: the white space at both ends is removed and nothing else. The result
   * is the slice of `s` that starts after the leading run, and everything after it
   * is white space; it is empty exactly when `s` is blank.
   */
  function Trim(t: CharTables, s: string): (r: string)
    ensures LeadingSpaces(t, s) + |r| <= |s|
    ensures forall i :: 0 <= i < |r| ==> r[i] == s[LeadingSpaces(t, s) + i]
    ensures forall i :: LeadingSpaces(t, s) + |r| <= i < |s| ==> t.isSpace(s[i])
    ensures r == [] || (!t.isSpace(r[0]) && !t.isSpace(r[|r| - 1]))
    ensures r == [] <==> IsBlank(t, s)
  {
    var a := LeadingSpaces(t, s);
    var rest := s[a..];
    var r := rest[..|rest| - TrailingSpaces(t, rest)];
    r
  }

  /** Text that neither starts nor ends with white space comes through `trim` unchanged. */
  lemma TrimOfUnpadded(t: CharTables, s: string)
    requires s == [] || (!t.isSpace(s[0]) && !t.isSpace(s[|s| - 1]))
    ensures Trim(t, s) == s
  {
    var r := Trim(t, s);
    if s != [] {
      assert LeadingSpaces(t, s) == 0;
      assert |r| == |s|;
      assert forall i :: 0 <= i < |r| ==> r[i] == s[i];
    }
  }

  /** Cutting `s` at `a` and `b` and joining the three pieces gives `s` back. */
  lemma SliceThree(s: string, a: nat, b: nat)
    requires a <= b <= |s|
    ensures s == s[..a] + s[a..b] + s[b..]
  {
    assert s[..b] == s[..a] + s[a..b];
  }

  /** The trimmed string is the slice of `s` that starts after the leading white space. */
  lemma TrimIsSlice(t: CharTables, s: string)
    ensures Trim(t, s) == s[LeadingSpaces(t, s)..LeadingSpaces(t, s) + |Trim(t, s)|]
  {
  }

  /** The leading run of white space is blank. */
  lemma LeadingSpacesBlank(t: CharTables, s: string)
    ensures IsBlank(t, s[..LeadingSpaces(t, s)])
  {
    var pre := s[..LeadingSpaces(t, s)];
    forall i | 0 <= i < |pre| ensures t.isSpace(pre[i]) {
      assert pre[i] == s[i];
    }
  }

  /** What follows the trimmed string in `s` is white space. */
  lemma TrimLeavesBlankSuffix(t: CharTables, s: string)
    ensures IsBlank(t, s[LeadingSpaces(t, s) + |Trim(t, s)|..])
  {
    var b := LeadingSpaces(t, s) + |Trim(t, s)|;
    var post := s[b..];
    forall i | 0 <= i < |post| ensures t.isSpace(post[i]) {
      assert post[i] == s[b + i];
    }
  }

  /** `s` is its leading white space, the trimmed string, and its trailing white space. */
  lemma TrimSplits(t: CharTables, s: string)
    ensures s == s[..LeadingSpaces(t, s)] + Trim(t, s) + s[LeadingSpaces(t, s) + |Trim(t, s)|..]
    ensures IsBlank(t, s[..LeadingSpaces(t, s)])
    ensures IsBlank(t, s[LeadingSpaces(t, s) + |Trim(t, s)|..])
  {
    TrimIsSlice(t, s);
    LeadingSpacesBlank(t, s);
    TrimLeavesBlankSuffix(t, s);
    SliceThree(s, LeadingSpaces(t, s), LeadingSpaces(t, s) + |Trim(t, s)|);
  }

  /** `needle` occurs in `hay` starting at position `i`. */
  predicate OccursAt(hay: string, needle: string, i: nat) {
    i + |needle| <= |hay| && hay[i..i + |needle|] == needle
  }

  /**
   * `hay.includes(needle)`: `needle` occurs somewhere in `hay`. The empty string
   * occurs in every string, a prefix occurs, and nothing longer than `hay` does.
   */
  predicate Contains(hay: string, needle: string): (r: bool)
    ensures needle <= hay ==> r
    ensures r ==> |needle| <= |hay|
  {
    assert needle <= hay ==> OccursAt(hay, needle, 0);
    exists i: nat :: i <= |hay| && OccursAt(hay, needle, i)
  }

  /** `s.split(sep)[0]` for a one-character separator: `s` up to its first `sep`. */
  function SplitHead(s: string, sep: char): (r: string)
    ensures sep !in r
    ensures |r| <= |s| && r == s[..|r|]
    ensures |r| < |s| ==> s[|r|] == sep
  {
    if s == [] || s[0] == sep then [] else [s[0]] + SplitHead(s[1..], sep)
  }

  /** Splitting `n + sep + m` at its first `sep` gives back `n` when `n` holds no `sep`. */
  lemma {:induction false} SplitHeadOfJoin(n: string, sep: char, m: string)
    requires sep !in n
    ensures SplitHead(n + [sep] + m, sep) == n
  {
    if n != [] {
      assert (n + [sep] + m)[1..] == n[1..] + [sep] + m;
      SplitHeadOfJoin(n[1..], sep, m);
    }
  }
}
