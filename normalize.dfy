/**
 * `norm` (App.tsx): the identity normalisation used to recognise the same artwork
 * under two catalog identifiers. It lower-cases, collapses every run of white space
 * to one space, strips every character that is not a letter, a number or white
 * space, and trims, in that order.
 */
module Normalize {
  import opened Wrappers
  import opened Text
  import opened Sequences

  /** Every white-space character of `s` is the plain space. */
  predicate OnlyPlainSpaces(t: CharTables, s: string) {
    forall i :: 0 <= i < |s| ==> s[i] == ' ' || !t.isSpace(s[i])
  }

  /** No two neighbouring characters of `s` are both white space. */
  ghost predicate NoAdjacentSpaces(t: CharTables, s: string) {
    forall i, j :: 0 <= i < j < |s| && j == i + 1 ==> !t.isSpace(s[i]) || !t.isSpace(s[j])
  }

  /** `.replace(/\s+/g, " ")`: every maximal run of white space becomes one space. */
  function CollapseSpaces(t: CharTables, s: string): (r: string)
    ensures |r| <= |s|
    ensures s != [] && !t.isSpace(s[0]) ==> r != [] && r[0] == s[0]
    ensures OnlyPlainSpaces(t, r)
    ensures NoAdjacentSpaces(t, r)
    decreases |s|
  {
    if s == [] then []
    else if t.isSpace(s[0]) then " " + CollapseSpaces(t, s[LeadingSpaces(t, s)..])
    else [s[0]] + CollapseSpaces(t, s[1..])
  }

  /** The characters `/[^\p{Letter}\p{Number}\s]/gu` does not match. */
  predicate Kept(t: CharTables, c: char) {
    t.isLetter(c) || t.isNumber(c) || t.isSpace(c)
  }

  /** `Kept` as a value to filter with. */
  function KeptBy(t: CharTables): char -> bool {
    (c: char) => Kept(t, c)
  }

  /** The characters that are not white space. */
  function NotSpace(t: CharTables): char -> bool {
    (c: char) => !t.isSpace(c)
  }

  /**
   * The characters that carry an artwork's identity: letters and numbers. (No
   * Unicode letter or number is white space; the second conjunct only matters
   * for tables that would say otherwise.)
   */
  function IsText(t: CharTables): char -> bool {
    (c: char) => (t.isLetter(c) || t.isNumber(c)) && !t.isSpace(c)
  }

  /**
   * `.replace(/[^\p{Letter}\p{Number}\s]/gu, "")`: a character survives exactly
   * when it is a letter, a number or white space, and the survivors keep their
   * order (`StripSymbolsAppend`).
   */
  function StripSymbols(t: CharTables, s: string): (r: string)
    ensures |r| <= |s|
    ensures forall c :: c in r <==> c in s && Kept(t, c)
    ensures forall i :: 0 <= i < |r| ==> Kept(t, r[i])
    ensures OnlyPlainSpaces(t, s) ==> OnlyPlainSpaces(t, r)
  {
    Filter(s, KeptBy(t))
  }

  /** Text made only of kept characters comes through stripping unchanged. */
  lemma StripSymbolsOfKept(t: CharTables, s: string)
    requires forall i :: 0 <= i < |s| ==> Kept(t, s[i])
    ensures StripSymbols(t, s) == s
  {
    forall c | c in s ensures KeptBy(t)(c) {
      var i :| 0 <= i < |s| && s[i] == c;
    }
    FilterAll(s, KeptBy(t));
  }

  /** A character that is not kept disappears and its neighbours close up. */
  lemma StripSymbolsDrops(t: CharTables, a: string, c: char, b: string)
    requires !Kept(t, c)
    ensures StripSymbols(t, a + [c] + b) == StripSymbols(t, a + b)
  {
    FilterAppend(a + [c], b, KeptBy(t));
    FilterAppend(a, [c], KeptBy(t));
    FilterAppend(a, b, KeptBy(t));
  }

  /** Stripping a concatenation strips each part: the survivors keep their order. */
  lemma StripSymbolsAppend(t: CharTables, a: string, b: string)
    ensures StripSymbols(t, a + b) == StripSymbols(t, a) + StripSymbols(t, b)
  {
    FilterAppend(a, b, KeptBy(t));
  }

  /** Trimming text made of letters, numbers and plain spaces leaves such text. */
  lemma TrimOfText(t: CharTables, s: string)
    requires forall i :: 0 <= i < |s| ==> Kept(t, s[i])
    requires OnlyPlainSpaces(t, s)
    ensures var r := Trim(t, s);
      forall i :: 0 <= i < |r| ==> t.isLetter(r[i]) || t.isNumber(r[i]) || r[i] == ' '
  {
    var a, r := LeadingSpaces(t, s), Trim(t, s);
    forall i | 0 <= i < |r| ensures t.isLetter(r[i]) || t.isNumber(r[i]) || r[i] == ' ' {
      assert r[i] == s[a + i];
    }
  }

  /**
   * `norm(s)`. The result holds only letters, numbers and the plain space (every
   * other white-space character was turned into a space before the strip), it has
   * no white space at either end, and a missing or empty input gives "".
   */
  function Norm(t: CharTables, s: Option<string>): (r: string)
    ensures forall i :: 0 <= i < |r| ==> t.isLetter(r[i]) || t.isNumber(r[i]) || r[i] == ' '
    ensures r == [] || (!t.isSpace(r[0]) && !t.isSpace(r[|r| - 1]))
    ensures t.isSpace(' ') && r != [] ==> r[0] != ' ' && r[|r| - 1] != ' '
    ensures !Truthy(s) ==> r == []
  {
    var collapsed := CollapseSpaces(t, ToLower(t, OrEmpty(s)));
    var stripped := StripSymbols(t, collapsed);
    TrimOfText(t, stripped);
    Trim(t, stripped)
  }

  /** A filter that drops white space drops all of a blank string. */
  lemma FilterOfBlank(t: CharTables, s: string, keep: char -> bool)
    requires IsBlank(t, s)
    requires forall c :: keep(c) ==> !t.isSpace(c)
    ensures Filter(s, keep) == []
  {
    forall c | c in s ensures !keep(c) {
      var i :| 0 <= i < |s| && s[i] == c;
    }
    FilterNone(s, keep);
  }

  /**
   * Collapsing white space touches nothing else: whatever a filter that drops white
   * space keeps of the input, it keeps of the output, in the same order. (This needs
   * the plain space, which replaces each run, to be white space itself.)
   */
  lemma {:induction false} CollapseSpacesKeepsText(t: CharTables, s: string, keep: char -> bool)
    requires t.isSpace(' ')
    requires forall c :: keep(c) ==> !t.isSpace(c)
    ensures Filter(CollapseSpaces(t, s), keep) == Filter(s, keep)
    decreases |s|
  {
    if s == [] {
    } else if t.isSpace(s[0]) {
      var n := LeadingSpaces(t, s);
      var run, rest := s[..n], s[n..];
      assert s == run + rest;
      FilterOfBlank(t, " ", keep);
      FilterOfBlank(t, run, keep);
      calc {
        Filter(CollapseSpaces(t, s), keep);
        Filter(" " + CollapseSpaces(t, rest), keep);
        { FilterAppend(" ", CollapseSpaces(t, rest), keep); }
        Filter(CollapseSpaces(t, rest), keep);
        { CollapseSpacesKeepsText(t, rest, keep); }
        Filter(rest, keep);
        { FilterAppend(run, rest, keep); }
        Filter(s, keep);
      }
    } else {
      var rest := s[1..];
      assert s == [s[0]] + rest;
      calc {
        Filter(CollapseSpaces(t, s), keep);
        Filter([s[0]] + CollapseSpaces(t, rest), keep);
        { FilterAppend([s[0]], CollapseSpaces(t, rest), keep); }
        Filter([s[0]], keep) + Filter(CollapseSpaces(t, rest), keep);
        { CollapseSpacesKeepsText(t, rest, keep); }
        Filter([s[0]], keep) + Filter(rest, keep);
        { FilterAppend([s[0]], rest, keep); }
        Filter(s, keep);
      }
    }
  }

  /** A run of white space followed by text is exactly as long as the run. */
  lemma {:induction false} LeadingSpacesOfRun(t: CharTables, w: string, b: string)
    requires IsBlank(t, w)
    requires b == [] || !t.isSpace(b[0])
    ensures LeadingSpaces(t, w + b) == |w|
    decreases |w|
  {
    if w == [] {
      assert w + b == b;
    } else {
      assert (w + b)[0] == w[0];
      assert (w + b)[1..] == w[1..] + b;
      assert IsBlank(t, w[1..]) by {
        forall i | 0 <= i < |w[1..]| ensures t.isSpace(w[1..][i]) {
          assert w[1..][i] == w[i + 1];
        }
      }
      LeadingSpacesOfRun(t, w[1..], b);
    }
  }

  /**
   * A whole run of white space, however long and of whatever white-space
   * characters, becomes exactly one plain space.
   */
  lemma CollapseSpacesRun(t: CharTables, w: string, b: string)
    requires w != [] && IsBlank(t, w)
    requires b == [] || !t.isSpace(b[0])
    ensures CollapseSpaces(t, w + b) == " " + CollapseSpaces(t, b)
  {
    LeadingSpacesOfRun(t, w, b);
    assert (w + b)[0] == w[0];
    assert (w + b)[|w|..] == b;
  }

  /** Characters that are not white space are copied through, in order. */
  lemma {:induction false} CollapseSpacesText(t: CharTables, u: string, b: string)
    requires forall i :: 0 <= i < |u| ==> !t.isSpace(u[i])
    ensures CollapseSpaces(t, u + b) == u + CollapseSpaces(t, b)
    decreases |u|
  {
    if u == [] {
      assert u + b == b;
    } else {
      assert (u + b)[0] == u[0];
      assert (u + b)[1..] == u[1..] + b;
      CollapseSpacesText(t, u[1..], b);
      assert u == [u[0]] + u[1..];
    }
  }

  /** Trimming removes only white space, so a filter that drops white space cannot tell. */
  lemma TrimKeepsText(t: CharTables, s: string, keep: char -> bool)
    requires forall c :: keep(c) ==> !t.isSpace(c)
    ensures Filter(Trim(t, s), keep) == Filter(s, keep)
  {
    var a, r := LeadingSpaces(t, s), Trim(t, s);
    var pre, post := s[..a], s[a + |r|..];
    TrimSplits(t, s);
    FilterOfBlank(t, pre, keep);
    FilterOfBlank(t, post, keep);
    calc {
      Filter(s, keep);
      { FilterAppend(pre + r, post, keep); }
      Filter(pre + r, keep) + Filter(post, keep);
      { FilterAppend(pre, r, keep); }
      Filter(pre, keep) + Filter(r, keep) + Filter(post, keep);
    }
  }

  /**
   * What `norm` keeps: with its spaces taken out, `norm(s)` is exactly the letters
   * and numbers of the lower-cased input, in their order. Only white space and
   * symbols are ever removed, and nothing is reordered.
   */
  lemma NormKeepsText(t: CharTables, s: Option<string>)
    requires t.isSpace(' ')
    ensures Filter(Norm(t, s), NotSpace(t)) == Filter(ToLower(t, OrEmpty(s)), IsText(t))
  {
    var lower := ToLower(t, OrEmpty(s));
    var collapsed := CollapseSpaces(t, lower);
    var stripped := StripSymbols(t, collapsed);
    TrimKeepsText(t, stripped, NotSpace(t));
    FilterOfFilter(collapsed, KeptBy(t), NotSpace(t), IsText(t));
    CollapseSpacesKeepsText(t, lower, IsText(t));
  }

  /**
   * A word that `norm` leaves alone: letters and numbers, none of them white space,
   * each lower-casing to itself.
   */
  predicate PlainWord(t: CharTables, u: string) {
    forall i :: 0 <= i < |u| ==>
      (t.isLetter(u[i]) || t.isNumber(u[i])) && !t.isSpace(u[i]) && t.lower(u[i]) == [u[i]]
  }

  /** A plain word normalises to itself. */
  lemma NormOfWord(t: CharTables, u: string)
    requires PlainWord(t, u)
    ensures Norm(t, Some(u)) == u
  {
    if u != [] {
      assert OrEmpty(Some(u)) == u;
      assert ToLower(t, u) == u;
      CollapseSpacesText(t, u, []);
      assert u + [] == u;
      StripSymbolsOfKept(t, u);
      TrimOfUnpadded(t, u);
    }
  }

  /** Collapsing two plain words around a run of white space leaves one space between them. */
  lemma CollapseTwoWords(t: CharTables, u: string, w: string, v: string)
    requires PlainWord(t, u) && PlainWord(t, v) && v != []
    requires w != [] && IsBlank(t, w)
    ensures CollapseSpaces(t, u + w + v) == u + " " + v
  {
    calc {
      CollapseSpaces(t, u + w + v);
      { assert u + w + v == u + (w + v); }
      CollapseSpaces(t, u + (w + v));
      { CollapseSpacesText(t, u, w + v); }
      u + CollapseSpaces(t, w + v);
      { CollapseSpacesRun(t, w, v); }
      u + (" " + CollapseSpaces(t, v));
      { CollapseSpacesText(t, v, []); assert v + [] == v; }
      u + " " + v;
    }
  }

  /** Two plain words and the white space between them lower-case to themselves. */
  lemma LowerTwoWords(t: CharTables, u: string, w: string, v: string)
    requires PlainWord(t, u) && PlainWord(t, v)
    requires forall i :: 0 <= i < |w| ==> t.lower(w[i]) == [w[i]]
    ensures ToLower(t, u + w + v) == u + w + v
  {
    var s := u + w + v;
    forall i | 0 <= i < |s| ensures t.lower(s[i]) == [s[i]] {
      if i < |u| {
        assert s[i] == u[i];
      } else if i < |u| + |w| {
        assert s[i] == w[i - |u|];
      } else {
        assert s[i] == v[i - |u| - |w|];
      }
    }
  }

  /** Two plain words joined by the plain space lose nothing to stripping. */
  lemma StripTwoWords(t: CharTables, u: string, v: string)
    requires t.isSpace(' ')
    requires PlainWord(t, u) && PlainWord(t, v)
    ensures StripSymbols(t, u + " " + v) == u + " " + v
  {
    var c := u + " " + v;
    forall i | 0 <= i < |c| ensures Kept(t, c[i]) {
      if i < |u| {
        assert c[i] == u[i];
      } else if i > |u| {
        assert c[i] == v[i - |u| - 1];
      }
    }
    StripSymbolsOfKept(t, c);
  }

  /**
   * Two plain words separated by any non-empty run of white space (characters that
   * lower-case to themselves) normalise to the two words joined by one space.
   */
  lemma NormOfTwoWords(t: CharTables, u: string, w: string, v: string)
    requires t.isSpace(' ')
    requires u != [] && v != [] && PlainWord(t, u) && PlainWord(t, v)
    requires w != [] && IsBlank(t, w) && forall i :: 0 <= i < |w| ==> t.lower(w[i]) == [w[i]]
    ensures Norm(t, Some(u + w + v)) == u + " " + v
  {
    var s, c := u + w + v, u + " " + v;
    assert OrEmpty(Some(s)) == s;
    LowerTwoWords(t, u, w, v);
    CollapseTwoWords(t, u, w, v);
    StripTwoWords(t, u, v);
    assert c[0] == u[0] && c[|c| - 1] == v[|v| - 1];
    TrimOfUnpadded(t, c);
  }

  /**
   * White space between two words is never lost: "claude monet" and "claudemonet"
   * normalise differently, so they give different identity keys.
   */
  lemma NormKeepsWordBreak(t: CharTables, u: string, w: string, v: string)
    requires t.isSpace(' ')
    requires u != [] && v != [] && PlainWord(t, u) && PlainWord(t, v)
    requires w != [] && IsBlank(t, w) && forall i :: 0 <= i < |w| ==> t.lower(w[i]) == [w[i]]
    ensures Norm(t, Some(u + w + v)) != Norm(t, Some(u + v))
  {
    NormOfTwoWords(t, u, w, v);
    assert PlainWord(t, u + v) by {
      forall i | 0 <= i < |u + v| ensures (u + v)[i] == if i < |u| then u[i] else v[i - |u|] {
      }
    }
    NormOfWord(t, u + v);
  }

  /**
   * The identity key `${norm(artist)}|${norm(title)}`. Since `|` is neither a
   * letter nor a number, splitting the key at its first `|` gives back the two
   * normalised fields.
   */
  function IdentityKey(t: CharTables, artist: Option<string>, title: Option<string>): (r: string)
    ensures '|' in r
    ensures !t.isLetter('|') && !t.isNumber('|') ==>
      SplitHead(r, '|') == Norm(t, artist) && r[|SplitHead(r, '|')| + 1..] == Norm(t, title)
  {
    var n, m := Norm(t, artist), Norm(t, title);
    assert n + "|" + m == n + ['|'] + m;
    assert !t.isLetter('|') && !t.isNumber('|') ==> SplitHead(n + "|" + m, '|') == n by {
      if !t.isLetter('|') && !t.isNumber('|') {
        SplitHeadOfJoin(n, '|', m);
      }
    }
    n + "|" + m
  }

  /**
   * The key format is unambiguous: since `|` is neither a letter nor a number, it
   * cannot occur inside a normalised field, so two keys are equal exactly when both
   * normalised fields are.
   */
  lemma {:induction false} IdentityKeyUnambiguous(t: CharTables, a1: Option<string>, t1: Option<string>,
                                                  a2: Option<string>, t2: Option<string>)
    requires !t.isLetter('|') && !t.isNumber('|')
    ensures IdentityKey(t, a1, t1) == IdentityKey(t, a2, t2)
        <==> Norm(t, a1) == Norm(t, a2) && Norm(t, t1) == Norm(t, t2)
  {
    var k1, k2 := IdentityKey(t, a1, t1), IdentityKey(t, a2, t2);
    if k1 == k2 {
      assert Norm(t, a1) == SplitHead(k1, '|') == Norm(t, a2);
      assert Norm(t, t1) == k1[|SplitHead(k1, '|')| + 1..] == Norm(t, t2);
    }
  }

  /** What every version of the Unicode tables says about the four characters of "a ! b". */
  predicate StandardOnSample(t: CharTables) {
    && t.lower('a') == "a" && t.lower('b') == "b" && t.lower(' ') == " " && t.lower('!') == "!"
    && t.isLetter('a') && t.isLetter('b') && !t.isSpace('a') && !t.isSpace('b')
    && t.isSpace(' ') && !Kept(t, '!')
  }

  /**
   * `norm` is not idempotent: collapsing runs of white space happens before symbols
   * are stripped, so a symbol between two spaces leaves a double space behind, and a
   * second `norm` collapses it.
   */
  lemma NormNotIdempotent(t: CharTables)
    requires StandardOnSample(t)
    ensures Norm(t, Some("a ! b")) == "a  b"
    ensures Norm(t, Some("a  b")) == "a b"
  {
    NormSample1(t);
    NormSample2(t);
  }

  lemma NormSample1(t: CharTables)
    requires StandardOnSample(t)
    ensures Norm(t, Some("a ! b")) == "a  b"
  {
    LowerSample(t);
    CollapseSample1(t);
    StripSample1(t);
    TrimSample1(t);
  }

  lemma NormSample2(t: CharTables)
    requires StandardOnSample(t)
    ensures Norm(t, Some("a  b")) == "a b"
  {
    LowerSample2(t);
    CollapseSample2(t);
    StripSample2(t);
    TrimSample2(t);
  }

  /**
   * Case, doubled spaces and punctuation do not change the identity: "A  b!" and
   * "a b" normalise to the same text, so two records that spell a field these two
   * ways get the same key.
   */
  lemma NormIgnoresCaseAndSymbols(t: CharTables)
    requires StandardOnSample(t) && t.lower('A') == "a"
    ensures Norm(t, Some("A  b!")) == Norm(t, Some("a b")) == "a b"
  {
    NormSample3(t);
    NormSample4(t);
  }

  lemma NormSample3(t: CharTables)
    requires StandardOnSample(t) && t.lower('A') == "a"
    ensures Norm(t, Some("A  b!")) == "a b"
  {
    LowerSample3(t);
    CollapseSample3(t);
    StripSample3(t);
    TrimSample2(t);
  }

  lemma NormSample4(t: CharTables)
    requires StandardOnSample(t)
    ensures Norm(t, Some("a b")) == "a b"
  {
    LowerSample4(t);
    CollapseSample4(t);
    StripSample2(t);
    TrimSample2(t);
  }

  // The stages of `norm` on the two sample strings, one lemma per stage.

  lemma LowerSample(t: CharTables)
    requires StandardOnSample(t)
    ensures ToLower(t, "a ! b") == "a ! b"
  {
    assert ToLower(t, "b") == "b";
    assert ToLower(t, " b") == " b";
    assert ToLower(t, "! b") == "! b";
    assert ToLower(t, " ! b") == " ! b";
  }

  lemma CollapseSample1(t: CharTables)
    requires StandardOnSample(t)
    ensures CollapseSpaces(t, "a ! b") == "a ! b"
  {
    assert CollapseSpaces(t, "b") == "b";
    assert LeadingSpaces(t, " b") == 1;
    assert CollapseSpaces(t, " b") == " b";
    assert CollapseSpaces(t, "! b") == "! b";
    assert LeadingSpaces(t, " ! b") == 1;
    assert CollapseSpaces(t, " ! b") == " ! b";
  }

  lemma StripSample1(t: CharTables)
    requires StandardOnSample(t)
    ensures StripSymbols(t, "a ! b") == "a  b"
  {
    DropBang(t);
    SampleKept(t);
    StripSymbolsOfKept(t, "a  b");
  }

  lemma SampleKept(t: CharTables)
    requires StandardOnSample(t)
    ensures forall i :: 0 <= i < |"a  b"| ==> Kept(t, "a  b"[i])
  {
  }

  lemma DropBang(t: CharTables)
    requires StandardOnSample(t)
    ensures StripSymbols(t, "a ! b") == StripSymbols(t, "a  b")
  {
    StripSymbolsDrops(t, "a ", '!', " b");
    assert "a ! b" == "a " + ['!'] + " b";
    assert "a " + " b" == "a  b";
  }

  lemma TrimSample1(t: CharTables)
    requires StandardOnSample(t)
    ensures Trim(t, "a  b") == "a  b"
  {
  }

  lemma LowerSample2(t: CharTables)
    requires StandardOnSample(t)
    ensures ToLower(t, "a  b") == "a  b"
  {
    assert ToLower(t, "b") == "b";
    assert ToLower(t, " b") == " b";
    assert ToLower(t, "  b") == "  b";
  }

  lemma CollapseSample2(t: CharTables)
    requires StandardOnSample(t)
    ensures CollapseSpaces(t, "a  b") == "a b"
  {
    assert CollapseSpaces(t, "b") == "b";
    assert LeadingSpaces(t, "b") == 0;
    assert LeadingSpaces(t, " b") == 1;
    assert LeadingSpaces(t, "  b") == 2;
    assert "  b"[2..] == "b";
    assert CollapseSpaces(t, "  b") == " b";
  }

  lemma StripSample2(t: CharTables)
    requires StandardOnSample(t)
    ensures StripSymbols(t, "a b") == "a b"
  {
    StripSymbolsOfKept(t, "a b");
  }

  lemma TrimSample2(t: CharTables)
    requires StandardOnSample(t)
    ensures Trim(t, "a b") == "a b"
  {
  }

  lemma LowerSample3(t: CharTables)
    requires StandardOnSample(t) && t.lower('A') == "a"
    ensures ToLower(t, "A  b!") == "a  b!"
  {
    assert ToLower(t, "!") == "!";
    assert ToLower(t, "b!") == "b!";
    assert ToLower(t, " b!") == " b!";
    assert ToLower(t, "  b!") == "  b!";
  }

  lemma CollapseSample3(t: CharTables)
    requires StandardOnSample(t)
    ensures CollapseSpaces(t, "a  b!") == "a b!"
  {
    assert CollapseSpaces(t, "!") == "!";
    assert CollapseSpaces(t, "b!") == "b!";
    assert LeadingSpaces(t, "b!") == 0;
    assert LeadingSpaces(t, " b!") == 1;
    assert LeadingSpaces(t, "  b!") == 2;
    assert "  b!"[2..] == "b!";
    assert CollapseSpaces(t, "  b!") == " b!";
  }

  lemma StripSample3(t: CharTables)
    requires StandardOnSample(t)
    ensures StripSymbols(t, "a b!") == "a b"
  {
    StripSymbolsDrops(t, "a b", '!', "");
    assert "a b!" == "a b" + ['!'] + "";
    assert "a b" + "" == "a b";
    StripSymbolsOfKept(t, "a b");
  }

  lemma LowerSample4(t: CharTables)
    requires StandardOnSample(t)
    ensures ToLower(t, "a b") == "a b"
  {
    assert ToLower(t, "b") == "b";
    assert ToLower(t, " b") == " b";
  }

  lemma CollapseSample4(t: CharTables)
    requires StandardOnSample(t)
    ensures CollapseSpaces(t, "a b") == "a b"
  {
    assert CollapseSpaces(t, "b") == "b";
    assert LeadingSpaces(t, " b") == 1;
    assert CollapseSpaces(t, " b") == " b";
  }
}
