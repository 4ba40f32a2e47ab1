/**
 * The post-ranking step of `handleSearch` (App.tsx): the fuzzy matcher's hits come
 * first; when there are fewer than six of them, every item whose artist or title
 * contains the query (case-insensitively) is appended unless the fuzzy pass already
 * returned its id; the list is then cut to sixty items.
 */
module Ranking {
  import opened Wrappers
  import opened Text
  import opened Artwork
  import opened Sequences

  /** Below this many fuzzy hits the substring fallback runs (`ranked.length < 6`). */
  const MinFuzzyHits: nat := 6
  /** The most results ever shown (`ranked.slice(0, 60)`). */
  const ResultCap: nat := 60

  function Min(a: nat, b: nat): nat {
    if a <= b then a else b
  }

  /**
   * The substring test of the fallback: the lower-cased artist or the lower-cased
   * title (a missing one counting as "") contains the already lower-cased query.
   * The empty query matches every item.
   */
  predicate MatchesQuery(t: CharTables, it: Item, lower: string): (r: bool)
    ensures lower == [] ==> r
  {
    || Contains(ToLower(t, OrEmpty(it.artist)), lower)
    || Contains(ToLower(t, OrEmpty(it.title)), lower)
  }

  /** An item the fallback appends: it matches the query and the fuzzy pass missed its id. */
  function FreshMatch(t: CharTables, query: string, fuzzy: seq<Item>): Item -> bool {
    (x: Item) => MatchesQuery(t, x, ToLower(t, query)) && x.id !in Ids(fuzzy)
  }

  /**
   * The items the fallback appends after the fuzzy hits. The two filters of the
   * source (substring matches, then ids not yet seen) amount to one filter of
   * `merged`, so the appended items are the fresh matches in `merged` order.
   */
  function FallbackMatches(t: CharTables, merged: seq<Item>, query: string, fuzzy: seq<Item>): (r: seq<Item>)
    ensures r == Filter(merged, FreshMatch(t, query, fuzzy))
    ensures forall x :: x in r <==> x in merged && MatchesQuery(t, x, ToLower(t, query)) && x.id !in Ids(fuzzy)
  {
    var lower := ToLower(t, query);
    var matches := (it: Item) => MatchesQuery(t, it, lower);
    var seen := Ids(fuzzy);
    var unseen := (x: Item) => x.id !in seen;
    FilterOfFilter(merged, matches, unseen, FreshMatch(t, query, fuzzy));
    Filter(Filter(merged, matches), unseen)
  }

  /**
   * The ranked result for fuzzy hits `fuzzy` over the backend's `merged` items.
   * It never holds more than sixty items. With six or more fuzzy hits it is their
   * first sixty and no fallback runs. With fewer, the fuzzy hits stay in front, in
   * their order, and the rest of the room under the cap goes to the first fresh
   * matches of `merged`, in `merged` order.
   */
  function Rank(t: CharTables, merged: seq<Item>, query: string, fuzzy: seq<Item>): (r: seq<Item>)
    ensures |r| <= ResultCap
    ensures |fuzzy| >= MinFuzzyHits ==> r == fuzzy[..Min(ResultCap, |fuzzy|)]
    ensures |fuzzy| < MinFuzzyHits ==>
      var tail := FallbackMatches(t, merged, query, fuzzy);
      && |r| == Min(ResultCap, |fuzzy| + |tail|)
      && r[..|fuzzy|] == fuzzy
      && r[|fuzzy|..] == tail[..|r| - |fuzzy|]
    ensures |fuzzy| < MinFuzzyHits ==>
      forall k :: |fuzzy| <= k < |r| ==>
        r[k] in merged && MatchesQuery(t, r[k], ToLower(t, query)) && r[k].id !in Ids(fuzzy)
  {
    var tail := FallbackMatches(t, merged, query, fuzzy);
    var ranked := if |fuzzy| < MinFuzzyHits then fuzzy + tail else fuzzy;
    PrefixOfJoin(fuzzy, tail, Min(ResultCap, |fuzzy| + |tail|));
    ranked[..Min(ResultCap, |ranked|)]
  }

  /**
   * A prefix of `front + back` at least as long as `front` is `front`, then a
   * prefix of `back`.
   */
  lemma PrefixOfJoin<T>(front: seq<T>, back: seq<T>, n: nat)
    requires n <= |front| + |back|
    ensures |front| <= n ==> (front + back)[..n][..|front|] == front
    ensures |front| <= n ==> (front + back)[..n][|front|..] == back[..n - |front|]
    ensures forall k :: |front| <= k < n ==> (front + back)[..n][k] in back
  {
    var r := (front + back)[..n];
    forall k | |front| <= k < n ensures r[k] in back {
      assert r[k] == back[k - |front|];
    }
  }

  /** The ranking block as `handleSearch` writes it out, step by step, computes `Rank`. */
  lemma RankUnfold(t: CharTables, merged: seq<Item>, query: string, fuzzy: seq<Item>)
    ensures var ranked := if |fuzzy| < MinFuzzyHits then fuzzy + FallbackMatches(t, merged, query, fuzzy) else fuzzy;
      Rank(t, merged, query, fuzzy) == ranked[..Min(ResultCap, |ranked|)]
  {
  }

  /**
   * The fallback follows `merged` order: the matches from the front part of the
   * backend's list come before those from the back part.
   */
  lemma FallbackMatchesAppend(t: CharTables, a: seq<Item>, b: seq<Item>, query: string, fuzzy: seq<Item>)
    ensures FallbackMatches(t, a + b, query, fuzzy)
         == FallbackMatches(t, a, query, fuzzy) + FallbackMatches(t, b, query, fuzzy)
  {
    FilterAppend(a, b, FreshMatch(t, query, fuzzy));
  }

  /**
   * Below six fuzzy hits, every fallback match is in the result whenever the fuzzy
   * hits and the fallback matches together fit under the cap.
   */
  lemma RankKeepsFallbackUnderCap(t: CharTables, merged: seq<Item>, query: string, fuzzy: seq<Item>)
    requires |fuzzy| < MinFuzzyHits
    requires |fuzzy| + |FallbackMatches(t, merged, query, fuzzy)| <= ResultCap
    ensures forall x ::
      x in merged && MatchesQuery(t, x, ToLower(t, query)) && x.id !in Ids(fuzzy) ==>
        x in Rank(t, merged, query, fuzzy)
  {
    var tail := FallbackMatches(t, merged, query, fuzzy);
    assert Rank(t, merged, query, fuzzy) == fuzzy + tail;
  }

  /**
   * The fallback trigger: below six fuzzy hits, a single substring match of `merged`
   * that the fuzzy pass missed is enough for the result to grow past the fuzzy hits.
   */
  lemma RankFallbackFires(t: CharTables, merged: seq<Item>, query: string, fuzzy: seq<Item>, x: Item)
    requires |fuzzy| < MinFuzzyHits
    requires x in merged && MatchesQuery(t, x, ToLower(t, query)) && x.id !in Ids(fuzzy)
    ensures |Rank(t, merged, query, fuzzy)| > |fuzzy|
  {
    assert x in FallbackMatches(t, merged, query, fuzzy);
  }

  /**
   * When the fuzzy matcher only returns items of `merged` (as Fuse.js does), so does
   * the ranking; in particular ranking an empty list gives an empty list.
   */
  lemma RankDrawsFromMerged(t: CharTables, merged: seq<Item>, query: string, fuzzy: seq<Item>)
    requires forall x :: x in fuzzy ==> x in merged
    ensures forall x :: x in Rank(t, merged, query, fuzzy) ==> x in merged
    ensures merged == [] ==> Rank(t, merged, query, fuzzy) == []
  {
    var r := Rank(t, merged, query, fuzzy);
    forall x | x in r ensures x in merged {
      var k :| 0 <= k < |r| && r[k] == x;
      if k < |fuzzy| {
        if |fuzzy| < MinFuzzyHits {
          assert r[..|fuzzy|][k] == x;
        }
        assert x in fuzzy;
      }
    }
    assert |r| > 0 ==> r[0] in merged;
  }

  /** A query that neither the fuzzy pass nor any substring test matches gives no results. */
  lemma RankNothingMatches(t: CharTables, merged: seq<Item>, query: string)
    requires forall x :: x in merged ==> !MatchesQuery(t, x, ToLower(t, query))
    ensures Rank(t, merged, query, []) == []
  {
    assert FallbackMatches(t, merged, query, []) == [];
  }
}
