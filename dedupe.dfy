/**
 * `dedupeByArtistTitle` (App.tsx): one pass over the items, keeping the first item
 * of every identity key `${norm(artist)}|${norm(title)}` and dropping the later ones.
 */
module Dedupe {
  import opened Wrappers
  import opened Text
  import opened Normalize
  import opened Artwork

  /** The identity key of an item, `${norm(it.artist)}|${norm(it.title)}`. */
  function ArtistTitleKey(t: CharTables): Item -> string {
    (it: Item) => IdentityKey(t, it.artist, it.title)
  }

  /** The keys of a list of items. */
  function KeySet(key: Item -> string, items: seq<Item>): set<string> {
    set i | 0 <= i < |items| :: key(items[i])
  }

  /** No two items of `items` share a key. */
  ghost predicate DistinctKeys(key: Item -> string, items: seq<Item>) {
    forall a, b :: 0 <= a < b < |items| ==> key(items[a]) != key(items[b])
  }

  /** No item before position `i` has the key of `items[i]`: the item at `i` is the first of its key. */
  ghost predicate FirstOfKey(key: Item -> string, items: seq<Item>, i: int)
    requires 0 <= i < |items|
  {
    forall j :: 0 <= j < i ==> key(items[j]) != key(items[i])
  }

  /**
   * What the loop computes on a prefix of its input: the result for all but the
   * last item, followed by the last item when its key was not seen before it.
   */
  function Deduped(key: Item -> string, items: seq<Item>): seq<Item>
    decreases |items|
  {
    if items == [] then []
    else
      var init, last := items[..|items| - 1], items[|items| - 1];
      Deduped(key, init) + (if key(last) in KeySet(key, init) then [] else [last])
  }

  /** The positions in `items` of the items `Deduped` keeps, in order. */
  ghost function KeptPositions(key: Item -> string, items: seq<Item>): seq<nat>
    decreases |items|
  {
    if items == [] then []
    else
      var init, last := items[..|items| - 1], items[|items| - 1];
      KeptPositions(key, init) + (if key(last) in KeySet(key, init) then [] else [|items| - 1])
  }

  lemma KeySetSnoc(key: Item -> string, init: seq<Item>, last: Item)
    ensures KeySet(key, init + [last]) == KeySet(key, init) + {key(last)}
  {
    var s := init + [last];
    forall k | k in KeySet(key, s) ensures k in KeySet(key, init) + {key(last)} {
      var i :| 0 <= i < |s| && key(s[i]) == k;
      if i < |init| { assert s[i] == init[i]; }
    }
    forall k | k in KeySet(key, init) ensures k in KeySet(key, s) {
      var i :| 0 <= i < |init| && key(init[i]) == k;
      assert s[i] == init[i];
    }
    assert s[|init|] == last;
  }

  /** Every key of the input is still present in the output, and no other key. */
  lemma {:induction false} DedupedKeys(key: Item -> string, items: seq<Item>)
    ensures KeySet(key, Deduped(key, items)) == KeySet(key, items)
    decreases |items|
  {
    if items != [] {
      var init, last := items[..|items| - 1], items[|items| - 1];
      assert items == init + [last];
      DedupedKeys(key, init);
      KeySetSnoc(key, init, last);
      if key(last) !in KeySet(key, init) {
        assert Deduped(key, items) == Deduped(key, init) + [last];
        KeySetSnoc(key, Deduped(key, init), last);
      } else {
        assert Deduped(key, items) == Deduped(key, init);
      }
    }
  }

  /** No two items of the output share a key. */
  lemma {:induction false} DedupedDistinct(key: Item -> string, items: seq<Item>)
    ensures DistinctKeys(key, Deduped(key, items))
    decreases |items|
  {
    if items != [] {
      var init, last := items[..|items| - 1], items[|items| - 1];
      var r0 := Deduped(key, init);
      DedupedDistinct(key, init);
      if key(last) !in KeySet(key, init) {
        DedupedKeys(key, init);
        var r := r0 + [last];
        forall a, b | 0 <= a < b < |r| ensures key(r[a]) != key(r[b]) {
          if b == |r0| {
            assert key(r0[a]) in KeySet(key, r0);
          } else {
            assert r[a] == r0[a] && r[b] == r0[b];
          }
        }
      }
    }
  }

  /**
   * The output is the input with the later duplicates removed: the item at output
   * position k is the input item at KeptPositions[k]; those positions increase
   * (original order is kept), each is the first occurrence of its key (first seen
   * wins), and every first occurrence is among them (nothing else is dropped).
   */
  lemma {:induction false} DedupedPositions(key: Item -> string, items: seq<Item>)
    ensures var r, pos := Deduped(key, items), KeptPositions(key, items);
      && |pos| == |r|
      && (forall k :: 0 <= k < |r| ==> pos[k] < |items| && r[k] == items[pos[k]])
      && (forall k, l :: 0 <= k < l < |r| ==> pos[k] < pos[l])
      && (forall k :: 0 <= k < |r| ==> FirstOfKey(key, items, pos[k]))
      && (forall i :: 0 <= i < |items| && FirstOfKey(key, items, i) ==> i in pos)
  {
    KeptPositionsPick(key, items);
    KeptPositionsFirst(key, items);
  }

  /** The kept positions increase, and the output holds the input's items at them. */
  lemma {:induction false} KeptPositionsPick(key: Item -> string, items: seq<Item>)
    ensures var r, pos := Deduped(key, items), KeptPositions(key, items);
      && |pos| == |r|
      && (forall k :: 0 <= k < |r| ==> pos[k] < |items| && r[k] == items[pos[k]])
      && (forall k, l :: 0 <= k < l < |r| ==> pos[k] < pos[l])
    decreases |items|
  {
    if items != [] {
      var init := items[..|items| - 1];
      KeptPositionsPick(key, init);
      assert forall i :: 0 <= i < |init| ==> items[i] == init[i];
    }
  }

  /** The kept positions are exactly the first occurrences of their keys. */
  lemma {:induction false} KeptPositionsFirst(key: Item -> string, items: seq<Item>)
    ensures var pos := KeptPositions(key, items);
      && (forall k :: 0 <= k < |pos| ==> pos[k] < |items| && FirstOfKey(key, items, pos[k]))
      && (forall i :: 0 <= i < |items| && FirstOfKey(key, items, i) ==> i in pos)
    decreases |items|
  {
    if items != [] {
      var init, last := items[..|items| - 1], items[|items| - 1];
      KeptPositionsFirst(key, init);
      var pos0, pos := KeptPositions(key, init), KeptPositions(key, items);
      assert forall i :: 0 <= i < |init| ==> items[i] == init[i];
      assert forall i :: 0 <= i < |init| ==> (FirstOfKey(key, items, i) <==> FirstOfKey(key, init, i));
      assert FirstOfKey(key, items, |init|) <==> key(last) !in KeySet(key, init) by {
        if key(last) in KeySet(key, init) {
          var j :| 0 <= j < |init| && key(init[j]) == key(last);
          assert key(items[j]) == key(items[|init|]);
        }
      }
      forall i | 0 <= i < |items| && FirstOfKey(key, items, i) ensures i in pos {
        if i < |init| {
          assert i in pos0;
        }
      }
    }
  }

  /** The output is never longer than the input. */
  lemma DedupedLength(key: Item -> string, items: seq<Item>)
    ensures |Deduped(key, items)| <= |items|
  {
    DedupedPositions(key, items);
    var r, pos := Deduped(key, items), KeptPositions(key, items);
    if |r| > 0 {
      assert forall k :: 0 <= k < |r| ==> k <= pos[k] by {
        forall k | 0 <= k < |r| ensures k <= pos[k] {
          StrictlyIncreasingAbove(pos, k);
        }
      }
      assert |r| - 1 <= pos[|r| - 1] < |items|;
    }
  }

  lemma {:induction false} StrictlyIncreasingAbove(pos: seq<nat>, k: nat)
    requires k < |pos|
    requires forall a, b :: 0 <= a < b < |pos| ==> pos[a] < pos[b]
    ensures k <= pos[k]
  {
    if k > 0 {
      StrictlyIncreasingAbove(pos, k - 1);
    }
  }

  /** On input whose keys are already distinct, deduplication changes nothing. */
  lemma {:induction false} DedupedOfDistinct(key: Item -> string, items: seq<Item>)
    requires DistinctKeys(key, items)
    ensures Deduped(key, items) == items
    decreases |items|
  {
    if items != [] {
      var init, last := items[..|items| - 1], items[|items| - 1];
      DedupedOfDistinct(key, init);
      assert key(last) !in KeySet(key, init) by {
        forall j | 0 <= j < |init| ensures key(init[j]) != key(last) {
          assert items[j] == init[j];
        }
      }
      assert items == init + [last];
    }
  }

  /** Deduplicating twice is the same as deduplicating once. */
  lemma DedupedIdempotent(key: Item -> string, items: seq<Item>)
    ensures Deduped(key, Deduped(key, items)) == Deduped(key, items)
  {
    DedupedDistinct(key, items);
    DedupedOfDistinct(key, Deduped(key, items));
  }

  /**
   * When two result lists are merged by concatenation and deduplicated, an item of
   * the output whose key occurs in the first list comes from the first list: on a
   * collision the first list's record wins.
   */
  lemma DedupedPrefersFirstList(key: Item -> string, a: seq<Item>, b: seq<Item>)
    ensures var r := Deduped(key, a + b);
      forall k :: 0 <= k < |r| && key(r[k]) in KeySet(key, a) ==> r[k] in a
  {
    var s := a + b;
    DedupedPositions(key, s);
    var r, pos := Deduped(key, s), KeptPositions(key, s);
    forall k | 0 <= k < |r| && key(r[k]) in KeySet(key, a) ensures r[k] in a {
      var j :| 0 <= j < |a| && key(a[j]) == key(r[k]);
      assert s[j] == a[j];
      assert pos[k] < |a|;
      assert s[pos[k]] == a[pos[k]];
    }
  }

  /** One step of the loop below keeps its invariant, whichever branch it takes. */
  lemma DedupedStep(key: Item -> string, items: seq<Item>, i: nat, seen: set<string>, out: seq<Item>)
    requires i < |items|
    requires seen == KeySet(key, items[..i]) && out == Deduped(key, items[..i])
    ensures key(items[i]) in seen ==> out == Deduped(key, items[..i + 1])
    ensures key(items[i]) !in seen ==> out + [items[i]] == Deduped(key, items[..i + 1])
    ensures seen + {key(items[i])} == KeySet(key, items[..i + 1])
  {
    assert items[..i + 1][..i] == items[..i];
    KeySetSnoc(key, items[..i], items[i]);
  }

  /**
   * `dedupeByArtistTitle(items)`: a `seen` set of keys and an output list built in
   * one pass; an item whose key is already in `seen` is skipped.
   */
  method DedupeByArtistTitle(t: CharTables, items: seq<Item>) returns (out: seq<Item>)
    ensures out == Deduped(ArtistTitleKey(t), items)
  {
    var key := ArtistTitleKey(t);
    var seen: set<string> := {};
    out := [];
    for i := 0 to |items|
      invariant seen == KeySet(key, items[..i])
      invariant out == Deduped(key, items[..i])
    {
      DedupedStep(key, items, i, seen, out);
      var k := key(items[i]);
      if k in seen {
        continue;
      }
      seen := seen + {k};
      out := out + [items[i]];
    }
    assert items[..|items|] == items;
  }
}
