/** The stable sort of a side by numeric price. Its result is pinned down by two properties that
    do not mention an algorithm: it is sorted, and levels of one price keep their order. */
module Sorting {
  import opened Prices
  import opened Sides

  /** Puts a level behind every level that is not worse. */
  function Insert(num: Parser, isBid: bool, level: Level, side: seq<Level>): seq<Level> {
    if side == [] || Key(num, isBid, level.price) < Key(num, isBid, side[0].price) then
      [level] + side
    else
      [side[0]] + Insert(num, isBid, level, side[1..])
  }

  function StableSort(num: Parser, isBid: bool, side: seq<Level>): seq<Level> {
    if side == [] then [] else
      Insert(num, isBid, side[|side| - 1], StableSort(num, isBid, side[..|side| - 1]))
  }

  /** The levels at one key, in the order in which the side lists them. */
  function WithKey(num: Parser, isBid: bool, side: seq<Level>, key: real): seq<Level> {
    if side == [] then [] else
      var rest := WithKey(num, isBid, side[1..], key);
      if Key(num, isBid, side[0].price) == key then [side[0]] + rest else rest
  }

  /** r is a stable permutation of side: at every key the same levels in the same order. */
  ghost predicate StablePermutation(num: Parser, isBid: bool, side: seq<Level>, r: seq<Level>) {
    forall key: real :: WithKey(num, isBid, r, key) == WithKey(num, isBid, side, key)
  }

  lemma {:induction false} InsertSorted(num: Parser, isBid: bool, level: Level, side: seq<Level>)
    requires Sorted(num, isBid, side)
    ensures Sorted(num, isBid, Insert(num, isBid, level, side))
    ensures forall l :: l in Insert(num, isBid, level, side) ==> l == level || l in side
  {
    if side == [] || Key(num, isBid, level.price) < Key(num, isBid, side[0].price) {
    } else {
      InsertSorted(num, isBid, level, side[1..]);
      assert forall l :: l in side[1..] ==> Key(num, isBid, side[0].price) <= Key(num, isBid, l.price);
    }
  }

  lemma {:induction false} WithKeyConcat(num: Parser, isBid: bool, a: seq<Level>, b: seq<Level>, key: real)
    ensures WithKey(num, isBid, a + b, key) == WithKey(num, isBid, a, key) + WithKey(num, isBid, b, key)
  {
    if a == [] {
      assert a + b == b;
    } else {
      assert (a + b)[1..] == a[1..] + b;
      WithKeyConcat(num, isBid, a[1..], b, key);
    }
  }

  lemma {:induction false} WithKeyEmpty(num: Parser, isBid: bool, side: seq<Level>, key: real)
    ensures WithKey(num, isBid, side, key) == [] <==>
            forall l :: l in side ==> Key(num, isBid, l.price) != key
  {
    if side == [] {
    } else {
      WithKeyEmpty(num, isBid, side[1..], key);
      assert side == [side[0]] + side[1..];
    }
  }

  lemma {:induction false} InsertStable(num: Parser, isBid: bool, level: Level, side: seq<Level>, key: real)
    requires Sorted(num, isBid, side)
    ensures WithKey(num, isBid, Insert(num, isBid, level, side), key)
         == WithKey(num, isBid, side + [level], key)
  {
    if side == [] {
      assert side + [level] == [level];
    } else if Key(num, isBid, level.price) < Key(num, isBid, side[0].price) {
      WithKeyConcat(num, isBid, side, [level], key);
      WithKeyConcat(num, isBid, [level], side, key);
      if key == Key(num, isBid, level.price) {
        WithKeyEmpty(num, isBid, side, key);
      }
    } else {
      InsertStable(num, isBid, level, side[1..], key);
      assert (side + [level])[1..] == side[1..] + [level];
    }
  }

  lemma {:induction false} StableSortSorts(num: Parser, isBid: bool, side: seq<Level>)
    ensures Sorted(num, isBid, StableSort(num, isBid, side))
    ensures StablePermutation(num, isBid, side, StableSort(num, isBid, side))
  {
    if side == [] {
    } else {
      var init, last := side[..|side| - 1], side[|side| - 1];
      StableSortSorts(num, isBid, init);
      InsertSorted(num, isBid, last, StableSort(num, isBid, init));
      forall key: real
        ensures WithKey(num, isBid, StableSort(num, isBid, side), key) == WithKey(num, isBid, side, key)
      {
        InsertStable(num, isBid, last, StableSort(num, isBid, init), key);
        WithKeyConcat(num, isBid, StableSort(num, isBid, init), [last], key);
        WithKeyConcat(num, isBid, init, [last], key);
        assert side == init + [last];
      }
    }
  }

  lemma {:induction false} InsertMultiset(num: Parser, isBid: bool, level: Level, side: seq<Level>)
    ensures multiset(Insert(num, isBid, level, side)) == multiset(side) + multiset{level}
  {
    if side == [] || Key(num, isBid, level.price) < Key(num, isBid, side[0].price) {
    } else {
      InsertMultiset(num, isBid, level, side[1..]);
      assert side == [side[0]] + side[1..];
    }
  }

  lemma LastInMultiset(side: seq<Level>)
    requires side != []
    ensures multiset(side) == multiset(side[..|side| - 1]) + multiset{side[|side| - 1]}
  {
    assert side == side[..|side| - 1] + [side[|side| - 1]];
  }

  /** Sorting loses and invents no level. */
  lemma {:induction false} StableSortPermutes(num: Parser, isBid: bool, side: seq<Level>)
    ensures multiset(StableSort(num, isBid, side)) == multiset(side)
  {
    if side == [] {
    } else {
      var init, last := side[..|side| - 1], side[|side| - 1];
      StableSortPermutes(num, isBid, init);
      InsertMultiset(num, isBid, last, StableSort(num, isBid, init));
      LastInMultiset(side);
    }
  }

  lemma BestFirst(num: Parser, isBid: bool, a: seq<Level>, b: seq<Level>)
    requires Sorted(num, isBid, a) && a != [] && StablePermutation(num, isBid, a, b)
    ensures b != [] && exists l :: l in b && Key(num, isBid, l.price) == Key(num, isBid, a[0].price)
  {
    var key := Key(num, isBid, a[0].price);
    assert WithKey(num, isBid, b, key) == WithKey(num, isBid, a, key);
    WithKeyEmpty(num, isBid, b, key);
  }

  /** A sorted stable permutation is unique. */
  lemma {:induction false} SortedStableUnique(num: Parser, isBid: bool, a: seq<Level>, b: seq<Level>)
    requires Sorted(num, isBid, a) && Sorted(num, isBid, b) && StablePermutation(num, isBid, a, b)
    ensures a == b
  {
    if a == [] {
      if b != [] {
        BestFirst(num, isBid, b, a);
      }
    } else {
      BestFirst(num, isBid, a, b);
      BestFirst(num, isBid, b, a);
      var key := Key(num, isBid, a[0].price);
      assert Key(num, isBid, b[0].price) == key;
      assert WithKey(num, isBid, b, key) == WithKey(num, isBid, a, key);
      assert a[0] == WithKey(num, isBid, a, key)[0] == b[0];
      forall k: real
        ensures WithKey(num, isBid, b[1..], k) == WithKey(num, isBid, a[1..], k)
      {
        assert WithKey(num, isBid, b, k) == WithKey(num, isBid, a, k);
        if k == key {
          assert WithKey(num, isBid, b[1..], k) == WithKey(num, isBid, b, k)[1..];
          assert WithKey(num, isBid, a[1..], k) == WithKey(num, isBid, a, k)[1..];
        }
      }
      SortedStableUnique(num, isBid, a[1..], b[1..]);
      assert a == [a[0]] + a[1..] && b == [b[0]] + b[1..];
    }
  }

  /** Any sorted stable permutation of a side, however computed, is StableSort. */
  lemma StableSortUnique(num: Parser, isBid: bool, side: seq<Level>, r: seq<Level>)
    ensures r == StableSort(num, isBid, side) <==> Sorted(num, isBid, r) && StablePermutation(num, isBid, side, r)
  {
    StableSortSorts(num, isBid, side);
    if Sorted(num, isBid, r) && StablePermutation(num, isBid, side, r) {
      SortedStableUnique(num, isBid, r, StableSort(num, isBid, side));
    }
  }

  /** The numeric sort leaves a sorted side as it is, and no other. */
  lemma SortIdentity(num: Parser, isBid: bool, side: seq<Level>)
    ensures StableSort(num, isBid, side) == side <==> Sorted(num, isBid, side)
  {
    StableSortUnique(num, isBid, side, side);
  }

  lemma {:induction false} InsertAt(num: Parser, isBid: bool, level: Level, side: seq<Level>, j: nat)
    requires j <= |side|
    requires forall k :: 0 <= k < j ==> Key(num, isBid, side[k].price) <= Key(num, isBid, level.price)
    requires j < |side| ==> Key(num, isBid, level.price) < Key(num, isBid, side[j].price)
    ensures Insert(num, isBid, level, side) == side[..j] + [level] + side[j..]
  {
    if j == 0 {
    } else {
      InsertAt(num, isBid, level, side[1..], j - 1);
      assert side[..j] + [level] + side[j..] == [side[0]] + (side[1..][..j - 1] + [level] + side[1..][j - 1..]);
    }
  }

  /** sort.SliceStable with the comparison of sortAndFixSpread, as an insertion sort. */
  method SliceStable(num: Parser, isBid: bool, side: seq<Level>) returns (r: seq<Level>)
    ensures r == StableSort(num, isBid, side)
  {
    r := [];
    for i := 0 to |side|
      invariant r == StableSort(num, isBid, side[..i])
    {
      var level, j := side[i], |r|;
      while j > 0 && Key(num, isBid, level.price) < Key(num, isBid, r[j - 1].price)
        invariant 0 <= j <= |r|
        invariant j < |r| ==> Key(num, isBid, level.price) < Key(num, isBid, r[j].price)
      {
        j := j - 1;
      }
      SortedPrefix(num, isBid, side[..i], level, j);
      InsertAt(num, isBid, level, r, j);
      r := r[..j] + [level] + r[j..];
      assert side[..i + 1][..i] == side[..i];
    }
    assert side[..|side|] == side;
  }

  lemma SortedPrefix(num: Parser, isBid: bool, side: seq<Level>, level: Level, j: nat)
    requires var r := StableSort(num, isBid, side);
             j <= |r| && (j > 0 ==> Key(num, isBid, r[j - 1].price) <= Key(num, isBid, level.price))
    ensures var r := StableSort(num, isBid, side);
            forall k :: 0 <= k < j ==> Key(num, isBid, r[k].price) <= Key(num, isBid, level.price)
  {
    StableSortSorts(num, isBid, side);
  }
}
