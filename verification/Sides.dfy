/** One side of an order book: a slice of price levels, best price first, edited by binary
    search on the price strings, and the price-to-quantity map it stands for. */
module Sides {
  import opened Prices

  datatype Level = Level(price: string, qty: string)

  /** Position of a price along a side: sides run by increasing key, so bids descend and asks ascend. */
  function Key(num: Parser, isBid: bool, price: string): real {
    if isBid then -Value(num, price) else Value(num, price)
  }

  ghost predicate Sorted(num: Parser, isBid: bool, side: seq<Level>) {
    forall i, j :: 0 <= i < j < |side| ==> Key(num, isBid, side[i].price) <= Key(num, isBid, side[j].price)
  }

  ghost predicate StrictlySorted(num: Parser, isBid: bool, side: seq<Level>) {
    forall i, j :: 0 <= i < j < |side| ==> Key(num, isBid, side[i].price) < Key(num, isBid, side[j].price)
  }

  ghost predicate PricesIn(prices: iset<string>, side: seq<Level>) {
    forall i :: 0 <= i < |side| ==> side[i].price in prices
  }

  predicate LiveQty(num: Parser, qty: string) {
    num(qty).Some? && num(qty).value != 0.0
  }

  /** What every side of a reachable book satisfies: strictly sorted, hence without repeated
      prices, over the price universe, and without empty levels. */
  ghost predicate SideOk(num: Parser, prices: iset<string>, isBid: bool, side: seq<Level>) {
    && StrictlySorted(num, isBid, side)
    && PricesIn(prices, side)
    && forall i :: 0 <= i < |side| ==> num(side[i].qty).Some? && num(side[i].qty).value != 0.0
  }

  // ------------------------------------------------------------ binary search

  /** The index sort.Search reaches from the window lo..hi, whatever the predicate. */
  function Search(side: seq<Level>, f: Level -> bool, lo: nat, hi: nat): (r: nat)
    requires lo <= hi <= |side|
    ensures lo <= r <= hi
    ensures r < hi ==> f(side[r])
    ensures lo < r ==> !f(side[r - 1])
    decreases hi - lo
  {
    if lo == hi then lo else
      var mid := (lo + hi) / 2;
      if f(side[mid]) then Search(side, f, lo, mid) else Search(side, f, mid + 1, hi)
  }

  /** What decides between indices when the predicate is not monotone: every window is probed in the
      middle, and the search goes on in the half the probe leaves. */
  lemma SearchProbes(side: seq<Level>, f: Level -> bool, lo: nat, hi: nat, mid: nat)
    requires lo < hi <= |side| && (mid == (lo + hi) / 2)
    ensures var r := Search(side, f, lo, hi);
            && (f(side[mid]) <==> r <= mid)
            && r == if f(side[mid]) then Search(side, f, lo, mid) else Search(side, f, mid + 1, hi)
  {
  }

  method SortSearch(side: seq<Level>, f: Level -> bool) returns (i: nat)
    ensures i == Search(side, f, 0, |side|)
    ensures i <= |side|
  {
    i := 0;
    var j := |side|;
    while i < j
      invariant i <= j <= |side|
      invariant Search(side, f, i, j) == Search(side, f, 0, |side|)
    {
      var h := (i + j) / 2;
      if !f(side[h]) {
        i := h + 1;
      } else {
        j := h;
      }
    }
  }

  ghost predicate Monotone(side: seq<Level>, f: Level -> bool) {
    forall i, j :: 0 <= i <= j < |side| && f(side[i]) ==> f(side[j])
  }

  /** For a predicate that never turns false again, sort.Search splits the side in two. */
  lemma SearchSplits(side: seq<Level>, f: Level -> bool)
    requires Monotone(side, f)
    ensures forall i :: 0 <= i < |side| ==> (f(side[i]) <==> Search(side, f, 0, |side|) <= i)
  {
    var r := Search(side, f, 0, |side|);
    assert forall i :: 0 <= i < r ==> (f(side[i]) ==> f(side[r - 1]));
  }

  // ---------------------------------------------------------------- edits

  /** The predicate updateOrder searches with: it compares price strings. */
  function AtOrPast(isBid: bool, price: string): Level -> bool {
    (level: Level) => if isBid then StrLe(level.price, price) else StrLe(price, level.price)
  }

  function PutLevel(side: seq<Level>, order: Level, isBid: bool): seq<Level> {
    var i := Search(side, AtOrPast(isBid, order.price), 0, |side|);
    if i < |side| && side[i].price == order.price then
      side[i := order]
    else
      side[..i] + [order] + side[i..]
  }

  /** Whether a level comes at or after a price, as Go compares strings. */
  predicate NotBefore(isBid: bool, price: string, level: Level) {
    if isBid then StrLe(level.price, price) else StrLe(price, level.price)
  }

  /** The index the put uses, on any side, in order or not: the level before it comes before the price, the
      level at it does not. */
  lemma PutIndexMeans(side: seq<Level>, price: string, isBid: bool)
    ensures var i := Search(side, AtOrPast(isBid, price), 0, |side|);
            && (i > 0 ==> !NotBefore(isBid, price, side[i - 1]))
            && (i < |side| ==> NotBefore(isBid, price, side[i]))
  {
    var (i, f) := (Search(side, AtOrPast(isBid, price), 0, |side|), AtOrPast(isBid, price));
    assert i > 0 ==> !f(side[i - 1]);
    assert i < |side| ==> f(side[i]);
  }

  /** At that index the order stands in for a level with its very price string, if there is one, and all
      other levels stay in their order. */
  lemma PutMeans(side: seq<Level>, order: Level, isBid: bool)
    ensures var (i, r) := (Search(side, AtOrPast(isBid, order.price), 0, |side|), PutLevel(side, order, isBid));
            if i < |side| && side[i].price == order.price then
              r == side[i := order]
            else
              && |r| == |side| + 1 && r[i] == order
              && (forall k :: 0 <= k < i ==> r[k] == side[k])
              && (forall k :: i < k < |r| ==> r[k] == side[k - 1])
  {
    var (i, r) := (Search(side, AtOrPast(isBid, order.price), 0, |side|), PutLevel(side, order, isBid));
    if !(i < |side| && side[i].price == order.price) {
      InsertIndices(side, order, i, r);
    }
  }

  function RemoveFirst(side: seq<Level>, price: string): seq<Level> {
    if side == [] then [] else
    if side[0].price == price then side[1..] else [side[0]] + RemoveFirst(side[1..], price)
  }

  lemma {:induction false} RemoveFirstAt(side: seq<Level>, price: string, i: nat)
    requires i <= |side| && forall k :: 0 <= k < i ==> side[k].price != price
    requires i < |side| ==> side[i].price == price
    ensures RemoveFirst(side, price) == if i < |side| then side[..i] + side[i + 1..] else side
  {
    if i == 0 {
    } else {
      RemoveFirstAt(side[1..], price, i - 1);
      assert [side[0]] + side[1..] == side;
      if i < |side| {
        assert [side[0]] + (side[1..][..i - 1] + side[1..][i..]) == side[..i] + side[i + 1..];
      }
    }
  }

  // ------------------------------------------------------- the map of a side

  /** The price-to-quantity map a side represents. */
  function ToMap(side: seq<Level>): map<string, string> {
    if side == [] then map[] else ToMap(side[1..])[side[0].price := side[0].qty]
  }

  lemma {:induction false} MapKeys(side: seq<Level>)
    ensures forall i :: 0 <= i < |side| ==> side[i].price in ToMap(side)
    ensures forall p :: p in ToMap(side) ==> exists i :: 0 <= i < |side| && side[i].price == p
  {
    if side == [] {
    } else {
      MapKeys(side[1..]);
      forall i | 0 <= i < |side|
        ensures side[i].price in ToMap(side)
      {
        assert i > 0 ==> side[i] == side[1..][i - 1];
      }
      forall p | p in ToMap(side)
        ensures exists i :: 0 <= i < |side| && side[i].price == p
      {
        if p != side[0].price {
          var i :| 0 <= i < |side[1..]| && side[1..][i].price == p;
          assert side[i + 1].price == p;
        }
      }
    }
  }

  /** The order a price takes on the map: delete on a zero quantity, else put. */
  function MapStep(num: Parser, levels: map<string, string>, order: Level): map<string, string> {
    if num(order.qty).Some? && num(order.qty).value != 0.0 then
      levels[order.price := order.qty]
    else
      levels - {order.price}
  }

  ghost function Restrict(levels: map<string, string>, keep: iset<string>): map<string, string> {
    map p | p in levels && p in keep :: levels[p]
  }

  /** Cutting a side restricts its map to the prices before the cut. */
  lemma {:induction false} PrefixMap(side: seq<Level>, n: nat, keep: iset<string>)
    requires n <= |side| && forall i :: 0 <= i < |side| ==> (i < n <==> side[i].price in keep)
    ensures ToMap(side[..n]) == Restrict(ToMap(side), keep)
  {
    if n == 0 {
      MapKeys(side);
    } else {
      PrefixMap(side[1..], n - 1, keep);
      assert side[..n][1..] == side[1..][..n - 1];
    }
  }

  /** In a coherent universe the string predicate is a numeric one, and equal keys are equal prices. */
  lemma CoherentKeys(num: Parser, prices: iset<string>, isBid: bool, level: Level, price: string)
    requires Coherent(num, prices) && level.price in prices && price in prices
    ensures AtOrPast(isBid, price)(level) <==> Key(num, isBid, level.price) >= Key(num, isBid, price)
    ensures Key(num, isBid, level.price) == Key(num, isBid, price) ==> level.price == price
  {
    if Key(num, isBid, level.price) == Key(num, isBid, price) {
      StrLeAntisymmetric(level.price, price);
    }
  }

  lemma AtOrPastMonotone(num: Parser, prices: iset<string>, isBid: bool, side: seq<Level>, price: string)
    requires Coherent(num, prices) && PricesIn(prices, side) && price in prices && Sorted(num, isBid, side)
    ensures Monotone(side, AtOrPast(isBid, price))
  {
    var f := AtOrPast(isBid, price);
    forall i, j | 0 <= i <= j < |side| && f(side[i])
      ensures f(side[j])
    {
      CoherentKeys(num, prices, isBid, side[i], price);
      CoherentKeys(num, prices, isBid, side[j], price);
    }
  }

  /** The string binary search lands at the numeric position of the price. */
  lemma StringSearchIsNumeric(num: Parser, prices: iset<string>, isBid: bool,
                                                 side: seq<Level>, price: string)
    requires Coherent(num, prices) && PricesIn(prices, side) && price in prices && Sorted(num, isBid, side)
    ensures var r := Search(side, AtOrPast(isBid, price), 0, |side|);
            forall i :: 0 <= i < |side| ==> (r <= i <==> Key(num, isBid, side[i].price) >= Key(num, isBid, price))
  {
    AtOrPastMonotone(num, prices, isBid, side, price);
    SearchSplits(side, AtOrPast(isBid, price));
    forall i | 0 <= i < |side|
      ensures AtOrPast(isBid, price)(side[i]) <==> Key(num, isBid, side[i].price) >= Key(num, isBid, price)
    {
      CoherentKeys(num, prices, isBid, side[i], price);
    }
  }

  /** The index updateOrder finds: everything before it is better than the price, nothing after. */
  ghost predicate Splits(num: Parser, isBid: bool, side: seq<Level>, price: string, i: nat) {
    && i <= |side|
    && (forall k :: 0 <= k < i ==> Key(num, isBid, side[k].price) < Key(num, isBid, price))
    && (i < |side| ==> side[i].price == price || Key(num, isBid, price) < Key(num, isBid, side[i].price))
  }

  lemma InsertOk(num: Parser, prices: iset<string>, isBid: bool, side: seq<Level>, order: Level, i: nat,
                 r: seq<Level>)
    requires SideOk(num, prices, isBid, side) && order.price in prices && LiveQty(num, order.qty)
    requires Splits(num, isBid, side, order.price, i) && (i < |side| ==> side[i].price != order.price)
    requires |r| == |side| + 1 && r[i] == order
    requires forall k :: 0 <= k < i ==> r[k] == side[k]
    requires forall k :: i < k < |r| ==> r[k] == side[k - 1]
    ensures SideOk(num, prices, isBid, r)
  {
  }

  lemma OverwriteOk(num: Parser, prices: iset<string>, isBid: bool, side: seq<Level>, order: Level, i: nat,
                    r: seq<Level>)
    requires SideOk(num, prices, isBid, side) && LiveQty(num, order.qty)
    requires i < |side| == |r| && side[i].price == order.price
    requires r[i] == order && forall k :: 0 <= k < |side| && k != i ==> r[k] == side[k]
    ensures SideOk(num, prices, isBid, r)
  {
  }

  lemma RemoveOk(num: Parser, prices: iset<string>, isBid: bool, side: seq<Level>, i: nat, r: seq<Level>)
    requires SideOk(num, prices, isBid, side) && i < |side| == |r| + 1
    requires forall k :: 0 <= k < i ==> r[k] == side[k]
    requires forall k :: i <= k < |r| ==> r[k] == side[k + 1]
    ensures SideOk(num, prices, isBid, r)
  {
  }

  lemma {:induction false} InsertMap(side: seq<Level>, order: Level, i: nat)
    requires i <= |side| && forall k :: 0 <= k < i ==> side[k].price != order.price
    ensures ToMap(side[..i] + [order] + side[i..]) == ToMap(side)[order.price := order.qty]
  {
    var r := side[..i] + [order] + side[i..];
    if i == 0 {
      assert r[1..] == side;
    } else {
      InsertMap(side[1..], order, i - 1);
      assert r[1..] == side[1..][..i - 1] + [order] + side[1..][i - 1..];
    }
  }

  lemma {:induction false} OverwriteMap(side: seq<Level>, order: Level, i: nat)
    requires i < |side| && side[i].price == order.price
    requires forall k :: 0 <= k < i ==> side[k].price != order.price
    ensures ToMap(side[i := order]) == ToMap(side)[order.price := order.qty]
  {
    if i == 0 {
    } else {
      OverwriteMap(side[1..], order, i - 1);
      assert side[i := order][1..] == side[1..][i - 1 := order];
    }
  }

  lemma {:induction false} RemoveMap(side: seq<Level>, price: string)
    requires forall i, j :: 0 <= i < j < |side| ==> side[i].price != side[j].price
    ensures ToMap(RemoveFirst(side, price)) == ToMap(side) - {price}
  {
    if side == [] {
    } else {
      var tail := side[1..];
      assert forall i :: 0 <= i < |tail| ==> tail[i] == side[i + 1];
      if side[0].price == price {
        MapKeys(tail);
        assert price !in ToMap(tail);
      } else {
        RemoveMap(tail, price);
      }
    }
  }

  lemma PutIndex(num: Parser, prices: iset<string>, isBid: bool, side: seq<Level>, price: string)
    requires Coherent(num, prices) && SideOk(num, prices, isBid, side) && price in prices
    ensures Splits(num, isBid, side, price, Search(side, AtOrPast(isBid, price), 0, |side|))
  {
    StringSearchIsNumeric(num, prices, isBid, side, price);
    var i := Search(side, AtOrPast(isBid, price), 0, |side|);
    if i < |side| {
      CoherentKeys(num, prices, isBid, side[i], price);
    }
  }

  lemma InsertIndices(side: seq<Level>, order: Level, i: nat, r: seq<Level>)
    requires i <= |side| && r == side[..i] + [order] + side[i..]
    ensures |r| == |side| + 1 && r[i] == order
    ensures forall k :: 0 <= k < i ==> r[k] == side[k]
    ensures forall k :: i < k < |r| ==> r[k] == side[k - 1]
  {
  }

  /** Insert and overwrite keep the side in order and put exactly one entry in its map. */
  lemma PutRefines(num: Parser, prices: iset<string>, isBid: bool, side: seq<Level>, order: Level)
    requires Coherent(num, prices) && SideOk(num, prices, isBid, side)
    requires order.price in prices && LiveQty(num, order.qty)
    ensures SideOk(num, prices, isBid, PutLevel(side, order, isBid))
    ensures ToMap(PutLevel(side, order, isBid)) == ToMap(side)[order.price := order.qty]
  {
    PutIndex(num, prices, isBid, side, order.price);
    var i := Search(side, AtOrPast(isBid, order.price), 0, |side|);
    var r := PutLevel(side, order, isBid);
    if i < |side| && side[i].price == order.price {
      OverwriteOk(num, prices, isBid, side, order, i, r);
      OverwriteMap(side, order, i);
    } else {
      InsertIndices(side, order, i, r);
      InsertOk(num, prices, isBid, side, order, i, r);
      InsertMap(side, order, i);
    }
  }

  lemma RemoveIndices(side: seq<Level>, i: nat, r: seq<Level>)
    requires i < |side| && r == side[..i] + side[i + 1..]
    ensures |r| + 1 == |side|
    ensures forall k :: 0 <= k < i ==> r[k] == side[k]
    ensures forall k :: i <= k < |r| ==> r[k] == side[k + 1]
  {
  }

  /** Delete keeps the side in order and removes exactly one entry from its map. */
  lemma RemoveRefines(num: Parser, prices: iset<string>, isBid: bool, side: seq<Level>, price: string)
    requires SideOk(num, prices, isBid, side)
    ensures SideOk(num, prices, isBid, RemoveFirst(side, price))
    ensures ToMap(RemoveFirst(side, price)) == ToMap(side) - {price}
  {
    RemoveMap(side, price);
    var i := FirstAt(side, price, 0);
    var r := RemoveFirst(side, price);
    RemoveFirstAt(side, price, i);
    if i < |side| {
      RemoveIndices(side, i, r);
      RemoveOk(num, prices, isBid, side, i, r);
    }
  }

  ghost function FirstAt(side: seq<Level>, price: string, from: nat): (i: nat)
    requires from <= |side|
    ensures from <= i <= |side|
    ensures forall k :: from <= k < i ==> side[k].price != price
    ensures i < |side| ==> side[i].price == price
    decreases |side| - from
  {
    if from == |side| || side[from].price == price then from else FirstAt(side, price, from + 1)
  }
}
