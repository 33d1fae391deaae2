/** The spread trim: what it keeps, when it empties the book, and that it need not be repeated. */
module Spread {
  import opened Prices
  import opened Sides
  import opened Sorting
  import opened Books

  // ------------------------------------------------------------ real arithmetic

  /** When the spread test fires, the band reaches past both best levels or lies strictly between them. */
  lemma FiringBand(bid: real, ask: real, maxSpread: real)
    requires bid >= 0.0 && ask >= 0.0 && SpreadExceeds(bid, ask, maxSpread)
    ensures (bid + ask) / 2.0 > 0.0
    ensures maxSpread >= 0.0 ==> bid < ask
    ensures maxSpread < 0.0 ==>
              var mid := (bid + ask) / 2.0; bid < mid - Allowed(mid, maxSpread)
  {
    var q := maxSpread / 100.0;
    if bid > 0.0 {
      Widened(bid, ask, q);
      if maxSpread < 0.0 {
        NegativeBand(bid, ask, q);
      }
    } else if maxSpread < 0.0 {
      var mid := ask / 2.0;
      assert mid * q < 0.0;
    }
  }

  lemma Widened(bid: real, ask: real, q: real)
    requires bid > 0.0
    ensures (ask - bid) / bid * 100.0 > q * 100.0 <==> ask - bid > q * bid
  {
    var x := (ask - bid) / bid;
    assert x * bid == ask - bid;
    if x > q {
      assert x * bid > q * bid;
    } else {
      assert x * bid <= q * bid;
    }
  }

  lemma NegativeBand(bid: real, ask: real, q: real)
    requires bid > 0.0 && ask >= 0.0 && q < 0.0 && ask - bid > q * bid
    ensures var mid := (bid + ask) / 2.0; bid < mid - mid * q
  {
    var mid := (bid + ask) / 2.0;
    assert mid - mid * q == mid * (1.0 - q);
    if q <= -1.0 {
      assert mid * (1.0 - q) >= mid * 2.0;
      if ask == 0.0 {
        assert -bid > q * bid;
        assert q < -1.0;
        assert mid * (1.0 - q) > mid * 2.0;
      }
    } else {
      assert 2.0 * mid > bid * (2.0 + q);
      var r := 1.0 - q;
      assert 2.0 * mid * r > bid * (2.0 + q) * r;
      assert (2.0 + q) * r == 2.0 - q * (1.0 + q);
      assert q * (1.0 + q) < 0.0;
      assert bid * ((2.0 + q) * r) > bid * 2.0;
    }
  }

  // ---------------------------------------------------------- both or neither

  lemma CutSplits(num: Parser, isBid: bool, side: seq<Level>, limit: real)
    requires Sorted(num, isBid, side)
    ensures CutSide(num, isBid, side, limit) <= side
    ensures forall i :: 0 <= i < |side| ==>
              (i < |CutSide(num, isBid, side, limit)| <==> !Beyond(num, isBid, limit)(side[i]))
  {
    var f := Beyond(num, isBid, limit);
    assert Monotone(side, f) by {
      forall i, j | 0 <= i <= j < |side| && f(side[i])
        ensures f(side[j])
      {
        assert Key(num, isBid, side[i].price) <= Key(num, isBid, side[j].price);
      }
    }
    SearchSplits(side, f);
  }

  lemma CutHead(num: Parser, isBid: bool, side: seq<Level>, limit: real)
    requires Sorted(num, isBid, side) && side != []
    ensures var r := CutSide(num, isBid, side, limit);
            if Beyond(num, isBid, limit)(side[0]) then r == [] else r != [] && r[0] == side[0]
  {
    CutSplits(num, isBid, side, limit);
  }

  ghost predicate BestKept(num: Parser, b: Book, r: Book) {
    && b.bids != [] && b.asks != [] && r.bids != [] && r.asks != []
    && r.bids[0] == b.bids[0] && r.asks[0] == b.asks[0]
    && Mid(num, r) == Mid(num, b)
  }

  lemma CutBothOrNeither(num: Parser, b: Book, low: real, high: real)
    requires SortedBook(num, b) && b.bids != [] && b.asks != []
    requires low <= Value(num, b.bids[0].price) <==> Value(num, b.asks[0].price) <= high
    ensures var r := CutBook(num, b, low, high);
            if low <= Value(num, b.bids[0].price) then BestKept(num, b, r) else r.bids == [] && r.asks == []
  {
    CutHead(num, true, b.bids, low);
    CutHead(num, false, b.asks, high);
  }

  lemma HalfSpread(bid: real, ask: real, maxSpread: real)
    ensures var mid := Midpoint(bid, ask);
            && ((ask - bid) / 2.0 <= Allowed(mid, maxSpread) <==> LowLimit(mid, maxSpread) <= bid)
            && ((ask - bid) / 2.0 <= Allowed(mid, maxSpread) <==> ask <= HighLimit(mid, maxSpread))
  {
  }

  /** When the trim fires, either both best levels survive and the mid stays, or both sides become
      empty; the half spread against the allowed distance decides. */
  lemma TrimBothOrNeither(num: Parser, b: Book, maxSpread: real)
    requires SortedBook(num, b) && TrimFires(num, b, maxSpread)
    ensures var (bid, ask) := (Value(num, b.bids[0].price), Value(num, b.asks[0].price));
            var r := FixSpread(num, b, maxSpread);
            if (ask - bid) / 2.0 <= Allowed(Mid(num, b), maxSpread) then
              BestKept(num, b, r)
            else
              r.bids == [] && r.asks == []
  {
    HalfSpread(Value(num, b.bids[0].price), Value(num, b.asks[0].price), maxSpread);
    CutBothOrNeither(num, b, LowLimit(Mid(num, b), maxSpread), HighLimit(Mid(num, b), maxSpread));
  }

  /** A maximum of 0, which is what a symbol without settings of its own gets, empties every book with
      a positive spread. */
  lemma ZeroMaximumEmpties(num: Parser, b: Book)
    requires SortedBook(num, b) && b.bids != [] && b.asks != []
    requires 0.0 < Value(num, b.bids[0].price) < Value(num, b.asks[0].price)
    ensures FixSpread(num, b, 0.0).bids == [] && FixSpread(num, b, 0.0).asks == []
  {
    var (bid, ask) := (Value(num, b.bids[0].price), Value(num, b.asks[0].price));
    Widened(bid, ask, 0.0);
    TrimBothOrNeither(num, b, 0.0);
    assert Allowed(Mid(num, b), 0.0) == 0.0;
  }

  /** The survival condition in terms of the relative spread the test measures. */
  lemma SurvivalThreshold(bid: real, ask: real, maxSpread: real)
    requires bid > 0.0 && maxSpread < 100.0
    ensures var m := maxSpread / 100.0;
            (ask - bid) / 2.0 <= Allowed((bid + ask) / 2.0, maxSpread) <==> (ask - bid) / bid <= 2.0 * m / (1.0 - m)
  {
    var m := maxSpread / 100.0;
    var (x, t) := ((ask - bid) / bid, 2.0 * m / (1.0 - m));
    var (c, mid) := (1.0 - m, (bid + ask) / 2.0);
    assert x * bid == ask - bid;
    assert t * c == 2.0 * m;
    assert 2.0 * mid * m == (2.0 * bid + x * bid) * m;
    assert x * bid - (2.0 * bid + x * bid) * m == bid * (x * c - t * c);
    ScaleOrder(x, t, c);
    ScaleOrder(x * c, t * c, bid);
    assert bid * (x * c - t * c) == x * c * bid - t * c * bid;
  }

  /** kept is a front of the side and holds exactly its levels between two prices. */
  ghost predicate KeepsWithin(num: Parser, side: seq<Level>, kept: seq<Level>, low: real, high: real) {
    && kept <= side
    && forall i :: 0 <= i < |side| ==> (i < |kept| <==> low <= Value(num, side[i].price) <= high)
  }

  /** A cut at the near end of an interval keeps exactly the levels inside it, unless the best level is
      past the far end only. */
  lemma CutIsBand(num: Parser, isBid: bool, side: seq<Level>, low: real, high: real)
    requires Sorted(num, isBid, side) && side != []
    requires var best := Value(num, side[0].price);
             if isBid then best <= high || best < low else low <= best || high < best
    ensures KeepsWithin(num, side, CutSide(num, isBid, side, if isBid then low else high), low, high)
  {
    CutSplits(num, isBid, side, if isBid then low else high);
    forall i | 0 <= i < |side|
      ensures Key(num, isBid, side[0].price) <= Key(num, isBid, side[i].price)
    {
    }
  }

  /** The arithmetic of a firing trim: its limits are the ends of the band, and no best level is past
      the far end only. */
  lemma FiringInterval(bid: real, ask: real, maxSpread: real)
    requires bid >= 0.0 && ask >= 0.0 && SpreadExceeds(bid, ask, maxSpread)
    ensures var mid := Midpoint(bid, ask);
            var (low, high) := (LowLimit(mid, maxSpread), HighLimit(mid, maxSpread));
            && BandLow(mid, maxSpread) == low && BandHigh(mid, maxSpread) == high
            && (bid <= high || bid < low) && (low <= ask || high < ask)
  {
    FiringBand(bid, ask, maxSpread);
    AllowedSign(Midpoint(bid, ask), maxSpread);
  }

  lemma CutKeepsInterval(num: Parser, b: Book, low: real, high: real)
    requires SortedBook(num, b) && b.bids != [] && b.asks != []
    requires Value(num, b.bids[0].price) <= high || Value(num, b.bids[0].price) < low
    requires low <= Value(num, b.asks[0].price) || high < Value(num, b.asks[0].price)
    ensures KeepsWithin(num, b.bids, CutBook(num, b, low, high).bids, low, high)
    ensures KeepsWithin(num, b.asks, CutBook(num, b, low, high).asks, low, high)
  {
    CutIsBand(num, true, b.bids, low, high);
    CutIsBand(num, false, b.asks, low, high);
  }

  /** When the trim fires, the levels it keeps on both sides are exactly those inside the admission
      band of updateOrder at the same mid, for every maximum and every non-negative price. */
  lemma TrimKeepsBand(num: Parser, b: Book, maxSpread: real)
    requires SortedBook(num, b) && TrimFires(num, b, maxSpread)
    ensures var (r, mid) := (FixSpread(num, b, maxSpread), Mid(num, b));
            && KeepsWithin(num, b.bids, r.bids, BandLow(mid, maxSpread), BandHigh(mid, maxSpread))
            && KeepsWithin(num, b.asks, r.asks, BandLow(mid, maxSpread), BandHigh(mid, maxSpread))
  {
    FiringInterval(Value(num, b.bids[0].price), Value(num, b.asks[0].price), maxSpread);
    CutKeepsInterval(num, b, LowLimit(Mid(num, b), maxSpread), HighLimit(Mid(num, b), maxSpread));
  }

  /** The trim by the numbers: a relative spread above the maximum cuts both sides to the band around the
      mid, any other leaves the book as it is. A best bid of 0 makes every positive ask too wide. */
  lemma FixSpreadMeans(num: Parser, b: Book, maxSpread: real, bid: real, ask: real)
    requires SortedBook(num, b) && b.bids != [] && b.asks != []
    requires Reads(num, b.bids[0].price, bid) && Reads(num, b.asks[0].price, ask)
    ensures var (r, mid) := (FixSpread(num, b, maxSpread), (bid + ask) / 2.0);
            var (low, high) := (BandLow(mid, maxSpread), BandHigh(mid, maxSpread));
            if (bid > 0.0 && (ask - bid) / bid * 100.0 > maxSpread) || (bid == 0.0 && ask > 0.0) then
              && r == b.(bids := r.bids, asks := r.asks)
              && KeepsWithin(num, b.bids, r.bids, low, high)
              && KeepsWithin(num, b.asks, r.asks, low, high)
            else
              r == b
  {
    if TrimFires(num, b, maxSpread) {
      TrimKeepsBand(num, b, maxSpread);
    }
  }

  lemma AllowedSign(mid: real, maxSpread: real)
    requires mid > 0.0
    ensures Allowed(mid, maxSpread) >= 0.0 <==> maxSpread >= 0.0
  {
    var q := maxSpread / 100.0;
    if q >= 0.0 {
      assert mid * q >= 0.0;
    } else {
      assert mid * q < 0.0;
    }
  }

  // ------------------------------------------------------ sort, then trim, twice

  lemma SortedSides(num: Parser, b: Book)
    ensures SortedBook(num, SortSides(num, b))
  {
    StableSortSorts(num, true, b.bids);
    StableSortSorts(num, false, b.asks);
  }

  lemma PrefixSorted(num: Parser, isBid: bool, prefix: seq<Level>, side: seq<Level>)
    requires prefix <= side && Sorted(num, isBid, side)
    ensures Sorted(num, isBid, prefix)
  {
    assert forall i :: 0 <= i < |prefix| ==> prefix[i] == side[i];
  }

  /** Each side of the result is a prefix of the stable sort of the original side, whatever the book. */
  lemma SortAndFixPrefix(num: Parser, b: Book, maxSpread: real)
    ensures var r := SortAndFix(num, b, maxSpread);
            && r.bids <= StableSort(num, true, b.bids) && r.asks <= StableSort(num, false, b.asks)
            && SortedBook(num, r)
  {
    SortedSides(num, b);
    var s := SortSides(num, b);
    if TrimFires(num, s, maxSpread) {
      TrimKeepsBand(num, s, maxSpread);
    }
    var r := SortAndFix(num, b, maxSpread);
    PrefixSorted(num, true, r.bids, s.bids);
    PrefixSorted(num, false, r.asks, s.asks);
  }

  /** sortAndFixSpread on any book: bids by falling price, asks by rising price, no level lost or invented;
      then the trim, if both sides have a best level. */
  lemma SortAndFixMeans(num: Parser, b: Book, maxSpread: real)
    ensures var s := SortSides(num, b);
            && s == b.(bids := s.bids, asks := s.asks)
            && multiset(s.bids) == multiset(b.bids) && multiset(s.asks) == multiset(b.asks)
            && (forall i, j :: 0 <= i < j < |s.bids| ==> Value(num, s.bids[i].price) >= Value(num, s.bids[j].price))
            && (forall i, j :: 0 <= i < j < |s.asks| ==> Value(num, s.asks[i].price) <= Value(num, s.asks[j].price))
            && SortAndFix(num, b, maxSpread) ==
                 if s.bids != [] && s.asks != [] then FixSpread(num, s, maxSpread) else s
  {
    SortedSides(num, b);
    StableSortPermutes(num, true, b.bids);
    StableSortPermutes(num, false, b.asks);
    var s := SortSides(num, b);
    forall i, j | 0 <= i < j < |s.bids|
      ensures Value(num, s.bids[i].price) >= Value(num, s.bids[j].price)
    {
      assert Key(num, true, s.bids[i].price) <= Key(num, true, s.bids[j].price);
    }
    forall i, j | 0 <= i < j < |s.asks|
      ensures Value(num, s.asks[i].price) <= Value(num, s.asks[j].price)
    {
      assert Key(num, false, s.asks[i].price) <= Key(num, false, s.asks[j].price);
    }
  }

  ghost predicate AllInBand(num: Parser, side: seq<Level>, mid: real, maxSpread: real) {
    forall l :: l in side ==> InBand(Value(num, l.price), mid, maxSpread)
  }

  /** A book the trim has nothing left to do on: a side is empty, or the spread is small enough, or nothing
      is outside the band. */
  ghost predicate Trimmed(num: Parser, b: Book, maxSpread: real) {
    b.bids != [] && b.asks != [] ==>
      var (bid, ask) := (Value(num, b.bids[0].price), Value(num, b.asks[0].price));
      || (bid > 0.0 && (ask - bid) / bid * 100.0 <= maxSpread) || (bid == 0.0 && ask == 0.0)
      || (AllInBand(num, b.bids, (bid + ask) / 2.0, maxSpread) && AllInBand(num, b.asks, (bid + ask) / 2.0, maxSpread))
  }

  lemma TrimmedMeans(num: Parser, b: Book, maxSpread: real)
    ensures Trimmed(num, b, maxSpread) <==>
              (TrimFires(num, b, maxSpread) ==>
                AllInBand(num, b.bids, Mid(num, b), maxSpread) && AllInBand(num, b.asks, Mid(num, b), maxSpread))
  {
  }

  lemma KeptInBand(num: Parser, side: seq<Level>, kept: seq<Level>, mid: real, maxSpread: real)
    requires KeepsWithin(num, side, kept, BandLow(mid, maxSpread), BandHigh(mid, maxSpread))
    ensures AllInBand(num, kept, mid, maxSpread)
  {
    forall l | l in kept
      ensures InBand(Value(num, l.price), mid, maxSpread)
    {
      var i :| 0 <= i < |kept| && kept[i] == l;
      assert side[i] == l;
    }
  }

  lemma FixSpreadTrims(num: Parser, b: Book, maxSpread: real)
    requires SortedBook(num, b)
    ensures Trimmed(num, FixSpread(num, b, maxSpread), maxSpread)
  {
    var (r, mid) := (FixSpread(num, b, maxSpread), Mid(num, b));
    if TrimFires(num, b, maxSpread) {
      TrimBothOrNeither(num, b, maxSpread);
      TrimKeepsBand(num, b, maxSpread);
      KeptInBand(num, b.bids, r.bids, mid, maxSpread);
      KeptInBand(num, b.asks, r.asks, mid, maxSpread);
    }
    TrimmedMeans(num, r, maxSpread);
  }

  lemma AllKept(num: Parser, side: seq<Level>, kept: seq<Level>, low: real, high: real)
    requires KeepsWithin(num, side, kept, low, high)
    requires forall l :: l in side ==> low <= Value(num, l.price) <= high
    ensures kept == side
  {
    if side != [] {
      assert side[|side| - 1] in side;
    }
  }

  lemma TrimmedStays(num: Parser, b: Book, maxSpread: real)
    requires SortedBook(num, b) && Trimmed(num, b, maxSpread)
    ensures FixSpread(num, b, maxSpread) == b
  {
    TrimmedMeans(num, b, maxSpread);
    if TrimFires(num, b, maxSpread) {
      var (r, mid) := (FixSpread(num, b, maxSpread), Mid(num, b));
      var (low, high) := (BandLow(mid, maxSpread), BandHigh(mid, maxSpread));
      TrimKeepsBand(num, b, maxSpread);
      AllKept(num, b.bids, r.bids, low, high);
      AllKept(num, b.asks, r.asks, low, high);
    }
  }

  /** sortAndFixSpread is idempotent on every book and for every maximum. */
  lemma SortAndFixIdempotent(num: Parser, b: Book, maxSpread: real)
    ensures Trimmed(num, SortAndFix(num, b, maxSpread), maxSpread)
    ensures SortAndFix(num, SortAndFix(num, b, maxSpread), maxSpread) == SortAndFix(num, b, maxSpread)
  {
    var r := SortAndFix(num, b, maxSpread);
    SortedSides(num, b);
    FixSpreadTrims(num, SortSides(num, b), maxSpread);
    SortAndFixPrefix(num, b, maxSpread);
    SortIdentity(num, true, r.bids);
    SortIdentity(num, false, r.asks);
    TrimmedStays(num, r, maxSpread);
  }

  // ------------------------------------------------------- the trim on the maps

  lemma CutMap(num: Parser, side: seq<Level>, n: nat, mid: real, maxSpread: real)
    requires n <= |side|
    requires forall i :: 0 <= i < |side| ==> (i < n <==> InBand(Value(num, side[i].price), mid, maxSpread))
    ensures ToMap(side[..n]) == BandOnly(num, ToMap(side), mid, maxSpread)
  {
    PrefixMap(side, n, iset p | InBand(Value(num, p), mid, maxSpread));
  }

  lemma CutOk(num: Parser, prices: iset<string>, isBid: bool, prefix: seq<Level>, side: seq<Level>)
    requires prefix <= side && SideOk(num, prices, isBid, side)
    ensures SideOk(num, prices, isBid, prefix)
  {
    assert forall i :: 0 <= i < |prefix| ==> prefix[i] == side[i];
  }

  lemma TrimRefines(num: Parser, prices: iset<string>, b: Book, maxSpread: real)
    requires BookOk(num, prices, b) && TrimFires(num, b, maxSpread)
    ensures var (r, mid) := (FixSpread(num, b, maxSpread), Mid(num, b));
            && BookOk(num, prices, r)
            && ToMap(r.bids) == BandOnly(num, ToMap(b.bids), mid, maxSpread)
            && ToMap(r.asks) == BandOnly(num, ToMap(b.asks), mid, maxSpread)
  {
    var r := FixSpread(num, b, maxSpread);
    TrimKeepsBand(num, b, maxSpread);
    CutOk(num, prices, true, r.bids, b.bids);
    CutOk(num, prices, false, r.asks, b.asks);
    CutMap(num, b.bids, |r.bids|, Mid(num, b), maxSpread);
    CutMap(num, b.asks, |r.asks|, Mid(num, b), maxSpread);
    assert r.bids == b.bids[..|r.bids|] && r.asks == b.asks[..|r.asks|];
  }

  lemma FiresRefines(num: Parser, b: Book, maxSpread: real)
    requires SortedBook(num, b)
    ensures TrimFires(num, b, maxSpread) <==> MapFires(num, Abs(b), maxSpread)
  {
    FirstIsBest(num, true, b.bids);
    FirstIsBest(num, false, b.asks);
  }

  /** Sort and trim keep the book invariant and refine the trim on maps: on a reachable book the
      sort moves nothing. */
  lemma SortAndFixRefines(num: Parser, prices: iset<string>, b: Book, maxSpread: real)
    requires BookOk(num, prices, b)
    ensures SortSides(num, b) == b
    ensures BookOk(num, prices, SortAndFix(num, b, maxSpread))
    ensures Abs(SortAndFix(num, b, maxSpread)) == MapTrim(num, Abs(b), maxSpread)
  {
    SortIdentity(num, true, b.bids);
    SortIdentity(num, false, b.asks);
    MidRefines(num, b);
    FiresRefines(num, b, maxSpread);
    if TrimFires(num, b, maxSpread) {
      TrimRefines(num, prices, b, maxSpread);
    }
  }
}
