/** What one stream update and one spread trim do to a book, as functions on slices, and the same
    steps on the two price-to-quantity maps the slices represent. */
module Books {
  import opened Prices
  import opened Sides
  import opened Sorting

  newtype int64 = x: int | -0x8000_0000_0000_0000 <= x < 0x8000_0000_0000_0000

  datatype Book = Book(symbol: string, lastUpdateId: int64, bids: seq<Level>, asks: seq<Level>)

  datatype StreamUpdate = StreamUpdate(
    symbol: string, firstUpdateId: int64, finalUpdateId: int64, bids: seq<Level>, asks: seq<Level>)

  // ---------------------------------------------------------- stream updates

  function Midpoint(bid: real, ask: real): real {
    (bid + ask) / 2.0
  }

  /** getMidPrice: 0 when a side is empty. */
  function Mid(num: Parser, b: Book): real {
    if b.bids == [] || b.asks == [] then 0.0 else
      Midpoint(Value(num, b.bids[0].price), Value(num, b.asks[0].price))
  }

  /** The ends of the admission band of updateOrder around a mid price. */
  function BandLow(mid: real, maxSpread: real): real {
    mid * (1.0 - maxSpread / 100.0)
  }

  function BandHigh(mid: real, maxSpread: real): real {
    mid * (1.0 + maxSpread / 100.0)
  }

  predicate InBand(price: real, mid: real, maxSpread: real) {
    BandLow(mid, maxSpread) <= price <= BandHigh(mid, maxSpread)
  }

  function EditSide(num: Parser, side: seq<Level>, order: Level, isBid: bool): seq<Level> {
    if LiveQty(num, order.qty) then PutLevel(side, order, isBid) else RemoveFirst(side, order.price)
  }

  /** updateOrder: an unreadable quantity or a price outside the band leaves the book alone,
      even when the quantity asks for a delete. */
  function ApplyLevel(num: Parser, b: Book, order: Level, isBid: bool, maxSpread: real): Book {
    var mid := Mid(num, b);
    if num(order.qty).None? then b
    else if mid != 0.0 && !InBand(Value(num, order.price), mid, maxSpread) then b
    else if isBid then b.(bids := EditSide(num, b.bids, order, true))
    else b.(asks := EditSide(num, b.asks, order, false))
  }

  function ApplyLevels(num: Parser, b: Book, orders: seq<Level>, isBid: bool, maxSpread: real): Book {
    if orders == [] then b else
      var n := |orders| - 1;
      ApplyLevel(num, ApplyLevels(num, b, orders[..n], isBid, maxSpread), orders[n], isBid, maxSpread)
  }

  function ApplyUpdate(num: Parser, b: Book, u: StreamUpdate, maxSpread: real): Book {
    var withBids := ApplyLevels(num, b, u.bids, true, maxSpread);
    ApplyLevels(num, withBids, u.asks, false, maxSpread).(lastUpdateId := u.finalUpdateId)
  }

  /** Levels take effect one after the other, on any book. */
  lemma {:induction false} LevelsConcat(num: Parser, b: Book, first: seq<Level>, more: seq<Level>, isBid: bool,
                                        maxSpread: real)
    ensures ApplyLevels(num, b, first + more, isBid, maxSpread)
         == ApplyLevels(num, ApplyLevels(num, b, first, isBid, maxSpread), more, isBid, maxSpread)
    ensures |more| == 1 ==> ApplyLevels(num, b, more, isBid, maxSpread) == ApplyLevel(num, b, more[0], isBid, maxSpread)
    decreases |more|
  {
    if more == [] {
      assert first + more == first;
    } else {
      var n := |more| - 1;
      assert (first + more)[..|first + more| - 1] == first + more[..n];
      LevelsConcat(num, b, first, more[..n], isBid, maxSpread);
    }
  }

  /** An update is its bids, then its asks, then its final identifier, on any book. */
  lemma UpdateSplits(num: Parser, b: Book, u: StreamUpdate, maxSpread: real)
    ensures ApplyUpdate(num, b, u, maxSpread)
         == ApplyUpdate(num, ApplyUpdate(num, b, u.(asks := []), maxSpread), u.(bids := []), maxSpread)
    ensures u.asks == [] ==>
              ApplyUpdate(num, b, u, maxSpread)
              == ApplyLevels(num, b, u.bids, true, maxSpread).(lastUpdateId := u.finalUpdateId)
    ensures u.bids == [] ==>
              ApplyUpdate(num, b, u, maxSpread)
              == ApplyLevels(num, b, u.asks, false, maxSpread).(lastUpdateId := u.finalUpdateId)
  {
    var withBids := ApplyLevels(num, b, u.bids, true, maxSpread);
    LevelsIgnoreId(num, withBids, u.asks, false, maxSpread, u.finalUpdateId);
  }

  lemma {:induction false} LevelsIgnoreId(num: Parser, b: Book, orders: seq<Level>, isBid: bool, maxSpread: real,
                                          id: int64)
    ensures ApplyLevels(num, b.(lastUpdateId := id), orders, isBid, maxSpread)
         == ApplyLevels(num, b, orders, isBid, maxSpread).(lastUpdateId := id)
    decreases |orders|
  {
    if orders == [] {
    } else {
      var n := |orders| - 1;
      LevelsIgnoreId(num, b, orders[..n], isBid, maxSpread, id);
      LevelIgnoresId(num, ApplyLevels(num, b, orders[..n], isBid, maxSpread), orders[n], isBid, maxSpread, id);
    }
  }

  lemma LevelIgnoresId(num: Parser, b: Book, order: Level, isBid: bool, maxSpread: real, id: int64)
    ensures ApplyLevel(num, b.(lastUpdateId := id), order, isBid, maxSpread)
         == ApplyLevel(num, b, order, isBid, maxSpread).(lastUpdateId := id)
  {
    assert Mid(num, b.(lastUpdateId := id)) == Mid(num, b);
  }

  // -------------------------------------------------------------- sort and trim

  /** Go's comparison of (ask - bid) / bid * 100 with the maximum. A zero bid divides to +Inf,
      which exceeds every maximum, or to NaN, which exceeds none. */
  predicate SpreadExceeds(bid: real, ask: real, maxSpread: real) {
    if bid == 0.0 then ask > 0.0 else (ask - bid) / bid * 100.0 > maxSpread
  }

  /** The predicates the trim searches with. */
  function Beyond(num: Parser, isBid: bool, limit: real): Level -> bool {
    (level: Level) => if isBid then Value(num, level.price) < limit else Value(num, level.price) > limit
  }

  function CutSide(num: Parser, isBid: bool, side: seq<Level>, limit: real): seq<Level> {
    side[..Search(side, Beyond(num, isBid, limit), 0, |side|)]
  }

  /** The distance from the mid up to which the trim keeps levels. */
  function Allowed(mid: real, maxSpread: real): real {
    mid * (maxSpread / 100.0)
  }

  /** The lowest bid and the highest ask the trim keeps. */
  function LowLimit(mid: real, maxSpread: real): real {
    mid - Allowed(mid, maxSpread)
  }

  function HighLimit(mid: real, maxSpread: real): real {
    mid + Allowed(mid, maxSpread)
  }

  function CutBook(num: Parser, b: Book, low: real, high: real): Book {
    b.(bids := CutSide(num, true, b.bids, low), asks := CutSide(num, false, b.asks, high))
  }

  /** True when both sides have a best level and these are too far apart. */
  predicate TrimFires(num: Parser, b: Book, maxSpread: real) {
    b.bids != [] && b.asks != [] &&
    SpreadExceeds(Value(num, b.bids[0].price), Value(num, b.asks[0].price), maxSpread)
  }

  function FixSpread(num: Parser, b: Book, maxSpread: real): Book {
    if TrimFires(num, b, maxSpread) then
      CutBook(num, b, LowLimit(Mid(num, b), maxSpread), HighLimit(Mid(num, b), maxSpread))
    else b
  }

  function SortSides(num: Parser, b: Book): Book {
    b.(bids := StableSort(num, true, b.bids), asks := StableSort(num, false, b.asks))
  }

  function SortAndFix(num: Parser, b: Book, maxSpread: real): Book {
    FixSpread(num, SortSides(num, b), maxSpread)
  }

  // ------------------------------------------------------------------- invariant

  ghost predicate SortedBook(num: Parser, b: Book) {
    Sorted(num, true, b.bids) && Sorted(num, false, b.asks)
  }

  ghost predicate BookOk(num: Parser, prices: iset<string>, b: Book) {
    SideOk(num, prices, true, b.bids) && SideOk(num, prices, false, b.asks)
  }

  /** A book in order, by the numbers: bids fall, asks rise, no level is empty. */
  lemma BookOkMeans(num: Parser, prices: iset<string>, b: Book)
    ensures BookOk(num, prices, b) <==>
              && (forall i, j :: 0 <= i < j < |b.bids| ==> Value(num, b.bids[i].price) > Value(num, b.bids[j].price))
              && (forall i, j :: 0 <= i < j < |b.asks| ==> Value(num, b.asks[i].price) < Value(num, b.asks[j].price))
              && (forall l :: l in b.bids || l in b.asks ==>
                    l.price in prices && num(l.qty).Some? && num(l.qty).value != 0.0)
  {
    var (bids, asks) := (b.bids, b.asks);
    assert forall i :: 0 <= i < |bids| ==> bids[i] in bids;
    assert forall i :: 0 <= i < |asks| ==> asks[i] in asks;
  }

  ghost predicate UpdateOver(prices: iset<string>, u: StreamUpdate) {
    PricesIn(prices, u.bids) && PricesIn(prices, u.asks)
  }

  // ------------------------------------------------------------ books as maps

  datatype MapBook = MapBook(
    symbol: string, lastUpdateId: int64, bids: map<string, string>, asks: map<string, string>)

  function Abs(b: Book): MapBook {
    MapBook(b.symbol, b.lastUpdateId, ToMap(b.bids), ToMap(b.asks))
  }

  /** The smallest key of a set of prices: the highest bid, negated, or the lowest ask. */
  ghost function BestKey(num: Parser, isBid: bool, prices: set<string>): (best: real)
    requires prices != {}
    ensures exists p :: p in prices && Key(num, isBid, p) == best
    ensures forall p :: p in prices ==> best <= Key(num, isBid, p)
  {
    var p :| p in prices;
    if prices == {p} then
      Key(num, isBid, p)
    else
      var rest := BestKey(num, isBid, prices - {p});
      if Key(num, isBid, p) < rest then Key(num, isBid, p) else rest
  }

  /** The highest bid or the lowest ask. */
  ghost function BestPrice(num: Parser, isBid: bool, prices: set<string>): real
    requires prices != {}
  {
    if isBid then -BestKey(num, isBid, prices) else BestKey(num, isBid, prices)
  }

  /** (max bid + min ask) / 2, or 0 when a side is empty. */
  ghost function MapMid(num: Parser, b: MapBook): real {
    if b.bids == map[] || b.asks == map[] then 0.0 else
      Midpoint(BestPrice(num, true, b.bids.Keys), BestPrice(num, false, b.asks.Keys))
  }

  ghost function MapLevel(num: Parser, b: MapBook, order: Level, isBid: bool, maxSpread: real): MapBook {
    var mid := MapMid(num, b);
    if num(order.qty).None? then b
    else if mid != 0.0 && !InBand(Value(num, order.price), mid, maxSpread) then b
    else if isBid then b.(bids := MapStep(num, b.bids, order))
    else b.(asks := MapStep(num, b.asks, order))
  }

  ghost function MapLevels(num: Parser, b: MapBook, orders: seq<Level>, isBid: bool, maxSpread: real): MapBook {
    if orders == [] then b else
      var n := |orders| - 1;
      MapLevel(num, MapLevels(num, b, orders[..n], isBid, maxSpread), orders[n], isBid, maxSpread)
  }

  ghost function MapUpdate(num: Parser, b: MapBook, u: StreamUpdate, maxSpread: real): MapBook {
    var withBids := MapLevels(num, b, u.bids, true, maxSpread);
    MapLevels(num, withBids, u.asks, false, maxSpread).(lastUpdateId := u.finalUpdateId)
  }

  ghost function BandOnly(num: Parser, levels: map<string, string>, mid: real, maxSpread: real): map<string, string> {
    map p | p in levels && InBand(Value(num, p), mid, maxSpread) :: levels[p]
  }

  ghost predicate MapFires(num: Parser, b: MapBook, maxSpread: real) {
    b.bids != map[] && b.asks != map[] &&
    SpreadExceeds(BestPrice(num, true, b.bids.Keys), BestPrice(num, false, b.asks.Keys), maxSpread)
  }

  /** The trim on maps: when the spread is too wide, only the admission band survives. */
  ghost function MapTrim(num: Parser, b: MapBook, maxSpread: real): MapBook {
    if MapFires(num, b, maxSpread) then
      var mid := MapMid(num, b);
      b.(bids := BandOnly(num, b.bids, mid, maxSpread), asks := BandOnly(num, b.asks, mid, maxSpread))
    else b
  }

  // ---------------------------------------------------------------- refinement

  /** The first level of a sorted side carries the best key of its map. */
  lemma FirstIsBest(num: Parser, isBid: bool, side: seq<Level>)
    requires Sorted(num, isBid, side)
    ensures ToMap(side) == map[] <==> side == []
    ensures side != [] ==> BestPrice(num, isBid, ToMap(side).Keys) == Value(num, side[0].price)
  {
    MapKeys(side);
    if side != [] {
      var best := BestKey(num, isBid, ToMap(side).Keys);
      assert side[0].price in ToMap(side).Keys;
      var p :| p in ToMap(side).Keys && Key(num, isBid, p) == best;
      var i :| 0 <= i < |side| && side[i].price == p;
    }
  }

  lemma MidRefines(num: Parser, b: Book)
    requires SortedBook(num, b)
    ensures MapMid(num, Abs(b)) == Mid(num, b)
  {
    FirstIsBest(num, true, b.bids);
    FirstIsBest(num, false, b.asks);
  }

  lemma EditRefines(num: Parser, prices: iset<string>, isBid: bool, side: seq<Level>, order: Level)
    requires Coherent(num, prices) && SideOk(num, prices, isBid, side) && order.price in prices
    ensures SideOk(num, prices, isBid, EditSide(num, side, order, isBid))
    ensures ToMap(EditSide(num, side, order, isBid)) == MapStep(num, ToMap(side), order)
  {
    if LiveQty(num, order.qty) {
      PutRefines(num, prices, isBid, side, order);
    } else {
      RemoveRefines(num, prices, isBid, side, order.price);
    }
  }

  /** What the edit does to the map, by the number the quantity reads as. */
  lemma EditMeans(num: Parser, prices: iset<string>, isBid: bool, side: seq<Level>, order: Level)
    requires Coherent(num, prices) && SideOk(num, prices, isBid, side) && order.price in prices
    requires num(order.qty).Some?
    ensures num(order.qty).value == 0.0 ==>
              ToMap(EditSide(num, side, order, isBid)) == ToMap(side) - {order.price}
    ensures num(order.qty).value != 0.0 ==>
              ToMap(EditSide(num, side, order, isBid)) == ToMap(side)[order.price := order.qty]
  {
    EditRefines(num, prices, isBid, side, order);
  }

  /** The inequalities of updateOrder, around the mid of two best prices. */
  ghost predicate OutsideBand(price: real, bid: real, ask: real, maxSpread: real) {
    var mid := (bid + ask) / 2.0;
    price < mid * (1.0 - maxSpread / 100.0) || price > mid * (1.0 + maxSpread / 100.0)
  }

  lemma OutsideMeans(price: real, bid: real, ask: real, maxSpread: real)
    ensures OutsideBand(price, bid, ask, maxSpread) <==> !InBand(price, Midpoint(bid, ask), maxSpread)
  {
  }

  /** A level is dropped when its quantity does not parse, or when both sides have a best level, their mid
      is not 0, and the price is outside the band. */
  ghost predicate Dropped(num: Parser, b: Book, order: Level, maxSpread: real, price: real, bid: real, ask: real) {
    || num(order.qty).None?
    || (b.bids != [] && b.asks != [] && (bid + ask) / 2.0 != 0.0 && OutsideBand(price, bid, ask, maxSpread))
  }

  lemma DroppedMeans(num: Parser, b: Book, order: Level, isBid: bool, maxSpread: real,
                     price: real, bid: real, ask: real)
    requires Reads(num, order.price, price)
    requires b.bids != [] ==> Reads(num, b.bids[0].price, bid)
    requires b.asks != [] ==> Reads(num, b.asks[0].price, ask)
    ensures ApplyLevel(num, b, order, isBid, maxSpread) ==
              if Dropped(num, b, order, maxSpread, price, bid, ask) then b
              else if isBid then b.(bids := EditSide(num, b.bids, order, true))
              else b.(asks := EditSide(num, b.asks, order, false))
  {
    OutsideMeans(price, bid, ask, maxSpread);
    assert b.bids != [] && b.asks != [] ==> Mid(num, b) == Midpoint(bid, ask) == (bid + ask) / 2.0;
  }

  /** What updateOrder does to any book, by the numbers its strings read as: a level that is not dropped
      is deleted if its quantity is 0 and put otherwise, and nothing else changes. */
  lemma LevelMeans(num: Parser, b: Book, order: Level, isBid: bool, maxSpread: real,
                   price: real, bid: real, ask: real)
    requires Reads(num, order.price, price)
    requires b.bids != [] ==> Reads(num, b.bids[0].price, bid)
    requires b.asks != [] ==> Reads(num, b.asks[0].price, ask)
    ensures var (r, side) := (ApplyLevel(num, b, order, isBid, maxSpread), if isBid then b.bids else b.asks);
            if Dropped(num, b, order, maxSpread, price, bid, ask) then
              r == b
            else
              var edited :=
                if num(order.qty).value == 0.0 then RemoveFirst(side, order.price) else PutLevel(side, order, isBid);
              r == if isBid then b.(bids := edited) else b.(asks := edited)
  {
    DroppedMeans(num, b, order, isBid, maxSpread, price, bid, ask);
  }

  /** One level: the slices keep the invariant and represent the maps of the abstract step. */
  lemma LevelRefines(num: Parser, prices: iset<string>, b: Book, order: Level, isBid: bool, maxSpread: real)
    requires Coherent(num, prices) && BookOk(num, prices, b) && order.price in prices
    ensures BookOk(num, prices, ApplyLevel(num, b, order, isBid, maxSpread))
    ensures Abs(ApplyLevel(num, b, order, isBid, maxSpread)) == MapLevel(num, Abs(b), order, isBid, maxSpread)
  {
    MidRefines(num, b);
    EditRefines(num, prices, isBid, if isBid then b.bids else b.asks, order);
  }

  lemma {:induction false} LevelsRefine(num: Parser, prices: iset<string>, b: Book, orders: seq<Level>,
                                        isBid: bool, maxSpread: real)
    requires Coherent(num, prices) && BookOk(num, prices, b) && PricesIn(prices, orders)
    ensures BookOk(num, prices, ApplyLevels(num, b, orders, isBid, maxSpread))
    ensures Abs(ApplyLevels(num, b, orders, isBid, maxSpread)) == MapLevels(num, Abs(b), orders, isBid, maxSpread)
  {
    if orders == [] {
    } else {
      var n := |orders| - 1;
      LevelsRefine(num, prices, b, orders[..n], isBid, maxSpread);
      LevelRefines(num, prices, ApplyLevels(num, b, orders[..n], isBid, maxSpread), orders[n], isBid, maxSpread);
    }
  }

  /** A whole update: bids before asks, the mid re-evaluated for every level. */
  lemma UpdateRefines(num: Parser, prices: iset<string>, b: Book, u: StreamUpdate, maxSpread: real)
    requires Coherent(num, prices) && BookOk(num, prices, b) && UpdateOver(prices, u)
    ensures BookOk(num, prices, ApplyUpdate(num, b, u, maxSpread))
    ensures Abs(ApplyUpdate(num, b, u, maxSpread)) == MapUpdate(num, Abs(b), u, maxSpread)
  {
    LevelsRefine(num, prices, b, u.bids, true, maxSpread);
    LevelsRefine(num, prices, ApplyLevels(num, b, u.bids, true, maxSpread), u.asks, false, maxSpread);
  }
}
