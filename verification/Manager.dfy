/** The order-book manager: books edited in place behind a map of pointers, counters, the sort queue
    and the recovery set. Each method is tied to the step of the state machine it performs. */
module Manager {
  import opened Prices
  import opened Sides
  import opened Sorting
  import opened Books
  import opened Engine

  class Orderbook {
    var symbol: string
    var lastUpdateId: int64
    var bids: seq<Level>
    var asks: seq<Level>

    constructor (b: Book, symbol: string)
      ensures Contents() == b.(symbol := symbol)
    {
      this.symbol, lastUpdateId, bids, asks := symbol, b.lastUpdateId, b.bids, b.asks;
    }

    ghost function Contents(): Book
      reads this
    {
      Book(symbol, lastUpdateId, bids, asks)
    }

    method SortAndFixSides(num: Parser, maxSpread: real)
      modifies this
      ensures Contents() == SortAndFix(num, old(Contents()), maxSpread)
    {
      bids := SliceStable(num, true, bids);
      asks := SliceStable(num, false, asks);
      assert Contents() == SortSides(num, old(Contents()));
      FixSpreadOfSides(num, maxSpread);
    }

    method FixSpreadOfSides(num: Parser, maxSpread: real)
      modifies this
      ensures Contents() == FixSpread(num, old(Contents()), maxSpread)
    {
      if |bids| > 0 && |asks| > 0 {
        var bidPrice, askPrice := Value(num, bids[0].price), Value(num, asks[0].price);
        if SpreadExceeds(bidPrice, askPrice, maxSpread) {
          var midPrice := Midpoint(bidPrice, askPrice);
          CutSides(num, LowLimit(midPrice, maxSpread), HighLimit(midPrice, maxSpread));
        }
      }
    }

    method CutSides(num: Parser, low: real, high: real)
      modifies this
      ensures Contents() == CutBook(num, old(Contents()), low, high)
    {
      var i := SortSearch(bids, Beyond(num, true, low));
      bids := bids[..i];
      var j := SortSearch(asks, Beyond(num, false, high));
      asks := asks[..j];
    }
  }

  /** A message of the websocket, with the settings and REST answers its handling meets. */
  datatype Incoming = Incoming(update: StreamUpdate, maxSpread: real, responses: seq<Response>)

  ghost function StreamEvents(ch: seq<Incoming>): seq<Event> {
    seq(|ch|, i requires 0 <= i < |ch| => Stream(ch[i].update, ch[i].maxSpread, ch[i].responses))
  }

  ghost function FetchEvents(assets: seq<string>, responses: seq<seq<Response>>): seq<Event>
    requires |assets| == |responses|
  {
    seq(|assets|, i requires 0 <= i < |assets| => Fetch(assets[i], responses[i]))
  }

  class OrderbookManager {
    const config: Config
    var orderbooks: map<string, Orderbook>
    var mismatchCount: map<string, nat>
    var sortingChan: seq<string>
    var recoveryAssets: set<string>
    var isLeader: bool
    ghost var published: seq<Message>
    ghost var fetched: seq<string>
    ghost var syncSorts: nat

    /** Every symbol has a book of its own. */
    ghost predicate Valid()
      reads this
    {
      forall s, t :: s in orderbooks && t in orderbooks && s != t ==> orderbooks[s] != orderbooks[t]
    }

    ghost function Contents(): State
      reads this, orderbooks.Values
    {
      State(map s | s in orderbooks :: orderbooks[s].Contents(),
            mismatchCount, sortingChan, recoveryAssets, isLeader, published, fetched, syncSorts)
    }

    /** Editing one book in place changes one entry of the state. */
    twostate lemma OneBookEdited(symbol: string)
      requires old(Valid()) && orderbooks == old(orderbooks) && symbol in orderbooks
      requires forall o :: o in orderbooks.Values && o != orderbooks[symbol] ==> unchanged(o)
      ensures Contents().books == old(Contents()).books[symbol := orderbooks[symbol].Contents()]
    {
      forall s | s in orderbooks && s != symbol
        ensures orderbooks[s].Contents() == old(orderbooks[s].Contents())
      {
        assert orderbooks[s] in orderbooks.Values;
      }
    }

    constructor (config: Config)
      ensures Valid() && this.config == config && orderbooks == map[]
      ensures Contents() == INITIAL == State(map[], map[], [], {}, false, [], [], 0)
    {
      this.config := config;
      orderbooks, mismatchCount, sortingChan, recoveryAssets := map[], map[], [], {};
      isLeader, published, fetched, syncSorts := false, [], [], 0;
    }

    method SetIsLeader(isLeader: bool)
      requires Valid()
      modifies this`isLeader
      ensures Valid() && Contents() == Step(config, old(Contents()), Leader(isLeader))
    {
      this.isLeader := isLeader;
    }

    // ------------------------------------------------------------ stream updates

    method GetMidPrice(symbol: string) returns (mid: real)
      ensures mid == if symbol in orderbooks then Mid(config.num, orderbooks[symbol].Contents()) else 0.0
    {
      if symbol !in orderbooks {
        return 0.0;
      }
      var bids, asks := orderbooks[symbol].bids, orderbooks[symbol].asks;
      if |bids| == 0 || |asks| == 0 {
        return 0.0;
      }
      mid := Midpoint(Value(config.num, bids[0].price), Value(config.num, asks[0].price));
    }

    /** The delete loop: the first level with this very price string goes. */
    static method RemoveOrder(side: seq<Level>, price: string) returns (r: seq<Level>)
      ensures r == RemoveFirst(side, price)
    {
      for i := 0 to |side|
        invariant forall k :: 0 <= k < i ==> side[k].price != price
      {
        if side[i].price == price {
          RemoveFirstAt(side, price, i);
          if i == |side| - 1 {
            return side[..i];
          } else {
            return side[..i] + side[i + 1..];
          }
        }
      }
      RemoveFirstAt(side, price, |side|);
      return side;
    }

    /** Appending a slot, shifting the tail by one and filling the gap inserts the order. */
    static lemma ShiftInserts(side: seq<Level>, order: Level, i: nat)
      requires i <= |side|
      ensures var r := side + [Level("", "")];
              (r[..i + 1] + r[i..|r| - 1])[i := order] == side[..i] + [order] + side[i..]
    {
      var r := side + [Level("", "")];
      assert r[i..|r| - 1] == side[i..];
      assert r[..i + 1][i := order] == side[..i] + [order];
    }

    /** Overwrite, or append a slot, shift the tail by one, and fill the gap. */
    static method PutOrder(side: seq<Level>, order: Level, isBid: bool) returns (r: seq<Level>)
      ensures r == PutLevel(side, order, isBid)
    {
      var i := SortSearch(side, AtOrPast(isBid, order.price));
      if i < |side| && side[i].price == order.price {
        r := side[i := Level(side[i].price, order.qty)];
      } else {
        r := side + [Level("", "")];
        r := r[..i + 1] + r[i..|r| - 1];
        r := r[i := order];
        ShiftInserts(side, order, i);
      }
    }

    method UpdateOrder(order: Level, isBid: bool, symbol: string, maxSpread: real)
      requires symbol in orderbooks
      modifies orderbooks[symbol]
      ensures orderbooks[symbol].Contents()
           == ApplyLevel(config.num, old(orderbooks[symbol].Contents()), order, isBid, maxSpread)
    {
      var qty := config.num(order.qty);
      if qty.None? {
        return;
      }
      var price := Value(config.num, order.price);
      var mid := GetMidPrice(symbol);
      if mid != 0.0 && !InBand(price, mid, maxSpread) {
        return;
      }
      var orderbook := orderbooks[symbol];
      var side := if isBid then orderbook.bids else orderbook.asks;
      if qty.value == 0.0 {
        side := RemoveOrder(side, order.price);
      } else {
        side := PutOrder(side, order, isBid);
      }
      if isBid {
        orderbook.bids := side;
      } else {
        orderbook.asks := side;
      }
    }

    method UpdateOrders(orders: seq<Level>, isBid: bool, symbol: string, maxSpread: real)
      requires symbol in orderbooks
      modifies orderbooks[symbol]
      ensures orderbooks[symbol].Contents()
           == ApplyLevels(config.num, old(orderbooks[symbol].Contents()), orders, isBid, maxSpread)
    {
      ghost var before := orderbooks[symbol].Contents();
      for i := 0 to |orders|
        invariant orderbooks[symbol].Contents() == ApplyLevels(config.num, before, orders[..i], isBid, maxSpread)
      {
        UpdateOrder(orders[i], isBid, symbol, maxSpread);
        assert orders[..i + 1][..i] == orders[..i];
      }
      assert orders[..|orders|] == orders;
    }

    method HandleStreamUpdate(update: StreamUpdate, maxSpread: real, responses: seq<Response>)
      requires Valid()
      modifies this, orderbooks.Values
      ensures Valid() && fresh(orderbooks.Values - old(orderbooks.Values))
      ensures Contents() == Handle(config, old(Contents()), update, maxSpread, responses)
    {
      var symbol := update.symbol;
      if symbol !in orderbooks {
        if 1 >= config.chunkSize {
          GetSnapshot(symbol, responses);
        }
        return;
      }
      CountMismatch(update);
      if mismatchCount[symbol] >= 2 {
        var _ := FetchInitialOrderbook(symbol, responses);
        return;
      }
      ApplyStreamUpdate(update, maxSpread);
    }

    method CountMismatch(update: StreamUpdate)
      requires update.symbol in orderbooks
      modifies this`mismatchCount
      ensures Contents() == CountUpdate(old(Contents()), update)
    {
      var orderbook, symbol := orderbooks[update.symbol], update.symbol;
      if orderbook.lastUpdateId != 0 && update.firstUpdateId != NextId(orderbook.lastUpdateId) {
        mismatchCount := mismatchCount[symbol := (if symbol in mismatchCount then mismatchCount[symbol] else 0) + 1];
      } else {
        mismatchCount := mismatchCount[symbol := 0];
      }
      assert Contents().books == old(Contents()).books;
    }

    method ApplyStreamUpdate(update: StreamUpdate, maxSpread: real)
      requires Valid() && update.symbol in orderbooks
      modifies this`sortingChan, this`syncSorts, orderbooks.Values
      ensures Valid() && Contents() == ApplyAndSort(config, old(Contents()), update, maxSpread)
    {
      UpdateOrders(update.bids, true, update.symbol, maxSpread);
      UpdateOrders(update.asks, false, update.symbol, maxSpread);
      orderbooks[update.symbol].lastUpdateId := update.finalUpdateId;
      OneBookEdited(update.symbol);
      SortOrderbookInBackground(update.symbol, maxSpread);
    }

    // ------------------------------------------------------------ sort and trim

    method SortOrderbookInBackground(symbol: string, maxSpread: real)
      requires Valid()
      modifies this`sortingChan, this`syncSorts, orderbooks.Values
      ensures Valid() && Contents() == SortInBackground(config, old(Contents()), symbol, maxSpread)
    {
      if |sortingChan| < QUEUE_CAPACITY {
        sortingChan := sortingChan + [symbol];
      } else {
        SortAndFixSpread(symbol, maxSpread);
        syncSorts := syncSorts + 1;
      }
    }

    method SortAndFixSpread(symbol: string, maxSpread: real)
      requires Valid()
      modifies orderbooks.Values
      ensures Valid()
      ensures Contents() == if symbol in orderbooks then
                old(Contents()).(books := old(Contents()).books[symbol :=
                  SortAndFix(config.num, old(Contents()).books[symbol], maxSpread)])
              else old(Contents())
    {
      if symbol !in orderbooks {
        return;
      }
      orderbooks[symbol].SortAndFixSides(config.num, maxSpread);
      OneBookEdited(symbol);
    }

    // ------------------------------------------------------------ snapshot fetch

    method AddAssetToRecovery(symbol: string)
      modifies this`recoveryAssets
      ensures recoveryAssets == old(recoveryAssets) + {symbol}
    {
      if symbol !in recoveryAssets {
        recoveryAssets := recoveryAssets + {symbol};
      }
    }

    method StoreBook(symbol: string, book: Book)
      requires Valid()
      modifies this`orderbooks
      ensures Valid() && fresh(orderbooks.Values - old(orderbooks.Values))
      ensures Contents() == old(Contents()).(books := old(Contents()).books[symbol := book.(symbol := symbol)])
    {
      var orderbook := new Orderbook(book, symbol);
      orderbooks := orderbooks[symbol := orderbook];
      assert Contents().books == old(Contents()).books[symbol := book.(symbol := symbol)];
    }

    /** Only a malformed answer is reported: running out of attempts returns no error. */
    method FetchInitialOrderbook(symbol: string, responses: seq<Response>) returns (err: bool)
      requires Valid()
      modifies this`orderbooks, this`recoveryAssets, this`fetched
      ensures Valid() && fresh(orderbooks.Values - old(orderbooks.Values))
      ensures Contents() == FetchBook(config, old(Contents()), symbol, responses)
      ensures var k := FirstAnswered(responses, 0, config.maxRetry);
              err <==> (symbol !in config.ignored && k < config.maxRetry && Answer(responses, k) == Malformed)
    {
      LogFetch(symbol);
      if symbol in config.ignored {
        return false;
      }
      var response := RequestSnapshot(symbol, responses);
      match response {
        case Failed => return false;
        case Malformed => return true;
        case Snapshot(book) => StoreBook(symbol, book); return false;
      }
    }

    /** One round of the snapshot loop: the check takes the name as given, the fetch upper case. */
    method GetSnapshot(asset: string, responses: seq<Response>)
      requires Valid()
      modifies this`orderbooks, this`recoveryAssets, this`fetched
      ensures Valid() && fresh(orderbooks.Values - old(orderbooks.Values))
      ensures Contents() == Step(config, old(Contents()), Fetch(asset, responses))
    {
      if asset !in orderbooks {
        var _ := FetchInitialOrderbook(ToUpper(asset), responses);
      }
    }

    /** responses[i] are the answers to the requests for assets[i]. */
    method GetSnapshots(assets: seq<string>, responses: seq<seq<Response>>)
      requires Valid() && |assets| == |responses|
      modifies this`orderbooks, this`recoveryAssets, this`fetched
      ensures Valid() && fresh(orderbooks.Values - old(orderbooks.Values))
      ensures Contents() == Run(config, old(Contents()), FetchEvents(assets, responses))
    {
      ghost var events := FetchEvents(assets, responses);
      for i := 0 to |assets|
        invariant Valid() && fresh(orderbooks.Values - old(orderbooks.Values))
        invariant Contents() == Run(config, old(Contents()), events[..i])
      {
        GetSnapshot(assets[i], responses[i]);
        assert events[..i + 1][..i] == events[..i];
      }
      assert events[..|assets|] == events;
    }

    ghost method LogFetch(symbol: string)
      modifies this`fetched
      ensures Contents() == old(Contents()).(fetched := old(fetched) + [symbol])
    {
      fetched := fetched + [symbol];
      assert Contents().books == old(Contents()).books;
    }

    /** The retry loop: every failed attempt puts the symbol into the recovery set. */
    method RequestSnapshot(symbol: string, responses: seq<Response>) returns (response: Response)
      modifies this`recoveryAssets
      ensures var k := FirstAnswered(responses, 0, config.maxRetry);
              && response == (if k < config.maxRetry then Answer(responses, k) else Failed)
              && Contents() == old(Contents()).(recovery := old(recoveryAssets) + if k > 0 then {symbol} else {})
    {
      response := Failed;
      for attempt := 0 to config.maxRetry
        invariant response == Failed
        invariant FirstAnswered(responses, attempt, config.maxRetry) == FirstAnswered(responses, 0, config.maxRetry)
        invariant recoveryAssets == old(recoveryAssets) + if attempt > 0 then {symbol} else {}
      {
        response := Answer(responses, attempt);
        if response != Failed {
          break;
        }
        AddAssetToRecovery(symbol);
      }
      assert Contents().books == old(Contents()).books;
    }

    // ------------------------------------------------------------------- publish

    method ProcessUpdate(incoming: Incoming)
      requires Valid()
      modifies this, orderbooks.Values
      ensures Valid() && fresh(orderbooks.Values - old(orderbooks.Values))
      ensures Contents() ==
              Step(config, old(Contents()), Stream(incoming.update, incoming.maxSpread, incoming.responses))
    {
      HandleStreamUpdate(incoming.update, incoming.maxSpread, incoming.responses);
      PublishBook(incoming.update.symbol);
    }

    method PublishBook(symbol: string)
      modifies this`published
      ensures Contents() == Publish(old(Contents()), symbol)
    {
      if symbol in orderbooks {
        var orderbook := orderbooks[symbol];
        var bids, asks := orderbook.bids, orderbook.asks;
        if |bids| > PUBLISHED_LEVELS {
          bids := bids[..PUBLISHED_LEVELS];
        }
        if |asks| > PUBLISHED_LEVELS {
          asks := asks[..PUBLISHED_LEVELS];
        }
        if isLeader {
          published := published +
            [Message("orderbook." + symbol, Book(orderbook.symbol, orderbook.lastUpdateId, bids, asks))];
        }
      }
      assert Contents().books == old(Contents()).books;
    }

    /** The consumer loop performs exactly the run of the messages it takes. */
    method ProcessChannel(ch: seq<Incoming>)
      requires Valid()
      modifies this, orderbooks.Values
      ensures Valid() && fresh(orderbooks.Values - old(orderbooks.Values))
      ensures Contents() == Run(config, old(Contents()), StreamEvents(ch))
    {
      for i := 0 to |ch|
        invariant Valid() && fresh(orderbooks.Values - old(orderbooks.Values))
        invariant Contents() == Run(config, old(Contents()), StreamEvents(ch)[..i])
      {
        ProcessUpdate(ch[i]);
        assert StreamEvents(ch)[..i + 1][..i] == StreamEvents(ch)[..i];
      }
      assert StreamEvents(ch)[..|ch|] == StreamEvents(ch);
    }
  }
}
