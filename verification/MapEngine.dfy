/** The engine on maps: the state machine of the order books with two price-to-quantity maps in place of
    each pair of slices. It searches nothing, compares no strings and depends on no order of levels. The
    engine on slices simulates it, in what it stores and in what it publishes. */
module MapEngine {
  import opened Prices
  import opened Sides
  import opened Books
  import opened Spread
  import opened Engine
  import opened BookRuns

  datatype MapMessage = MapMessage(subject: string, book: MapBook)

  datatype MapState = MapState(
    books: map<string, MapBook>,
    mismatch: map<string, nat>,
    queue: seq<string>,
    recovery: set<string>,
    isLeader: bool,
    published: seq<MapMessage>,
    fetched: seq<string>,
    syncSorts: nat)

  // ------------------------------------------------------------- snapshot fetch

  function FetchMaps(cfg: Config, s: MapState, symbol: string, responses: seq<Response>): MapState {
    var loaded := FetchedBook(cfg, symbol, responses);
    s.(fetched := s.fetched + [symbol],
       recovery := if NeedsRecovery(cfg, symbol, responses) then s.recovery + {symbol} else s.recovery,
       books := if loaded.Some? then s.books[symbol := Abs(loaded.value)] else s.books)
  }

  function GetMaps(cfg: Config, s: MapState, asset: string, responses: seq<Response>): MapState {
    if asset in s.books then s else FetchMaps(cfg, s, ToUpper(asset), responses)
  }

  // --------------------------------------------------------------- stream update

  function CountMaps(s: MapState, u: StreamUpdate): MapState
    requires u.symbol in s.books
  {
    var before := if u.symbol in s.mismatch then s.mismatch[u.symbol] else 0;
    var count := if Continues(s.books[u.symbol].lastUpdateId, u.firstUpdateId) then 0 else before + 1;
    s.(mismatch := s.mismatch[u.symbol := count])
  }

  ghost function ApplyMaps(cfg: Config, s: MapState, u: StreamUpdate, maxSpread: real): MapState
    requires u.symbol in s.books
  {
    var edited := MapUpdate(cfg.num, s.books[u.symbol], u, maxSpread);
    if |s.queue| < 3000 then
      s.(queue := s.queue + [u.symbol], books := s.books[u.symbol := edited])
    else
      s.(syncSorts := s.syncSorts + 1, books := s.books[u.symbol := MapTrim(cfg.num, edited, maxSpread)])
  }

  ghost function HandleMaps(cfg: Config, s: MapState, u: StreamUpdate, maxSpread: real,
                            responses: seq<Response>): MapState {
    if u.symbol !in s.books then
      if 1 >= cfg.chunkSize then GetMaps(cfg, s, u.symbol, responses) else s
    else
      var counted := CountMaps(s, u);
      if counted.mismatch[u.symbol] >= 2 then
        FetchMaps(cfg, counted, u.symbol, responses)
      else
        ApplyMaps(cfg, counted, u, maxSpread)
  }

  // ------------------------------------------------------------------- publish

  /** The prices that come before a price on its side. */
  ghost function Better(num: Parser, isBid: bool, prices: set<string>, price: string): set<string> {
    set p | p in prices && Key(num, isBid, p) < Key(num, isBid, price)
  }

  /** The levels with fewer than 250 better ones. */
  ghost function MapTop(num: Parser, isBid: bool, levels: map<string, string>): map<string, string> {
    Restrict(levels, iset p | |Better(num, isBid, levels.Keys, p)| < 250)
  }

  ghost function MapTopBook(num: Parser, b: MapBook): MapBook {
    b.(bids := MapTop(num, true, b.bids), asks := MapTop(num, false, b.asks))
  }

  ghost function PublishMaps(num: Parser, s: MapState, symbol: string): MapState {
    if symbol in s.books && s.isLeader then
      s.(published := s.published + [MapMessage("orderbook." + symbol, MapTopBook(num, s.books[symbol]))])
    else s
  }

  // ---------------------------------------------------------------------- runs

  ghost function StepMaps(cfg: Config, s: MapState, e: Event): MapState {
    match e
    case Stream(u, maxSpread, responses) =>
      PublishMaps(cfg.num, HandleMaps(cfg, s, u, maxSpread, responses), u.symbol)
    case Fetch(asset, responses) => GetMaps(cfg, s, asset, responses)
    case Leader(isLeader) => s.(isLeader := isLeader)
  }

  ghost function RunMaps(cfg: Config, s: MapState, events: seq<Event>): MapState {
    if events == [] then s else
      StepMaps(cfg, RunMaps(cfg, s, events[..|events| - 1]), events[|events| - 1])
  }

  // --------------------------------------------------------------- abstraction

  function AbsBooks(books: map<string, Book>): map<string, MapBook> {
    map symbol | symbol in books :: Abs(books[symbol])
  }

  function AbsMessage(message: Message): MapMessage {
    MapMessage(message.subject, Abs(message.book))
  }

  function AbsMessages(messages: seq<Message>): seq<MapMessage> {
    seq(|messages|, i requires 0 <= i < |messages| => AbsMessage(messages[i]))
  }

  function AbsState(s: State): MapState {
    MapState(AbsBooks(s.books), s.mismatch, s.queue, s.recovery, s.isLeader, AbsMessages(s.published),
             s.fetched, s.syncSorts)
  }

  lemma AbsPut(books: map<string, Book>, symbol: string, b: Book)
    ensures AbsBooks(books[symbol := b]) == AbsBooks(books)[symbol := Abs(b)]
  {
  }

  // ---------------------------------------------------------------- simulation

  lemma FetchSimulates(cfg: Config, s: State, symbol: string, responses: seq<Response>)
    ensures AbsState(FetchBook(cfg, s, symbol, responses)) == FetchMaps(cfg, AbsState(s), symbol, responses)
  {
    var loaded := FetchedBook(cfg, symbol, responses);
    if loaded.Some? {
      AbsPut(s.books, symbol, loaded.value);
    }
  }

  lemma EditRefinesTrim(num: Parser, prices: iset<string>, b: Book, u: StreamUpdate, maxSpread: real)
    requires Coherent(num, prices) && BookOk(num, prices, b) && UpdateOver(prices, u)
    ensures Abs(SortAndFix(num, ApplyUpdate(num, b, u, maxSpread), maxSpread))
         == MapTrim(num, MapUpdate(num, Abs(b), u, maxSpread), maxSpread)
  {
    UpdateRefines(num, prices, b, u, maxSpread);
    SortAndFixRefines(num, prices, ApplyUpdate(num, b, u, maxSpread), maxSpread);
  }

  /** An applied update changes one book and either the queue or the count of sorts on the spot. */
  lemma ApplyChanges(cfg: Config, s: State, u: StreamUpdate, maxSpread: real)
    requires u.symbol in s.books
    ensures var edited := ApplyUpdate(cfg.num, s.books[u.symbol], u, maxSpread);
            ApplyAndSort(cfg, s, u, maxSpread) ==
              if |s.queue| < 3000 then
                s.(queue := s.queue + [u.symbol], books := s.books[u.symbol := edited])
              else
                s.(syncSorts := s.syncSorts + 1, books := s.books[u.symbol := SortAndFix(cfg.num, edited, maxSpread)])
  {
    var (edited, books) := (ApplyUpdate(cfg.num, s.books[u.symbol], u, maxSpread), s.books);
    var fixed := SortAndFix(cfg.num, edited, maxSpread);
    assert books[u.symbol := edited][u.symbol := fixed] == books[u.symbol := fixed];
  }

  lemma ApplySimulates(cfg: Config, prices: iset<string>, s: State, u: StreamUpdate, maxSpread: real)
    requires u.symbol in s.books && UpdateOver(prices, u)
    requires Coherent(cfg.num, prices) && BookOk(cfg.num, prices, s.books[u.symbol])
    ensures AbsState(ApplyAndSort(cfg, s, u, maxSpread)) == ApplyMaps(cfg, AbsState(s), u, maxSpread)
  {
    var edited := ApplyUpdate(cfg.num, s.books[u.symbol], u, maxSpread);
    ApplyChanges(cfg, s, u, maxSpread);
    if |s.queue| < 3000 {
      UpdateRefines(cfg.num, prices, s.books[u.symbol], u, maxSpread);
      AbsPut(s.books, u.symbol, edited);
    } else {
      EditRefinesTrim(cfg.num, prices, s.books[u.symbol], u, maxSpread);
      AbsPut(s.books, u.symbol, SortAndFix(cfg.num, edited, maxSpread));
    }
  }

  lemma HandleSimulates(cfg: Config, prices: iset<string>, s: State, e: Event)
    requires e.Stream? && UpdateOver(prices, e.update)
    requires e.update.symbol in s.books ==>
               Coherent(cfg.num, prices) && BookOk(cfg.num, prices, s.books[e.update.symbol])
    ensures AbsState(Handle(cfg, s, e.update, e.maxSpread, e.responses))
         == HandleMaps(cfg, AbsState(s), e.update, e.maxSpread, e.responses)
  {
    var u := e.update;
    if u.symbol !in s.books {
      FetchSimulates(cfg, s, ToUpper(u.symbol), e.responses);
    } else {
      var counted := CountUpdate(s, u);
      assert AbsState(counted) == CountMaps(AbsState(s), u);
      if counted.mismatch[u.symbol] >= 2 {
        FetchSimulates(cfg, counted, u.symbol, e.responses);
      } else {
        ApplySimulates(cfg, prices, counted, u, e.maxSpread);
      }
    }
  }

  function FirstPrices(side: seq<Level>, n: nat): (prices: set<string>)
    requires n <= |side|
    ensures forall p :: p in prices <==> exists k :: 0 <= k < n && side[k].price == p
  {
    if n == 0 then {} else FirstPrices(side, n - 1) + {side[n - 1].price}
  }

  lemma {:induction false} PriceCount(side: seq<Level>, n: nat)
    requires n <= |side| && forall i, j :: 0 <= i < j < |side| ==> side[i].price != side[j].price
    ensures |FirstPrices(side, n)| == n
  {
    if n == 0 {
    } else {
      PriceCount(side, n - 1);
      assert side[n - 1].price !in FirstPrices(side, n - 1);
    }
  }

  lemma BetterPrices(num: Parser, isBid: bool, side: seq<Level>, i: nat)
    requires StrictlySorted(num, isBid, side) && i < |side|
    ensures Better(num, isBid, ToMap(side).Keys, side[i].price) == FirstPrices(side, i)
  {
    MapKeys(side);
    forall p | p in Better(num, isBid, ToMap(side).Keys, side[i].price)
      ensures p in FirstPrices(side, i)
    {
      var k :| 0 <= k < |side| && side[k].price == p;
    }
  }

  /** The level at index i of a sorted side has i better ones. */
  lemma BetterCount(num: Parser, isBid: bool, side: seq<Level>, i: nat)
    requires StrictlySorted(num, isBid, side) && i < |side|
    ensures |Better(num, isBid, ToMap(side).Keys, side[i].price)| == i
  {
    PriceCount(side, i);
    BetterPrices(num, isBid, side, i);
  }

  /** The first 250 levels of a sorted side are the levels with fewer than 250 better ones. */
  lemma TopRefines(num: Parser, isBid: bool, side: seq<Level>)
    requires StrictlySorted(num, isBid, side)
    ensures ToMap(Top(side)) == MapTop(num, isBid, ToMap(side))
  {
    forall i | 0 <= i < |side|
      ensures |Better(num, isBid, ToMap(side).Keys, side[i].price)| == i
    {
      BetterCount(num, isBid, side, i);
    }
    var n := |Top(side)|;
    PrefixMap(side, n, iset p | |Better(num, isBid, ToMap(side).Keys, p)| < 250);
    assert Top(side) == side[..n];
  }

  lemma PublishSimulates(num: Parser, prices: iset<string>, s: State, symbol: string)
    requires symbol in s.books ==> BookOk(num, prices, s.books[symbol])
    ensures AbsState(Publish(s, symbol)) == PublishMaps(num, AbsState(s), symbol)
  {
    if symbol in s.books && s.isLeader {
      TopRefines(num, true, s.books[symbol].bids);
      TopRefines(num, false, s.books[symbol].asks);
      var message := Message("orderbook." + symbol, TopBook(s.books[symbol]));
      assert AbsMessages(s.published + [message]) == AbsMessages(s.published) + [AbsMessage(message)];
    }
  }

  lemma StepSimulates(cfg: Config, prices: Universes, s: State, e: Event)
    requires StateOk(cfg.num, prices, s) && StateOk(cfg.num, prices, Step(cfg, s, e))
    requires CoherentBooks(cfg, prices, s)
    requires e.Stream? ==> UpdateOver(prices(e.update.symbol), e.update)
    ensures AbsState(Step(cfg, s, e)) == StepMaps(cfg, AbsState(s), e)
  {
    match e
    case Stream(u, maxSpread, responses) =>
      var handled := Handle(cfg, s, u, maxSpread, responses);
      PublishKeeps(handled, u.symbol);
      HandleSimulates(cfg, prices(u.symbol), s, e);
      PublishSimulates(cfg.num, prices(u.symbol), handled, u.symbol);
    case Fetch(asset, responses) => FetchSimulates(cfg, s, ToUpper(asset), responses);
    case Leader(_) =>
  }

  lemma RunCoherent(cfg: Config, prices: Universes, s: State, events: seq<Event>)
    requires CoherentBooks(cfg, prices, s)
    ensures CoherentBooks(cfg, prices, Run(cfg, s, events))
  {
    RunBooks(cfg, s, events);
  }

  /** Main result. If the prices of every symbol that has or can get a book are coherent, the engine on
      slices, run on any events, stores and publishes exactly what the engine on maps does, makes the same
      fetches, and counts, queues and recovers alike. */
  lemma {:induction false} RunSimulates(cfg: Config, prices: Universes, s: State, events: seq<Event>)
    requires CoherentBooks(cfg, prices, s) && StateOk(cfg.num, prices, s)
    requires EventsOver(cfg.num, prices, events)
    ensures AbsState(Run(cfg, s, events)) == RunMaps(cfg, AbsState(s), events)
  {
    if events == [] {
    } else {
      var n := |events| - 1;
      EventsInit(cfg.num, prices, events);
      RunSimulates(cfg, prices, s, events[..n]);
      RunCoherent(cfg, prices, s, events[..n]);
      CoherentKeepsOrder(cfg, prices, s, events[..n]);
      CoherentKeepsOrder(cfg, prices, s, events);
      StepSimulates(cfg, prices, Run(cfg, s, events[..n]), events[n]);
    }
  }

  lemma EventsInit(num: Parser, prices: Universes, events: seq<Event>)
    requires EventsOver(num, prices, events) && events != []
    ensures EventsOver(num, prices, events[..|events| - 1])
    ensures var e := events[|events| - 1]; e.Stream? ==> UpdateOver(prices(e.update.symbol), e.update)
  {
    var (init, e) := (events[..|events| - 1], events[|events| - 1]);
    forall symbol
      ensures EventsFor(num, prices(symbol), symbol, init)
    {
      assert EventsFor(num, prices(symbol), symbol, events);
      assert forall i :: 0 <= i < |init| ==> init[i] == events[i];
    }
    if e.Stream? {
      assert EventsFor(num, prices(e.update.symbol), e.update.symbol, events);
      assert EventFor(num, prices(e.update.symbol), e.update.symbol, e);
    }
  }
}
