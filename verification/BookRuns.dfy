/** Whole runs of the order-book engine: each book is the replay of its notes, the slices represent
    the maps of the abstract replay, and the invariant holds exactly for coherent price universes. */
module BookRuns {
  import opened Prices
  import opened DecimalPrices
  import opened Sides
  import opened Books
  import opened Spread
  import opened Engine

  function Lookup(s: State, symbol: string): Option<Book> {
    if symbol in s.books then Some(s.books[symbol]) else None
  }

  // ------------------------------------------------------- replay of one book

  function ReplayNote(num: Parser, b: Option<Book>, note: Note): Option<Book> {
    match note
    case Loaded(book) => Some(book)
    case Skipped(_) => b
    case Applied(u, maxSpread, _, sorted) =>
      if b.None? then None else
        var edited := ApplyUpdate(num, b.value, u, maxSpread);
        Some(if sorted then SortAndFix(num, edited, maxSpread) else edited)
  }

  function Replay(num: Parser, b: Option<Book>, trail: seq<Note>): Option<Book> {
    if trail == [] then b else
      var n := |trail| - 1;
      ReplayNote(num, Replay(num, b, trail[..n]), trail[n])
  }

  lemma {:induction false} ReplayConcat(num: Parser, b: Option<Book>, t: seq<Note>, u: seq<Note>)
    ensures Replay(num, b, t + u) == Replay(num, Replay(num, b, t), u)
  {
    if u == [] {
      assert t + u == t;
    } else {
      var n := |u| - 1;
      assert (t + u)[..|t + u| - 1] == t + u[..n];
      ReplayConcat(num, b, t, u[..n]);
    }
  }

  lemma ReplayOne(num: Parser, b: Option<Book>, note: Note)
    ensures Replay(num, b, []) == b && Replay(num, b, [note]) == ReplayNote(num, b, note)
  {
    assert [note][..0] == [];
  }

  lemma LoadReplays(cfg: Config, s: State, fetched: string, responses: seq<Response>, symbol: string)
    ensures Lookup(FetchBook(cfg, s, fetched, responses), symbol)
         == Replay(cfg.num, Lookup(s, symbol), LoadNotes(cfg, fetched, responses, symbol))
  {
    var loaded := FetchedBook(cfg, fetched, responses);
    if fetched == symbol && loaded.Some? {
      ReplayOne(cfg.num, Lookup(s, symbol), Loaded(loaded.value));
    }
  }

  lemma ApplyReplays(cfg: Config, s: State, u: StreamUpdate, maxSpread: real, mismatched: bool, symbol: string)
    requires u.symbol in s.books
    ensures Lookup(ApplyAndSort(cfg, s, u, maxSpread), symbol)
         == if u.symbol != symbol then Lookup(s, symbol) else
              ReplayNote(cfg.num, Lookup(s, symbol), Applied(u, maxSpread, mismatched, |s.queue| >= QUEUE_CAPACITY))
  {
  }

  lemma PublishKeeps(s: State, symbol: string)
    ensures Publish(s, symbol) == s.(published := Publish(s, symbol).published)
  {
  }

  lemma StreamReplays(cfg: Config, s: State, e: Event, symbol: string)
    requires e.Stream?
    ensures Lookup(Handle(cfg, s, e.update, e.maxSpread, e.responses), symbol)
         == Replay(cfg.num, Lookup(s, symbol), Notes(cfg, s, e, symbol))
  {
    var (u, b) := (e.update, Lookup(s, symbol));
    if u.symbol !in s.books {
      LoadReplays(cfg, s, ToUpper(u.symbol), e.responses, symbol);
    } else {
      var counted := CountUpdate(s, u);
      var mismatched := Mismatched(s.books[u.symbol].lastUpdateId, u);
      if counted.mismatch[u.symbol] >= 2 {
        LoadReplays(cfg, counted, u.symbol, e.responses, symbol);
        ReplayConcat(cfg.num, b, [Skipped(u)], LoadNotes(cfg, symbol, e.responses, symbol));
        ReplayOne(cfg.num, b, Skipped(u));
      } else {
        ApplyReplays(cfg, counted, u, e.maxSpread, mismatched, symbol);
        ReplayOne(cfg.num, b, Applied(u, e.maxSpread, mismatched, |s.queue| >= QUEUE_CAPACITY));
      }
    }
  }

  lemma StepReplays(cfg: Config, s: State, e: Event, symbol: string)
    ensures Lookup(Step(cfg, s, e), symbol) == Replay(cfg.num, Lookup(s, symbol), Notes(cfg, s, e, symbol))
  {
    match e
    case Stream(u, maxSpread, responses) =>
      StreamReplays(cfg, s, e, symbol);
      PublishKeeps(Handle(cfg, s, u, maxSpread, responses), u.symbol);
    case Fetch(asset, responses) => LoadReplays(cfg, s, ToUpper(asset), responses, symbol);
    case Leader(_) =>
  }

  /** The book of a symbol after a run is the replay of its notes: no other step touches it. */
  lemma {:induction false} RunReplays(cfg: Config, s: State, events: seq<Event>, symbol: string)
    ensures Lookup(Run(cfg, s, events), symbol)
         == Replay(cfg.num, Lookup(s, symbol), Trail(cfg, s, events, symbol))
  {
    if events == [] {
    } else {
      var n := |events| - 1;
      var before := Run(cfg, s, events[..n]);
      RunReplays(cfg, s, events[..n], symbol);
      StepReplays(cfg, before, events[n], symbol);
      ReplayConcat(cfg.num, Lookup(s, symbol), Trail(cfg, s, events[..n], symbol),
                   Notes(cfg, before, events[n], symbol));
    }
  }

  // ------------------------------------------------------------ the map replay

  ghost function MapReplayNote(num: Parser, b: Option<MapBook>, note: Note): Option<MapBook> {
    match note
    case Loaded(book) => Some(Abs(book))
    case Skipped(_) => b
    case Applied(u, maxSpread, _, sorted) =>
      if b.None? then None else
        var edited := MapUpdate(num, b.value, u, maxSpread);
        Some(if sorted then MapTrim(num, edited, maxSpread) else edited)
  }

  ghost function MapReplay(num: Parser, b: Option<MapBook>, trail: seq<Note>): Option<MapBook> {
    if trail == [] then b else
      var n := |trail| - 1;
      MapReplayNote(num, MapReplay(num, b, trail[..n]), trail[n])
  }

  function AbsOption(b: Option<Book>): Option<MapBook> {
    match b
    case None => None
    case Some(book) => Some(Abs(book))
  }

  ghost predicate OptionOk(num: Parser, prices: iset<string>, b: Option<Book>) {
    b.Some? ==> BookOk(num, prices, b.value)
  }

  ghost predicate NoteOver(num: Parser, prices: iset<string>, note: Note) {
    match note
    case Loaded(book) => BookOk(num, prices, book)
    case Applied(u, _, _, _) => UpdateOver(prices, u)
    case Skipped(_) => true
  }

  ghost predicate NotesAllOver(num: Parser, prices: iset<string>, trail: seq<Note>) {
    forall i :: 0 <= i < |trail| ==> NoteOver(num, prices, trail[i])
  }

  lemma NoteRefines(num: Parser, prices: iset<string>, b: Option<Book>, note: Note)
    requires Coherent(num, prices) && OptionOk(num, prices, b) && NoteOver(num, prices, note)
    ensures OptionOk(num, prices, ReplayNote(num, b, note))
    ensures AbsOption(ReplayNote(num, b, note)) == MapReplayNote(num, AbsOption(b), note)
  {
    if note.Applied? && b.Some? {
      UpdateRefines(num, prices, b.value, note.update, note.maxSpread);
      SortAndFixRefines(num, prices, ApplyUpdate(num, b.value, note.update, note.maxSpread), note.maxSpread);
    }
  }

  lemma {:induction false} ReplayRefines(num: Parser, prices: iset<string>, b: Option<Book>, trail: seq<Note>)
    requires Coherent(num, prices) && OptionOk(num, prices, b)
    requires NotesAllOver(num, prices, trail)
    ensures OptionOk(num, prices, Replay(num, b, trail))
    ensures AbsOption(Replay(num, b, trail)) == MapReplay(num, AbsOption(b), trail)
  {
    if trail == [] {
    } else {
      var n := |trail| - 1;
      ReplayRefines(num, prices, b, trail[..n]);
      NoteRefines(num, prices, Replay(num, b, trail[..n]), trail[n]);
    }
  }

  // ---------------------------------------------------------------- whole runs

  ghost predicate ResponsesOver(num: Parser, prices: iset<string>, responses: seq<Response>) {
    forall i :: 0 <= i < |responses| && responses[i].Snapshot? ==> BookOk(num, prices, responses[i].book)
  }

  /** What an event may bring to the book of one symbol mentions only prices of the universe, and
      snapshots arrive as books of the exchange do: sorted, without repeated prices, without empty
      levels. Nothing is asked of events about other symbols. */
  ghost predicate EventFor(num: Parser, prices: iset<string>, symbol: string, e: Event) {
    match e
    case Stream(u, _, responses) =>
      && (u.symbol == symbol ==> UpdateOver(prices, u) && ResponsesOver(num, prices, responses))
      && (ToUpper(u.symbol) == symbol ==> ResponsesOver(num, prices, responses))
    case Fetch(asset, responses) => ToUpper(asset) == symbol ==> ResponsesOver(num, prices, responses)
    case Leader(_) => true
  }

  ghost predicate EventsFor(num: Parser, prices: iset<string>, symbol: string, events: seq<Event>) {
    forall i :: 0 <= i < |events| ==> EventFor(num, prices, symbol, events[i])
  }

  lemma {:induction false} TrailOver(cfg: Config, prices: iset<string>, s: State, events: seq<Event>, symbol: string)
    requires EventsFor(cfg.num, prices, symbol, events)
    ensures NotesAllOver(cfg.num, prices, Trail(cfg, s, events, symbol))
  {
    if events == [] {
    } else {
      var n := |events| - 1;
      TrailOver(cfg, prices, s, events[..n], symbol);
      NotesOver(cfg, prices, Run(cfg, s, events[..n]), events[n], symbol);
      TrailConcat(cfg.num, prices, Trail(cfg, s, events[..n], symbol),
                  Notes(cfg, Run(cfg, s, events[..n]), events[n], symbol));
    }
  }

  lemma TrailConcat(num: Parser, prices: iset<string>, t: seq<Note>, u: seq<Note>)
    requires NotesAllOver(num, prices, t) && NotesAllOver(num, prices, u)
    ensures NotesAllOver(num, prices, t + u)
  {
  }

  lemma NotesOver(cfg: Config, prices: iset<string>, s: State, e: Event, symbol: string)
    requires EventFor(cfg.num, prices, symbol, e)
    ensures NotesAllOver(cfg.num, prices, Notes(cfg, s, e, symbol))
  {
  }

  /** Main result, first half: if the prices of a symbol are coherent, every run keeps its book in
      order, whatever the prices of other symbols. */
  lemma RunKeepsBook(cfg: Config, prices: iset<string>, s: State, events: seq<Event>, symbol: string)
    requires Coherent(cfg.num, prices) && EventsFor(cfg.num, prices, symbol, events)
    requires OptionOk(cfg.num, prices, Lookup(s, symbol))
    ensures OptionOk(cfg.num, prices, Lookup(Run(cfg, s, events), symbol))
  {
    RunReplays(cfg, s, events, symbol);
    TrailOver(cfg, prices, s, events, symbol);
    ReplayRefines(cfg.num, prices, Lookup(s, symbol), Trail(cfg, s, events, symbol));
  }

  /** Main result, second half: the two slices of the book then represent exactly the two maps of the
      abstract replay. */
  lemma RunRefines(cfg: Config, prices: iset<string>, s: State, events: seq<Event>, symbol: string)
    requires Coherent(cfg.num, prices) && EventsFor(cfg.num, prices, symbol, events)
    requires OptionOk(cfg.num, prices, Lookup(s, symbol))
    ensures AbsOption(Lookup(Run(cfg, s, events), symbol))
         == MapReplay(cfg.num, AbsOption(Lookup(s, symbol)), Trail(cfg, s, events, symbol))
  {
    RunReplays(cfg, s, events, symbol);
    TrailOver(cfg, prices, s, events, symbol);
    ReplayRefines(cfg.num, prices, Lookup(s, symbol), Trail(cfg, s, events, symbol));
  }

  // ------------------------------------------------------- exactly coherent universes

  /** Each symbol is quoted in a price universe of its own. */
  type Universes = string -> iset<string>

  ghost predicate EventsOver(num: Parser, prices: Universes, events: seq<Event>) {
    forall symbol :: EventsFor(num, prices(symbol), symbol, events)
  }

  ghost predicate StateOk(num: Parser, prices: Universes, s: State) {
    forall symbol :: symbol in s.books ==> BookOk(num, prices(symbol), s.books[symbol])
  }

  /** Every run over the universes keeps every book in order. */
  ghost predicate AlwaysInOrder(cfg: Config, prices: Universes) {
    forall events :: EventsOver(cfg.num, prices, events) ==> StateOk(cfg.num, prices, Run(cfg, INITIAL, events))
  }

  /** The names a book can be stored under: getSnapshots asks for names without lower-case letters. */
  predicate CanHaveBook(cfg: Config, symbol: string) {
    symbol !in cfg.ignored && !HasLowerCase(symbol)
  }

  /** No step stores a book under any other name. */
  lemma StepBooks(cfg: Config, s: State, e: Event)
    ensures forall symbol :: symbol in Step(cfg, s, e).books ==> symbol in s.books || CanHaveBook(cfg, symbol)
  {
    match e
    case Stream(u, _, _) => ToUpperMeans(u.symbol, u.symbol);
    case Fetch(asset, _) => ToUpperMeans(asset, asset);
    case Leader(_) =>
  }

  lemma {:induction false} RunBooks(cfg: Config, s: State, events: seq<Event>)
    ensures forall symbol :: symbol in Run(cfg, s, events).books ==> symbol in s.books || CanHaveBook(cfg, symbol)
  {
    if events == [] {
    } else {
      var n := |events| - 1;
      RunBooks(cfg, s, events[..n]);
      StepBooks(cfg, Run(cfg, s, events[..n]), events[n]);
    }
  }

  /** The test of getSnapshots for a book never holds for a name with a lower-case letter: each round fetches
      its book again and replaces the one that is there. */
  lemma LowerCaseRefetches(cfg: Config, events: seq<Event>, asset: string, capitals: string, responses: seq<Response>)
    requires HasLowerCase(asset) && Capitalizes(capitals, asset)
    ensures var (s, r) := (Run(cfg, INITIAL, events), Run(cfg, INITIAL, events + [Fetch(asset, responses)]));
            && asset !in s.books && r.fetched == s.fetched + [capitals]
            && var loaded := FetchedBook(cfg, capitals, responses);
            Lookup(r, capitals) == if loaded.Some? then loaded else Lookup(s, capitals)
  {
    ToUpperMeans(asset, capitals);
    assert (events + [Fetch(asset, responses)])[..|events|] == events;
    RunBooks(cfg, INITIAL, events);
  }

  /** The prices of every symbol that has or can get a book are coherent. */
  ghost predicate CoherentBooks(cfg: Config, prices: Universes, s: State) {
    forall symbol :: symbol in s.books || CanHaveBook(cfg, symbol) ==> Coherent(cfg.num, prices(symbol))
  }

  lemma CoherentKeepsOrder(cfg: Config, prices: Universes, s: State, events: seq<Event>)
    requires CoherentBooks(cfg, prices, s) && StateOk(cfg.num, prices, s)
    requires EventsOver(cfg.num, prices, events)
    ensures StateOk(cfg.num, prices, Run(cfg, s, events))
  {
    RunBooks(cfg, s, events);
    forall symbol | symbol in Run(cfg, s, events).books
      ensures BookOk(cfg.num, prices(symbol), Run(cfg, s, events).books[symbol])
    {
      RunKeepsBook(cfg, prices(symbol), s, events, symbol);
    }
  }

  /** The run that breaks on an incoherent pair: two bids put one after the other into a fresh book. */
  function TwoBids(symbol: string, first: string, second: string, qty: string): seq<Event> {
    [ Fetch(symbol, [Snapshot(Book(symbol, 0, [], []))]),
      Stream(StreamUpdate(symbol, 1, 1, [Level(first, qty), Level(second, qty)], []), 0.0, []) ]
  }

  lemma TwoBidsBook(num: Parser, symbol: string, first: string, second: string, qty: string)
    requires LiveQty(num, qty) && StrLe(first, second) && first != second
    ensures ApplyUpdate(num, Book(symbol, 0, [], []), TwoBids(symbol, first, second, qty)[1].update, 0.0)
         == Book(symbol, 1, [Level(second, qty), Level(first, qty)], [])
  {
    var b0 := Book(symbol, 0, [], []);
    var orders := [Level(first, qty), Level(second, qty)];
    assert orders[..1][..0] == [] && orders[..1] == [orders[0]];
    var b1 := ApplyLevels(num, b0, orders[..1], true, 0.0);
    assert ApplyLevels(num, b0, [], true, 0.0) == b0;
    assert b1 == b0.(bids := [orders[0]]);
    assert AtOrPast(true, second)(b1.bids[0]);
    assert PutLevel(b1.bids, orders[1], true) == [orders[1], orders[0]];
    assert ApplyLevels(num, b0, orders, true, 0.0) == b0.(bids := [orders[1], orders[0]]);
  }

  lemma TwoBidsRun(cfg: Config, symbol: string, first: string, second: string, qty: string)
    requires CanHaveBook(cfg, symbol) && cfg.maxRetry > 0 && LiveQty(cfg.num, qty)
    requires StrLe(first, second) && first != second
    ensures Lookup(Run(cfg, INITIAL, TwoBids(symbol, first, second, qty)), symbol)
         == Some(Book(symbol, 1, [Level(second, qty), Level(first, qty)], []))
  {
    ToUpperMeans(symbol, symbol);
    var events := TwoBids(symbol, first, second, qty);
    assert events[..1] == [events[0]] && events[..1][..0] == [];
    var s1 := Step(cfg, INITIAL, events[0]);
    assert Run(cfg, INITIAL, events[..1]) == s1;
    assert FetchedBook(cfg, symbol, events[0].responses) == Some(Book(symbol, 0, [], []));
    assert s1.books[symbol] == Book(symbol, 0, [], []);
    TwoBidsBook(cfg.num, symbol, first, second, qty);
  }

  lemma TwoBidsOver(num: Parser, prices: Universes, symbol: string, first: string, second: string, qty: string)
    requires first in prices(symbol) && second in prices(symbol)
    ensures EventsOver(num, prices, TwoBids(symbol, first, second, qty))
  {
    forall other
      ensures EventsFor(num, prices(other), other, TwoBids(symbol, first, second, qty))
    {
    }
  }

  lemma IncoherentBreaks(cfg: Config, prices: Universes, symbol: string, qty: string)
    requires CanHaveBook(cfg, symbol) && cfg.maxRetry > 0 && LiveQty(cfg.num, qty)
    requires !Coherent(cfg.num, prices(symbol))
    ensures !AlwaysInOrder(cfg, prices)
  {
    var a, b :| a in prices(symbol) && b in prices(symbol) &&
                !(StrLe(a, b) <==> Value(cfg.num, a) <= Value(cfg.num, b));
    StrLeTotal(a, b);
    var (first, second) := if StrLe(a, b) then (a, b) else (b, a);
    var events := TwoBids(symbol, first, second, qty);
    TwoBidsRun(cfg, symbol, first, second, qty);
    TwoBidsOver(cfg.num, prices, symbol, first, second, qty);
    var bids := [Level(second, qty), Level(first, qty)];
    assert Key(cfg.num, true, bids[0].price) >= Key(cfg.num, true, bids[1].price);
    assert !StrictlySorted(cfg.num, true, bids);
    assert symbol in Run(cfg, INITIAL, events).books;
  }

  /** Every run keeps all books in order if and only if, for each symbol that can have a book, string
      order and numeric order agree on the prices of that symbol. */
  lemma RunInvariantIffCoherent(cfg: Config, prices: Universes, qty: string)
    requires cfg.maxRetry > 0 && cfg.num(qty).Some? && cfg.num(qty).value != 0.0
    ensures AlwaysInOrder(cfg, prices) <==>
            forall symbol :: CanHaveBook(cfg, symbol) ==> Coherent(cfg.num, prices(symbol))
  {
    if symbol :| CanHaveBook(cfg, symbol) && !Coherent(cfg.num, prices(symbol)) {
      IncoherentBreaks(cfg, prices, symbol, qty);
    } else {
      forall events | EventsOver(cfg.num, prices, events)
        ensures StateOk(cfg.num, prices, Run(cfg, INITIAL, events))
      {
        CoherentKeepsOrder(cfg, prices, INITIAL, events);
      }
    }
  }

  /** Where the orders disagree, sorting the book does not help: the string search misses a price that
      the sorted side holds, and an overwrite becomes a second level at that price. */
  lemma DisagreementDuplicates(num: Parser, low: string, high: string, other: string, qty: string, newQty: string)
    requires Value(num, low) < Value(num, high) && StrLe(high, low)
    ensures var side := [Level(high, other), Level(low, qty)];
            && Sorted(num, true, side)
            && PutLevel(side, Level(low, newQty), true) == [Level(low, newQty)] + side
  {
    var side := [Level(high, other), Level(low, qty)];
    var f := AtOrPast(true, low);
    assert f(side[0]);
    StrLeReflexive(low);
    assert Search(side, f, 0, 1) == 0;
  }

  lemma {:induction false} StrLeReflexive(a: string)
    ensures StrLe(a, a)
  {
    if a == [] {
    } else {
      StrLeReflexive(a[1..]);
    }
  }

  ghost function FormatUniverses(formats: string -> iset<Format>): Universes {
    symbol => PricesOf(formats(symbol))
  }

  /** With decimal prices in any set of formats per symbol, every run keeps all books in order if and only
      if no symbol that can have a book mixes formats: "9.50" and "10.00" do not mix, nor do "1.5" and
      "1.50", nor "9999" and "10000". */
  lemma RunInvariantIffOneFormat(cfg: Config, formats: string -> iset<Format>)
    requires cfg.num == Decimal && cfg.maxRetry > 0
    requires forall symbol :: ProperFormats(formats(symbol))
    ensures AlwaysInOrder(cfg, FormatUniverses(formats)) <==>
            forall symbol :: CanHaveBook(cfg, symbol) ==> AtMostOneFormat(formats(symbol))
  {
    var prices := FormatUniverses(formats);
    var qty := SomeLiveQty();
    RunInvariantIffCoherent(cfg, prices, qty);
    forall symbol
      ensures Coherent(cfg.num, prices(symbol)) <==> AtMostOneFormat(formats(symbol))
    {
      FormatsCoherentIff(formats(symbol));
    }
  }
}
