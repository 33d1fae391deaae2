/** The order-book engine as a state machine: one step per stream message, per snapshot fetch made
    by another goroutine, and per change of leadership. */
module Engine {
  import opened Prices
  import opened Sides
  import opened Books

  const QUEUE_CAPACITY: nat := 3000
  const PUBLISHED_LEVELS: nat := 250

  /** What one REST attempt brings back. */
  datatype Response = Failed | Malformed | Snapshot(book: Book)

  datatype Config = Config(num: Parser, ignored: set<string>, maxRetry: nat, chunkSize: int)

  datatype Message = Message(subject: string, book: Book)

  /** fetched and syncSorts log calls; everything else is a field of the manager. */
  datatype State = State(
    books: map<string, Book>,
    mismatch: map<string, nat>,
    queue: seq<string>,
    recovery: set<string>,
    isLeader: bool,
    published: seq<Message>,
    fetched: seq<string>,
    syncSorts: nat)

  /** The settings in force and the answers to the REST attempts come with the event. */
  datatype Event =
    | Stream(update: StreamUpdate, maxSpread: real, responses: seq<Response>)
    | Fetch(asset: string, responses: seq<Response>)
    | Leader(isLeader: bool)

  const INITIAL: State := State(map[], map[], [], {}, false, [], [], 0)

  // ------------------------------------------------------------- snapshot fetch

  /** The answer to an attempt; attempts without one fail. */
  function Answer(responses: seq<Response>, attempt: nat): Response {
    if attempt < |responses| then responses[attempt] else Failed
  }

  /** The first attempt from `attempt` on that did not fail, or maxRetry. */
  function FirstAnswered(responses: seq<Response>, attempt: nat, maxRetry: nat): (k: nat)
    requires attempt <= maxRetry
    ensures attempt <= k <= maxRetry
    ensures forall i :: attempt <= i < k ==> Answer(responses, i) == Failed
    ensures k < maxRetry ==> Answer(responses, k) != Failed
    decreases maxRetry - attempt
  {
    if attempt == maxRetry || Answer(responses, attempt) != Failed then attempt
    else FirstAnswered(responses, attempt + 1, maxRetry)
  }

  /** The book a fetch stores, if it stores one. */
  function FetchedBook(cfg: Config, symbol: string, responses: seq<Response>): Option<Book> {
    var k := FirstAnswered(responses, 0, cfg.maxRetry);
    if symbol !in cfg.ignored && k < cfg.maxRetry && Answer(responses, k).Snapshot? then
      Some(Answer(responses, k).book.(symbol := symbol))
    else
      None
  }

  function NeedsRecovery(cfg: Config, symbol: string, responses: seq<Response>): bool {
    symbol !in cfg.ignored && FirstAnswered(responses, 0, cfg.maxRetry) > 0
  }

  function FetchBook(cfg: Config, s: State, symbol: string, responses: seq<Response>): State {
    var loaded := FetchedBook(cfg, symbol, responses);
    s.(fetched := s.fetched + [symbol],
       recovery := if NeedsRecovery(cfg, symbol, responses) then s.recovery + {symbol} else s.recovery,
       books := if loaded.Some? then s.books[symbol := loaded.value] else s.books)
  }

  function ToUpper(symbol: string): string {
    seq(|symbol|, i requires 0 <= i < |symbol| =>
      if 'a' <= symbol[i] <= 'z' then (symbol[i] as int - 32) as char else symbol[i])
  }

  predicate HasLowerCase(name: string) {
    exists i :: 0 <= i < |name| && 'a' <= name[i] <= 'z'
  }

  /** capitals is name with each letter of a to z replaced by its capital. */
  predicate Capitalizes(capitals: string, name: string) {
    && |capitals| == |name|
    && forall i :: 0 <= i < |name| ==>
         capitals[i] as int ==
           if 'a' <= name[i] <= 'z' then name[i] as int - 'a' as int + 'A' as int else name[i] as int
  }

  lemma ToUpperMeans(name: string, capitals: string)
    ensures capitals == ToUpper(name) <==> Capitalizes(capitals, name)
    ensures !HasLowerCase(ToUpper(name))
    ensures ToUpper(name) == name <==> !HasLowerCase(name)
  {
    if HasLowerCase(name) {
      var i :| 0 <= i < |name| && 'a' <= name[i] <= 'z';
      assert ToUpper(name)[i] != name[i];
    }
  }

  /** getSnapshots for one asset: the name as given decides whether there is a book, and the book is
      fetched and stored under the name in upper case. */
  function GetSnapshot(cfg: Config, s: State, asset: string, responses: seq<Response>): State {
    if asset in s.books then s else FetchBook(cfg, s, ToUpper(asset), responses)
  }

  // --------------------------------------------------------------- stream update

  /** int64 addition wraps. */
  function NextId(id: int64): int64 {
    if id == 0x7FFF_FFFF_FFFF_FFFF then -0x8000_0000_0000_0000 else id + 1
  }

  /** The identifier goes on from the last one, as 64-bit integers go, or there is none yet. */
  predicate Continues(lastUpdateId: int64, firstUpdateId: int64) {
    || lastUpdateId as int == 0
    || firstUpdateId as int == lastUpdateId as int + 1
    || (lastUpdateId as int == 0x7FFF_FFFF_FFFF_FFFF && firstUpdateId as int == -0x8000_0000_0000_0000)
  }

  predicate Mismatched(lastUpdateId: int64, u: StreamUpdate) {
    lastUpdateId != 0 && u.firstUpdateId != NextId(lastUpdateId)
  }

  function Count(s: State, symbol: string): nat {
    if symbol in s.mismatch then s.mismatch[symbol] else 0
  }

  function SortInBackground(cfg: Config, s: State, symbol: string, maxSpread: real): State {
    if |s.queue| < QUEUE_CAPACITY then
      s.(queue := s.queue + [symbol])
    else if symbol in s.books then
      s.(syncSorts := s.syncSorts + 1, books := s.books[symbol := SortAndFix(cfg.num, s.books[symbol], maxSpread)])
    else
      s.(syncSorts := s.syncSorts + 1)
  }

  function CountUpdate(s: State, u: StreamUpdate): State
    requires u.symbol in s.books
  {
    var count := if Mismatched(s.books[u.symbol].lastUpdateId, u) then Count(s, u.symbol) + 1 else 0;
    s.(mismatch := s.mismatch[u.symbol := count])
  }

  function ApplyAndSort(cfg: Config, s: State, u: StreamUpdate, maxSpread: real): State
    requires u.symbol in s.books
  {
    var edited := ApplyUpdate(cfg.num, s.books[u.symbol], u, maxSpread);
    SortInBackground(cfg, s.(books := s.books[u.symbol := edited]), u.symbol, maxSpread)
  }

  function Handle(cfg: Config, s: State, u: StreamUpdate, maxSpread: real, responses: seq<Response>): State {
    if u.symbol !in s.books then
      if 1 >= cfg.chunkSize then GetSnapshot(cfg, s, u.symbol, responses) else s
    else
      var counted := CountUpdate(s, u);
      if counted.mismatch[u.symbol] >= 2 then
        FetchBook(cfg, counted, u.symbol, responses)
      else
        ApplyAndSort(cfg, counted, u, maxSpread)
  }

  // ------------------------------------------------------------------- publish

  function Top(side: seq<Level>): seq<Level> {
    if |side| > PUBLISHED_LEVELS then side[..PUBLISHED_LEVELS] else side
  }

  function TopBook(b: Book): Book {
    b.(bids := Top(b.bids), asks := Top(b.asks))
  }

  function Publish(s: State, symbol: string): State {
    if symbol in s.books && s.isLeader then
      s.(published := s.published + [Message("orderbook." + symbol, TopBook(s.books[symbol]))])
    else s
  }

  // ---------------------------------------------------------------------- runs

  function Step(cfg: Config, s: State, e: Event): State {
    match e
    case Stream(u, maxSpread, responses) => Publish(Handle(cfg, s, u, maxSpread, responses), u.symbol)
    case Fetch(asset, responses) => GetSnapshot(cfg, s, asset, responses)
    case Leader(isLeader) => s.(isLeader := isLeader)
  }

  function Run(cfg: Config, s: State, events: seq<Event>): State {
    if events == [] then s else
      Step(cfg, Run(cfg, s, events[..|events| - 1]), events[|events| - 1])
  }

  // ------------------------------------------------------- the life of one book

  /** What happens to the book of one symbol. Applied and Skipped are the two fates of an update that
      finds a book; sorted says whether the book was sorted and trimmed on the spot. */
  datatype Note =
    | Loaded(book: Book)
    | Applied(update: StreamUpdate, maxSpread: real, mismatched: bool, sorted: bool)
    | Skipped(update: StreamUpdate)

  function LoadNotes(cfg: Config, fetched: string, responses: seq<Response>, symbol: string): seq<Note> {
    var loaded := FetchedBook(cfg, fetched, responses);
    if fetched == symbol && loaded.Some? then [Loaded(loaded.value)] else []
  }

  function Notes(cfg: Config, s: State, e: Event, symbol: string): seq<Note> {
    match e
    case Leader(_) => []
    case Fetch(asset, responses) =>
      if asset in s.books then [] else LoadNotes(cfg, ToUpper(asset), responses, symbol)
    case Stream(u, maxSpread, responses) =>
      if u.symbol !in s.books then
        if 1 >= cfg.chunkSize then LoadNotes(cfg, ToUpper(u.symbol), responses, symbol) else []
      else if u.symbol != symbol then []
      else
        var mismatched := Mismatched(s.books[symbol].lastUpdateId, u);
        if mismatched && Count(s, symbol) >= 1 then
          [Skipped(u)] + LoadNotes(cfg, symbol, responses, symbol)
        else
          [Applied(u, maxSpread, mismatched, |s.queue| >= QUEUE_CAPACITY)]
  }

  /** Everything that happened to the book of a symbol during a run. */
  function Trail(cfg: Config, s: State, events: seq<Event>, symbol: string): seq<Note> {
    if events == [] then [] else
      var n := |events| - 1;
      Trail(cfg, s, events[..n], symbol) + Notes(cfg, Run(cfg, s, events[..n]), events[n], symbol)
  }
}
