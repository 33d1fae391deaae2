# Verified model of the stream services

The repository keeps local order books of an exchange up to date, aggregates market tickers, and
publishes both over NATS from one elected leader. This project models its four stateful parts in Dafny
and proves what they keep over whole runs.

**Order books** (`Prices.dfy`, `Sides.dfy`, `Sorting.dfy`, `Books.dfy`, `Spread.dfy`, `Engine.dfy`,
`BookRuns.dfy`, `MapEngine.dfy`, `History.dfy`, `Manager.dfy`). A book has two slices of levels, best price first.
Stream updates edit them by a binary search that compares prices as *strings*; sorting, the admission
band and the spread trim compare *numbers*. `Manager` is the imperative manager: books edited in place
behind a map of pointers. Each of its methods is tied to a step of the state machine in `Engine`, and the
consumer loop to a run of it. `MapEngine` is the same state machine on two price-to-quantity maps per
book, without slices, searches or string comparisons.
What each operation does is stated twice: once as a function, and once, in the lemmas whose names end in
`Means`, with the comparisons, constants and characters of the code written out. The main results:

- If string order and numeric order agree on the prices of a symbol (its universe is *coherent*), every
  run keeps the book of that symbol strictly sorted, without repeated prices or empty levels, and its
  slices represent exactly the maps of the abstract replay, whatever the prices of other symbols
  (`BookRuns.RunKeepsBook`, `BookRuns.RunRefines`).
- That condition is exact: all runs keep all books in order if and only if the universe of each symbol
  that can have a book, that is, of each name in upper case that is not ignored, is coherent
  (`BookRuns.RunInvariantIffCoherent`); with decimal prices, if and only if no such symbol mixes formats
  (`BookRuns.RunInvariantIffOneFormat`). So "9.50" and "10.00" in one book break it, as do "1.5" and
  "1.50" or "9999" and "10000", and sorting does not repair it (`BookRuns.DisagreementDuplicates`).
- Under that condition the whole engine refines the engine on maps: after any run both store the same
  maps, have published the same messages and made the same fetches, and count, queue and recover alike
  (`MapEngine.RunSimulates`).
- A name with a lower-case letter never finds its book, so each round of the snapshot loop fetches that
  book again and replaces it (`BookRuns.LowerCaseRefetches`); the repository's asset lists are lower case.
- The trim fires exactly when the relative spread exceeds the maximum (a best bid of 0 counts as infinitely
  wide), then keeps exactly the admission band, is both-or-neither and idempotent, for every book and every
  maximum (`Spread`).
- The counters, identifiers, the sort queue and the publications mean what they should over all runs, and
  each block of n mismatched updates makes n - 1 fetches (`History`).

**Markets** (`Markets.dfy`). Nodes keep a snapshot and the increments since their last flush. In every
cluster run each node's DATA messages plus its pending increments rebuild its snapshot, also across
failover, and every publication was sent at a tick of a node while it led. A subscriber is current in every
history if and only if no publication is lost, and in a given history without repeated tickers if and only
if the latest carrier of every symbol arrived.

**Leadership token** (`Leadership.dfy`). Two goroutines receive from one capacity-1 channel, and there is
exactly one value: in the channel, in a goroutine's hands, or spent on SetIsLeader. A node can
still become leader exactly when the factory goroutine has not taken a `false` from it, and the schedules
in which it does are shown. The goroutines come to rest only once SetIsLeader has been called.

**Recovery pass** (`Chunks.dfy`, `Recovery.dfy`). The pass holds the manager's mutex while feeding a
channel whose consumer needs that mutex. There is room for one chunk if it finds the channel empty, and for
one more if it finds the consumer idle. It finishes exactly when its chunks fit into that room and no first
fetch fails; otherwise it comes to a stop holding the mutex.

Conventions. `strconv.ParseFloat` is library code, so the order-book results hold for every parser of
non-negative numbers; `DecimalPrices` supplies the one for plain decimal notation. float64 values are
exact reals; a zero bid is treated as float division treats it (+Inf or NaN). Update identifiers are
64-bit and wrap. The maximum spread in force, the answers to REST requests and the outcome of campaigns
are inputs of the steps. Each symbol has its own set of price strings; snapshots are assumed to arrive from the
exchange sorted, without repeated prices and without empty levels, because the code stores them as they
come. Where the code and its intent differ, the model follows the code: exhausted retries report no error,
`partialInChunks` ignores its argument and walks all assets, nothing drains the sort queue, and nothing
takes leadership back.

## Model

| member | source | states |
|---|---|---|
| Prices.StrLeMeans | internal/exchange/books/update.go:81-86 | Go's string order: a prefix, or the smaller character at the first difference |
| DecimalPrices.AppendDigit | internal/exchange/books/update.go:38 | the value of a run of digits, read from its last digit |
| DecimalPrices.CommonWidthOrder | internal/exchange/books/update.go:81-86 | on prices of one width, with or without decimals, Go's string order is numeric order |
| DecimalPrices.MixedWidthStringOrder | internal/exchange/books/update.go:81-86 | across widths, the exact condition under which the shorter price is the smaller string |
| DecimalPrices.MixedWidthNumericOrder | internal/exchange/books/sorting.go:56-63 | across widths, the canonical price with fewer whole digits is always the smaller number, whatever the decimals |
| DecimalPrices.MixedWidthDisagrees | internal/exchange/books/update.go:81-89 | for every pair of whole-part widths, two prices on which string and numeric order disagree |
| DecimalPrices.MixedDecimalsDisagree | internal/exchange/books/update.go:81-89 | for every pair of numbers of decimals, one number with two strings of which one is the larger |
| DecimalPrices.FormatsCoherentIff | internal/exchange/books/update.go:81-89 | prices of any set of formats, with or without a decimal point, are ordered alike by strings and numbers iff no two of the formats differ in whole digits or decimals |
| Sides.SortSearch | internal/exchange/books/update.go:81-86 | the loop of sort.Search returns the index of the recursive search, whatever the predicate |
| Sides.SearchSplits | internal/exchange/books/sorting.go:78-85 | for a monotone predicate the search splits the side into false then true |
| Sides.StringSearchIsNumeric | internal/exchange/books/update.go:81-86 | in a coherent universe the string search lands at the numeric position |
| Sides.PutRefines | internal/exchange/books/update.go:88-95 | overwrite and shifting insert keep the side in order and put exactly one map entry |
| Sides.RemoveRefines | internal/exchange/books/update.go:64-79 | delete keeps the side in order and removes exactly one map entry, or nothing |
| Sorting.SliceStable | internal/exchange/books/sorting.go:53-65 | the insertion-sort loop computes the stable sort |
| Sorting.StableSortSorts | internal/exchange/books/sorting.go:53-65 | the stable sort is sorted and keeps the levels of every price in their order |
| Sorting.StableSortPermutes | internal/exchange/books/sorting.go:53-65 | the stable sort loses and invents no level |
| Sorting.StableSortUnique | internal/exchange/books/sorting.go:53-65 | a result is the stable sort iff it is sorted and stable: any stable sort gives it |
| Sorting.SortIdentity | internal/exchange/books/sorting.go:53-65 | the numeric sort moves nothing iff the side is sorted |
| Books.LevelMeans | internal/exchange/books/update.go:36-96 | on any book: an unparsable quantity, or a price outside (bid+ask)/2 times 1 -/+ max/100, changes nothing; else a quantity equal to 0 deletes and any other puts |
| Books.EditMeans | internal/exchange/books/update.go:64-95 | on a side in order: quantity 0 removes the map entry, every other number sets it |
| Books.UpdateSplits | internal/exchange/books/update.go:135-143 | on any book an update is its bids, then its asks, then its final identifier |
| Books.BookOkMeans | internal/exchange/books/update.go:64-95 | a book is in order iff its bids fall and its asks rise by number and every quantity is a number other than 0 |
| Books.LevelRefines | internal/exchange/books/update.go:36-96 | one level keeps the book in order and performs the map step: band test at the current mid, then delete on zero, else put |
| Books.UpdateRefines | internal/exchange/books/update.go:135-143 | a whole update, bids before asks with the mid re-evaluated per level, keeps the invariant and refines the map update |
| Spread.FixSpreadMeans | internal/exchange/books/sorting.go:69-88 | on a sorted book: if (ask-bid)/bid*100 exceeds the maximum, or bid is 0 and ask is not, exactly the band around the mid stays; else the book stays as it is |
| Spread.SortAndFixMeans | internal/exchange/books/sorting.go:45-91 | on any book: bids sorted by falling and asks by rising price, no level lost, then the trim if both sides have levels |
| Spread.TrimBothOrNeither | internal/exchange/books/sorting.go:69-88 | a firing trim keeps both best levels and the mid, or empties both sides; the half spread against the allowed distance decides |
| Spread.SurvivalThreshold | internal/exchange/books/sorting.go:70-76 | the survival condition as a bound 2m/(1-m) on the relative spread |
| Spread.ZeroMaximumEmpties | internal/exchange/books/sorting.go:74-86 | a maximum of 0 empties every sorted book with a positive spread |
| Spread.TrimKeepsBand | internal/exchange/books/sorting.go:74-86 | a firing trim keeps exactly the levels inside the admission band at the same mid, on both sides, for every maximum |
| Spread.SortAndFixPrefix | internal/exchange/books/sorting.go:45-91 | each resulting side is a prefix of the stable sort of the original side |
| Spread.SortAndFixIdempotent | internal/exchange/books/sorting.go:37-92 | sorting and trimming twice is the same as once, for every book and maximum |
| Spread.SortAndFixRefines | internal/exchange/books/sorting.go:37-92 | on a reachable book the sort moves nothing and the trim refines the trim on maps |
| BookRuns.RunReplays | internal/exchange/books/update.go:98-146 | after any run the book of a symbol is the replay of its own snapshots and applied updates |
| BookRuns.ReplayRefines | internal/exchange/books/update.go:14-146 | over a coherent universe any sequence of snapshots, updates and trims keeps a book in order and refines the same sequence on maps |
| BookRuns.RunKeepsBook | internal/exchange/books/update.go:64-95 | if the prices of a symbol are coherent, every run keeps its book strictly sorted, without repeated prices or empty levels, whatever other symbols do |
| BookRuns.RunRefines | internal/exchange/books/update.go:14-146 | after every such run the slices of that book represent exactly the maps of the abstract replay |
| BookRuns.RunInvariantIffCoherent | internal/exchange/books/update.go:81-95 | all runs keep all books in order iff the prices of each symbol that can have a book (upper case, not ignored) are coherent |
| BookRuns.RunInvariantIffOneFormat | internal/exchange/books/update.go:81-95 | with decimal prices in any set of formats per symbol, iff no symbol that can have a book has two of them |
| BookRuns.RunBooks | internal/exchange/books/orderbook.go:339-348 | no run stores a book under a name that is ignored or has a character in a..z, unless it held one |
| Engine.ToUpperMeans | internal/exchange/books/orderbook.go:345 | upper-casing replaces each of a..z by its capital and nothing else, and is the identity iff no character is in a..z |
| BookRuns.LowerCaseRefetches | internal/exchange/books/orderbook.go:343-348 | for a name with a character in a..z the test for a book never holds: every round fetches and replaces the book of its capitals |
| BookRuns.DisagreementDuplicates | internal/exchange/books/update.go:81-95 | where the orders disagree, an overwrite on a numerically sorted side becomes a duplicate level |
| MapEngine.ApplyChanges | internal/exchange/books/sorting.go:23-35 | in any state an applied update changes one book and queues its symbol, or from 3000 queued on sorts the book on the spot |
| MapEngine.TopRefines | internal/exchange/books/send.go:34-39 | the first 250 levels of a sorted side are the levels with fewer than 250 better prices |
| MapEngine.RunSimulates | internal/exchange/books/update.go:14-146 | over coherent prices every run of the engine on slices is, state by state and message by message, the run of the engine on maps |
| History.TrailTruthful | internal/exchange/books/update.go:119-133 | every note of a run about an update is right about the book that update met: mismatched iff that book has an identifier other than 0 and the first identifier is not one above it, as 64-bit integers go |
| History.MismatchCountsTrailingBlock | internal/exchange/books/update.go:119-133 | mismatchCount is the number of updates since the last one that lined up, that is, the length of the trailing mismatched block; an update is applied iff the block it ends has length at most 1 |
| History.SkippedFetchesOnce | internal/exchange/books/update.go:127-130 | one step: a further update of a block makes one fetch and changes the book only by its snapshot; an applied update fetches nothing |
| History.RunFetches | internal/exchange/books/update.go:98-133 | over any run the fetches of a symbol are its skipped updates and the times the snapshot loop asked for it and found no book |
| History.BlockFetches | internal/exchange/books/update.go:119-133 | at every point of a run the mismatched block of n updates it ends with holds n - 1 skipped ones, so it has made n - 1 fetches |
| History.FetchOutcome | internal/exchange/books/snapshot.go:25-55 | a fetch stores the snapshot of the first attempt that does not fail, under the symbol asked for, or nothing; the symbol is marked for recovery iff the first attempt fails; nothing else changes |
| History.AppliedRangesTile | internal/exchange/books/update.go:119-143 | without mismatch or snapshot the applied identifier ranges tile the span of update identifiers, lengths summing to it |
| History.SortQueueFills | internal/exchange/books/sorting.go:23-35 | after n applied updates the queue holds min(n, 3000) tasks and max(0, n-3000) synchronous sorts have run |
| History.PublishedSortedOnceFull | internal/exchange/books/send.go:19-57 | from then on every book published after an applied update is sorted and trimmed, whatever its price format |
| History.PublishMeans | internal/exchange/books/send.go:19-57 | whatever the book, the leader sends the first 250 levels of each side of the book an update left, a follower sends nothing |
| History.PublishedIsBest | internal/exchange/books/send.go:30-57 | if the prices of the symbol are coherent, each of its stream messages publishes the min(len, 250) best levels of each side and leaves the stored book uncut |
| Manager.OrderbookManager.constructor | internal/exchange/books/orderbook.go:114-144 | a fresh manager is the initial state |
| Manager.OrderbookManager.SetIsLeader | internal/exchange/books/orderbook.go:168-170 | performs the leadership step |
| Manager.OrderbookManager.GetMidPrice | internal/exchange/books/update.go:14-34 | the mid of the two first levels, 0 for a missing book or an empty side |
| Manager.OrderbookManager.RemoveOrder | internal/exchange/books/update.go:66-78 | the delete loop removes the first level with the price string |
| Manager.OrderbookManager.PutOrder | internal/exchange/books/update.go:81-95 | overwrite, or append, shift and fill, is the put at the searched index |
| Manager.OrderbookManager.UpdateOrder | internal/exchange/books/update.go:36-96 | edits the book in place exactly as the level step says |
| Manager.OrderbookManager.HandleStreamUpdate | internal/exchange/books/update.go:98-146 | performs the update step on the whole manager state |
| Manager.OrderbookManager.CountMismatch | internal/exchange/books/update.go:119-133 | counts or resets the mismatch of the symbol and changes nothing else |
| Manager.OrderbookManager.SortOrderbookInBackground | internal/exchange/books/sorting.go:23-35 | queues the symbol, or sorts its book when the queue is full |
| Manager.OrderbookManager.SortAndFixSpread | internal/exchange/books/sorting.go:37-92 | sorts and trims one book in place and leaves all others alone |
| Manager.Orderbook.SortAndFixSides | internal/exchange/books/sorting.go:47-91 | both sides sorted, then cut when the spread is too wide |
| Manager.OrderbookManager.FetchInitialOrderbook | internal/exchange/books/snapshot.go:14-58 | performs the fetch step; only a malformed answer is reported as an error |
| Manager.OrderbookManager.GetSnapshot | internal/exchange/books/orderbook.go:344-348 | performs the fetch event of one asset: test under the name given, fetch under the name in upper case |
| Manager.OrderbookManager.GetSnapshots | internal/exchange/books/orderbook.go:339-359 | the snapshot loop performs exactly the run of the fetch events of its assets |
| Manager.OrderbookManager.RequestSnapshot | internal/exchange/books/snapshot.go:26-55 | the retry loop returns the first answer and records the symbol after any failure |
| Manager.OrderbookManager.AddAssetToRecovery | internal/exchange/books/snapshot.go:60-67 | adds the symbol to the recovery set |
| Manager.OrderbookManager.PublishBook | internal/exchange/books/send.go:21-57 | publishes the cut copy when leader and keeps the book |
| Manager.OrderbookManager.ProcessChannel | internal/exchange/books/send.go:16-61 | the consumer loop performs exactly the run of the messages it takes |
| Markets.MarketsManager.HandleTicker | internal/exchange/markets.go:192-206 | a new symbol or a changed last price enters both maps, nothing else does |
| Markets.MarketsManager.SendToNats | internal/exchange/markets.go:220-251 | a leader with increments publishes both maps and clears the increments |
| Markets.MarketsManager.StreamData | internal/exchange/markets.go:170-208 | the loop receives the tickers read one after the other, on both maps |
| Markets.ReceiveAllAgrees | internal/exchange/markets.go:192-206 | reading folds the tickers into the snapshot; symbols with a new or changed price get that entry in the increments, all other entries stay |
| Markets.ClientReplay | internal/exchange/markets.go:192-251 | in every reachable cluster state a node's DATA messages, then its increments, overlay to its snapshot |
| Markets.FlushStep | internal/exchange/markets.go:220-251 | a tick of a leader with increments appends one publication and clears them; a tick of any other node changes nothing |
| Markets.LeadershipFollows | internal/exchange/markets.go:220-222 | a node leads iff the last leadership call for it said so |
| Markets.LeadersPublish | internal/exchange/markets.go:220-251 | every publication of a cluster was sent at a tick of a node while it led, with its increments, not empty, and its snapshot of that moment |
| Markets.ViewIsSnapshotAfterFlush | internal/exchange/markets.go:226-251 | right after any flush in any cluster, the flushing node's DATA messages replay to the SNAPSHOT message of that flush |
| Markets.ViewAgreesAfterFailoverFlush | internal/exchange/markets.go:226-251 | after a failover the view of all messages agrees with that SNAPSHOT on all its symbols, whatever the subscriber held |
| Markets.FirstDataIsSnapshot | internal/exchange/markets.go:220-249 | a node that has never flushed publishes its full snapshot as its first DATA message |
| Markets.Failover | internal/exchange/markets.go:192-251 | whatever a subscriber held, a node that took over brings it to its snapshot on every symbol it knows |
| Markets.CurrentIffNothingLost | internal/exchange/markets.go:239-249 | replay of what arrives is current in every history iff no publication is lost |
| Markets.CurrentIffLatestDelivered | internal/exchange/markets.go:239-249 | in a given history replay of what arrives is current if every symbol's latest carrier arrived, and only then where no ticker comes twice |
| Markets.EntryOpensRun | internal/exchange/markets.go:192-206 | the entry of a symbol is the ticker that opened its current run of equal prices |
| Markets.SnapshotAbsorbs | internal/exchange/markets.go:192-251 | flushes and leadership changes never touch the snapshot: it is the fold of the tickers the node received |
| Markets.PriceAgreement | internal/exchange/markets.go:192-206 | after any cluster history a node's snapshot agrees with the latest price of every symbol it received |
| Leadership.TokenSafety | cmd/main.go:85-118 | exactly one value, in the channel, in a goroutine's hands or spent; no send blocks, at most one SetIsLeader call, true only after a won campaign |
| Leadership.CampaignsCounted | cmd/main.go:85-118 | the campaigns of a schedule are those won, those lost and the one under way; won means a campaign was won |
| Leadership.RestsOnlyDelivered | cmd/main.go:85-118 | no action is possible exactly when SetIsLeader has been called, with true and the main loop done or with false and the main loop waiting |
| Leadership.LosesOnAndOn | cmd/main.go:85-118 | a node can lose any number of campaigns and stand where it started |
| Leadership.StolenForever | internal/factory/factory.go:90-101 | once the factory has taken a false, no continuation campaigns or wins |
| Leadership.LeadsIffNotStolen | internal/factory/factory.go:90-101 | a node can still become leader iff the factory has not taken a false |
| Leadership.FactoryCanSteal | internal/factory/factory.go:90-101 | a schedule in which the factory takes the default false, after which no schedule makes the node leader |
| Leadership.LostCampaignCanBeStolen | cmd/main.go:90-92 | after any lost campaign a continuation exists in which the factory takes the false sent back |
| Chunks.SplitJoins | internal/exchange/books/orderbook.go:271-285 | the chunks concatenate to the asset list |
| Chunks.SplitSizes | internal/exchange/books/orderbook.go:271-285 | all chunks but the last are full, the last is not empty, and there are ceil(n/chunkSize) |
| Chunks.SnapshotInChunks | internal/exchange/books/orderbook.go:271-285 | the loop snapshots every asset once in order and sends exactly the chunks |
| Recovery.SendsFitRoom | internal/exchange/books/orderbook.go:362-389 | while the mutex is held no more sends complete than the pass found room for (free slot, idle consumer) and no chunk is subscribed |
| Recovery.ScheduleEnds | internal/exchange/books/orderbook.go:287-337 | no schedule of a pass goes on for ever |
| Recovery.PassFinishesIff | internal/exchange/books/orderbook.go:362-389 | a stopped schedule has released the mutex with all chunks subscribed, two requests each, iff the chunks fit into the room it found and no first fetch fails; else the mutex is held; from any start of channel and consumer |
| Recovery.PassStops | internal/exchange/books/orderbook.go:362-389 | every schedule of a pass can be continued to a stop, and that stop is the one its chunks and fetches decide |
| Recovery.ThreeChunksGetStuck | internal/exchange/books/orderbook.go:362-389 | from every start, a schedule of three chunks with succeeding fetches that ends holding the mutex |
| Recovery.PassOverAssets | internal/exchange/books/orderbook.go:255-269 | with succeeding fetches, a pass finishes iff the assets fit into as many chunks as it found room for |

## Left out

- float64 rounding, infinities in quantities and prices, and signs, exponents, hexadecimal and other forms ParseFloat accepts beyond unsigned decimal notation: `DecimalPrices` reads those as syntax errors.
- Snapshots that arrive unsorted or with repeated prices: the run results take them as valid books, because the code never checks them.
- Crossed books: nothing uncrosses a book, so no result says that the best bid is below the best ask.
- A snapshot stored by another goroutine in the middle of one update: updates and fetches are atomic steps.
- Sorting.SliceStable: an insertion sort on values stands for Go's block sort in place; StableSortUnique shows that the result is the same for any stable sort. The two sides are sorted one after the other.
- Manager.OrderbookManager.PutOrder: slices are sequence fields, so sharing of backing arrays between slices is not modelled.
- Manager.OrderbookManager.HandleStreamUpdate: the mutex is not modelled here; the recovery protocol is.
- Manager.OrderbookManager.GetSnapshots: the pauses between assets are not modelled; names are upper-cased as ASCII.
- Chunks.SnapshotInChunks: a chunk size of zero or less makes the loop of the code diverge or fail and is excluded.
- Recovery.PassFinishesIff: starts from any channel and consumer, but nobody else sends during the pass; a failing websocket write, which ends the process, is not modelled.
- Leadership.TokenSafety: etcd is a campaign that is won or lost; session loss, on which the code does not step down, is not modelled.
- Dynamic settings: the maximum spread is an input of each step; how it is looked up is not part of this model.
- JSON, logging, timers, object pools, NATS, Redis, Kafka, REST and websocket clients, HTTP handlers: input and output only.
- Tickers, trades, asset lists and the service wrapper: forwarding and simple loops.
