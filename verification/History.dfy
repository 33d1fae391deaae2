/** What the engine's counters, identifiers, queue and publications mean over whole runs. */
module History {
  import opened Prices
  import opened Sides
  import opened Books
  import opened Spread
  import opened Engine
  import opened BookRuns

  // ------------------------------------------------------------- truthful notes

  /** Each note about an update is right about the book it met: the book that the notes before it
      replay to. */
  ghost predicate Truthful(num: Parser, b: Option<Book>, trail: seq<Note>) {
    forall i :: 0 <= i < |trail| ==> TruthfulNote(Replay(num, b, trail[..i]), trail[i])
  }

  ghost predicate TruthfulNote(met: Option<Book>, note: Note) {
    match note
    case Loaded(_) => true
    case Applied(u, _, mismatched, _) =>
      met.Some? && (mismatched <==> !Continues(met.value.lastUpdateId, u.firstUpdateId))
    case Skipped(u) => met.Some? && !Continues(met.value.lastUpdateId, u.firstUpdateId)
  }

  lemma TruthfulConcat(num: Parser, b: Option<Book>, t: seq<Note>, u: seq<Note>)
    requires Truthful(num, b, t) && Truthful(num, Replay(num, b, t), u)
    ensures Truthful(num, b, t + u)
  {
    forall i | 0 <= i < |t + u|
      ensures TruthfulNote(Replay(num, b, (t + u)[..i]), (t + u)[i])
    {
      if i < |t| {
        assert (t + u)[..i] == t[..i];
      } else {
        assert (t + u)[..i] == t + u[..i - |t|];
        ReplayConcat(num, b, t, u[..i - |t|]);
      }
    }
  }

  lemma NotesTruthful(cfg: Config, s: State, e: Event, symbol: string)
    ensures Truthful(cfg.num, Lookup(s, symbol), Notes(cfg, s, e, symbol))
  {
    var notes := Notes(cfg, s, e, symbol);
    assert Replay(cfg.num, Lookup(s, symbol), []) == Lookup(s, symbol);
    assert |notes| > 0 ==> notes[..0] == [];
    assert |notes| > 1 ==> notes[1].Loaded?;
  }

  lemma {:induction false} TrailTruthful(cfg: Config, s: State, events: seq<Event>, symbol: string)
    ensures Truthful(cfg.num, Lookup(s, symbol), Trail(cfg, s, events, symbol))
  {
    if events == [] {
    } else {
      var n := |events| - 1;
      var before := Run(cfg, s, events[..n]);
      TrailTruthful(cfg, s, events[..n], symbol);
      RunReplays(cfg, s, events[..n], symbol);
      NotesTruthful(cfg, before, events[n], symbol);
      TruthfulConcat(cfg.num, Lookup(s, symbol), Trail(cfg, s, events[..n], symbol),
                     Notes(cfg, before, events[n], symbol));
    }
  }

  // ---------------------------------------------------------------- mismatches

  /** The length of the mismatched block after a note, given the length before it. */
  function CountNote(count: nat, note: Note): nat {
    match note
    case Loaded(_) => count
    case Skipped(_) => count + 1
    case Applied(_, _, mismatched, _) => if mismatched then count + 1 else 0
  }

  /** Length of the block of mismatched updates a trail ends with, continuing a block of `count`. */
  function Trailing(count: nat, trail: seq<Note>): nat {
    if trail == [] then count else
      var n := |trail| - 1;
      CountNote(Trailing(count, trail[..n]), trail[n])
  }

  /** An update is applied exactly when the block it ends has length at most 1. */
  ghost predicate Gated(count: nat, trail: seq<Note>) {
    forall i :: 0 <= i < |trail| && !trail[i].Loaded? ==>
      (trail[i].Applied? <==> Trailing(count, trail[..i + 1]) <= 1)
  }

  lemma {:induction false} TrailingConcat(count: nat, t: seq<Note>, u: seq<Note>)
    ensures Trailing(count, t + u) == Trailing(Trailing(count, t), u)
  {
    if u == [] {
      assert t + u == t;
    } else {
      var n := |u| - 1;
      assert (t + u)[..|t + u| - 1] == t + u[..n];
      TrailingConcat(count, t, u[..n]);
    }
  }

  lemma GatedConcat(count: nat, t: seq<Note>, u: seq<Note>)
    requires Gated(count, t) && Gated(Trailing(count, t), u)
    ensures Gated(count, t + u)
  {
    forall i | 0 <= i < |t + u| && !(t + u)[i].Loaded?
      ensures (t + u)[i].Applied? <==> Trailing(count, (t + u)[..i + 1]) <= 1
    {
      if i < |t| {
        assert (t + u)[..i + 1] == t[..i + 1];
      } else {
        assert (t + u)[..i + 1] == t + u[..i + 1 - |t|];
        TrailingConcat(count, t, u[..i + 1 - |t|]);
      }
    }
  }

  /** The notes of one event: at most one about an update, then at most one snapshot. */
  lemma StepNotes(cfg: Config, s: State, e: Event, symbol: string)
    ensures var (notes, count) := (Notes(cfg, s, e, symbol), Count(s, symbol));
            && |notes| <= 2 && (|notes| == 2 ==> notes[1].Loaded?)
            && (notes != [] && !notes[0].Loaded? ==> (notes[0].Applied? <==> CountNote(count, notes[0]) <= 1))
  {
  }

  lemma StepCount(cfg: Config, s: State, e: Event, symbol: string)
    ensures var (notes, count) := (Notes(cfg, s, e, symbol), Count(s, symbol));
            Count(Step(cfg, s, e), symbol) == if notes == [] then count else CountNote(count, notes[0])
  {
  }

  lemma TrailingShort(count: nat, notes: seq<Note>)
    requires |notes| <= 2 && (|notes| == 2 ==> notes[1].Loaded?)
    requires notes != [] && !notes[0].Loaded? ==> (notes[0].Applied? <==> CountNote(count, notes[0]) <= 1)
    ensures Trailing(count, notes) == if notes == [] then count else CountNote(count, notes[0])
    ensures Gated(count, notes)
  {
    if notes != [] {
      assert notes[..1] == [notes[0]] && notes[..1][..0] == [];
      assert notes[..|notes|] == notes;
    }
  }

  lemma StepCounts(cfg: Config, s: State, e: Event, symbol: string)
    ensures Count(Step(cfg, s, e), symbol) == Trailing(Count(s, symbol), Notes(cfg, s, e, symbol))
    ensures Gated(Count(s, symbol), Notes(cfg, s, e, symbol))
  {
    StepNotes(cfg, s, e, symbol);
    StepCount(cfg, s, e, symbol);
    TrailingShort(Count(s, symbol), Notes(cfg, s, e, symbol));
  }

  /** The number of updates among some notes. */
  function Updates(notes: seq<Note>): nat {
    if notes == [] then 0 else
      var n := |notes| - 1;
      Updates(notes[..n]) + if notes[n].Loaded? then 0 else 1
  }

  predicate LinesUp(note: Note) {
    note.Applied? && !note.mismatched
  }

  /** The mismatched block a trail ends with starts at cut: no update from there on lines up, and right
      before it one does, unless the block reaches back to the start. */
  ghost predicate BlockStartsAt(trail: seq<Note>, cut: nat) {
    && cut <= |trail|
    && (cut > 0 ==> LinesUp(trail[cut - 1]))
    && forall i :: cut <= i < |trail| ==> !LinesUp(trail[i])
  }

  /** What a block starting at cut continues: `count`, if it reaches back to the start. */
  function Carried(count: nat, cut: nat): nat {
    if cut == 0 then count else 0
  }

  /** The length of a block starting at cut. */
  function BlockLength(count: nat, trail: seq<Note>, cut: nat): nat
    requires cut <= |trail|
  {
    Updates(trail[cut..]) + Carried(count, cut)
  }

  lemma {:induction false} TrailingIsBlock(count: nat, trail: seq<Note>) returns (cut: nat)
    ensures BlockStartsAt(trail, cut) && Trailing(count, trail) == BlockLength(count, trail, cut)
  {
    if trail == [] {
      cut := 0;
    } else {
      var n := |trail| - 1;
      if LinesUp(trail[n]) {
        cut := |trail|;
      } else {
        cut := TrailingIsBlock(count, trail[..n]);
        assert forall i :: 0 <= i < n ==> trail[..n][i] == trail[i];
        assert trail[cut..][..n - cut] == trail[..n][cut..];
      }
    }
  }

  lemma BlockStartUnique(trail: seq<Note>, cut: nat, other: nat)
    requires BlockStartsAt(trail, cut) && BlockStartsAt(trail, other)
    ensures cut == other
  {
  }

  /** The trailing block of a trail is there, is unique, and has the length the counter has. */
  lemma BlockOf(count: nat, trail: seq<Note>)
    ensures exists cut :: BlockStartsAt(trail, cut)
    ensures forall cut :: BlockStartsAt(trail, cut) ==> Trailing(count, trail) == BlockLength(count, trail, cut)
  {
    var cut := TrailingIsBlock(count, trail);
    forall other | BlockStartsAt(trail, other)
      ensures other == cut
    {
      BlockStartUnique(trail, cut, other);
    }
  }

  lemma {:induction false} RunCounts(cfg: Config, s: State, events: seq<Event>, symbol: string)
    ensures var trail := Trail(cfg, s, events, symbol);
            && Count(Run(cfg, s, events), symbol) == Trailing(Count(s, symbol), trail)
            && Gated(Count(s, symbol), trail)
  {
    if events == [] {
    } else {
      var n := |events| - 1;
      var before := Run(cfg, s, events[..n]);
      var t, u := Trail(cfg, s, events[..n], symbol), Notes(cfg, before, events[n], symbol);
      RunCounts(cfg, s, events[..n], symbol);
      StepCounts(cfg, before, events[n], symbol);
      TrailingConcat(Count(s, symbol), t, u);
      GatedConcat(Count(s, symbol), t, u);
    }
  }

  /** An update a trail ends with is applied exactly when its block has length at most 1. */
  ghost predicate AppliedIfFirst(count: nat, trail: seq<Note>)
    requires trail != []
  {
    forall cut :: BlockStartsAt(trail, cut) ==>
      (trail[|trail| - 1].Applied? <==> BlockLength(count, trail, cut) <= 1)
  }

  /** So of each block only the first update is applied. */
  ghost predicate FirstOfBlockApplied(count: nat, trail: seq<Note>) {
    forall i :: 0 <= i < |trail| && !trail[i].Loaded? ==> AppliedIfFirst(count, trail[..i + 1])
  }

  /** mismatchCount is the length of the block of mismatched updates a run ends with, counting only
      updates that found a book; and only the first update of each block is applied. */
  lemma MismatchCountsTrailingBlock(cfg: Config, s: State, events: seq<Event>, symbol: string)
    ensures var (count, trail) := (Count(s, symbol), Trail(cfg, s, events, symbol));
            && (exists cut :: BlockStartsAt(trail, cut))
            && (forall cut :: BlockStartsAt(trail, cut) ==>
                  Count(Run(cfg, s, events), symbol) == BlockLength(count, trail, cut))
            && FirstOfBlockApplied(count, trail)
  {
    var (count, trail) := (Count(s, symbol), Trail(cfg, s, events, symbol));
    RunCounts(cfg, s, events, symbol);
    BlockOf(count, trail);
    GatedBlocks(count, trail);
  }

  lemma GatedBlocks(count: nat, trail: seq<Note>)
    requires Gated(count, trail)
    ensures FirstOfBlockApplied(count, trail)
  {
    forall i | 0 <= i < |trail| && !trail[i].Loaded?
      ensures AppliedIfFirst(count, trail[..i + 1])
    {
      BlockOf(count, trail[..i + 1]);
    }
  }

  /** An update that finds a book. */
  predicate Meets(s: State, e: Event) {
    e.Stream? && e.update.symbol in s.books
  }

  predicate Applies(s: State, e: Event) {
    Meets(s, e) &&
    (Continues(s.books[e.update.symbol].lastUpdateId, e.update.firstUpdateId) || Count(s, e.update.symbol) == 0)
  }

  /** Every update of a mismatched block but the first makes one fetch, and the book then changes
      only by the snapshot the fetch may bring; an applied update fetches nothing. */
  lemma SkippedFetchesOnce(cfg: Config, s: State, e: Event)
    requires Meets(s, e)
    ensures var (r, symbol) := (Step(cfg, s, e), e.update.symbol);
            if Applies(s, e) then r.fetched == s.fetched && r.recovery == s.recovery else
              && r.fetched == s.fetched + [symbol]
              && r.queue == s.queue && r.syncSorts == s.syncSorts
              && match FetchedBook(cfg, symbol, e.responses)
                 case None => r.books == s.books
                 case Some(book) => r.books == s.books[symbol := book]
  {
  }

  /** Calls to fetchInitialOrderbook for a symbol. */
  function Calls(fetched: seq<string>, symbol: string): nat {
    multiset(fetched)[symbol]
  }

  function SkippedCount(notes: seq<Note>): nat {
    if notes == [] then 0 else
      var n := |notes| - 1;
      SkippedCount(notes[..n]) + if notes[n].Skipped? then 1 else 0
  }

  /** An event on which getSnapshots finds no book under the name it has and fetches this symbol. */
  predicate Asks(cfg: Config, s: State, e: Event, symbol: string) {
    match e
    case Stream(u, _, _) => 1 >= cfg.chunkSize && u.symbol !in s.books && ToUpper(u.symbol) == symbol
    case Fetch(asset, _) => asset !in s.books && ToUpper(asset) == symbol
    case Leader(_) => false
  }

  function AskCount(cfg: Config, s: State, events: seq<Event>, symbol: string): nat {
    if events == [] then 0 else
      var n := |events| - 1;
      AskCount(cfg, s, events[..n], symbol) + if Asks(cfg, Run(cfg, s, events[..n]), events[n], symbol) then 1 else 0
  }

  lemma {:induction false} SkippedConcat(t: seq<Note>, u: seq<Note>)
    ensures SkippedCount(t + u) == SkippedCount(t) + SkippedCount(u)
  {
    if u == [] {
      assert t + u == t;
    } else {
      var n := |u| - 1;
      assert (t + u)[..|t + u| - 1] == t + u[..n];
      SkippedConcat(t, u[..n]);
    }
  }

  lemma SkippedShort(notes: seq<Note>)
    requires |notes| <= 2 && (|notes| == 2 ==> notes[1].Loaded?)
    ensures SkippedCount(notes) == if notes != [] && notes[0].Skipped? then 1 else 0
  {
    if notes != [] {
      assert notes[..1] == [notes[0]] && notes[..1][..0] == [];
      assert notes[..|notes|] == notes;
    }
  }

  /** The symbol whose book a step fetches, if it fetches one. */
  function FetchTarget(cfg: Config, s: State, e: Event): Option<string> {
    match e
    case Stream(u, _, _) =>
      if u.symbol !in s.books then
        if 1 >= cfg.chunkSize then Some(ToUpper(u.symbol)) else None
      else if Applies(s, e) then None else Some(u.symbol)
    case Fetch(asset, _) => if asset in s.books then None else Some(ToUpper(asset))
    case Leader(_) => None
  }

  lemma StepFetched(cfg: Config, s: State, e: Event)
    ensures var target := FetchTarget(cfg, s, e);
            Step(cfg, s, e).fetched == s.fetched + if target.Some? then [target.value] else []
  {
  }

  lemma FetchTargetNotes(cfg: Config, s: State, e: Event, symbol: string)
    ensures FetchTarget(cfg, s, e) == Some(symbol) <==>
              Asks(cfg, s, e, symbol) || (Meets(s, e) && e.update.symbol == symbol && !Applies(s, e))
    ensures var notes := Notes(cfg, s, e, symbol);
            Meets(s, e) && e.update.symbol == symbol && !Applies(s, e) <==> notes != [] && notes[0].Skipped?
    ensures Asks(cfg, s, e, symbol) ==> !Meets(s, e)
  {
  }

  lemma StepFetches(cfg: Config, s: State, e: Event, symbol: string)
    ensures Calls(Step(cfg, s, e).fetched, symbol) == Calls(s.fetched, symbol) +
              SkippedCount(Notes(cfg, s, e, symbol)) + if Asks(cfg, s, e, symbol) then 1 else 0
  {
    StepFetched(cfg, s, e);
    FetchTargetNotes(cfg, s, e, symbol);
    StepNotes(cfg, s, e, symbol);
    SkippedShort(Notes(cfg, s, e, symbol));
  }

  /** Over any run the fetches of a symbol are its skipped updates, and the times getSnapshots asked for it
      without finding a book. */
  lemma {:induction false} RunFetches(cfg: Config, s: State, events: seq<Event>, symbol: string)
    ensures Calls(Run(cfg, s, events).fetched, symbol) == Calls(s.fetched, symbol) +
              SkippedCount(Trail(cfg, s, events, symbol)) + AskCount(cfg, s, events, symbol)
  {
    if events == [] {
    } else {
      var n := |events| - 1;
      var before := Run(cfg, s, events[..n]);
      RunFetches(cfg, s, events[..n], symbol);
      StepFetches(cfg, before, events[n], symbol);
      SkippedConcat(Trail(cfg, s, events[..n], symbol), Notes(cfg, before, events[n], symbol));
    }
  }

  /** The fetches a mismatched block of this length has made. */
  function Refetches(length: nat): nat {
    if length == 0 then 0 else length - 1
  }

  /** A block with n updates holds n - 1 skipped ones, less those from before the trail. */
  ghost predicate BlockSkips(count: nat, trail: seq<Note>) {
    forall cut: nat :: BlockStartsAt(trail, cut) ==>
      SkippedCount(trail[cut..]) + Refetches(Carried(count, cut)) == Refetches(BlockLength(count, trail, cut))
  }

  lemma GatedInit(count: nat, trail: seq<Note>, i: nat)
    requires Gated(count, trail) && i <= |trail|
    ensures Gated(count, trail[..i])
  {
    forall k | 0 <= k < i && !trail[..i][k].Loaded?
      ensures trail[..i][k].Applied? <==> Trailing(count, trail[..i][..k + 1]) <= 1
    {
      assert trail[..i][..k + 1] == trail[..k + 1];
    }
  }

  lemma BlockInit(trail: seq<Note>, cut: nat)
    requires BlockStartsAt(trail, cut) && cut < |trail|
    ensures BlockStartsAt(trail[..|trail| - 1], cut)
    ensures trail[cut..][..|trail[cut..]| - 1] == trail[..|trail| - 1][cut..]
    ensures trail[cut..] != [] && trail[cut..][|trail[cut..]| - 1] == trail[|trail| - 1]
  {
  }

  lemma SkipsStep(count: nat, trail: seq<Note>, cut: nat)
    requires Gated(count, trail) && BlockStartsAt(trail, cut) && cut < |trail|
    requires BlockSkips(count, trail[..|trail| - 1])
    ensures SkippedCount(trail[cut..]) + Refetches(Carried(count, cut)) == Refetches(BlockLength(count, trail, cut))
  {
    var n := |trail| - 1;
    BlockInit(trail, cut);
    BlockOf(count, trail);
    assert trail[..n + 1] == trail;
    assert BlockLength(count, trail[..n], cut) + (if trail[n].Loaded? then 0 else 1) == BlockLength(count, trail, cut);
  }

  lemma {:induction false} GatedSkips(count: nat, trail: seq<Note>)
    requires Gated(count, trail)
    ensures BlockSkips(count, trail)
  {
    forall cut: nat | BlockStartsAt(trail, cut)
      ensures SkippedCount(trail[cut..]) + Refetches(Carried(count, cut)) == Refetches(BlockLength(count, trail, cut))
    {
      if cut == |trail| {
      } else {
        var n := |trail| - 1;
        GatedInit(count, trail, n);
        GatedSkips(count, trail[..n]);
        SkipsStep(count, trail, cut);
      }
    }
  }

  /** So each mismatched block of a run, at whatever length it has reached, has made one fetch less than it
      has updates. */
  lemma BlockFetches(cfg: Config, s: State, events: seq<Event>, symbol: string)
    ensures var trail := Trail(cfg, s, events, symbol);
            forall i :: 0 <= i <= |trail| ==> BlockSkips(Count(s, symbol), trail[..i])
  {
    var (count, trail) := (Count(s, symbol), Trail(cfg, s, events, symbol));
    RunCounts(cfg, s, events, symbol);
    forall i | 0 <= i <= |trail|
      ensures BlockSkips(count, trail[..i])
    {
      GatedInit(count, trail, i);
      GatedSkips(count, trail[..i]);
    }
  }

  /** Attempt k is the first that does not fail. */
  ghost predicate AnsweredAt(responses: seq<Response>, maxRetry: nat, k: nat) {
    && k < maxRetry && k < |responses| && responses[k] != Failed
    && forall i :: 0 <= i < k ==> responses[i] == Failed
  }

  /** A fetch stores the snapshot of the first attempt that does not fail, under the symbol it asked
      for, if that attempt brings one, and nothing otherwise. It marks the symbol for recovery exactly
      when the very first attempt fails, even if a later one succeeds. */
  lemma FetchOutcome(cfg: Config, s: State, symbol: string, responses: seq<Response>)
    ensures forall k: nat :: AnsweredAt(responses, cfg.maxRetry, k) ==>
              FetchedBook(cfg, symbol, responses) ==
                if symbol !in cfg.ignored && responses[k].Snapshot? then
                  Some(responses[k].book.(symbol := symbol))
                else None
    ensures (forall k: nat :: !AnsweredAt(responses, cfg.maxRetry, k)) ==> FetchedBook(cfg, symbol, responses) == None
    ensures NeedsRecovery(cfg, symbol, responses) <==>
              symbol !in cfg.ignored && cfg.maxRetry > 0 && (responses == [] || responses[0] == Failed)
    ensures var (r, loaded) := (FetchBook(cfg, s, symbol, responses), FetchedBook(cfg, symbol, responses));
            && r.fetched == s.fetched + [symbol]
            && r.recovery == s.recovery + (if NeedsRecovery(cfg, symbol, responses) then {symbol} else {})
            && r.books == (if loaded.Some? then s.books[symbol := loaded.value] else s.books)
            && r == s.(fetched := r.fetched, recovery := r.recovery, books := r.books)
  {
    AnsweredFirst(responses, cfg.maxRetry);
  }

  lemma AnsweredFirst(responses: seq<Response>, maxRetry: nat)
    ensures forall k: nat :: AnsweredAt(responses, maxRetry, k) <==>
              k < maxRetry && k == FirstAnswered(responses, 0, maxRetry)
  {
    var first := FirstAnswered(responses, 0, maxRetry);
    forall i | 0 <= i < first && first < maxRetry
      ensures responses[i] == Failed
    {
      assert Answer(responses, i) == Failed;
    }
    forall k: nat | AnsweredAt(responses, maxRetry, k)
      ensures k == first
    {
      assert forall i :: 0 <= i < k ==> Answer(responses, i) == Failed;
      assert Answer(responses, k) != Failed;
    }
  }

  // --------------------------------------------------------------------- tiling

  predicate Aligned(note: Note) {
    note.Applied? && !note.mismatched && 0 < note.update.firstUpdateId <= note.update.finalUpdateId
  }

  predicate Covers(note: Note, id: int) {
    Aligned(note) && note.update.firstUpdateId as int <= id <= note.update.finalUpdateId as int
  }

  function TotalLength(trail: seq<Note>): int {
    if trail == [] then 0 else
      var n := |trail| - 1;
      TotalLength(trail[..n]) +
        if Aligned(trail[n]) then trail[n].update.finalUpdateId as int - trail[n].update.firstUpdateId as int + 1 else 0
  }

  predicate Covered(trail: seq<Note>, id: int) {
    exists i :: 0 <= i < |trail| && Covers(trail[i], id)
  }

  /** The ranges of the notes tile the identifiers in (from, upTo]: no gap, no overlap. */
  ghost predicate Tiles(trail: seq<Note>, from: int, upTo: int) {
    && from <= upTo
    && (forall id :: Covered(trail, id) <==> from < id <= upTo)
    && (forall id, i, j :: 0 <= i < j < |trail| ==> !(Covers(trail[i], id) && Covers(trail[j], id)))
    && TotalLength(trail) == upTo - from
  }

  lemma CoveredExtend(trail: seq<Note>, note: Note, id: int)
    ensures Covered(trail + [note], id) <==> Covered(trail, id) || Covers(note, id)
  {
    var longer := trail + [note];
    assert longer[|trail|] == note;
    if i :| 0 <= i < |trail| && Covers(trail[i], id) {
      assert longer[i] == trail[i];
    }
  }

  lemma TilesExtend(trail: seq<Note>, note: Note, from: int, mid: int)
    requires Tiles(trail, from, mid) && Aligned(note) && note.update.firstUpdateId as int == mid + 1
    ensures Tiles(trail + [note], from, note.update.finalUpdateId as int)
  {
    var longer := trail + [note];
    assert longer[..|longer| - 1] == trail && longer[|longer| - 1] == note;
    forall id
      ensures Covered(longer, id) <==> from < id <= note.update.finalUpdateId as int
    {
      CoveredExtend(trail, note, id);
    }
    forall id, i, j | 0 <= i < j < |longer|
      ensures !(Covers(longer[i], id) && Covers(longer[j], id))
    {
      assert Covers(trail[i], id) ==> Covered(trail, id);
      assert longer[i] == trail[i] && longer[j] == if j < |trail| then trail[j] else note;
    }
  }

  /** The update identifier a trail of applied updates leaves behind. */
  function LastId(id: int64, trail: seq<Note>): int64 {
    if trail != [] && trail[|trail| - 1].Applied? then trail[|trail| - 1].update.finalUpdateId else id
  }

  ghost predicate AllAligned(trail: seq<Note>) {
    forall i :: 0 <= i < |trail| ==> Aligned(trail[i])
  }

  lemma {:induction false} ReplayId(num: Parser, b: Option<Book>, trail: seq<Note>)
    requires b.Some? && AllAligned(trail)
    ensures Replay(num, b, trail).Some?
    ensures Replay(num, b, trail).value.lastUpdateId == LastId(b.value.lastUpdateId, trail)
  {
    if trail == [] {
    } else {
      var n := |trail| - 1;
      assert forall i :: 0 <= i < n ==> trail[..n][i] == trail[i];
      ReplayId(num, b, trail[..n]);
      assert Aligned(trail[n]);
    }
  }

  /** Every range starts one above the identifier the ranges before it leave behind. */
  ghost predicate Chained(id: int64, trail: seq<Note>) {
    forall i :: 0 <= i < |trail| ==>
      Aligned(trail[i]) && trail[i].update.firstUpdateId as int == LastId(id, trail[..i]) as int + 1
  }

  lemma ChainInit(id: int64, trail: seq<Note>)
    requires Chained(id, trail) && trail != []
    ensures Chained(id, trail[..|trail| - 1])
  {
    var init := trail[..|trail| - 1];
    assert forall i :: 0 <= i < |init| ==> init[i] == trail[i] && init[..i] == trail[..i];
  }

  lemma {:induction false} ChainTiles(id: int64, trail: seq<Note>)
    requires Chained(id, trail)
    ensures Tiles(trail, id as int, LastId(id, trail) as int)
  {
    if trail == [] {
    } else {
      var n := |trail| - 1;
      var init := trail[..n];
      ChainInit(id, trail);
      ChainTiles(id, init);
      TilesExtend(init, trail[n], id as int, LastId(id, init) as int);
      assert init + [trail[n]] == trail;
    }
  }

  lemma LastIdPositive(id: int64, trail: seq<Note>)
    requires id != 0 && AllAligned(trail)
    ensures LastId(id, trail) != 0
  {
    assert trail != [] ==> Aligned(trail[|trail| - 1]);
  }

  lemma TruthfulChain(num: Parser, b: Option<Book>, trail: seq<Note>)
    requires b.Some? && b.value.lastUpdateId != 0 && AllAligned(trail) && Truthful(num, b, trail)
    ensures Chained(b.value.lastUpdateId, trail)
  {
    forall i | 0 <= i < |trail|
      ensures trail[i].update.firstUpdateId as int == LastId(b.value.lastUpdateId, trail[..i]) as int + 1
    {
      assert forall j :: 0 <= j < i ==> trail[..i][j] == trail[j];
      ReplayId(num, b, trail[..i]);
      LastIdPositive(b.value.lastUpdateId, trail[..i]);
      assert TruthfulNote(Replay(num, b, trail[..i]), trail[i]);
    }
  }

  /** Over any stretch without snapshot replacement or mismatch, the applied identifier ranges tile
      what lies between the book's first and last update identifier. */
  lemma AppliedRangesTile(cfg: Config, s: State, events: seq<Event>, symbol: string)
    requires symbol in s.books && s.books[symbol].lastUpdateId != 0
    requires AllAligned(Trail(cfg, s, events, symbol))
    ensures symbol in Run(cfg, s, events).books
    ensures Tiles(Trail(cfg, s, events, symbol), s.books[symbol].lastUpdateId as int,
                  Run(cfg, s, events).books[symbol].lastUpdateId as int)
  {
    TrailTruthful(cfg, s, events, symbol);
    RunReplays(cfg, s, events, symbol);
    TruthfulChain(cfg.num, Lookup(s, symbol), Trail(cfg, s, events, symbol));
    ChainTiles(s.books[symbol].lastUpdateId, Trail(cfg, s, events, symbol));
    ReplayId(cfg.num, Lookup(s, symbol), Trail(cfg, s, events, symbol));
  }

  // ------------------------------------------------------------------ sort queue

  function AppliedCount(cfg: Config, s: State, events: seq<Event>): nat {
    if events == [] then 0 else
      var n := |events| - 1;
      AppliedCount(cfg, s, events[..n]) + if Applies(Run(cfg, s, events[..n]), events[n]) then 1 else 0
  }

  lemma StepQueues(cfg: Config, s: State, e: Event)
    ensures var r := Step(cfg, s, e);
            if !Applies(s, e) then |r.queue| == |s.queue| && r.syncSorts == s.syncSorts
            else if |s.queue| < 3000 then |r.queue| == |s.queue| + 1 && r.syncSorts == s.syncSorts
            else |r.queue| == |s.queue| && r.syncSorts == s.syncSorts + 1
  {
  }

  /** Nothing drains the sort queue: the first 3000 applied updates fill it, and from then on each
      applied update sorts its book on the spot. */
  lemma {:induction false} SortQueueFills(cfg: Config, events: seq<Event>)
    ensures var (r, applied) := (Run(cfg, INITIAL, events), AppliedCount(cfg, INITIAL, events));
            && |r.queue| == (if applied <= 3000 then applied else 3000)
            && r.syncSorts == (if applied <= 3000 then 0 else applied - 3000)
  {
    if events == [] {
    } else {
      SortQueueFills(cfg, events[..|events| - 1]);
      StepQueues(cfg, Run(cfg, INITIAL, events[..|events| - 1]), events[|events| - 1]);
    }
  }

  // ------------------------------------------------------------------ publication

  lemma TopTrimmed(num: Parser, b: Book, maxSpread: real)
    requires SortedBook(num, b) && Trimmed(num, b, maxSpread)
    ensures SortedBook(num, TopBook(b)) && Trimmed(num, TopBook(b), maxSpread)
  {
    TrimmedMeans(num, b, maxSpread);
    TrimmedMeans(num, TopBook(b), maxSpread);
    PrefixSorted(num, true, Top(b.bids), b.bids);
    PrefixSorted(num, false, Top(b.asks), b.asks);
    assert forall l :: l in Top(b.bids) ==> l in b.bids;
    assert forall l :: l in Top(b.asks) ==> l in b.asks;
  }

  /** Once 3000 updates have been applied, every book published after an applied update is
      numerically sorted and trimmed, whatever the format of its prices. */
  lemma PublishedSortedOnceFull(cfg: Config, events: seq<Event>, e: Event)
    requires AppliedCount(cfg, INITIAL, events) >= 3000
    requires Applies(Run(cfg, INITIAL, events), e) && Run(cfg, INITIAL, events).isLeader
    ensures var (s, r) := (Run(cfg, INITIAL, events), Run(cfg, INITIAL, events + [e]));
            && |r.published| == |s.published| + 1 && r.published[..|s.published|] == s.published
            && var message := r.published[|s.published|];
            && message.subject == "orderbook." + e.update.symbol
            && SortedBook(cfg.num, message.book) && Trimmed(cfg.num, message.book, e.maxSpread)
  {
    assert (events + [e])[..|events|] == events;
    SortQueueFills(cfg, events);
    var s := Run(cfg, INITIAL, events);
    var edited := ApplyUpdate(cfg.num, s.books[e.update.symbol], e.update, e.maxSpread);
    SortAndFixPrefix(cfg.num, edited, e.maxSpread);
    SortAndFixIdempotent(cfg.num, edited, e.maxSpread);
    TopTrimmed(cfg.num, SortAndFix(cfg.num, edited, e.maxSpread), e.maxSpread);
  }

  /** sent is the first 250 levels of a side, or all of them. */
  ghost predicate FirstLevels(sent: seq<Level>, side: seq<Level>) {
    sent <= side && |sent| == if |side| <= 250 then |side| else 250
  }

  /** What a stream message makes the node publish, whatever the book: the leader sends the first levels of
      the book the update left, under the name of the symbol, and nothing else changes. */
  lemma PublishMeans(cfg: Config, s: State, e: Event)
    requires e.Stream?
    ensures var (h, r) := (Handle(cfg, s, e.update, e.maxSpread, e.responses), Step(cfg, s, e));
            && r == h.(published := r.published)
            && if s.isLeader && e.update.symbol in h.books then
                 var kept := h.books[e.update.symbol];
                 var sent := TopBook(kept);
                 && r.published == s.published + [Message("orderbook." + e.update.symbol, sent)]
                 && sent == kept.(bids := sent.bids, asks := sent.asks)
                 && FirstLevels(sent.bids, kept.bids) && FirstLevels(sent.asks, kept.asks)
               else
                 r.published == s.published
  {
    HandleSilent(cfg, s, e);
  }

  /** top holds the best levels of a side: as many as fit, and none withheld beats one of them. */
  ghost predicate BestOf(num: Parser, isBid: bool, top: seq<Level>, side: seq<Level>) {
    && FirstLevels(top, side)
    && (forall l :: l in top ==> l in side)
    && (forall l, w :: l in top && w in side && w !in top ==> Key(num, isBid, l.price) < Key(num, isBid, w.price))
  }

  lemma TopIsBest(num: Parser, prices: iset<string>, isBid: bool, side: seq<Level>)
    requires SideOk(num, prices, isBid, side)
    ensures BestOf(num, isBid, Top(side), side) && SideOk(num, prices, isBid, Top(side))
  {
    var top := Top(side);
    CutOk(num, prices, isBid, top, side);
    forall j | 0 <= j < |top|
      ensures side[j] in top && side[j] == top[j]
    {
      assert top[j] in top;
    }
    assert forall i, j :: 0 <= i < |top| <= j < |side| ==>
      Key(num, isBid, side[i].price) < Key(num, isBid, side[j].price);
  }

  /** After a stream message that leaves a book, the leader publishes its 250 best levels of each side
      and stores the book uncut; no other step publishes. */
  ghost predicate Publishes(cfg: Config, prices: iset<string>, s: State, r: State, e: Event) {
    if e.Stream? && s.isLeader && e.update.symbol in r.books then
      && |r.published| == |s.published| + 1 && r.published[..|s.published|] == s.published
      && r.books == Handle(cfg, s, e.update, e.maxSpread, e.responses).books
      && r.published[|s.published|].subject == "orderbook." + e.update.symbol
      && var (sent, kept) := (r.published[|s.published|].book, r.books[e.update.symbol]);
      && BookOk(cfg.num, prices, sent)
      && BestOf(cfg.num, true, sent.bids, kept.bids) && BestOf(cfg.num, false, sent.asks, kept.asks)
    else
      r.published == s.published
  }

  /** In every run in which the prices of the published symbol are coherent, what is published is the
      best of what is stored, whatever the prices of other symbols. */
  lemma PublishedIsBest(cfg: Config, prices: iset<string>, events: seq<Event>, e: Event)
    requires e.Stream? ==>
               Coherent(cfg.num, prices) && EventsFor(cfg.num, prices, e.update.symbol, events + [e])
    ensures Publishes(cfg, prices, Run(cfg, INITIAL, events), Run(cfg, INITIAL, events + [e]), e)
  {
    assert (events + [e])[..|events|] == events;
    if e.Stream? {
      RunKeepsBook(cfg, prices, INITIAL, events + [e], e.update.symbol);
    }
    StepPublishes(cfg, prices, Run(cfg, INITIAL, events), e);
  }

  lemma StepPublishes(cfg: Config, prices: iset<string>, s: State, e: Event)
    requires e.Stream? ==> OptionOk(cfg.num, prices, Lookup(Step(cfg, s, e), e.update.symbol))
    ensures Publishes(cfg, prices, s, Step(cfg, s, e), e)
  {
    if e.Stream? {
      HandleSilent(cfg, s, e);
      if e.update.symbol in Step(cfg, s, e).books {
        var kept := Step(cfg, s, e).books[e.update.symbol];
        TopIsBest(cfg.num, prices, true, kept.bids);
        TopIsBest(cfg.num, prices, false, kept.asks);
      }
    }
  }

  lemma HandleSilent(cfg: Config, s: State, e: Event)
    requires e.Stream?
    ensures var h := Handle(cfg, s, e.update, e.maxSpread, e.responses);
            h.published == s.published && h.isLeader == s.isLeader && Step(cfg, s, e).books == h.books
  {
  }
}
