/** The markets service: every node keeps a snapshot of all symbols and the increments since its last
    publication; the leader periodically publishes both and clears the increments. */
module Markets {

  /** The fields the service looks at, and the rest of the ticker. */
  datatype MarketData = MarketData(symbol: string, lastPrice: string, eventTime: int, rest: seq<string>)

  type Table = map<string, MarketData>

  /** One flush: the DATA message, then the SNAPSHOT message. */
  datatype Publication = Publication(data: Table, snapshot: Table)

  datatype Node = Node(snapshot: Table, incremental: Table, isLeader: bool)

  const FRESH: Node := Node(map[], map[], false)

  // ------------------------------------------------------------------ one node

  /** A ticker counts when the symbol is new or its last price has changed. */
  predicate Changes(snapshot: Table, d: MarketData) {
    d.symbol in snapshot ==> snapshot[d.symbol].lastPrice != d.lastPrice
  }

  function Receive(n: Node, d: MarketData): Node {
    if Changes(n.snapshot, d) then
      n.(snapshot := n.snapshot[d.symbol := d], incremental := n.incremental[d.symbol := d])
    else n
  }

  function ReceiveAll(n: Node, tickers: seq<MarketData>): Node {
    if tickers == [] then n else
      var k := |tickers| - 1;
      Receive(ReceiveAll(n, tickers[..k]), tickers[k])
  }

  predicate Flushes(n: Node) {
    n.isLeader && |n.incremental| > 0
  }

  function Flush(n: Node): Node {
    if Flushes(n) then n.(incremental := map[]) else n
  }

  function FlushOutput(n: Node): seq<Publication> {
    if Flushes(n) then [Publication(n.incremental, n.snapshot)] else []
  }

  class MarketsManager {
    var snapshot: Table
    var incremental: Table
    var isLeader: bool
    ghost var published: seq<Publication>

    ghost function Contents(): Node
      reads this
    {
      Node(snapshot, incremental, isLeader)
    }

    constructor ()
      ensures Contents() == FRESH == Node(map[], map[], false) && published == []
    {
      snapshot, incremental, isLeader, published := map[], map[], false, [];
    }

    method SetIsLeader(isLeader: bool)
      modifies this`isLeader
      ensures Contents() == old(Contents()).(isLeader := isLeader)
    {
      this.isLeader := isLeader;
    }

    method HandleTicker(d: MarketData)
      modifies this`snapshot, this`incremental
      ensures Contents() == Receive(old(Contents()), d)
      ensures if d.symbol !in old(snapshot) || old(snapshot)[d.symbol].lastPrice != d.lastPrice then
                snapshot == old(snapshot)[d.symbol := d] && incremental == old(incremental)[d.symbol := d]
              else
                snapshot == old(snapshot) && incremental == old(incremental)
    {
      if d.symbol in snapshot {
        if snapshot[d.symbol].lastPrice != d.lastPrice {
          snapshot := snapshot[d.symbol := d];
          incremental := incremental[d.symbol := d];
        }
      } else {
        snapshot := snapshot[d.symbol := d];
        incremental := incremental[d.symbol := d];
      }
    }

    /** The body of the publishing loop at a tick of its timer: a leader with increments publishes both maps
        and clears the increments, and otherwise nothing happens. */
    method SendToNats()
      modifies this`incremental, this`published
      ensures Contents() == Flush(old(Contents()))
      ensures published == old(published) + FlushOutput(old(Contents()))
      ensures if isLeader && old(incremental) != map[] then
                published == old(published) + [Publication(old(incremental), snapshot)] && incremental == map[]
              else
                published == old(published) && incremental == old(incremental)
    {
      if !isLeader {
        return;
      }
      if |incremental| > 0 {
        published := published + [Publication(incremental, snapshot)];
        incremental := map[];
      }
    }

    /** The reading loop: the node receives the tickers one after the other. */
    method StreamData(ch: seq<MarketData>)
      modifies this`snapshot, this`incremental
      ensures Contents() == ReceiveAll(old(Contents()), ch)
    {
      for i := 0 to |ch|
        invariant Contents() == ReceiveAll(old(Contents()), ch[..i])
      {
        HandleTicker(ch[i]);
        assert ch[..i + 1][..i] == ch[..i];
      }
      assert ch[..|ch|] == ch;
    }
  }

  // ------------------------------------------------------------------- clusters

  /** Nodes of one service with the publications of all of them, in order. */
  datatype Cluster = Cluster(nodes: seq<Node>, log: seq<Sent>)

  datatype Sent = Sent(node: nat, publication: Publication)

  datatype Event =
    | Ticker(node: nat, data: MarketData)
    | Tick(node: nat)
    | Lead(node: nat, isLeader: bool)

  function From(node: nat, publications: seq<Publication>): seq<Sent> {
    seq(|publications|, i requires 0 <= i < |publications| => Sent(node, publications[i]))
  }

  function Step(c: Cluster, e: Event): Cluster {
    if e.node >= |c.nodes| then c else
      var n := c.nodes[e.node];
      match e
      case Ticker(i, d) => c.(nodes := c.nodes[i := Receive(n, d)])
      case Lead(i, isLeader) => c.(nodes := c.nodes[i := n.(isLeader := isLeader)])
      case Tick(i) => Cluster(c.nodes[i := Flush(n)], c.log + From(i, FlushOutput(n)))
  }

  function Start(size: nat): Cluster {
    Cluster(seq(size, i => FRESH), [])
  }

  function Run(size: nat, events: seq<Event>): (c: Cluster)
    ensures |c.nodes| == size
  {
    if events == [] then Start(size) else Step(Run(size, events[..|events| - 1]), events[|events| - 1])
  }

  lemma RunAppend(size: nat, events: seq<Event>, e: Event)
    ensures Run(size, events + [e]) == Step(Run(size, events), e)
  {
    assert (events + [e])[..|events|] == events;
  }

  /** What a subscriber holds that overlays every DATA message it receives on what it had. */
  function View(held: Table, log: seq<Sent>): Table {
    if log == [] then held else
      var n := |log| - 1;
      View(held, log[..n]) + log[n].publication.data
  }

  /** The publications of one node. */
  function SentBy(log: seq<Sent>, node: nat): seq<Sent> {
    if log == [] then [] else
      var n := |log| - 1;
      var before := SentBy(log[..n], node);
      if log[n].node == node then before + [log[n]] else before
  }

  // ---------------------------------------------------------------- client replay

  /** Overlaying a node's DATA messages, then its pending increments, gives its snapshot. */
  ghost predicate Replays(c: Cluster, node: nat)
    requires node < |c.nodes|
  {
    View(map[], SentBy(c.log, node)) + c.nodes[node].incremental == c.nodes[node].snapshot
  }

  lemma ReceiveReplays(own: Table, n: Node, d: MarketData)
    requires own + n.incremental == n.snapshot
    ensures own + Receive(n, d).incremental == Receive(n, d).snapshot
  {
    assert own + n.incremental[d.symbol := d] == (own + n.incremental)[d.symbol := d];
  }

  lemma SentByAppend(log: seq<Sent>, node: nat, sent: seq<Sent>)
    requires |sent| <= 1
    ensures SentBy(log + sent, node) ==
              if |sent| == 1 && sent[0].node == node then SentBy(log, node) + sent else SentBy(log, node)
  {
    if |sent| == 1 {
      assert (log + sent)[..|log|] == log && sent == [sent[0]];
    } else {
      assert log + sent == log;
    }
  }

  lemma ViewAppend(held: Table, log: seq<Sent>, sent: Sent)
    ensures View(held, log + [sent]) == View(held, log) + sent.publication.data
  {
    assert (log + [sent])[..|log|] == log;
  }

  lemma FlushedView(own: seq<Sent>, node: nat, n: Node)
    requires View(map[], own) + n.incremental == n.snapshot
    ensures View(map[], own + [Sent(node, Publication(n.incremental, n.snapshot))]) + map[] == n.snapshot
  {
    ViewAppend(map[], own, Sent(node, Publication(n.incremental, n.snapshot)));
  }

  lemma FromFlush(node: nat, n: Node)
    ensures From(node, FlushOutput(n)) ==
              if Flushes(n) then [Sent(node, Publication(n.incremental, n.snapshot))] else []
  {
  }

  lemma FlushReplays(log: seq<Sent>, node: nat, n: Node)
    requires View(map[], SentBy(log, node)) + n.incremental == n.snapshot
    ensures View(map[], SentBy(log + From(node, FlushOutput(n)), node)) + Flush(n).incremental == Flush(n).snapshot
  {
    FromFlush(node, n);
    SentByAppend(log, node, From(node, FlushOutput(n)));
    if Flushes(n) {
      FlushedView(SentBy(log, node), node, n);
    }
  }

  lemma StepReplays(c: Cluster, e: Event, node: nat)
    requires node < |c.nodes| && Replays(c, node)
    ensures Replays(Step(c, e), node)
  {
    if e.node < |c.nodes| {
      match e
      case Ticker(i, d) => ReceiveReplays(View(map[], SentBy(c.log, node)), c.nodes[node], d);
      case Lead(_, _) =>
      case Tick(i) =>
        if i == node {
          FlushReplays(c.log, node, c.nodes[node]);
        } else {
          SentByAppend(c.log, node, From(i, FlushOutput(c.nodes[i])));
        }
    }
  }

  /** At every reachable state of every cluster, each node's DATA messages so far and its pending
      increments rebuild its snapshot. */
  lemma {:induction false} ClientReplay(size: nat, events: seq<Event>, node: nat)
    requires node < size
    ensures Replays(Run(size, events), node)
  {
    if events == [] {
    } else {
      ClientReplay(size, events[..|events| - 1], node);
      StepReplays(Run(size, events[..|events| - 1]), events[|events| - 1], node);
    }
  }

  // -------------------------------------------------------------------- failover

  lemma {:induction false} ViewFrom(held: Table, log: seq<Sent>)
    ensures View(held, log) == held + View(map[], log)
  {
    if log == [] {
    } else {
      ViewFrom(held, log[..|log| - 1]);
    }
  }

  lemma {:induction false} ViewConcat(held: Table, a: seq<Sent>, b: seq<Sent>)
    ensures View(held, a + b) == View(View(held, a), b)
  {
    if b == [] {
      assert a + b == a;
    } else {
      assert (a + b)[..|a + b| - 1] == a + b[..|b| - 1];
      ViewConcat(held, a, b[..|b| - 1]);
    }
  }

  /** The node took over at position k of the log: nothing of its own before, nothing else after. */
  ghost predicate TookOver(log: seq<Sent>, node: nat, k: nat) {
    && k <= |log|
    && (forall i :: 0 <= i < k ==> log[i].node != node)
    && (forall i :: k <= i < |log| ==> log[i].node == node)
  }

  lemma {:induction false} NotOwn(log: seq<Sent>, node: nat)
    requires forall i :: 0 <= i < |log| ==> log[i].node != node
    ensures SentBy(log, node) == []
  {
    if log == [] {
    } else {
      NotOwn(log[..|log| - 1], node);
    }
  }

  lemma {:induction false} OwnSuffix(log: seq<Sent>, node: nat, k: nat)
    requires TookOver(log, node, k)
    ensures SentBy(log, node) == log[k..]
  {
    if k == |log| {
      NotOwn(log, node);
    } else {
      var n := |log| - 1;
      OwnSuffix(log[..n], node, k);
      assert log[k..] == log[..n][k..] + [log[n]];
    }
  }

  lemma FailoverView(held: Table, log: seq<Sent>, node: nat, k: nat)
    requires TookOver(log, node, k)
    ensures View(held, log) == View(held, log[..k]) + View(map[], SentBy(log, node))
  {
    OwnSuffix(log, node, k);
    assert log == log[..k] + log[k..];
    ViewConcat(held, log[..k], log[k..]);
    ViewFrom(View(held, log[..k]), log[k..]);
  }

  /** Whoever published before it, and whatever a subscriber held, a node that took over brings the
      subscriber to its own snapshot on every symbol it knows, up to its pending increments. */
  lemma Failover(size: nat, events: seq<Event>, node: nat, k: nat, held: Table)
    requires node < size && TookOver(Run(size, events).log, node, k)
    ensures var (log, n) := (Run(size, events).log, Run(size, events).nodes[node]);
            && View(held, log) + n.incremental == View(held, log[..k]) + n.snapshot
            && forall s :: s in n.snapshot && s !in n.incremental ==>
                 s in View(held, log) && View(held, log)[s] == n.snapshot[s]
  {
    var (log, n) := (Run(size, events).log, Run(size, events).nodes[node]);
    ClientReplay(size, events, node);
    FailoverView(held, log, node, k);
    OverlayAgrees(View(held, log[..k]), View(map[], SentBy(log, node)), n.incremental, n.snapshot);
  }

  lemma OverlayAgrees(earlier: Table, own: Table, pending: Table, snapshot: Table)
    requires own + pending == snapshot
    ensures earlier + own + pending == earlier + snapshot
    ensures forall s :: s in snapshot && s !in pending ==> s in earlier + own && (earlier + own)[s] == snapshot[s]
  {
  }

  /** A node that has published nothing holds its whole snapshot as increments, so its first DATA
      message is its full snapshot. */
  lemma FirstDataIsSnapshot(size: nat, events: seq<Event>, node: nat)
    requires node < size && forall i :: 0 <= i < |Run(size, events).log| ==> Run(size, events).log[i].node != node
    ensures var n := Run(size, events).nodes[node];
            && n.incremental == n.snapshot
            && (n.isLeader && n.incremental != map[] ==> FlushOutput(n) == [Publication(n.snapshot, n.snapshot)])
  {
    ClientReplay(size, events, node);
    var log := Run(size, events).log;
    OwnSuffix(log, node, |log|);
  }

  // --------------------------------------------------------------- who publishes

  /** The node leads and has increments. */
  predicate MayPublish(n: Node) {
    n.isLeader && n.incremental != map[]
  }

  /** A tick of a leader with increments appends one publication, clears the increments, and leaves the
      snapshot it published; a tick of any other node does nothing. */
  lemma FlushStep(size: nat, events: seq<Event>, node: nat)
    requires node < size
    ensures var (c, r) := (Run(size, events), Run(size, events + [Tick(node)]));
            var n := c.nodes[node];
            if n.isLeader && n.incremental != map[] then
              && r.log == c.log + [Sent(node, Publication(n.incremental, n.snapshot))]
              && r.nodes == c.nodes[node := n.(incremental := map[])]
            else
              r == c
  {
    RunAppend(size, events, Tick(node));
  }

  /** The last leadership call for a node; at first no node leads. */
  function Led(events: seq<Event>, node: nat): bool {
    if events == [] then false else
      var n := |events| - 1;
      if events[n].Lead? && events[n].node == node then events[n].isLeader else Led(events[..n], node)
  }

  lemma {:induction false} LeadershipFollows(size: nat, events: seq<Event>, node: nat)
    requires node < size
    ensures Run(size, events).nodes[node].isLeader <==> Led(events, node)
  {
    if events == [] {
    } else {
      LeadershipFollows(size, events[..|events| - 1], node);
    }
  }

  /** Entry k of the log was sent at event i: a tick of a node that led then and published its increments,
      which were not empty, and its snapshot. */
  ghost predicate SentAt(size: nat, events: seq<Event>, k: nat, i: nat) {
    && i < |events| && k < |Run(size, events).log| && Run(size, events).log[k].node < size
    && var (sent, before) := (Run(size, events).log[k], Run(size, events[..i]));
    && events[i] == Tick(sent.node) && Led(events[..i], sent.node) && |before.log| == k
    && before.nodes[sent.node].incremental != map[]
    && sent.publication == Publication(before.nodes[sent.node].incremental, before.nodes[sent.node].snapshot)
  }

  lemma SentEarlier(size: nat, events: seq<Event>, e: Event, k: nat, i: nat)
    requires SentAt(size, events, k, i)
    ensures SentAt(size, events + [e], k, i)
  {
    RunAppend(size, events, e);
    var all := events + [e];
    assert all[..i] == events[..i];
  }

  lemma SentLast(size: nat, events: seq<Event>, node: nat)
    requires node < size && MayPublish(Run(size, events).nodes[node])
    ensures SentAt(size, events + [Tick(node)], |Run(size, events).log|, |events|)
  {
    FlushStep(size, events, node);
    LeadershipFollows(size, events, node);
    var all := events + [Tick(node)];
    assert all[..|events|] == events;
  }

  lemma LogGrows(size: nat, events: seq<Event>, e: Event)
    ensures |Run(size, events + [e]).log| == |Run(size, events).log| +
              if e.Tick? && e.node < size && MayPublish(Run(size, events).nodes[e.node]) then 1 else 0
  {
    RunAppend(size, events, e);
  }

  /** Every publication of every cluster was sent at a tick of a node while that node led. */
  lemma {:induction false} LeadersPublish(size: nat, events: seq<Event>, k: nat)
    requires k < |Run(size, events).log|
    ensures exists i :: SentAt(size, events, k, i)
  {
    if events == [] {
    } else {
      var (init, e) := (events[..|events| - 1], events[|events| - 1]);
      assert init + [e] == events;
      if k < |Run(size, init).log| {
        LeadersPublish(size, init, k);
        var i :| SentAt(size, init, k, i);
        SentEarlier(size, init, e, k, i);
      } else {
        LogGrows(size, init, e);
        SentLast(size, init, e.node);
      }
    }
  }

  /** Right after any flush in any cluster, replaying the DATA messages of the flushing node gives the
      SNAPSHOT message of that flush, whoever else publishes. */
  lemma ViewIsSnapshotAfterFlush(size: nat, events: seq<Event>, node: nat)
    requires node < size && MayPublish(Run(size, events).nodes[node])
    ensures var log := Run(size, events + [Tick(node)]).log;
            && log != [] && log[|log| - 1].node == node
            && View(map[], SentBy(log, node)) == log[|log| - 1].publication.snapshot
  {
    var all := events + [Tick(node)];
    FlushStep(size, events, node);
    ClientReplay(size, all, node);
    var own := View(map[], SentBy(Run(size, all).log, node));
    assert own + map[] == own;
  }

  /** After a failover the same holds of a subscriber to all messages, whatever it held before: once the
      node that took over has flushed, the view agrees with that SNAPSHOT on all its symbols. */
  lemma ViewAgreesAfterFailoverFlush(size: nat, events: seq<Event>, node: nat, k: nat, held: Table)
    requires node < size && MayPublish(Run(size, events).nodes[node])
    requires TookOver(Run(size, events + [Tick(node)]).log, node, k)
    ensures var log := Run(size, events + [Tick(node)]).log;
            && log != []
            && var snapshot := log[|log| - 1].publication.snapshot;
            forall s :: s in snapshot ==> s in View(held, log) && View(held, log)[s] == snapshot[s]
  {
    FlushStep(size, events, node);
    Failover(size, events + [Tick(node)], node, k, held);
  }

  // ------------------------------------------------------------ lost publications

  /** The publications that reach a subscriber when some attempts fail; the node clears its increments
      either way. */
  function Delivered(log: seq<Sent>, ok: seq<bool>): seq<Sent>
    requires |log| == |ok|
  {
    if log == [] then [] else
      var n := |log| - 1;
      var before := Delivered(log[..n], ok[..n]);
      if ok[n] then before + [log[n]] else before
  }

  lemma {:induction false} DeliveredAll(log: seq<Sent>, ok: seq<bool>)
    requires |log| == |ok| && forall i :: 0 <= i < |ok| ==> ok[i]
    ensures Delivered(log, ok) == log
  {
    if log == [] {
    } else {
      DeliveredAll(log[..|log| - 1], ok[..|log| - 1]);
    }
  }

  lemma {:induction false} DeliveredLacks(log: seq<Sent>, ok: seq<bool>, symbol: string)
    requires |log| == |ok|
    requires forall i :: 0 <= i < |log| && ok[i] ==> symbol !in log[i].publication.data
    ensures symbol !in View(map[], Delivered(log, ok))
  {
    if log == [] {
    } else {
      var n := |log| - 1;
      DeliveredLacks(log[..n], ok[..n], symbol);
      var before := Delivered(log[..n], ok[..n]);
      assert (before + [log[n]])[..|before|] == before;
    }
  }

  lemma {:induction false} LonePublisher(events: seq<Event>)
    ensures TookOver(Run(1, events).log, 0, 0)
  {
    if events == [] {
    } else {
      var n := |events| - 1;
      var c := Run(1, events[..n]);
      LonePublisher(events[..n]);
      assert forall i :: 0 <= i < |c.log| ==> c.log[i].node == 0;
      assert events[n].node == 0 || Run(1, events) == c;
    }
  }

  /** A history that publishes a symbol of its own in every flush. */
  function Coin(j: nat): MarketData {
    MarketData(seq(j, i => 'A'), "1", 0, [])
  }

  function Coins(n: nat): (table: Table)
    ensures forall s :: s in table ==> |s| < n
    ensures forall j :: 0 <= j < n ==> Coin(j).symbol in table
  {
    if n == 0 then map[] else Coins(n - 1)[Coin(n - 1).symbol := Coin(n - 1)]
  }

  function Rounds(n: nat): seq<Event> {
    if n == 0 then [Lead(0, true)] else Rounds(n - 1) + [Ticker(0, Coin(n - 1))] + [Tick(0)]
  }

  lemma OneRound(c: Cluster, n: nat)
    requires c.nodes == [Node(Coins(n), map[], true)]
    requires |c.log| == n && CoinLog(c.log)
    ensures var r := Step(Step(c, Ticker(0, Coin(n))), Tick(0));
            r.nodes == [Node(Coins(n + 1), map[], true)] && |r.log| == n + 1 && CoinLog(r.log)
  {
    var received := Step(c, Ticker(0, Coin(n)));
    assert Coin(n).symbol !in Coins(n);
    assert received.nodes[0].incremental == map[Coin(n).symbol := Coin(n)];
    assert |received.nodes[0].incremental| == 1;
  }

  predicate CoinLog(log: seq<Sent>) {
    forall j :: 0 <= j < |log| ==> log[j].publication.data == map[Coin(j).symbol := Coin(j)]
  }

  lemma {:induction false} RoundsRun(n: nat)
    ensures var c := Run(1, Rounds(n));
            && c.nodes == [Node(Coins(n), map[], true)]
            && |c.log| == n && CoinLog(c.log)
  {
    if n == 0 {
      assert Rounds(0)[..0] == [];
    } else {
      RoundsRun(n - 1);
      var (r, e) := (Rounds(n - 1), Ticker(0, Coin(n - 1)));
      RunAppend(1, r, e);
      RunAppend(1, r + [e], Tick(0));
      OneRound(Run(1, r), n - 1);
      assert Rounds(n) == r + [e] + [Tick(0)];
    }
  }

  /** After a flush, does every history leave the subscriber with the snapshot? */
  ghost predicate AlwaysCurrent(ok: seq<bool>) {
    forall events :: var c := Run(1, events);
      |c.log| == |ok| && c.nodes[0].incremental == map[] ==> View(map[], Delivered(c.log, ok)) == c.nodes[0].snapshot
  }

  lemma NothingLostCurrent(events: seq<Event>, ok: seq<bool>)
    requires |Run(1, events).log| == |ok| && Run(1, events).nodes[0].incremental == map[]
    requires forall i :: 0 <= i < |ok| ==> ok[i]
    ensures View(map[], Delivered(Run(1, events).log, ok)) == Run(1, events).nodes[0].snapshot
  {
    var log := Run(1, events).log;
    DeliveredAll(log, ok);
    LonePublisher(events);
    ClientReplay(1, events, 0);
    OwnSuffix(log, 0, 0);
    assert View(map[], log) + map[] == View(map[], log);
  }

  lemma LostIsMissing(ok: seq<bool>, i: nat)
    requires i < |ok| && !ok[i]
    ensures var c := Run(1, Rounds(|ok|));
            && |c.log| == |ok| && c.nodes[0].incremental == map[]
            && Coin(i).symbol in c.nodes[0].snapshot && Coin(i).symbol !in View(map[], Delivered(c.log, ok))
  {
    RoundsRun(|ok|);
    var c := Run(1, Rounds(|ok|));
    forall j | 0 <= j < |ok| && ok[j]
      ensures Coin(i).symbol !in c.log[j].publication.data
    {
      assert |Coin(i).symbol| == i && |Coin(j).symbol| == j;
    }
    DeliveredLacks(c.log, ok, Coin(i).symbol);
  }

  /** Replay of what arrives rebuilds the snapshot in every history if and only if no publication is
      lost: a lost increment is not sent again. */
  lemma CurrentIffNothingLost(ok: seq<bool>)
    ensures AlwaysCurrent(ok) <==> forall i :: 0 <= i < |ok| ==> ok[i]
  {
    if i :| 0 <= i < |ok| && !ok[i] {
      LostIsMissing(ok, i);
      assert !AlwaysCurrent(ok);
    } else {
      forall events | |Run(1, events).log| == |ok| && Run(1, events).nodes[0].incremental == map[]
        ensures View(map[], Delivered(Run(1, events).log, ok)) == Run(1, events).nodes[0].snapshot
      {
        NothingLostCurrent(events, ok);
      }
    }
  }

  // ------------------------------------------ lost publications in a given history

  /** The last publication that carries a symbol was delivered. */
  ghost predicate LatestDelivered(log: seq<Sent>, ok: seq<bool>, symbol: string)
    requires |log| == |ok|
  {
    exists k :: LatestCarrier(log, symbol, k) && ok[k]
  }

  ghost predicate LatestCarrier(log: seq<Sent>, symbol: string, k: int) {
    && 0 <= k < |log| && symbol in log[k].publication.data
    && forall j :: k < j < |log| ==> symbol !in log[j].publication.data
  }

  /** The view of a symbol is what its latest carrier says; a symbol without a carrier is not in view. */
  lemma {:induction false} ViewLatest(log: seq<Sent>, symbol: string) returns (k: int)
    ensures if symbol in View(map[], log) then
              LatestCarrier(log, symbol, k) && View(map[], log)[symbol] == log[k].publication.data[symbol]
            else
              forall j :: 0 <= j < |log| ==> symbol !in log[j].publication.data
  {
    k := 0;
    if log == [] {
    } else {
      var n := |log| - 1;
      if symbol in log[n].publication.data {
        k := n;
      } else {
        k := ViewLatest(log[..n], symbol);
        assert forall j :: 0 <= j < n ==> log[..n][j] == log[j];
      }
    }
  }

  /** What a subscriber sees of a symbol came with some delivered publication, the latest if that one
      was delivered. */
  lemma {:induction false} DeliveredEntry(log: seq<Sent>, ok: seq<bool>, symbol: string) returns (k: int)
    requires |log| == |ok|
    ensures if symbol in View(map[], Delivered(log, ok)) then
              && 0 <= k < |log| && ok[k] && symbol in log[k].publication.data
              && View(map[], Delivered(log, ok))[symbol] == log[k].publication.data[symbol]
              && forall j :: k < j < |log| && ok[j] ==> symbol !in log[j].publication.data
            else
              forall j :: 0 <= j < |log| && ok[j] ==> symbol !in log[j].publication.data
  {
    k := 0;
    if log == [] {
    } else {
      var n := |log| - 1;
      var before := Delivered(log[..n], ok[..n]);
      assert (before + [log[n]])[..|before|] == before;
      if ok[n] && symbol in log[n].publication.data {
        k := n;
      } else {
        k := DeliveredEntry(log[..n], ok[..n], symbol);
        assert forall j :: 0 <= j < n ==> log[..n][j] == log[j] && ok[..n][j] == ok[j];
      }
    }
  }

  /** No two publications carry the same entry for a symbol. */
  ghost predicate DistinctEntries(log: seq<Sent>) {
    forall i, j, s :: 0 <= i < j < |log| && s in log[i].publication.data && s in log[j].publication.data ==>
      log[i].publication.data[s] != log[j].publication.data[s]
  }

  lemma SymbolCurrentIff(log: seq<Sent>, ok: seq<bool>, symbol: string)
    requires |log| == |ok| && symbol in View(map[], log)
    ensures var seen := View(map[], Delivered(log, ok));
            && (LatestDelivered(log, ok, symbol) ==>
                  symbol in seen && seen[symbol] == View(map[], log)[symbol])
            && (DistinctEntries(log) && symbol in seen && seen[symbol] == View(map[], log)[symbol] ==>
                  LatestDelivered(log, ok, symbol))
  {
    var k := ViewLatest(log, symbol);
    var i := DeliveredEntry(log, ok, symbol);
  }

  /** Everything a subscriber sees is of a symbol the full log carries. */
  lemma SeenIsCarried(log: seq<Sent>, ok: seq<bool>, symbol: string)
    requires |log| == |ok| && symbol in View(map[], Delivered(log, ok))
    ensures symbol in View(map[], log)
  {
    var k := ViewLatest(log, symbol);
    var i := DeliveredEntry(log, ok, symbol);
  }

  lemma LatestSuffices(log: seq<Sent>, ok: seq<bool>)
    requires |log| == |ok|
    ensures (forall s :: s in View(map[], log) ==> LatestDelivered(log, ok, s)) ==>
              View(map[], Delivered(log, ok)) == View(map[], log)
  {
    var (seen, table) := (View(map[], Delivered(log, ok)), View(map[], log));
    if forall s :: s in table ==> LatestDelivered(log, ok, s) {
      forall s | s in table
        ensures s in seen && seen[s] == table[s]
      {
        SymbolCurrentIff(log, ok, s);
      }
      forall s | s in seen
        ensures s in table
      {
        SeenIsCarried(log, ok, s);
      }
    }
  }

  lemma LatestNeeded(log: seq<Sent>, ok: seq<bool>)
    requires |log| == |ok|
    ensures DistinctEntries(log) && View(map[], Delivered(log, ok)) == View(map[], log) ==>
              forall s :: s in View(map[], log) ==> LatestDelivered(log, ok, s)
  {
    if DistinctEntries(log) && View(map[], Delivered(log, ok)) == View(map[], log) {
      forall s | s in View(map[], log)
        ensures LatestDelivered(log, ok, s)
      {
        SymbolCurrentIff(log, ok, s);
      }
    }
  }

  /** No ticker comes twice. */
  ghost predicate NoRepeats(tickers: seq<MarketData>) {
    forall i, j :: 0 <= i < j < |tickers| ==> tickers[i] != tickers[j]
  }

  /** Entries published or pending are tickers received, and each was published once at most. */
  ghost predicate EntriesFresh(log: seq<Sent>, pending: Table, tickers: seq<MarketData>) {
    && DistinctEntries(log)
    && (forall j, s :: 0 <= j < |log| && s in log[j].publication.data ==> log[j].publication.data[s] in tickers)
    && (forall s :: s in pending ==> pending[s] in tickers)
    && (forall j, s :: 0 <= j < |log| && s in log[j].publication.data && s in pending ==>
          log[j].publication.data[s] != pending[s])
  }

  lemma FreshReceive(log: seq<Sent>, n: Node, tickers: seq<MarketData>, d: MarketData)
    requires EntriesFresh(log, n.incremental, tickers) && d !in tickers
    ensures EntriesFresh(log, Receive(n, d).incremental, tickers + [d])
  {
  }

  lemma FreshFlush(log: seq<Sent>, n: Node, node: nat, tickers: seq<MarketData>)
    requires EntriesFresh(log, n.incremental, tickers)
    ensures EntriesFresh(log + From(node, FlushOutput(n)), Flush(n).incremental, tickers)
  {
    var longer := log + From(node, FlushOutput(n));
    assert forall j :: 0 <= j < |log| ==> longer[j] == log[j];
    assert |longer| > |log| ==> longer[|log|].publication.data == n.incremental;
  }

  lemma {:induction false} EntriesStayFresh(size: nat, events: seq<Event>, node: nat)
    requires node < size && NoRepeats(Received(events, node))
    ensures var c := Run(size, events);
            EntriesFresh(SentBy(c.log, node), c.nodes[node].incremental, Received(events, node))
  {
    if events == [] {
    } else {
      var n := |events| - 1;
      var (before, e) := (events[..n], events[n]);
      var c := Run(size, before);
      ReceivedPrefix(events, node);
      EntriesStayFresh(size, before, node);
      if e.node < size {
        match e
        case Ticker(i, d) =>
          if i == node {
            FreshReceive(SentBy(c.log, node), c.nodes[node], Received(before, node), d);
          }
        case Lead(_, _) =>
        case Tick(i) =>
          SentByAppend(c.log, node, From(i, FlushOutput(c.nodes[i])));
          if i == node {
            FreshFlush(SentBy(c.log, node), c.nodes[node], node, Received(before, node));
          }
      }
    }
  }

  lemma ReceivedPrefix(events: seq<Event>, node: nat)
    requires events != [] && NoRepeats(Received(events, node))
    ensures var (before, e) := (events[..|events| - 1], events[|events| - 1]);
            && NoRepeats(Received(before, node))
            && (e.Ticker? && e.node == node ==> e.data !in Received(before, node))
  {
    var (before, e) := (Received(events[..|events| - 1], node), events[|events| - 1]);
    var all := Received(events, node);
    assert forall i :: 0 <= i < |before| ==> all[i] == before[i];
    assert e.Ticker? && e.node == node ==> all == before + [e.data] && all[|before|] == e.data;
  }

  /** In a given history of any cluster, after a flush: a subscriber to a node that misses some of its
      publications still has the node's snapshot if the latest carrier of every symbol arrived, and,
      where no ticker comes twice, only then. */
  lemma CurrentIffLatestDelivered(size: nat, events: seq<Event>, node: nat, ok: seq<bool>)
    requires node < size && Run(size, events).nodes[node].incremental == map[]
    requires |ok| == |SentBy(Run(size, events).log, node)|
    ensures var (own, table) := (SentBy(Run(size, events).log, node), Run(size, events).nodes[node].snapshot);
            var seen := View(map[], Delivered(own, ok));
            && ((forall s :: s in table ==> LatestDelivered(own, ok, s)) ==> seen == table)
            && (NoRepeats(Received(events, node)) && seen == table ==>
                  forall s :: s in table ==> LatestDelivered(own, ok, s))
  {
    var (own, table) := (SentBy(Run(size, events).log, node), Run(size, events).nodes[node].snapshot);
    ClientReplay(size, events, node);
    assert View(map[], own) + map[] == View(map[], own);
    LatestSuffices(own, ok);
    LatestNeeded(own, ok);
    if NoRepeats(Received(events, node)) {
      EntriesStayFresh(size, events, node);
    }
  }

  // -------------------------------------------------------------- price agreement

  function Accept(snapshot: Table, d: MarketData): Table {
    if Changes(snapshot, d) then snapshot[d.symbol := d] else snapshot
  }

  function Absorb(snapshot: Table, tickers: seq<MarketData>): Table {
    if tickers == [] then snapshot else
      var n := |tickers| - 1;
      Accept(Absorb(snapshot, tickers[..n]), tickers[n])
  }

  /** Some ticker of the symbol is new or changes its price. */
  ghost predicate Counts(snapshot: Table, tickers: seq<MarketData>, symbol: string) {
    exists i :: 0 <= i < |tickers| && tickers[i].symbol == symbol &&
      Changes(Absorb(snapshot, tickers[..i]), tickers[i])
  }

  lemma CountsExtend(snapshot: Table, tickers: seq<MarketData>, d: MarketData, symbol: string)
    ensures Counts(snapshot, tickers + [d], symbol) <==>
            Counts(snapshot, tickers, symbol) || (d.symbol == symbol && Changes(Absorb(snapshot, tickers), d))
  {
    var all := tickers + [d];
    assert all[..|tickers|] == tickers && all[|tickers|] == d;
    assert forall i :: 0 <= i < |tickers| ==> all[i] == tickers[i] && all[..i] == tickers[..i];
  }

  ghost predicate SameEntry(t: Table, u: Table, symbol: string) {
    (symbol in t <==> symbol in u) && (symbol in t ==> t[symbol] == u[symbol])
  }

  /** What reading tickers does to an entry: a symbol with a ticker that counts enters the increments with
      its entry in the snapshot; all other entries stay as they were. */
  ghost predicate ReadsEntry(n: Node, r: Node, tickers: seq<MarketData>, symbol: string) {
    if Counts(n.snapshot, tickers, symbol) then
      symbol in r.snapshot && SameEntry(r.incremental, r.snapshot, symbol)
    else
      SameEntry(r.incremental, n.incremental, symbol) && SameEntry(r.snapshot, n.snapshot, symbol)
  }

  lemma ReceiveReads(n: Node, r: Node, tickers: seq<MarketData>, d: MarketData, symbol: string)
    requires r.snapshot == Absorb(n.snapshot, tickers) && ReadsEntry(n, r, tickers, symbol)
    ensures ReadsEntry(n, Receive(r, d), tickers + [d], symbol)
  {
    CountsExtend(n.snapshot, tickers, d, symbol);
  }

  /** Reading folds the tickers into the snapshot and treats every entry as above. */
  lemma {:induction false} ReceiveAllAgrees(n: Node, tickers: seq<MarketData>, symbol: string)
    ensures ReceiveAll(n, tickers).snapshot == Absorb(n.snapshot, tickers)
    ensures ReceiveAll(n, tickers).isLeader == n.isLeader
    ensures ReadsEntry(n, ReceiveAll(n, tickers), tickers, symbol)
  {
    if tickers == [] {
    } else {
      var k := |tickers| - 1;
      ReceiveAllAgrees(n, tickers[..k], symbol);
      ReceiveReads(n, ReceiveAll(n, tickers[..k]), tickers[..k], tickers[k], symbol);
      assert tickers == tickers[..k] + [tickers[k]];
    }
  }

  /** The tickers one node receives in a run. */
  function Received(events: seq<Event>, node: nat): seq<MarketData> {
    if events == [] then [] else
      var n := |events| - 1;
      var before := Received(events[..n], node);
      if events[n].Ticker? && events[n].node == node then before + [events[n].data] else before
  }

  /** Ticker k opened the run of equal prices its symbol ends with: every later ticker of the symbol
      has the same price, and the ticker of the symbol before it, if any, has another. */
  ghost predicate Opens(tickers: seq<MarketData>, symbol: string, k: nat) {
    && k < |tickers| && tickers[k].symbol == symbol
    && (forall j :: k < j < |tickers| && tickers[j].symbol == symbol ==> tickers[j].lastPrice == tickers[k].lastPrice)
    && (forall j :: 0 <= j < k && Previous(tickers, symbol, j, k) ==> tickers[j].lastPrice != tickers[k].lastPrice)
  }

  ghost predicate Previous(tickers: seq<MarketData>, symbol: string, j: nat, k: nat)
    requires j < k <= |tickers|
  {
    tickers[j].symbol == symbol && forall i :: j < i < k ==> tickers[i].symbol != symbol
  }

  lemma AcceptOpens(tickers: seq<MarketData>, d: MarketData, symbol: string, k: nat)
    requires Opens(tickers, symbol, k)
    ensures d.symbol != symbol || d.lastPrice == tickers[k].lastPrice ==> Opens(tickers + [d], symbol, k)
    ensures d.symbol == symbol && d.lastPrice != tickers[k].lastPrice ==> Opens(tickers + [d], symbol, |tickers|)
  {
    var all := tickers + [d];
    assert forall i :: 0 <= i < |tickers| ==> all[i] == tickers[i];
    if d.symbol == symbol && d.lastPrice != tickers[k].lastPrice {
      forall j | 0 <= j < |tickers| && Previous(all, symbol, j, |tickers|)
        ensures all[j].lastPrice != d.lastPrice
      {
        assert j >= k;
      }
    } else {
      forall j | 0 <= j < k && Previous(all, symbol, j, k)
        ensures all[j].lastPrice != all[k].lastPrice
      {
        assert Previous(tickers, symbol, j, k);
      }
    }
  }

  /** The entry of a symbol is the ticker that opened its current run of equal prices; symbols without
      a ticker have no entry. */
  lemma {:induction false} EntryOpensRun(tickers: seq<MarketData>, symbol: string)
    ensures var table := Absorb(map[], tickers);
            if symbol in table then
              exists k: nat :: Opens(tickers, symbol, k) && table[symbol] == tickers[k]
            else
              forall i :: 0 <= i < |tickers| ==> tickers[i].symbol != symbol
  {
    if tickers == [] {
    } else {
      var n := |tickers| - 1;
      var init, d := tickers[..n], tickers[n];
      EntryOpensRun(init, symbol);
      assert tickers == init + [d];
      var before := Absorb(map[], init);
      if symbol in before {
        var k: nat :| Opens(init, symbol, k) && before[symbol] == init[k];
        AcceptOpens(init, d, symbol, k);
        assert tickers[k] == init[k];
      } else {
        NewSymbolOpens(init, d, symbol);
      }
    }
  }

  lemma NewSymbolOpens(tickers: seq<MarketData>, d: MarketData, symbol: string)
    requires forall i :: 0 <= i < |tickers| ==> tickers[i].symbol != symbol
    ensures d.symbol == symbol ==> Opens(tickers + [d], symbol, |tickers|)
    ensures d.symbol != symbol ==> forall i :: 0 <= i < |tickers + [d]| ==> (tickers + [d])[i].symbol != symbol
  {
    assert forall i :: 0 <= i < |tickers| ==> (tickers + [d])[i] == tickers[i];
  }

  lemma {:induction false} SnapshotAbsorbs(size: nat, events: seq<Event>, node: nat)
    requires node < size
    ensures Run(size, events).nodes[node].snapshot == Absorb(map[], Received(events, node))
  {
    if events == [] {
    } else {
      var n := |events| - 1;
      SnapshotAbsorbs(size, events[..n], node);
      if events[n].Ticker? && events[n].node == node {
        var tickers := Received(events[..n], node) + [events[n].data];
        assert tickers[..|tickers| - 1] == Received(events[..n], node);
      }
    }
  }

  lemma LatestPrice(tickers: seq<MarketData>, symbol: string, k: nat, i: nat)
    requires Opens(tickers, symbol, k) && i < |tickers| && Previous(tickers, symbol, i, |tickers|)
    ensures tickers[i].lastPrice == tickers[k].lastPrice
  {
    assert i >= k;
  }

  /** What the table of a history says about a symbol: it is listed if it had a ticker, its price is
      that of the latest one, and its entry is the ticker that opened the current run of that price. */
  ghost predicate Agrees(table: Table, tickers: seq<MarketData>, symbol: string) {
    && (symbol in table <==> exists i :: 0 <= i < |tickers| && tickers[i].symbol == symbol)
    && (symbol in table ==> exists k: nat :: Opens(tickers, symbol, k) && table[symbol] == tickers[k])
    && forall i :: 0 <= i < |tickers| && Previous(tickers, symbol, i, |tickers|) ==>
         symbol in table && table[symbol].lastPrice == tickers[i].lastPrice
  }

  lemma AbsorbAgrees(tickers: seq<MarketData>, symbol: string)
    ensures Agrees(Absorb(map[], tickers), tickers, symbol)
  {
    EntryOpensRun(tickers, symbol);
    var table := Absorb(map[], tickers);
    if symbol in table {
      var k: nat :| Opens(tickers, symbol, k) && table[symbol] == tickers[k];
      forall i | 0 <= i < |tickers| && Previous(tickers, symbol, i, |tickers|)
        ensures table[symbol].lastPrice == tickers[i].lastPrice
      {
        LatestPrice(tickers, symbol, k, i);
      }
    }
  }

  /** After any history of a cluster, each node's snapshot agrees with the tickers the node received. */
  lemma PriceAgreement(size: nat, events: seq<Event>, node: nat, symbol: string)
    requires node < size
    ensures Agrees(Run(size, events).nodes[node].snapshot, Received(events, node), symbol)
  {
    SnapshotAbsorbs(size, events, node);
    AbsorbAgrees(Received(events, node), symbol);
  }
}
