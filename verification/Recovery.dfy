/** A recovery pass: it holds the manager's mutex while it feeds a capacity-1 channel whose consumer
    needs that mutex twice per chunk. */
module Recovery {
  import opened Chunks

  const CAPACITY: nat := 1

  /** Chunk i is being fetched or waits to be sent; Blocked is the pass waiting for its own mutex. */
  datatype Pass = Fetching(i: nat) | Sending(i: nat) | Blocked | Released

  /** The consumer, with the number of requests it still has to send for its chunk. */
  datatype Sender = Idle | Waiting(requests: nat) | Writing(requests: nat)

  datatype Mutex = Free | HeldByPass | HeldBySender

  /** handled counts the chunks subscribed, writes the requests sent for them. */
  datatype State = State(
    pass: Pass, sender: Sender, queued: nat, mutex: Mutex, sends: nat, handled: nat, writes: nat)

  /** fails: the chunks in which the first attempt to fetch some snapshot fails. queued and sender are the
      channel and the consumer as the pass finds them. */
  datatype Params = Params(chunks: nat, fails: set<nat>, queued: nat, sender: Sender)

  datatype Action = Fetch | Send | Finish | Receive | Lock | Write

  /** The pass has just taken the mutex, so the consumer is not writing. */
  predicate ValidStart(p: Params) {
    p.queued <= CAPACITY && (p.sender.Waiting? ==> 1 <= p.sender.requests <= 2) && !p.sender.Writing?
  }

  function Initial(p: Params): State {
    State(Fetching(0), p.sender, p.queued, HeldByPass, 0, 0, 0)
  }

  function Busy(sender: Sender): nat {
    if sender.Idle? then 0 else 1
  }

  /** Requests the consumer still has to send for its chunk. */
  function Owed(sender: Sender): nat {
    if sender.Idle? then 0 else sender.requests
  }

  /** The subscriptions the pass finds unfinished. */
  function Backlog(p: Params): nat {
    p.queued + Busy(p.sender)
  }

  /** The sends that complete without a lock by the consumer: a free slot, and an idle consumer. */
  function Room(p: Params): nat
    requires ValidStart(p)
  {
    1 - p.queued + if p.sender.Idle? then 1 else 0
  }

  predicate Enabled(p: Params, s: State, a: Action) {
    match a
    case Fetch => s.pass.Fetching? && s.pass.i < p.chunks
    case Send => s.pass.Sending? && s.queued < CAPACITY
    case Finish => s.pass.Fetching? && s.pass.i >= p.chunks
    case Receive => s.sender.Idle? && s.queued > 0
    case Lock => s.sender.Waiting? && s.mutex.Free?
    case Write => s.sender.Writing?
  }

  function Next(p: Params, s: State, a: Action): State
    requires Enabled(p, s, a)
  {
    match a
    case Fetch => s.(pass := if s.pass.i in p.fails then Blocked else Sending(s.pass.i))
    case Send => s.(pass := Fetching(s.pass.i + 1), queued := s.queued + 1, sends := s.sends + 1)
    case Finish => s.(pass := Released, mutex := Free)
    case Receive => s.(sender := Waiting(2), queued := s.queued - 1)
    case Lock => s.(sender := Writing(s.sender.requests), mutex := HeldBySender)
    case Write =>
      var written := s.(mutex := Free, writes := s.writes + 1);
      if s.sender.requests > 1 then written.(sender := Waiting(s.sender.requests - 1))
      else written.(sender := Idle, handled := s.handled + 1)
  }

  predicate Schedule(p: Params, s: State, actions: seq<Action>)
    decreases |actions|
  {
    actions == [] || (Enabled(p, s, actions[0]) && Schedule(p, Next(p, s, actions[0]), actions[1..]))
  }

  function After(p: Params, s: State, actions: seq<Action>): State
    requires Schedule(p, s, actions)
    decreases |actions|
  {
    if actions == [] then s else After(p, Next(p, s, actions[0]), actions[1..])
  }

  // ------------------------------------------------------------------- invariant

  /** Chunks before the one the pass works on. */
  function Progress(p: Params, s: State): nat {
    match s.pass
    case Fetching(i) => i
    case Sending(i) => i
    case Blocked => s.sends
    case Released => p.chunks
  }

  ghost predicate Invariant(p: Params, s: State) {
    && s.queued <= CAPACITY
    && s.sends == Progress(p, s) <= p.chunks
    && s.sends + Backlog(p) == s.handled + s.queued + Busy(s.sender)
    && s.writes + Owed(s.sender) + 2 * s.queued == Owed(p.sender) + 2 * p.queued + 2 * s.sends
    && (s.sender.Waiting? || s.sender.Writing? ==> 1 <= s.sender.requests <= 2)
    && (s.mutex == HeldByPass <==> s.pass != Released)
    && (s.mutex == HeldBySender <==> s.sender.Writing?)
    && (s.pass != Released ==> s.handled == 0 && s.writes == 0)
    && (s.pass.Sending? ==> s.pass.i < p.chunks)
    && (s.pass == Blocked <==> s.sends < p.chunks && s.sends in p.fails && !s.pass.Fetching?)
    && (forall i :: 0 <= i < s.sends ==> i !in p.fails)
  }

  lemma StepInvariant(p: Params, s: State, a: Action)
    requires Invariant(p, s) && Enabled(p, s, a)
    ensures Invariant(p, Next(p, s, a))
  {
  }

  lemma {:induction false} ScheduleInvariant(p: Params, s: State, actions: seq<Action>)
    requires Invariant(p, s) && Schedule(p, s, actions)
    ensures Invariant(p, After(p, s, actions))
    decreases |actions|
  {
    if actions == [] {
    } else {
      StepInvariant(p, s, actions[0]);
      ScheduleInvariant(p, Next(p, s, actions[0]), actions[1..]);
    }
  }

  /** While the pass holds the mutex no more sends complete than there is room for, and no chunk, its own or
      an earlier one, is subscribed. */
  lemma SendsFitRoom(p: Params, actions: seq<Action>)
    requires ValidStart(p) && Schedule(p, Initial(p), actions)
    requires After(p, Initial(p), actions).mutex == HeldByPass
    ensures After(p, Initial(p), actions).sends <= Room(p) && After(p, Initial(p), actions).handled == 0
  {
    ScheduleInvariant(p, Initial(p), actions);
  }

  // ------------------------------------------------------------------ termination

  function PassWeight(p: Params, pass: Pass): int {
    match pass
    case Fetching(i) => 7 * (p.chunks - i) + 1
    case Sending(i) => 7 * (p.chunks - i)
    case Blocked => 0
    case Released => 0
  }

  function SenderWeight(sender: Sender): int {
    match sender
    case Idle => 0
    case Waiting(requests) => 2 * requests
    case Writing(requests) => 2 * requests - 1
  }

  /** An upper bound on the steps left. */
  function StepsLeft(p: Params, s: State): int {
    PassWeight(p, s.pass) + 5 * s.queued + SenderWeight(s.sender)
  }

  lemma StepProgress(p: Params, s: State, a: Action)
    requires Invariant(p, s) && Enabled(p, s, a)
    ensures 0 <= StepsLeft(p, Next(p, s, a)) < StepsLeft(p, s)
  {
  }

  /** No schedule goes on for ever. */
  lemma {:induction false} ScheduleEnds(p: Params, s: State, actions: seq<Action>)
    requires Invariant(p, s) && Schedule(p, s, actions)
    ensures |actions| <= StepsLeft(p, s)
    decreases |actions|
  {
    if actions == [] {
    } else {
      StepInvariant(p, s, actions[0]);
      StepProgress(p, s, actions[0]);
      ScheduleEnds(p, Next(p, s, actions[0]), actions[1..]);
    }
  }

  predicate Stopped(p: Params, s: State) {
    forall a :: !Enabled(p, s, a)
  }

  predicate CanFinish(p: Params)
    requires ValidStart(p)
  {
    p.chunks <= Room(p) && forall i :: 0 <= i < p.chunks ==> i !in p.fails
  }

  /** The pass is over, every chunk is subscribed, the earlier ones included, and each of them has had its
      two requests. */
  predicate Finished(p: Params, s: State) {
    && s.pass == Released && s.mutex == Free && s.handled == Backlog(p) + p.chunks
    && s.writes == Owed(p.sender) + 2 * p.queued + 2 * p.chunks
  }

  /** The pass keeps the mutex, no chunk is subscribed and no request has been sent. */
  predicate Stuck(s: State) {
    s.pass != Released && s.mutex == HeldByPass && s.handled == 0 && s.writes == 0
  }

  lemma StoppedOutcome(p: Params, s: State)
    requires ValidStart(p) && Invariant(p, s) && Stopped(p, s)
    ensures s.pass == Released ==> Finished(p, s)
    ensures s.pass != Released ==> Stuck(s) && !CanFinish(p)
  {
    assert !Enabled(p, s, Fetch) && !Enabled(p, s, Send) && !Enabled(p, s, Finish);
    assert !Enabled(p, s, Receive) && !Enabled(p, s, Lock) && !Enabled(p, s, Write);
  }

  /** Main result. Every schedule of a pass is finite. Where it stops, the pass has released the mutex
      and every chunk is subscribed if the chunks fit into the room it found and no first fetch fails;
      otherwise the pass never releases the mutex. */
  lemma PassFinishesIff(p: Params, actions: seq<Action>)
    requires ValidStart(p) && Schedule(p, Initial(p), actions)
    ensures |actions| <= 7 * p.chunks + 1 + 5 * p.queued + SenderWeight(p.sender)
    ensures var s := After(p, Initial(p), actions);
            && (s.pass == Released ==> CanFinish(p))
            && (Stopped(p, s) && CanFinish(p) ==> Finished(p, s))
            && (Stopped(p, s) && !CanFinish(p) ==> Stuck(s))
  {
    var s := After(p, Initial(p), actions);
    ScheduleEnds(p, Initial(p), actions);
    ScheduleInvariant(p, Initial(p), actions);
    if Stopped(p, s) {
      StoppedOutcome(p, s);
    }
    ReleasedCanFinish(p, Initial(p), actions);
  }

  lemma {:induction false} ReleasedCanFinish(p: Params, s: State, actions: seq<Action>)
    requires ValidStart(p) && Invariant(p, s) && s.pass != Released && Schedule(p, s, actions)
    ensures After(p, s, actions).pass == Released ==> CanFinish(p)
    decreases |actions|
  {
    if actions == [] {
    } else {
      StepInvariant(p, s, actions[0]);
      var r := Next(p, s, actions[0]);
      if r.pass == Released {
        assert s.sends <= Room(p);
      } else {
        ReleasedCanFinish(p, r, actions[1..]);
      }
    }
  }

  lemma {:induction false} ScheduleConcat(p: Params, s: State, a: seq<Action>, b: seq<Action>)
    requires Schedule(p, s, a) && Schedule(p, After(p, s, a), b)
    ensures Schedule(p, s, a + b) && After(p, s, a + b) == After(p, After(p, s, a), b)
    decreases |a|
  {
    if a == [] {
      assert a + b == b;
    } else {
      ScheduleConcat(p, Next(p, s, a[0]), a[1..], b);
      assert (a + b)[1..] == a[1..] + b;
    }
  }

  /** From every state of a pass some schedule leads to a stop. */
  lemma {:induction false} Stops(p: Params, s: State) returns (rest: seq<Action>)
    requires Invariant(p, s)
    ensures Schedule(p, s, rest) && Stopped(p, After(p, s, rest))
    decreases StepsLeft(p, s)
  {
    if a :| Enabled(p, s, a) {
      StepInvariant(p, s, a);
      StepProgress(p, s, a);
      var more := Stops(p, Next(p, s, a));
      rest := [a] + more;
      assert rest[1..] == more;
    } else {
      rest := [];
    }
  }

  /** Whatever a pass has done, it comes to a stop, and the stop is the one its chunks and fetches
      decide: finished with every chunk subscribed, or holding the mutex with none subscribed. */
  lemma PassStops(p: Params, actions: seq<Action>) returns (rest: seq<Action>)
    requires ValidStart(p) && Schedule(p, Initial(p), actions)
    ensures Schedule(p, Initial(p), actions + rest) && Stopped(p, After(p, Initial(p), actions + rest))
    ensures var s := After(p, Initial(p), actions + rest); if CanFinish(p) then Finished(p, s) else Stuck(s)
  {
    ScheduleInvariant(p, Initial(p), actions);
    rest := Stops(p, After(p, Initial(p), actions));
    ScheduleConcat(p, Initial(p), actions, rest);
    PassFinishesIff(p, actions + rest);
  }

  /** A pass over three chunks ends holding the mutex whatever it finds, even when every fetch succeeds. */
  lemma ThreeChunksGetStuck(queued: nat, sender: Sender) returns (actions: seq<Action>)
    requires ValidStart(Params(3, {}, queued, sender))
    ensures var p := Params(3, {}, queued, sender);
            && Schedule(p, Initial(p), actions) && Stopped(p, After(p, Initial(p), actions))
            && Stuck(After(p, Initial(p), actions))
  {
    var rest := PassStops(Params(3, {}, queued, sender), []);
    actions := [] + rest;
  }

  /** A pass over the chunks of an asset list, with all first fetches succeeding. */
  function AssetPass(assets: seq<string>, chunkSize: nat, queued: nat, sender: Sender): Params
    requires chunkSize > 0
  {
    Params(|Split(assets, chunkSize)|, {}, queued, sender)
  }

  /** In terms of the assets: such a pass runs to its end exactly when the list fits into as many chunks as
      there is room for: two if it finds the channel empty and the consumer idle, none if neither. */
  lemma PassOverAssets(assets: seq<string>, chunkSize: nat, queued: nat, sender: Sender, actions: seq<Action>)
    requires chunkSize > 0 && ValidStart(AssetPass(assets, chunkSize, queued, sender))
    requires var p := AssetPass(assets, chunkSize, queued, sender);
             Schedule(p, Initial(p), actions) && Stopped(p, After(p, Initial(p), actions))
    ensures var p := AssetPass(assets, chunkSize, queued, sender);
            After(p, Initial(p), actions).pass == Released <==> |assets| <= Room(p) * chunkSize
  {
    var p := AssetPass(assets, chunkSize, queued, sender);
    FitsIff(assets, chunkSize, Room(p));
    PassFinishesIff(p, actions);
  }
}
