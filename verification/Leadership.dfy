/** The leadership token: one capacity-1 channel, a main loop that campaigns when it receives false,
    and a factory loop that passes whatever it receives to SetIsLeader. */
module Leadership {

  const CAPACITY: nat := 1

  /** Where the main loop stands; Refreshing is the readiness update and the pause. */
  datatype Main = Receiving | Campaigning | Sending(value: bool) | Refreshing | Returned

  /** Where the factory goroutine stands; it starts only once the service has been built. */
  datatype Factory = NotStarted | Waiting | Setting(value: bool)

  /** calls lists the arguments of SetIsLeader so far. */
  datatype State = State(main: Main, factory: Factory, channel: seq<bool>, campaigns: nat, won: bool, calls: seq<bool>)

  datatype Action =
    | MainReceive | CampaignWon | CampaignLost | MainSend | Refresh
    | FactoryStart | FactoryReceive | FactorySet

  /** The default false is sent before either loop runs. */
  const INITIAL: State := State(Receiving, NotStarted, [false], 0, false, [])

  predicate Enabled(s: State, a: Action) {
    match a
    case MainReceive => s.main.Receiving? && s.channel != []
    case CampaignWon => s.main.Campaigning?
    case CampaignLost => s.main.Campaigning?
    case MainSend => s.main.Sending? && |s.channel| < CAPACITY
    case Refresh => s.main.Refreshing?
    case FactoryStart => s.factory.NotStarted?
    case FactoryReceive => s.factory.Waiting? && s.channel != []
    case FactorySet => s.factory.Setting?
  }

  function Next(s: State, a: Action): State
    requires Enabled(s, a)
  {
    match a
    case MainReceive =>
      if s.channel[0] then s.(main := Refreshing, channel := s.channel[1..])
      else s.(main := Campaigning, channel := s.channel[1..], campaigns := s.campaigns + 1)
    case CampaignWon => s.(main := Sending(true), won := true)
    case CampaignLost => s.(main := Sending(false))
    case MainSend => s.(main := if s.main.value then Returned else Refreshing, channel := s.channel + [s.main.value])
    case Refresh => s.(main := Receiving)
    case FactoryStart => s.(factory := Waiting)
    case FactoryReceive => s.(factory := Setting(s.channel[0]), channel := s.channel[1..])
    case FactorySet => s.(factory := Waiting, calls := s.calls + [s.factory.value])
  }

  /** A schedule: each action enabled when its turn comes. */
  predicate Schedule(s: State, actions: seq<Action>)
    decreases |actions|
  {
    actions == [] || (Enabled(s, actions[0]) && Schedule(Next(s, actions[0]), actions[1..]))
  }

  function After(s: State, actions: seq<Action>): State
    requires Schedule(s, actions)
    decreases |actions|
  {
    if actions == [] then s else After(Next(s, actions[0]), actions[1..])
  }

  // ------------------------------------------------------------------- invariant

  function Held(s: State): nat {
    (if s.main.Campaigning? || s.main.Sending? then 1 else 0) + (if s.factory.Setting? then 1 else 0)
  }

  /** There is one token: in the channel, in a goroutine's hands, or spent on SetIsLeader. */
  predicate OneToken(s: State) {
    |s.channel| + Held(s) + |s.calls| == 1
  }

  /** true exists only after a won campaign, and then the main loop does nothing else. */
  predicate TrueOnlyWhenWon(s: State) {
    && (s.won <==> s.main == Sending(true) || s.main == Returned)
    && (true in s.channel || s.factory == Setting(true) || true in s.calls ==> s.main == Returned)
    && (s.main == Returned ==> false !in s.channel && s.factory != Setting(false) && false !in s.calls)
  }

  predicate Invariant(s: State) {
    OneToken(s) && TrueOnlyWhenWon(s)
  }

  lemma StepInvariant(s: State, a: Action)
    requires Invariant(s) && Enabled(s, a)
    ensures Invariant(Next(s, a))
  {
  }

  lemma {:induction false} ScheduleInvariant(s: State, actions: seq<Action>)
    requires Invariant(s) && Schedule(s, actions)
    ensures Invariant(After(s, actions))
    decreases |actions|
  {
    if actions == [] {
    } else {
      StepInvariant(s, actions[0]);
      ScheduleInvariant(Next(s, actions[0]), actions[1..]);
    }
  }

  /** In every interleaving there is exactly one value, in the channel, in a goroutine's hands or spent on
      SetIsLeader; so no send ever blocks, SetIsLeader is called at most once, and with true only after a
      won campaign. */
  lemma TokenSafety(actions: seq<Action>)
    requires Schedule(INITIAL, actions)
    ensures var s := After(INITIAL, actions);
            && |s.channel| + Held(s) + |s.calls| == 1
            && (s.main.Sending? ==> Enabled(s, MainSend))
            && |s.calls| <= 1
            && (true in s.calls ==> s.won)
  {
    ScheduleInvariant(INITIAL, actions);
  }

  function Occurrences(actions: seq<Action>, a: Action): nat {
    multiset(actions)[a]
  }

  /** The campaigns that schedules report are the ones won and lost, and the one under way. */
  lemma {:induction false} CampaignsCounted(s: State, actions: seq<Action>)
    requires Schedule(s, actions)
    ensures var r := After(s, actions);
            r.campaigns + (if s.main.Campaigning? then 1 else 0) == s.campaigns +
              Occurrences(actions, CampaignWon) + Occurrences(actions, CampaignLost) +
              (if r.main.Campaigning? then 1 else 0)
    ensures After(s, actions).won <==> s.won || CampaignWon in actions
    decreases |actions|
  {
    if actions == [] {
    } else {
      CampaignsCounted(Next(s, actions[0]), actions[1..]);
      assert actions == [actions[0]] + actions[1..];
    }
  }

  /** The two goroutines come to rest only once SetIsLeader has been called: with true, the main loop being
      done, or with false, the main loop waiting for ever. */
  ghost predicate AtRest(s: State) {
    || s == State(Returned, Waiting, [], s.campaigns, true, [true])
    || s == State(Receiving, Waiting, [], s.campaigns, false, [false])
  }

  lemma RestsOnlyDelivered(actions: seq<Action>)
    requires Schedule(INITIAL, actions)
    ensures (forall a :: !Enabled(After(INITIAL, actions), a)) <==> AtRest(After(INITIAL, actions))
  {
    var s := After(INITIAL, actions);
    ScheduleInvariant(INITIAL, actions);
    if forall a :: !Enabled(s, a) {
      Resting(s);
    } else {
      var a :| Enabled(s, a);
    }
  }

  lemma Resting(s: State)
    requires Invariant(s) && forall a :: !Enabled(s, a)
    ensures AtRest(s)
  {
    assert !Enabled(s, MainReceive) && !Enabled(s, CampaignWon) && !Enabled(s, MainSend) && !Enabled(s, Refresh);
    assert !Enabled(s, FactoryStart) && !Enabled(s, FactoryReceive) && !Enabled(s, FactorySet);
    assert s.calls == [s.calls[0]];
    assert s.calls[0] || false in s.calls;
  }

  /** A node can lose any number of campaigns and stand where it started. */
  lemma {:induction false} LosesOnAndOn(n: nat) returns (actions: seq<Action>)
    ensures Schedule(INITIAL, actions) && Occurrences(actions, CampaignLost) == n
    ensures After(INITIAL, actions) == INITIAL.(campaigns := n)
  {
    if n == 0 {
      actions := [];
    } else {
      var before := LosesOnAndOn(n - 1);
      var s := INITIAL.(campaigns := n - 1);
      var round := OneLoss(s);
      ScheduleConcat(INITIAL, before, round);
      actions := before + round;
    }
  }

  lemma OneLoss(s: State) returns (round: seq<Action>)
    requires s == INITIAL.(campaigns := s.campaigns)
    ensures Schedule(s, round) && After(s, round) == s.(campaigns := s.campaigns + 1)
    ensures Occurrences(round, CampaignLost) == 1
  {
    var s1 := Next(s, MainReceive);
    var s2 := Next(s1, CampaignLost);
    var s3 := Next(s2, MainSend);
    OneMore(s3, Refresh, []);
    OneMore(s2, MainSend, [Refresh]);
    OneMore(s1, CampaignLost, [MainSend] + [Refresh]);
    OneMore(s, MainReceive, [CampaignLost] + ([MainSend] + [Refresh]));
    round := [MainReceive] + ([CampaignLost] + ([MainSend] + [Refresh]));
  }

  // --------------------------------------------------------------- the stolen token

  /** The factory took the false that was meant for the main loop. */
  predicate Stolen(s: State) {
    s.factory == Setting(false) || false in s.calls
  }

  lemma {:induction false} StolenForever(s: State, actions: seq<Action>)
    requires Invariant(s) && Stolen(s) && Schedule(s, actions)
    ensures var r := After(s, actions);
            Stolen(r) && r.campaigns == s.campaigns && !r.won && true !in r.calls
    decreases |actions|
  {
    if actions == [] {
    } else {
      StepInvariant(s, actions[0]);
      StolenForever(Next(s, actions[0]), actions[1..]);
    }
  }

  /** The rest of a schedule that makes a node the leader, from where its main loop stands. */
  function Promotion(s: State): seq<Action> {
    match s.main
    case Refreshing => [Refresh, MainReceive, CampaignWon, MainSend]
    case Receiving => [MainReceive, CampaignWon, MainSend]
    case Campaigning => [CampaignWon, MainSend]
    case Sending(value) =>
      if value then [MainSend] else [MainSend, Refresh, MainReceive, CampaignWon, MainSend]
    case Returned => []
  }

  /** Hands the token in the channel to SetIsLeader. */
  function HandOver(s: State): seq<Action> {
    match s.factory
    case NotStarted => [FactoryStart, FactoryReceive, FactorySet]
    case Waiting => [FactoryReceive, FactorySet]
    case Setting(_) => [FactorySet]
  }

  lemma {:induction false} ScheduleConcat(s: State, a: seq<Action>, b: seq<Action>)
    requires Schedule(s, a) && Schedule(After(s, a), b)
    ensures Schedule(s, a + b) && After(s, a + b) == After(After(s, a), b)
    decreases |a|
  {
    if a == [] {
      assert a + b == b;
    } else {
      ScheduleConcat(Next(s, a[0]), a[1..], b);
      assert (a + b)[1..] == a[1..] + b;
    }
  }

  lemma OneMore(s: State, a: Action, rest: seq<Action>)
    requires Enabled(s, a) && Schedule(Next(s, a), rest)
    ensures Schedule(s, [a] + rest) && After(s, [a] + rest) == After(Next(s, a), rest)
  {
    assert ([a] + rest)[1..] == rest;
  }

  lemma PromotionFrom(s: State)
    requires Invariant(s) && !Stolen(s) && s.calls == [] && !s.factory.Setting?
    requires !s.main.Refreshing? && s.main != Sending(false)
    ensures Schedule(s, Promotion(s))
    ensures var r := After(s, Promotion(s)); r.channel == [true] && r.factory == s.factory && r.calls == []
  {
    match s.main
    case Receiving =>
      var (s1, s2) := (Next(s, MainReceive), Next(Next(s, MainReceive), CampaignWon));
      OneMore(s2, MainSend, []);
      OneMore(s1, CampaignWon, [MainSend]);
      OneMore(s, MainReceive, [CampaignWon, MainSend]);
    case Campaigning =>
      OneMore(Next(s, CampaignWon), MainSend, []);
      OneMore(s, CampaignWon, [MainSend]);
    case Sending(value) => OneMore(s, MainSend, []);
    case Returned =>
      assert s.channel == [s.channel[0]];
      assert s.channel[0] || false in s.channel;
  }

  lemma PromotionRuns(s: State)
    requires Invariant(s) && !Stolen(s) && s.calls == [] && !s.factory.Setting?
    ensures Schedule(s, Promotion(s))
    ensures var r := After(s, Promotion(s)); r.channel == [true] && r.factory == s.factory && r.calls == []
  {
    if s.main.Refreshing? {
      PromotionFrom(Next(s, Refresh));
      OneMore(s, Refresh, Promotion(Next(s, Refresh)));
    } else if s.main == Sending(false) {
      var (s1, s2) := (Next(s, MainSend), Next(Next(s, MainSend), Refresh));
      PromotionFrom(s2);
      OneMore(s1, Refresh, Promotion(s2));
      OneMore(s, MainSend, [Refresh] + Promotion(s2));
    } else {
      PromotionFrom(s);
    }
  }

  lemma HandOverRuns(s: State)
    requires s.calls == [] && (s.factory == Setting(true) || (s.channel == [true] && !s.factory.Setting?))
    ensures Schedule(s, HandOver(s)) && After(s, HandOver(s)).calls == [true]
    decreases s.factory.NotStarted?
  {
    match s.factory
    case NotStarted =>
      var s1 := Next(s, FactoryStart);
      HandOverRuns(s1);
      OneMore(s, FactoryStart, HandOver(s1));
    case Waiting =>
      OneMore(Next(s, FactoryReceive), FactorySet, []);
      OneMore(s, FactoryReceive, [FactorySet]);
    case Setting(_) => OneMore(s, FactorySet, []);
  }

  /** A state from which some schedule makes the node the leader. */
  ghost predicate CanLead(s: State) {
    exists rest :: Schedule(s, rest) && true in After(s, rest).calls
  }

  /** A node can still become leader exactly when the factory has not taken a false. Once it has, the
      node never campaigns again, in any continuation. */
  lemma LeadsIffNotStolen(actions: seq<Action>)
    requires Schedule(INITIAL, actions)
    ensures CanLead(After(INITIAL, actions)) <==> !Stolen(After(INITIAL, actions))
    ensures Stolen(After(INITIAL, actions)) ==>
              forall rest :: Schedule(After(INITIAL, actions), rest) ==>
                After(After(INITIAL, actions), rest).campaigns == After(INITIAL, actions).campaigns
  {
    var s := After(INITIAL, actions);
    ScheduleInvariant(INITIAL, actions);
    if Stolen(s) {
      forall rest | Schedule(s, rest)
        ensures true !in After(s, rest).calls && After(s, rest).campaigns == s.campaigns
      {
        StolenForever(s, rest);
      }
    } else {
      NotStolenLeads(s);
    }
  }

  lemma NotStolenLeads(s: State)
    requires Invariant(s) && !Stolen(s)
    ensures CanLead(s)
  {
    if s.calls != [] {
      assert s.calls[0] in s.calls && s.calls[0];
      assert Schedule(s, []) && true in After(s, []).calls;
    } else if s.factory.Setting? {
      HandOverRuns(s);
      assert After(s, HandOver(s)).calls == [true];
    } else {
      PromotionRuns(s);
      var promoted := After(s, Promotion(s));
      HandOverRuns(promoted);
      ScheduleConcat(s, Promotion(s), HandOver(promoted));
      assert After(s, Promotion(s) + HandOver(promoted)).calls == [true];
    }
  }

  /** The failure happens: a factory that starts and receives first steals the token, and from then on no
      schedule makes the node the leader. */
  lemma FactoryCanSteal()
    ensures Schedule(INITIAL, [FactoryStart, FactoryReceive])
    ensures Stolen(After(INITIAL, [FactoryStart, FactoryReceive]))
    ensures !CanLead(After(INITIAL, [FactoryStart, FactoryReceive]))
  {
    OneMore(Next(INITIAL, FactoryStart), FactoryReceive, []);
    OneMore(INITIAL, FactoryStart, [FactoryReceive]);
    assert [FactoryStart] + [FactoryReceive] == [FactoryStart, FactoryReceive];
    LeadsIffNotStolen([FactoryStart, FactoryReceive]);
  }

  /** It can also happen late: after any lost campaign the factory can take the false sent back. */
  lemma LostCampaignCanBeStolen(actions: seq<Action>)
    requires Schedule(INITIAL, actions) && After(INITIAL, actions).main == Sending(false)
    ensures exists rest :: Schedule(After(INITIAL, actions), rest) && Stolen(After(After(INITIAL, actions), rest))
  {
    var s := After(INITIAL, actions);
    ScheduleInvariant(INITIAL, actions);
    var sent := Next(s, MainSend);
    if sent.factory.NotStarted? {
      OneMore(Next(sent, FactoryStart), FactoryReceive, []);
      OneMore(sent, FactoryStart, [FactoryReceive]);
      OneMore(s, MainSend, [FactoryStart] + [FactoryReceive]);
    } else {
      OneMore(sent, FactoryReceive, []);
      OneMore(s, MainSend, [FactoryReceive]);
    }
  }
}
