/** Restarting is invisible: an engine rebuilt from the rows is the running one up to its arrival
    counters, and those never show in anything the exchange does afterwards. */
module Restarts {
  import opened Types
  import opened BookSide
  import opened Matching
  import opened MatchingFacts
  import opened EngineSpec
  import opened Holds
  import opened Settlement
  import opened FillProofs
  import opened Books
  import opened Submission
  import opened Exchange
  import opened Safety
  import opened OrderHistory
  import opened Agreement
  import opened AgreementRuns
  import opened OrderBooks

  // ---------------------------------------------------------------------------
  // Engines alike
  // ---------------------------------------------------------------------------

  function Unstamped(o: Maker): Maker {
    o.(sequence := 0)
  }

  /** A side without its arrival stamps. */
  function Plain(s: seq<Maker>): seq<Maker> {
    if s == [] then [] else [Unstamped(s[0])] + Plain(s[1..])
  }

  /** The same prices, queues and remaining quantities. */
  ghost predicate Alike(e: Engine, e': Engine) {
    Plain(e.bids) == Plain(e'.bids) && Plain(e.asks) == Plain(e'.asks)
  }

  lemma PlainCons(o: Maker, s: seq<Maker>)
    ensures Plain([o] + s) == [Unstamped(o)] + Plain(s)
    ensures Plain([o] + s)[0] == Unstamped(o) && Plain([o] + s)[1..] == Plain(s)
  {
    assert ([o] + s)[1..] == s;
  }

  /** Alike sides are both empty or have alike heads and tails. */
  lemma PlainHeads(s: seq<Maker>, s': seq<Maker>)
    requires Plain(s) == Plain(s')
    ensures s == [] <==> s' == []
    ensures s != [] ==> Unstamped(s[0]) == Unstamped(s'[0]) && Plain(s[1..]) == Plain(s'[1..])
  {
    if s != [] {
      assert s == [s[0]] + s[1..];
      PlainCons(s[0], s[1..]);
    }
    if s' != [] {
      assert s' == [s'[0]] + s'[1..];
      PlainCons(s'[0], s'[1..]);
    }
  }

  lemma {:induction false} PlainIds(s: seq<Maker>)
    ensures Ids(Plain(s)) == Ids(s)
  {
    if s != [] {
      assert s == [s[0]] + s[1..];
      PlainIds(s[1..]);
      IdsCons(s[0], s[1..]);
      IdsCons(Unstamped(s[0]), Plain(s[1..]));
    }
  }

  lemma IdsCons(o: Maker, s: seq<Maker>)
    ensures Ids([o] + s) == {o.id} + Ids(s)
  {
    assert o in [o] + s && forall m | m in s :: m in [o] + s;
  }

  /** Matching does not look at arrival stamps. */
  lemma {:induction false} MatchPlain(t: Taker, s: seq<Maker>, s': seq<Maker>, quantity: real)
    requires Plain(s) == Plain(s')
    ensures var o, o' := Match(t, s, quantity), Match(t, s', quantity);
            o.fills == o'.fills && o.remaining == o'.remaining && o.stopped == o'.stopped && Plain(o.makers) == Plain(o'.makers)
    decreases |s|
  {
    hide Plain, Notional;
    PlainHeads(s, s');
    if quantity > 0.0 && s != [] && MayTrade(t, s[0]) {
      var q := Min(s[0].remaining, quantity);
      if s[0].remaining - q == 0.0 {
        MatchPlain(t, s[1..], s'[1..], quantity - q);
      } else {
        PlainCons(s[0].(remaining := s[0].remaining - q), s[1..]);
        PlainCons(s'[0].(remaining := s'[0].remaining - q), s'[1..]);
      }
    }
  }

  lemma {:induction false} InsertPlain(side: Side, s: seq<Maker>, s': seq<Maker>, o: Maker, o': Maker)
    requires Plain(s) == Plain(s') && Unstamped(o) == Unstamped(o')
    ensures Plain(Insert(side, s, o)) == Plain(Insert(side, s', o'))
    decreases |s|
  {
    PlainHeads(s, s');
    if s == [] || Better(side, o.price, s[0].price) {
      PlainCons(o, s);
      PlainCons(o', s');
    } else {
      InsertPlain(side, s[1..], s'[1..], o, o');
      PlainCons(s[0], Insert(side, s[1..], o));
      PlainCons(s'[0], Insert(side, s'[1..], o'));
    }
  }

  lemma {:induction false} DeletePlain(s: seq<Maker>, s': seq<Maker>, id: OrderId)
    requires Plain(s) == Plain(s')
    ensures Plain(Delete(s, id)) == Plain(Delete(s', id))
    decreases |s|
  {
    PlainHeads(s, s');
    if s != [] && s[0].id != id {
      DeletePlain(s[1..], s'[1..], id);
      PlainCons(s[0], Delete(s[1..], id));
      PlainCons(s'[0], Delete(s'[1..], id));
    }
  }

  /** Alike engines answer a submission alike and stay alike. */
  lemma SubmitAlike(e: Engine, e': Engine, input: Input)
    requires Alike(e, e') && Acceptable(input)
    ensures var (f, r), (f', r') := EngineSpec.Submit(e, input), EngineSpec.Submit(e', input); Alike(f, f') && r == r'
  {
    hide Match, Insert, Plain;
    var t, o := TakerOf(input), MatchOf(e, input);
    MatchPlain(t, SideOf(e, Opposite(input.side)), SideOf(e', Opposite(input.side)), input.quantity);
    if Stays(input, o.remaining, o.stopped) {
      InsertPlain(input.side, SideOf(e, input.side), SideOf(e', input.side),
                  Remainder(input, o.remaining, e.sequence + 1), Remainder(input, o.remaining, e'.sequence + 1));
    }
  }

  lemma CancelAlike(e: Engine, e': Engine, id: OrderId)
    requires Alike(e, e')
    ensures Alike(EngineSpec.Cancel(e, id), EngineSpec.Cancel(e', id))
  {
    PlainIds(e.bids);
    PlainIds(e'.bids);
    DeletePlain(e.bids, e'.bids, id);
    DeletePlain(e.asks, e'.asks, id);
  }

  // ---------------------------------------------------------------------------
  // Books alike
  // ---------------------------------------------------------------------------

  /** The levels and queues of a book side without arrival stamps. */
  function PlainLevels(levels: seq<Level>): seq<Level> {
    if levels == [] then [] else [Level(levels[0].price, Plain(levels[0].orders))] + PlainLevels(levels[1..])
  }

  lemma {:induction false} PlainConcat(a: seq<Maker>, b: seq<Maker>)
    ensures Plain(a + b) == Plain(a) + Plain(b)
  {
    hide Plain;
    if a == [] {
      assert a + b == b;
      PlainNone();
    } else {
      PlainConcat(a[1..], b);
      PlainCons(a[0], a[1..]);
      PlainCons(a[0], a[1..] + b);
      assert a == [a[0]] + a[1..] && a + b == [a[0]] + (a[1..] + b);
      assert [Unstamped(a[0])] + Plain(a[1..]) + Plain(b) == [Unstamped(a[0])] + (Plain(a[1..]) + Plain(b));
    }
  }

  lemma PlainNone()
    ensures Plain([]) == []
  {
  }

  lemma {:induction false} PlainMembers(s: seq<Maker>)
    ensures |Plain(s)| == |s|
    ensures forall o | o in Plain(s) :: exists m :: m in s && Unstamped(m) == o
  {
    if s != [] {
      assert s == [s[0]] + s[1..];
      PlainMembers(s[1..]);
    }
  }

  lemma PlainLevelValid(side: Side, l: Level)
    requires LevelValid(side, l)
    ensures LevelValid(side, Level(l.price, Plain(l.orders)))
  {
    PlainMembers(l.orders);
  }

  lemma {:induction false} PlainLevelsValid(side: Side, levels: seq<Level>)
    requires LevelsValid(side, levels)
    ensures LevelsValid(side, PlainLevels(levels)) && Flat(PlainLevels(levels)) == Plain(Flat(levels))
    ensures forall l | l in PlainLevels(levels) :: exists m :: m in levels && m.price == l.price
  {
    hide Plain, LevelsValid, LevelValid, Flat, PlainLevels;
    if levels == [] {
      NoLevels(side);
    } else {
      var l, rest := levels[0], levels[1..];
      assert levels == [l] + rest;
      SplitHead(side, levels);
      PlainLevelsValid(side, rest);
      PlainLevelValid(side, l);
      PlainConcat(l.orders, Flat(rest));
      LevelsCons(l, rest);
      SplitHead(side, PlainLevels(levels));
    }
  }

  lemma LevelsCons(l: Level, rest: seq<Level>)
    ensures PlainLevels([l] + rest) == [Level(l.price, Plain(l.orders))] + PlainLevels(rest)
    ensures PlainLevels([l] + rest)[0] == Level(l.price, Plain(l.orders)) && PlainLevels([l] + rest)[1..] == PlainLevels(rest)
  {
    assert ([l] + rest)[1..] == rest;
  }

  lemma NoLevels(side: Side)
    ensures PlainLevels([]) == [] && Flat([]) == [] && Plain([]) == [] && LevelsValid(side, [])
  {
  }

  /** Books with alike sides have the same levels and the same queues in them. */
  lemma AlikeBooksHaveAlikeLevels(side: Side, a: seq<Level>, b: seq<Level>)
    requires LevelsValid(side, a) && LevelsValid(side, b)
    requires Plain(Flat(a)) == Plain(Flat(b))
    ensures PlainLevels(a) == PlainLevels(b)
  {
    PlainLevelsValid(side, a);
    PlainLevelsValid(side, b);
    LevelsAreDetermined(side, PlainLevels(a), PlainLevels(b));
  }

  // ---------------------------------------------------------------------------
  // What engines answer
  // ---------------------------------------------------------------------------

  datatype EngineOp = SubmitOp(input: Input) | CancelOp(id: OrderId)

  /** What an engine answers to a sequence of submissions and cancellations. */
  function Answers(e: Engine, ops: seq<EngineOp>): seq<Option<SubmitResult>>
    decreases |ops|
  {
    if ops == [] then [] else
    match ops[0]
    case CancelOp(id) => [None] + Answers(EngineSpec.Cancel(e, id), ops[1..])
    case SubmitOp(input) =>
      if !Acceptable(input) then [None] + Answers(e, ops[1..])
      else
        var (e', result) := EngineSpec.Submit(e, input);
        [Some(result)] + Answers(e', ops[1..])
  }

  /** Alike engines return equal fills and statuses for every later sequence of submits and cancels. */
  lemma {:induction false} AlikeAnswerAlike(e: Engine, e': Engine, ops: seq<EngineOp>)
    requires Alike(e, e')
    ensures Answers(e, ops) == Answers(e', ops)
    decreases |ops|
  {
    hide Alike, EngineSpec.Submit, EngineSpec.Cancel;
    if ops != [] {
      match ops[0]
      case CancelOp(id) =>
        CancelAlike(e, e', id);
        AlikeAnswerAlike(EngineSpec.Cancel(e, id), EngineSpec.Cancel(e', id), ops[1..]);
      case SubmitOp(input) =>
        if Acceptable(input) {
          SubmitAlike(e, e', input);
          AlikeAnswerAlike(EngineSpec.Submit(e, input).0, EngineSpec.Submit(e', input).0, ops[1..]);
        } else {
          AlikeAnswerAlike(e, e', ops[1..]);
        }
    }
  }

  // ---------------------------------------------------------------------------
  // Answers tell all
  // ---------------------------------------------------------------------------

  ghost function SideTotal(s: seq<Maker>): real {
    if s == [] then 0.0 else s[0].remaining + SideTotal(s[1..])
  }

  /** The fills of a taker that takes every order of a side in full. */
  ghost function Sweep(t: Taker, s: seq<Maker>): seq<Fill> {
    if s == [] then [] else [FillAgainst(t, s[0], s[0].remaining)] + Sweep(t, s[1..])
  }

  lemma {:induction false} TotalNonNegative(s: seq<Maker>)
    requires forall m | m in s :: m.remaining > 0.0
    ensures SideTotal(s) >= 0.0
  {
    if s != [] {
      assert s[0] in s && forall m | m in s[1..] :: m in s;
      TotalNonNegative(s[1..]);
    }
  }

  /** A market order of a stranger, larger than the side, takes all of it. */
  lemma {:induction false} StrangerSweeps(t: Taker, s: seq<Maker>, quantity: real)
    requires t.limit.None? && quantity > SideTotal(s)
    requires forall m | m in s :: m.remaining > 0.0 && m.userId != t.userId
    ensures Match(t, s, quantity).fills == Sweep(t, s)
    decreases |s|
  {
    hide Match;
    TotalNonNegative(s);
    if s == [] {
      NothingMatched(t, quantity);
    } else {
      var best, worse := s[0], s[1..];
      assert s == [best] + worse && best in s && forall m | m in worse :: m in s;
      TotalNonNegative(worse);
      MatchCons(t, best, worse, quantity);
      StrangerSweeps(t, worse, quantity - best.remaining);
    }
  }

  lemma NothingMatched(t: Taker, quantity: real)
    ensures Match(t, [], quantity).fills == []
  {
  }

  /** The fills of a sweep name every order, its owner, price and remainder, in order. */
  lemma {:induction false} SweepShowsSide(side: Side, t: Taker, s: seq<Maker>, s': seq<Maker>)
    requires Sweep(t, s) == Sweep(t, s')
    requires forall m | m in s || m in s' :: m.side == side
    ensures Plain(s) == Plain(s')
    decreases |s|
  {
    if s != [] && s' != [] {
      assert s[0] in s && s'[0] in s' && (forall m | m in s[1..] :: m in s) && (forall m | m in s'[1..] :: m in s');
      assert Sweep(t, s)[0] == Sweep(t, s')[0] && Sweep(t, s)[1..] == Sweep(t, s')[1..];
      assert Sweep(t, s)[1..] == Sweep(t, s[1..]) && Sweep(t, s')[1..] == Sweep(t, s'[1..]);
      SweepShowsSide(side, t, s[1..], s'[1..]);
    }
  }

  function LongestName(s: seq<Maker>): nat {
    if s == [] then 0 else var rest := LongestName(s[1..]); if |s[0].userId| > rest then |s[0].userId| else rest
  }

  lemma {:induction false} NamesAreShorter(s: seq<Maker>)
    ensures forall m | m in s :: |m.userId| <= LongestName(s)
  {
    if s != [] {
      assert s == [s[0]] + s[1..];
      NamesAreShorter(s[1..]);
    }
  }

  /** A name that nobody on the two sides has. */
  function Stranger(s: seq<Maker>, s': seq<Maker>): UserId {
    seq(LongestName(s) + LongestName(s') + 1, i => 'x')
  }

  lemma StrangerIsNew(s: seq<Maker>, s': seq<Maker>)
    ensures forall m | m in s || m in s' :: m.userId != Stranger(s, s')
  {
    NamesAreShorter(s);
    NamesAreShorter(s');
    assert |Stranger(s, s')| == LongestName(s) + LongestName(s') + 1;
  }

  lemma OneAnswer(e: Engine, input: Input)
    requires Acceptable(input)
    ensures Answers(e, [SubmitOp(input)]) == [Some(EngineSpec.Submit(e, input).1)]
    ensures EngineSpec.Submit(e, input).1.fills == MatchOf(e, input).fills
  {
    hide EngineSpec.OwnSide, Match;
    var ops := [SubmitOp(input)];
    assert ops[1..] == [];
  }

  /** The probe of a side: a stranger's market order for more than either engine has. */
  ghost function Probe(e: Engine, e': Engine, side: Side): Input {
    var s, s' := SideOf(e, side), SideOf(e', side);
    Input(0, Stranger(s, s'), Opposite(side), MarketOrder, None, Max(1.0, SideTotal(s) + SideTotal(s') + 1.0))
  }

  lemma ProbeShowsSide(e: Engine, e': Engine, side: Side)
    requires EngineValid(e) && EngineValid(e')
    requires Answers(e, [SubmitOp(Probe(e, e', side))]) == Answers(e', [SubmitOp(Probe(e, e', side))])
    ensures Plain(SideOf(e, side)) == Plain(SideOf(e', side))
  {
    hide Match, Plain, Sweep, SideTotal, Stranger, SideValid, EngineSpec.Submit;
    var s, s', input := SideOf(e, side), SideOf(e', side), Probe(e, e', side);
    MembersReduced(side, s);
    MembersReduced(side, s');
    TotalNonNegative(s);
    TotalNonNegative(s');
    StrangerIsNew(s, s');
    OneAnswer(e, input);
    OneAnswer(e', input);
    StrangerSweeps(TakerOf(input), s, input.quantity);
    StrangerSweeps(TakerOf(input), s', input.quantity);
    SweepShowsSide(side, TakerOf(input), s, s');
  }

  /** Equal answers to every sequence of submissions and cancellations. */
  ghost predicate AnswersAlike(e: Engine, e': Engine) {
    forall ops :: Answers(e, ops) == Answers(e', ops)
  }

  /** Two engines answer every sequence of submissions and cancellations alike if and only if they have the
      same queues: what an engine answers shows all of its book. */
  lemma AlikeIffAnswersAlike(e: Engine, e': Engine)
    requires EngineValid(e) && EngineValid(e')
    ensures Alike(e, e') <==> AnswersAlike(e, e')
  {
    hide EngineValid, Plain, Answers, Probe;
    if Alike(e, e') {
      forall ops ensures Answers(e, ops) == Answers(e', ops) {
        AlikeAnswerAlike(e, e', ops);
      }
    } else if AnswersAlike(e, e') {
      ProbeShowsSide(e, e', Buy);
      ProbeShowsSide(e, e', Sell);
    }
  }

  // ---------------------------------------------------------------------------
  // Exchanges alike
  // ---------------------------------------------------------------------------

  /** Equal in everything but the arrival counters. */
  ghost predicate Indistinguishable(s: State, s': State) {
    && s'.markets == s.markets && s'.tables == s.tables && s'.pending == s.pending
    && s'.engines.Keys == s.engines.Keys
    && forall mid | mid in s.engines :: Alike(s.engines[mid], s'.engines[mid])
  }

  lemma BestAlike(e: Engine, e': Engine, side: Side)
    requires Alike(e, e')
    ensures ResolveMarketReservePrice(e, side) == ResolveMarketReservePrice(e', side)
  {
    PlainHeads(SideOf(e, Opposite(side)), SideOf(e', Opposite(side)));
  }

  lemma SubmitIndistinguishable(s: State, s': State, id: OrderId)
    requires Indistinguishable(s, s')
    ensures var r, r' := ApplySubmit(s, id), ApplySubmit(s', id); r.error == r'.error && Indistinguishable(r.state, r'.state)
  {
    hide Alike, EngineSpec.Submit, Settle;
    if id in s.pending && id < |s.tables.orders| {
      var row := s.tables.orders[id];
      if row.market in s.engines && Acceptable(InputOf(id, row)) {
        SubmitAlike(s.engines[row.market], s'.engines[row.market], InputOf(id, row));
      }
    }
  }

  lemma PlaceIndistinguishable(s: State, s': State, userId: UserId, r: Request)
    requires Indistinguishable(s, s')
    ensures var p, p' := ApplyPlace(s, userId, r), ApplyPlace(s', userId, r);
            p.error == p'.error && Indistinguishable(p.state, p'.state)
  {
    hide Alike, CreateAndLock, ResolveMarketReservePrice;
    if r.market in s.engines {
      BestAlike(s.engines[r.market], s'.engines[r.market], r.side);
    }
  }

  lemma CancelIndistinguishable(s: State, s': State, userId: UserId, id: OrderId)
    requires Indistinguishable(s, s')
    ensures var p, p' := ApplyCancel(s, userId, id), ApplyCancel(s', userId, id);
            p.error == p'.error && Indistinguishable(p.state, p'.state)
  {
    hide Alike, ReleaseHold, EngineSpec.Cancel;
    if id < |s.tables.orders| && s.tables.orders[id].market in s.engines {
      CancelAlike(s.engines[s.tables.orders[id].market], s'.engines[s.tables.orders[id].market], id);
    }
  }

  /** No operation can tell indistinguishable exchanges apart. */
  lemma StepIndistinguishable(s: State, s': State, op: Op)
    requires Indistinguishable(s, s')
    ensures var r, r' := Exec(s, op), Exec(s', op); r.error == r'.error && Indistinguishable(r.state, r'.state)
  {
    hide Alike, ApplyPlace, ApplySubmit, ApplyCancel, PostTransfer, Confirm, Debited, Rebuild;
    match op
    case Place(userId, request) => PlaceIndistinguishable(s, s', userId, request);
    case SubmitOrder(id) => SubmitIndistinguishable(s, s', id);
    case CancelOrder(userId, id) => CancelIndistinguishable(s, s', userId, id);
    case Restart => RebuiltAlike(s);
    case _ =>
  }

  lemma RebuiltAlike(s: State)
    ensures Indistinguishable(ApplyRestart(s).state, ApplyRestart(s).state)
  {
  }

  lemma {:induction false} RunIndistinguishable(s: State, s': State, ops: seq<Op>)
    requires Indistinguishable(s, s')
    ensures Run(s, ops).tables == Run(s', ops).tables && Indistinguishable(Run(s, ops), Run(s', ops))
    decreases |ops|
  {
    hide Exec;
    if ops != [] {
      StepIndistinguishable(s, s', ops[0]);
      RunIndistinguishable(Exec(s, ops[0]).state, Exec(s', ops[0]).state, ops[1..]);
    }
  }
}
