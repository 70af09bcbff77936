/** When a book can be crossed: never by matching, resting or cancelling, and by a restart exactly when
    the rows it rebuilds from are. */
module Crossing {
  import opened Types
  import opened BookSide
  import opened Matching
  import opened EngineSpec
  import opened Ledger
  import opened Holds
  import opened Settlement
  import opened FillProofs
  import opened Books
  import opened Submission
  import opened Exchange
  import opened Safety
  import opened OrderHistory
  import opened AgreementRuns
  import opened Transfers
  import opened Backing
  import opened Interleaving

  ghost predicate AllUncrossed(s: State) {
    forall mid | mid in s.engines :: Uncrossed(s.engines[mid])
  }

  /** Every live limit buy of the market is priced below every live limit sell. */
  ghost predicate RowsUncrossed(orders: seq<OrderRow>, mid: MarketId) {
    forall i, j | 0 <= i < |orders| && 0 <= j < |orders| && RestsIn(orders[i], mid, Buy) && RestsIn(orders[j], mid, Sell) ::
      orders[i].price < orders[j].price
  }

  ghost predicate AllRowsUncrossed(s: State) {
    forall mid | mid in s.markets :: RowsUncrossed(s.tables.orders, mid)
  }

  /** A rebuilt engine is uncrossed if and only if the live limit rows of its market are. */
  lemma RebuildUncrossedIff(orders: seq<OrderRow>, mid: MarketId)
    requires forall i | 0 <= i < |orders| :: RowValid(orders[i])
    ensures Uncrossed(Rebuild(orders, mid)) <==> RowsUncrossed(orders, mid)
  {
    hide SideValid, RebuildSide, RowValid, Uncrossed, SideAgrees;
    var e := Rebuild(orders, mid);
    RebuildSideValid(orders, mid, Buy);
    RebuildSideValid(orders, mid, Sell);
    RebuildInSync(orders, mid);
    UncrossedEverywhere(e);
    if forall b, a | b in e.bids && a in e.asks :: b.price < a.price {
      forall i: OrderId, j: OrderId | i < |orders| && j < |orders| && RestsIn(orders[i], mid, Buy) && RestsIn(orders[j], mid, Sell)
        ensures orders[i].price < orders[j].price
      {
        assert RestoredMaker(i, orders[i]) in e.bids && RestoredMaker(j, orders[j]) in e.asks;
      }
    }
  }

  lemma MatchStaysUncrossed(c: Machine, id: OrderId)
    requires Sound(c) && AllUncrossed(c.core)
    ensures AllUncrossed(MatchNow(c, id).core)
  {
    hide Sound, Uncrossed, EngineValid, EngineSpec.Submit;
    if id in c.core.pending {
      PendingIsWhole(c, id);
      var row := c.core.tables.orders[id];
      EngineIsValid(c, row.market);
      SubmitKeepsUncrossed(c.core.engines[row.market], InputOf(id, row));
    }
  }

  lemma TakeOffStaysUncrossed(c: Machine, mid: MarketId, id: OrderId)
    requires Sound(c) && AllUncrossed(c.core)
    ensures AllUncrossed(TakeOff(c.core, mid, id))
  {
    hide Sound, Uncrossed, EngineValid, EngineSpec.Cancel;
    if mid in c.core.engines {
      EngineIsValid(c, mid);
      CancelRemoves(c.core.engines[mid], id);
    }
  }

  /** No transaction or engine call but a restart crosses a book, whatever it is interleaved with. */
  lemma ActStaysUncrossed(c: Machine, a: Action)
    requires Sound(c) && AllUncrossed(c.core) && a != Whole(Restart)
    ensures AllUncrossed(Act(c, a).core)
  {
    hide Sound, Uncrossed, MatchNow, TakeOff, Settle, PostEntries, Confirm, Debited, CreateAndLock, ReleaseHold, ApplyPlace, ApplySubmit,
      ApplyCancel;
    match a
    case MatchOrder(id) => MatchStaysUncrossed(c, id);
    case Unlist(mid, id) => TakeOffStaysUncrossed(c, mid, id);
    case _ =>
  }

  lemma {:induction false} ActsStayUncrossed(c: Machine, actions: seq<Action>)
    requires Sound(c) && AllUncrossed(c.core) && Whole(Restart) !in actions
    ensures AllUncrossed(ActAll(c, actions).core)
    decreases |actions|
  {
    hide Sound, Act, AllUncrossed;
    if actions != [] {
      assert actions[0] in actions && forall a | a in actions[1..] :: a in actions;
      ActStaysUncrossed(c, actions[0]);
      ActKeepsSound(c, actions[0]);
      ActsStayUncrossed(Act(c, actions[0]), actions[1..]);
    }
  }

  /** However matching, settling and cancelling are interleaved, no book is crossed until a restart. */
  lemma EveryInterleavingIsUncrossed(markets: Markets, actions: seq<Action>)
    requires Whole(Restart) !in actions
    ensures AllUncrossed(ActAll(Start(markets), actions).core)
  {
    hide Sound, ActAll;
    StartIsSound(markets);
    ActsStayUncrossed(Start(markets), actions);
  }

  /** A whole operation other than a restart is made of such actions. */
  lemma StepStaysUncrossed(s: State, op: Op)
    requires Sound(Quiet(s)) && AllUncrossed(s) && !op.Restart?
    ensures AllUncrossed(Exec(s, op).state)
  {
    hide Sound, Exec, Act, AllUncrossed;
    StepIsActions(s, op);
    OnlyRestartsRestart(s, op);
    ActsStayUncrossed(Quiet(s), Actions(s, op));
  }

  lemma OnlyRestartsRestart(s: State, op: Op)
    requires !op.Restart?
    ensures Whole(Restart) !in Actions(s, op)
  {
    hide ApplyPlace, ApplyCancel, ResolvePrice;
  }

  /** From an uncrossed state an operation, settled or not, leaves a crossed book if and only if it is a
      restart from crossed rows. */
  lemma StepUncrossedIff(s: State, op: Op)
    requires Sound(Quiet(s)) && AllUncrossed(s)
    ensures AllUncrossed(Exec(s, op).state) <==> (op.Restart? ==> AllRowsUncrossed(s))
  {
    hide Sound, Uncrossed, RowsUncrossed, Rebuild, RowValid, Exec;
    if !op.Restart? {
      StepStaysUncrossed(s, op);
    } else {
      RestartIsExec(s);
      SoundRowsValid(s);
      forall mid | mid in s.markets ensures Uncrossed(Rebuild(s.tables.orders, mid)) <==> RowsUncrossed(s.tables.orders, mid) {
        RebuildUncrossedIff(s.tables.orders, mid);
      }
      assert forall mid | mid in s.markets :: Exec(s, op).state.engines[mid] == Rebuild(s.tables.orders, mid);
      SoundKeys(s);
    }
  }

  lemma RestartIsExec(s: State)
    ensures Exec(s, Restart).state == s.(engines := map mid | mid in s.markets :: Rebuild(s.tables.orders, mid), pending := map[])
  {
  }

  /** No state of the run has a crossed book. */
  ghost predicate StaysUncrossed(s: State, ops: seq<Op>)
    decreases |ops|
  {
    AllUncrossed(s) && (ops != [] ==> StaysUncrossed(Exec(s, ops[0]).state, ops[1..]))
  }

  /** Every restart of the run finds the live rows uncrossed. */
  ghost predicate RestartsUncrossed(s: State, ops: seq<Op>)
    decreases |ops|
  {
    ops != [] ==> (ops[0].Restart? ==> AllRowsUncrossed(s)) && RestartsUncrossed(Exec(s, ops[0]).state, ops[1..])
  }

  lemma {:induction false} RunUncrossedIff(s: State, ops: seq<Op>)
    requires Sound(Quiet(s)) && AllUncrossed(s)
    ensures StaysUncrossed(s, ops) <==> RestartsUncrossed(s, ops)
    decreases |ops|
  {
    hide Sound, Exec, AllUncrossed, AllRowsUncrossed;
    if ops != [] {
      var s' := Exec(s, ops[0]).state;
      StepUncrossedIff(s, ops[0]);
      StepKeepsSound(s, ops[0]);
      if AllUncrossed(s') {
        RunUncrossedIff(s', ops[1..]);
      } else {
        CrossedOnce(s', ops[1..]);
      }
    }
  }

  lemma CrossedOnce(s: State, ops: seq<Op>)
    requires !AllUncrossed(s)
    ensures !StaysUncrossed(s, ops)
  {
  }

  /** Whatever fails to settle, no book of a run is ever crossed if and only if every restart finds the
      live rows uncrossed. */
  lemma EveryRunUncrossedIff(markets: Markets, ops: seq<Op>)
    ensures StaysUncrossed(Init(markets), ops) <==> RestartsUncrossed(Init(markets), ops)
  {
    hide Sound;
    StartIsSound(markets);
    RunUncrossedIff(Init(markets), ops);
  }

  lemma {:induction false} NoRestarts(s: State, ops: seq<Op>)
    requires forall op | op in ops :: !op.Restart?
    ensures RestartsUncrossed(s, ops)
    decreases |ops|
  {
    hide Exec, AllRowsUncrossed;
    if ops != [] {
      assert ops[0] in ops && forall op | op in ops[1..] :: op in ops;
      NoRestarts(Exec(s, ops[0]).state, ops[1..]);
    }
  }

  lemma {:induction false} EndsUncrossed(s: State, ops: seq<Op>)
    requires StaysUncrossed(s, ops)
    ensures AllUncrossed(Run(s, ops))
    decreases |ops|
  {
    hide Exec, AllUncrossed;
    if ops != [] {
      EndsUncrossed(Exec(s, ops[0]).state, ops[1..]);
    }
  }

  /** Between restarts the book is never crossed, whether or not settlements go through. */
  lemma EveryRunIsUncrossed(markets: Markets, ops: seq<Op>)
    requires forall op | op in ops :: !op.Restart?
    ensures forall mid | mid in Run(Init(markets), ops).engines :: Uncrossed(Run(Init(markets), ops).engines[mid])
  {
    NoRestarts(Init(markets), ops);
    EveryRunUncrossedIff(markets, ops);
    EndsUncrossed(Init(markets), ops);
  }
}
