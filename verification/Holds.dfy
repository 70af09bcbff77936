/** Funds reserved for open orders: the move from `available` to `locked` and back. */
module Holds {
  import opened Types
  import opened Sums
  import opened Ledger

  datatype HoldStatus = Active | Released | Consumed

  datatype Hold = Hold(account: AccountKey, amount: real, status: HoldStatus)

  /** One hold per order. */
  type Holds = map<OrderId, Hold>

  /** Moves `amount` from locked back to available. */
  function Unlock(accounts: Accounts, k: AccountKey, amount: real): Accounts {
    var a := At(accounts, k);
    accounts[k := Account(a.available + amount, a.locked - amount)]
  }

  /** Reserves `amount` for an order, if that much is available. */
  function LockFunds(accounts: Accounts, holds: Holds, k: AccountKey, orderId: OrderId, amount: real): Result<(Accounts, Holds)> {
    if At(accounts, k).available < amount then Err(InsufficientBalance)
    else Ok((Unlock(accounts, k, -amount), holds[orderId := Hold(k, amount, Active)]))
  }

  /** Gives back what an order still holds; a hold that is no longer active is left alone. */
  function ReleaseHold(accounts: Accounts, holds: Holds, orderId: OrderId): Result<(Accounts, Holds)> {
    if orderId !in holds then Err(HoldNotFound) else
    var h := holds[orderId];
    if h.status != Active then Ok((accounts, holds))
    else Ok((Unlock(accounts, h.account, h.amount), holds[orderId := h.(status := Released)]))
  }

  /** Gives back `amount` of what an order holds; the hold is consumed once nothing is left of it. */
  function ReduceHold(accounts: Accounts, holds: Holds, orderId: OrderId, amount: real): (Accounts, Holds) {
    if orderId !in holds || holds[orderId].status != Active || amount <= 0.0 then (accounts, holds) else
    var h := holds[orderId];
    var h' := if h.amount - amount <= 0.0 then h.(amount := 0.0, status := Consumed) else h.(amount := h.amount - amount);
    (Unlock(accounts, h.account, amount), holds[orderId := h'])
  }

  // ---------------------------------------------------------------------------
  // Locked funds are exactly the active holds
  // ---------------------------------------------------------------------------

  ghost function Weight(h: Hold, k: AccountKey): real {
    if h.status == Active && h.account == k then h.amount else 0.0
  }

  ghost function Weights(holds: Holds, k: AccountKey): map<OrderId, real> {
    map id | id in holds :: Weight(holds[id], k)
  }

  /** What the active holds on an account add up to. */
  ghost function ActiveSum(holds: Holds, k: AccountKey): real {
    Sum(Weights(holds, k))
  }

  ghost predicate HoldsMatch(accounts: Accounts, holds: Holds) {
    && (forall k :: At(accounts, k).locked == ActiveSum(holds, k))
    && (forall id | id in holds :: holds[id].amount >= 0.0 && holds[id].account in accounts)
  }

  lemma ActiveSumUpdate(holds: Holds, id: OrderId, h: Hold, k: AccountKey)
    ensures ActiveSum(holds[id := h], k) ==
            ActiveSum(holds, k) - (if id in holds then Weight(holds[id], k) else 0.0) + Weight(h, k)
  {
    SumUpdate(Weights(holds, k), id, Weight(h, k));
    assert Weights(holds[id := h], k) == Weights(holds, k)[id := Weight(h, k)];
  }

  /** Reservations never make `locked` negative. */
  lemma LockedNonNegative(accounts: Accounts, holds: Holds, k: AccountKey)
    requires HoldsMatch(accounts, holds)
    ensures At(accounts, k).locked >= 0.0
    ensures forall id | id in holds && holds[id].status == Active && holds[id].account == k ::
              holds[id].amount <= At(accounts, k).locked
  {
    SumNonNegative(Weights(holds, k));
    forall id | id in holds && holds[id].status == Active && holds[id].account == k
      ensures holds[id].amount <= At(accounts, k).locked
    {
      assert Weights(holds, k)[id] == holds[id].amount;
    }
  }

  /** `accounts'` differs from `accounts` by a move between locked and available of `k`. */
  ghost predicate Moved(accounts: Accounts, accounts': Accounts, k: AccountKey, amount: real) {
    && accounts'.Keys == accounts.Keys + {k}
    && At(accounts', k) == Account(At(accounts, k).available + amount, At(accounts, k).locked - amount)
    && (forall x | x != k :: At(accounts', x) == At(accounts, x))
  }

  /** Moving funds between locked and available changes no balance. */
  lemma MoveKeepsBalances(accounts: Accounts, accounts': Accounts, k: AccountKey, amount: real)
    requires accounts' == Unlock(accounts, k, amount)
    ensures Moved(accounts, accounts', k, amount)
    ensures forall x :: Balance(accounts', x) == Balance(accounts, x)
    ensures Conserved(accounts) ==> Conserved(accounts')
    ensures NoOverdraft(accounts) && At(accounts, k).available + amount >= 0.0 ==> NoOverdraft(accounts')
  {
    forall asset ensures AssetTotal(accounts', asset) == AssetTotal(accounts, asset) {
      AssetTotalUpdate(accounts, k, accounts'[k], asset);
    }
  }

  lemma LockKeeps(accounts: Accounts, holds: Holds, k: AccountKey, orderId: OrderId, amount: real)
    requires HoldsMatch(accounts, holds) && orderId !in holds && amount >= 0.0
    requires LockFunds(accounts, holds, k, orderId, amount).Ok?
    ensures var (accounts', holds') := LockFunds(accounts, holds, k, orderId, amount).value;
            && HoldsMatch(accounts', holds')
            && Moved(accounts, accounts', k, -amount)
            && (forall x :: Balance(accounts', x) == Balance(accounts, x))
            && (Conserved(accounts) ==> Conserved(accounts'))
            && (NoOverdraft(accounts) ==> NoOverdraft(accounts'))
  {
    MoveKeepsBalances(accounts, Unlock(accounts, k, -amount), k, -amount);
    forall x ensures ActiveSum(holds[orderId := Hold(k, amount, Active)], x) ==
                     ActiveSum(holds, x) + if x == k then amount else 0.0
    {
      ActiveSumUpdate(holds, orderId, Hold(k, amount, Active), x);
    }
  }

  lemma ReleaseKeeps(accounts: Accounts, holds: Holds, orderId: OrderId)
    requires HoldsMatch(accounts, holds) && orderId in holds
    ensures ReleaseHold(accounts, holds, orderId).Ok?
    ensures var (accounts', holds') := ReleaseHold(accounts, holds, orderId).value;
            && HoldsMatch(accounts', holds')
            && (forall x :: Balance(accounts', x) == Balance(accounts, x))
            && (Conserved(accounts) ==> Conserved(accounts'))
            && (NoOverdraft(accounts) ==> NoOverdraft(accounts'))
            && (holds[orderId].status == Active ==>
                  Moved(accounts, accounts', holds[orderId].account, holds[orderId].amount))
  {
    var h := holds[orderId];
    if h.status == Active {
      MoveKeepsBalances(accounts, Unlock(accounts, h.account, h.amount), h.account, h.amount);
      forall x ensures ActiveSum(holds[orderId := h.(status := Released)], x) ==
                       ActiveSum(holds, x) - if x == h.account then h.amount else 0.0
      {
        ActiveSumUpdate(holds, orderId, h.(status := Released), x);
      }
    }
  }

  /** Reducing changes no balance. It moves exactly the amount of an active hold back to available; up to
      what is held, locked stays equal to the active holds, and the hold is consumed exactly at zero. */
  lemma ReduceKeeps(accounts: Accounts, holds: Holds, orderId: OrderId, amount: real)
    requires HoldsMatch(accounts, holds) && orderId in holds
    ensures var h := holds[orderId];
            var (accounts', holds') := ReduceHold(accounts, holds, orderId, amount);
            && (forall x :: Balance(accounts', x) == Balance(accounts, x))
            && (Conserved(accounts) ==> Conserved(accounts'))
            && (NoOverdraft(accounts) ==> NoOverdraft(accounts'))
            && (h.status == Active && amount > 0.0 ==>
                  && Moved(accounts, accounts', h.account, amount)
                  && (amount <= h.amount ==>
                        && HoldsMatch(accounts', holds')
                        && holds' == holds[orderId := Hold(h.account, h.amount - amount,
                                                           if amount == h.amount then Consumed else Active)]))
  {
    var h := holds[orderId];
    if h.status == Active && amount > 0.0 {
      var (accounts', holds') := ReduceHold(accounts, holds, orderId, amount);
      MoveKeepsBalances(accounts, accounts', h.account, amount);
      if amount <= h.amount {
        forall x ensures ActiveSum(holds', x) == ActiveSum(holds, x) - if x == h.account then amount else 0.0 {
          ActiveSumUpdate(holds, orderId, holds'[orderId], x);
        }
      }
    }
  }

  /** Reducing keeps locked equal to the active holds exactly when it takes no more than an active hold
      has left; a stale hold, or nothing to give back, leaves everything as it is. */
  lemma ReduceMatchesIff(accounts: Accounts, holds: Holds, orderId: OrderId, amount: real)
    requires HoldsMatch(accounts, holds)
    ensures var (accounts', holds') := ReduceHold(accounts, holds, orderId, amount);
            if orderId !in holds || holds[orderId].status != Active || amount <= 0.0
            then accounts' == accounts && holds' == holds
            else HoldsMatch(accounts', holds') <==> amount <= holds[orderId].amount
  {
    if orderId in holds && holds[orderId].status == Active && amount > 0.0 {
      var h := holds[orderId];
      if amount <= h.amount {
        ReduceKeeps(accounts, holds, orderId, amount);
      } else {
        var (accounts', holds') := ReduceHold(accounts, holds, orderId, amount);
        ActiveSumUpdate(holds, orderId, holds'[orderId], h.account);
        assert At(accounts', h.account).locked != ActiveSum(holds', h.account);
      }
    }
  }
}
