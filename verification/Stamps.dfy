/** Time stamps: every leaf carries the sequence number of the entry that last changed it. */
module Stamps {
  import opened Int64
  import opened Text
  import opened Ledger
  import opened Accounts

  /** Leaves of t that are not as they were in s bear this number. */
  ghost predicate StampedMap<V(!new)>(m: map<string, V>, n: map<string, V>, stamp: V -> int64, sequence: int64) {
    forall k :: k in n ==> (k in m && n[k] == m[k]) || stamp(n[k]) == sequence
  }

  function BalanceStamp(l: BalanceLeaf): int64 { l.lastSeq }

  function NonceStamp(l: NonceLeaf): int64 { l.lastSeq }

  function OrderStamp(l: OrderLeaf): int64 { l.lastSeq }

  function PositionStamp(l: PositionLeaf): int64 { l.lastSeq }

  function FundingStamp(l: MarketFundingLeaf): int64 { l.lastSeq }

  function WithdrawalStamp(l: WithdrawalLeaf): int64 { l.requestSeq }

  ghost predicate Stamped(s: State, t: State, sequence: int64) {
    && StampedMap(s.balances, t.balances, BalanceStamp, sequence)
    && StampedMap(s.nonces, t.nonces, NonceStamp, sequence)
    && StampedMap(s.openOrders, t.openOrders, OrderStamp, sequence)
    && StampedMap(s.positions, t.positions, PositionStamp, sequence)
    && StampedMap(s.marketFunding, t.marketFunding, FundingStamp, sequence)
    && StampedMap(s.withdrawals, t.withdrawals, WithdrawalStamp, sequence)
  }

  lemma StampedChain(s: State, t: State, u: State, sequence: int64)
    requires Stamped(s, t, sequence) && Stamped(t, u, sequence)
    ensures Stamped(s, u, sequence)
  {
  }

  lemma StampedSelf(s: State, sequence: int64)
    ensures Stamped(s, s, sequence)
  {
  }

  lemma BalanceStamped(s: State, account: int64, asset: string, free: int64, locked: int64, sequence: int64)
    ensures Stamped(s, AdjustBalance(s, account, asset, free, locked, sequence), sequence)
  {
    hide Normalize, Wrap, BalanceKey;
  }

  lemma PositionStamped(s: State, account: int64, market: int64, outcome: string, delta: int64, sequence: int64)
    ensures Stamped(s, AdjustPosition(s, account, market, outcome, delta, sequence), sequence)
  {
    hide Normalize, Wrap, PositionKey, QuantityOf;
  }

  lemma SettleStamped(s: State, sequence: int64, account: int64, market: int64, outcome: string, settled: int64)
    ensures Stamped(s, SettlePosition(s, sequence, account, market, outcome, settled).state, sequence)
  {
    hide Normalize, Wrap, PositionKey, Stamped, PutPosition;
    StampedSelf(s, sequence);
    var key := PositionKey(account, market, outcome);
    if key in s.positions {
      var leaf := s.positions[key].(quantity := Sub(s.positions[key].quantity, settled),
                                    settlementStatus := "PARTIALLY_SETTLED", lastSeq := sequence);
      PositionPut(s, key, leaf, sequence);
    }
  }

  lemma PositionPut(s: State, key: string, leaf: PositionLeaf, sequence: int64)
    requires leaf.lastSeq == sequence
    ensures Stamped(s, s.(positions := PutPosition(s.positions, key, leaf)), sequence)
  {
  }

  lemma SpendStamped(s: State, sequence: int64, id: string, quantity: int64, spent: int64)
    requires id in s.openOrders
    ensures Stamped(s, Spend(s, sequence, id, quantity, spent).state, sequence)
  {
    hide AdjustBalance, Wrap, ExpectedReserve, Stamped;
    var o := s.openOrders[id];
    var released := Sub(Sub(o.reserved, spent), ExpectedReserve(o.side, o.price, Sub(o.remaining, quantity)));
    var paid := AdjustBalance(s, o.account, o.reserveAsset, 0, Neg(spent), sequence);
    BalanceStamped(s, o.account, o.reserveAsset, 0, Neg(spent), sequence);
    BalanceStamped(paid, o.account, o.reserveAsset, released, Neg(released), sequence);
    StampedSelf(paid, sequence);
    var refunded := if released > 0
      then AdjustBalance(paid, o.account, o.reserveAsset, released, Neg(released), sequence) else paid;
    StampedChain(s, paid, refunded, sequence);
    AdjustBalanceFrame(s, o.account, o.reserveAsset, 0, Neg(spent), sequence);
    AdjustBalanceFrame(paid, o.account, o.reserveAsset, released, Neg(released), sequence);
    var t := Spend(s, sequence, id, quantity, spent).state;
    OrderStampedLast(refunded, t, id, sequence);
    StampedChain(s, refunded, t, sequence);
  }

  lemma OrderStampedLast(s: State, t: State, id: string, sequence: int64)
    requires t == s.(openOrders := t.openOrders)
    requires t.openOrders == s.openOrders || t.openOrders == s.openOrders - {id} ||
             (id in t.openOrders && t.openOrders == s.openOrders[id := t.openOrders[id]]
              && t.openOrders[id].lastSeq == sequence)
    ensures Stamped(s, t, sequence)
  {
  }

  lemma FillStamped(s: State, sequence: int64, id: string, quantity: int64, price: int64)
    ensures Stamped(s, FillOrder(s, sequence, id, quantity, price).state, sequence)
  {
    hide Spend, Multiply, Stamped;
    StampedSelf(s, sequence);
    if id in s.openOrders {
      var spent := if s.openOrders[id].side == "BUY" && Multiply(price, quantity).Some?
        then Multiply(price, quantity).value else quantity;
      SpendStamped(s, sequence, id, quantity, spent);
    }
  }

  lemma DeliverStamped(s: State, sequence: int64, p: Trade, notional: int64)
    ensures Stamped(s, Deliver(s, sequence, p, notional), sequence)
  {
    hide AdjustBalance, AdjustPosition, Buyer, Seller, PositionAsset, Neg, Stamped;
    var first := AdjustBalance(s, Buyer(p), PositionAsset(p.market, p.outcome), p.quantity, 0, sequence);
    var bought := if Buyer(p) > 0 then AdjustPosition(first, Buyer(p), p.market, p.outcome, p.quantity, sequence)
      else s;
    BalanceStamped(s, Buyer(p), PositionAsset(p.market, p.outcome), p.quantity, 0, sequence);
    PositionStamped(first, Buyer(p), p.market, p.outcome, p.quantity, sequence);
    StampedChain(s, first, AdjustPosition(first, Buyer(p), p.market, p.outcome, p.quantity, sequence), sequence);
    StampedSelf(s, sequence);
    var second := AdjustBalance(bought, Seller(p), p.collateralAsset, notional, 0, sequence);
    var sold := AdjustPosition(second, Seller(p), p.market, p.outcome, Neg(p.quantity), sequence);
    BalanceStamped(bought, Seller(p), p.collateralAsset, notional, 0, sequence);
    PositionStamped(second, Seller(p), p.market, p.outcome, Neg(p.quantity), sequence);
    StampedChain(bought, second, sold, sequence);
    StampedChain(s, bought, sold, sequence);
  }

  lemma TradeStamped(s: State, sequence: int64, p: Trade)
    ensures Stamped(s, ApplyTrade(s, sequence, p).state, sequence)
  {
    hide FillOrder, Deliver, Multiply, Stamped;
    StampedSelf(s, sequence);
    var taker := FillOrder(s, sequence, p.takerOrderId, p.quantity, p.price);
    FillStamped(s, sequence, p.takerOrderId, p.quantity, p.price);
    var maker := FillOrder(taker.state, sequence, p.makerOrderId, p.quantity, p.price);
    FillStamped(taker.state, sequence, p.makerOrderId, p.quantity, p.price);
    StampedChain(s, taker.state, maker.state, sequence);
    if Multiply(p.price, p.quantity).Some? {
      var notional := Multiply(p.price, p.quantity).value;
      DeliverStamped(maker.state, sequence, p, notional);
      StampedChain(s, maker.state, Deliver(maker.state, sequence, p, notional), sequence);
    }
  }

  lemma PayoutStamped(s: State, sequence: int64, p: Payout)
    ensures Stamped(s, ApplyPayout(s, sequence, p).state, sequence)
  {
    hide AdjustBalance, SettlePosition, BalanceLeafOf, SettledAsset, PaidAsset, Neg, Stamped;
    StampedSelf(s, sequence);
    var debited := AdjustBalance(s, p.account, SettledAsset(p), Neg(p.settled), 0, sequence);
    BalanceStamped(s, p.account, SettledAsset(p), Neg(p.settled), 0, sequence);
    var settled := SettlePosition(debited, sequence, p.account, p.market, p.winningOutcome, p.settled).state;
    SettleStamped(debited, sequence, p.account, p.market, p.winningOutcome, p.settled);
    StampedChain(s, debited, settled, sequence);
    BalanceStamped(settled, p.account, PaidAsset(p), p.amount, 0, sequence);
    StampedChain(s, settled, AdjustBalance(settled, p.account, PaidAsset(p), p.amount, 0, sequence), sequence);
  }

  lemma OrdersStamped(s: State, e: Entry)
    requires e.payload.OrderAccepted? || e.payload.OrderCancelled?
    ensures Stamped(s, Apply(s, e).state, e.sequence)
  {
    hide AdjustBalance, Released, ReserveAssetOf, Neg, Stamped;
    StampedSelf(s, e.sequence);
    match e.payload
    case OrderAccepted(p) =>
      var moved := AdjustBalance(s, p.account, ReserveAssetOf(p), Neg(p.reserveAmount), p.reserveAmount, e.sequence);
      BalanceStamped(s, p.account, ReserveAssetOf(p), Neg(p.reserveAmount), p.reserveAmount, e.sequence);
      OrderStampedLast(moved, Apply(s, e).state, p.orderId, e.sequence);
      StampedChain(s, moved, Apply(s, e).state, e.sequence);
    case OrderCancelled(p) =>
      var (account, asset, amount) := Released(s, p);
      BalanceStamped(s, account, asset, amount, Neg(amount), e.sequence);
      var moved := if amount > 0 then AdjustBalance(s, account, asset, amount, Neg(amount), e.sequence) else s;
      OrderStampedLast(moved, Apply(s, e).state, p.orderId, e.sequence);
      StampedChain(s, moved, Apply(s, e).state, e.sequence);
  }

  lemma NonceStamped(s: State, sequence: int64, account: int64, authKey: string, scope: string, keyStatus: string,
                     accepted: uint64, next: uint64)
    ensures Stamped(s, ApplyNonce(s, sequence, account, authKey, scope, keyStatus, accepted, next).state, sequence)
  {
    hide TrimSpace, NonceKey, StatusOf, ScopeOf, Stamped;
    StampedSelf(s, sequence);
    NoncePut(s, NonceKey(account, authKey),
             NonceLeaf(account, TrimSpace(authKey), next, StatusOf(keyStatus), ScopeOf(scope), sequence), sequence);
  }

  lemma NoncePut(s: State, key: string, leaf: NonceLeaf, sequence: int64)
    requires leaf.lastSeq == sequence
    ensures Stamped(s, s.(nonces := s.nonces[key := leaf]), sequence)
  {
  }

  lemma ResolutionStamped(s: State, sequence: int64, market: int64, outcome: string, resolverType: string,
                          resolverRef: string)
    ensures Stamped(s, ApplyResolved(s, sequence, market, outcome, resolverType, resolverRef).state, sequence)
  {
    hide Normalize, Decimal, ResolutionRef;
  }

  lemma WithdrawalStamped(s: State, e: Entry)
    requires e.payload.WithdrawalRequested?
    ensures Stamped(s, Apply(s, e).state, e.sequence)
  {
    hide AdjustBalance, Normalize, TrimSpace, Neg;
    var w := e.payload.withdrawal;
    BalanceStamped(s, w.account, w.asset, Neg(w.amount), 0, e.sequence);
    AdjustBalanceFrame(s, w.account, w.asset, Neg(w.amount), 0, e.sequence);
  }

  /** Every entry, accepted or not, stamps whatever leaf it changes with its own number. */
  lemma ChangesAreStamped(s: State, e: Entry)
    ensures Stamped(s, Apply(s, e).state, e.sequence)
  {
    hide Stamped, ApplyTrade, ApplyPayout, AdjustBalance, ValidateKeyWitness, ApplyNonce, ApplyResolved;
    StampedSelf(s, e.sequence);
    match e.payload
    case OrderAccepted(_) => OrdersStamped(s, e);
    case OrderCancelled(_) => OrdersStamped(s, e);
    case TradeMatched(p) => TradeStamped(s, e.sequence, p);
    case SettlementPayout(p) => PayoutStamped(s, e.sequence, p);
    case DepositCredited(account, asset, amount) => BalanceStamped(s, account, asset, amount, 0, e.sequence);
    case NonceAdvanced(account, authKey, scope, keyStatus, accepted, next) =>
      NonceStamped(s, e.sequence, account, authKey, scope, keyStatus, accepted, next);
    case MarketResolved(market, outcome, resolverType, resolverRef) =>
      ResolutionStamped(s, e.sequence, market, outcome, resolverType, resolverRef);
    case WithdrawalRequested(_) => WithdrawalStamped(s, e);
    case _ =>
  }

  // ---------------------------------------------------------------- over runs

  ghost predicate StampsIn<V(!new)>(m: map<string, V>, n: map<string, V>, stamp: V -> int64, entries: seq<Entry>) {
    forall k :: k in n ==>
      (k in m && n[k] == m[k]) || exists i :: 0 <= i < |entries| && entries[i].sequence == stamp(n[k])
  }

  lemma StampsInCons<V(!new)>(m: map<string, V>, n: map<string, V>, o: map<string, V>, stamp: V -> int64, e: Entry,
                              rest: seq<Entry>)
    requires StampedMap(m, n, stamp, e.sequence) && StampsIn(n, o, stamp, rest)
    ensures StampsIn(m, o, stamp, [e] + rest)
  {
    var entries := [e] + rest;
    forall k | k in o
      ensures (k in m && o[k] == m[k]) || exists i :: 0 <= i < |entries| && entries[i].sequence == stamp(o[k])
    {
      if k in n && o[k] == n[k] {
        assert entries[0].sequence == e.sequence;
      } else {
        var i :| 0 <= i < |rest| && rest[i].sequence == stamp(o[k]);
        assert entries[i + 1].sequence == stamp(o[k]);
      }
    }
  }

  ghost predicate AllStampsIn(s: State, t: State, entries: seq<Entry>) {
    && StampsIn(s.balances, t.balances, BalanceStamp, entries) && StampsIn(s.nonces, t.nonces, NonceStamp, entries)
    && StampsIn(s.openOrders, t.openOrders, OrderStamp, entries)
    && StampsIn(s.positions, t.positions, PositionStamp, entries)
    && StampsIn(s.marketFunding, t.marketFunding, FundingStamp, entries)
    && StampsIn(s.withdrawals, t.withdrawals, WithdrawalStamp, entries)
  }

  /** Whatever a run changed bears the number of one of its entries. */
  lemma {:induction false} StampsAreTheJournal(s: State, entries: seq<Entry>)
    ensures AllStampsIn(s, Run(s, entries).state, entries)
    decreases entries
  {
    hide Apply, StampedMap, StampsIn;
    if entries == [] {
      NothingStamped(s);
    } else {
      var e, rest := entries[0], entries[1..];
      var t, u := Apply(s, e).state, Run(s, entries).state;
      assert entries == [e] + rest;
      ChangesAreStamped(s, e);
      if Apply(s, e).Ok() {
        StampsAreTheJournal(t, rest);
      } else {
        UnchangedStamps(t, rest);
      }
      StampsInCons(s.balances, t.balances, u.balances, BalanceStamp, e, rest);
      StampsInCons(s.nonces, t.nonces, u.nonces, NonceStamp, e, rest);
      StampsInCons(s.openOrders, t.openOrders, u.openOrders, OrderStamp, e, rest);
      StampsInCons(s.positions, t.positions, u.positions, PositionStamp, e, rest);
      StampsInCons(s.marketFunding, t.marketFunding, u.marketFunding, FundingStamp, e, rest);
      StampsInCons(s.withdrawals, t.withdrawals, u.withdrawals, WithdrawalStamp, e, rest);
    }
  }

  lemma NothingStamped(s: State)
    ensures AllStampsIn(s, s, [])
  {
  }

  lemma UnchangedStamps(s: State, entries: seq<Entry>)
    ensures AllStampsIn(s, s, entries)
  {
  }
}
