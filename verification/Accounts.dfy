/** What the leaf updates do to single balances, positions and asset totals. Every later proof about
    the ledger goes through these facts instead of through printed keys. */
module Accounts {
  import opened Int64
  import opened Text
  import opened Sums
  import opened Ledger

  function Free(s: State, account: int64, asset: string): int64 {
    BalanceLeafOf(s, account, asset).free
  }

  function Locked(s: State, account: int64, asset: string): int64 {
    BalanceLeafOf(s, account, asset).locked
  }

  /** A balance update moves exactly one (account, normalised asset) pair, by exactly its deltas. */
  lemma AdjustBalanceAt(s: State, account: int64, asset: string, free: int64, locked: int64, sequence: int64,
                        a: int64, x: string)
    ensures var t := AdjustBalance(s, account, asset, free, locked, sequence);
            var hit := account > 0 && a == account && Normalize(x) == Normalize(asset);
            && Free(t, a, x) == (if hit then Add(Free(s, a, x), free) else Free(s, a, x))
            && Locked(t, a, x) == (if hit then Add(Locked(s, a, x), locked) else Locked(s, a, x))
  {
    hide Normalize, Add, BalanceKey;
    BalanceKeyInjective(account, asset, a, x);
  }

  lemma AdjustBalanceFrame(s: State, account: int64, asset: string, free: int64, locked: int64, sequence: int64)
    ensures var t := AdjustBalance(s, account, asset, free, locked, sequence);
            t == s.(balances := t.balances)
  {
    hide Normalize, Add, BalanceKey, BalanceLeafOf, PutBalance;
  }

  lemma AdjustPositionFrame(s: State, account: int64, market: int64, outcome: string, delta: int64, sequence: int64)
    ensures var t := AdjustPosition(s, account, market, outcome, delta, sequence);
            t == s.(positions := t.positions)
  {
    hide Normalize, Add, PositionKey, QuantityOf, PutPosition;
  }

  lemma SettlePositionFrame(s: State, sequence: int64, account: int64, market: int64, outcome: string, settled: int64)
    ensures var t := SettlePosition(s, sequence, account, market, outcome, settled).state;
            t == s.(positions := t.positions)
  {
    hide Normalize, Sub, PositionKey, PutPosition;
  }

  /** A position update moves exactly one (account, market, normalised outcome) triple. */
  lemma AdjustPositionAt(s: State, account: int64, market: int64, outcome: string, delta: int64, sequence: int64,
                         a: int64, m: int64, o: string)
    ensures var t := AdjustPosition(s, account, market, outcome, delta, sequence);
            var hit := account > 0 && a == account && m == market && Normalize(o) == Normalize(outcome);
            QuantityOf(t, a, m, o) == if hit then Add(QuantityOf(s, a, m, o), delta) else QuantityOf(s, a, m, o)
    ensures delta == 0 ==> AdjustPosition(s, account, market, outcome, delta, sequence) == s
  {
    hide Normalize, Wrap, PositionKey;
    PositionKeyInjective(account, market, outcome, a, m, o);
    WrapInRange(QuantityOf(s, a, m, o));
  }

  lemma SettlePositionAt(s: State, sequence: int64, account: int64, market: int64, outcome: string, settled: int64,
                         a: int64, m: int64, o: string)
    requires SettlePosition(s, sequence, account, market, outcome, settled).Ok()
    ensures var t := SettlePosition(s, sequence, account, market, outcome, settled).state;
            var hit := a == account && m == market && Normalize(o) == Normalize(outcome);
            QuantityOf(t, a, m, o) == if hit then Sub(QuantityOf(s, a, m, o), settled) else QuantityOf(s, a, m, o)
  {
    hide Normalize, Sub, PositionKey;
    PositionKeyInjective(account, market, outcome, a, m, o);
  }

  // ---------------------------------------------------------------- what each step leaves alone

  /** Balance reads depend on the balance map alone. */
  lemma BalancesDecide(s: State, t: State, a: int64, x: string)
    requires s.balances == t.balances
    ensures Locked(s, a, x) == Locked(t, a, x) && Free(s, a, x) == Free(t, a, x)
  {
  }

  lemma FreeOnly(s: State, account: int64, asset: string, free: int64, sequence: int64, a: int64, x: string)
    ensures var t := AdjustBalance(s, account, asset, free, 0, sequence);
            t.openOrders == s.openOrders && Locked(t, a, x) == Locked(s, a, x)
  {
    hide Normalize, Wrap, AdjustBalance, BalanceLeafOf;
    AdjustBalanceAt(s, account, asset, free, 0, sequence, a, x);
    AdjustBalanceFrame(s, account, asset, free, 0, sequence);
    WrapInRange(Locked(s, a, x));
  }

  lemma OtherFrame(s: State, e: Entry)
    requires e.payload.NonceAdvanced? || e.payload.TradingKeyAuthorized? || e.payload.MarketResolved?
             || e.payload.Unsupported? || e.payload.Malformed?
    ensures var t := Apply(s, e).state;
            && t.balances == s.balances && t.openOrders == s.openOrders && t.positions == s.positions
            && t.withdrawals == s.withdrawals
            && (!e.payload.NonceAdvanced? ==> t.nonces == s.nonces)
            && (!e.payload.MarketResolved? ==> t.marketFunding == s.marketFunding)
  {
    hide Normalize, Wrap, NonceKey, Decimal, ResolutionRef, StatusOf, ScopeOf, TrimSpace, ValidateKeyWitness;
    hide ApplyTrade, ApplyAccepted, ApplyCancelled, ApplyPayout, ApplyWithdrawal, AdjustBalance;
  }

  lemma SpendFrame(s: State, sequence: int64, id: string, quantity: int64, spent: int64)
    requires id in s.openOrders && Spend(s, sequence, id, quantity, spent).Ok()
    ensures var t := Spend(s, sequence, id, quantity, spent).state;
            var o := s.openOrders[id];
            var remaining := Sub(o.remaining, quantity);
            && t == s.(balances := t.balances, openOrders := t.openOrders)
            && t.openOrders == if remaining == 0 then s.openOrders - {id} else s.openOrders[id :=
                 o.(filled := Add(o.filled, quantity), remaining := remaining,
                    reserved := ExpectedReserve(o.side, o.price, remaining), status := "OPEN", lastSeq := sequence)]
  {
    hide AdjustBalance, Wrap, Normalize, ExpectedReserve;
    var o := s.openOrders[id];
    var released := Sub(Sub(o.reserved, spent), ExpectedReserve(o.side, o.price, Sub(o.remaining, quantity)));
    AdjustBalanceFrame(s, o.account, o.reserveAsset, 0, Neg(spent), sequence);
    AdjustBalanceFrame(AdjustBalance(s, o.account, o.reserveAsset, 0, Neg(spent), sequence), o.account,
                       o.reserveAsset, released, Neg(released), sequence);
  }

  lemma ExpectedReserveOfNothing(side: string, price: int64)
    ensures ExpectedReserve(side, price, 0) == 0
  {
  }

  /** An accepted fill: the order was open with enough remaining, and only its own leaf changes. */
  lemma FillFrame(s: State, sequence: int64, id: string, quantity: int64, price: int64)
    requires FillOrder(s, sequence, id, quantity, price).Ok()
    ensures id in s.openOrders && 0 < quantity <= s.openOrders[id].remaining
    ensures s.openOrders[id].side == "BUY" || s.openOrders[id].side == "SELL"
    ensures var t := FillOrder(s, sequence, id, quantity, price).state;
            var o := s.openOrders[id];
            && t == s.(balances := t.balances, openOrders := t.openOrders)
            && t.openOrders == if o.remaining == quantity then s.openOrders - {id}
                 else s.openOrders[id := FilledOrder(o, quantity, sequence)]
  {
    hide AdjustBalance, Normalize, Multiply, ExpectedReserve, Spend, Wrap;
    var o := s.openOrders[id];
    WrapInRange(o.remaining - quantity);
    var spent := if o.side == "BUY" then Multiply(price, quantity).value else quantity;
    SpendFrame(s, sequence, id, quantity, spent);
  }

  function FilledOrder(o: OrderLeaf, quantity: int64, sequence: int64): OrderLeaf {
    var remaining := Sub(o.remaining, quantity);
    o.(filled := Add(o.filled, quantity), remaining := remaining,
       reserved := ExpectedReserve(o.side, o.price, remaining), status := "OPEN", lastSeq := sequence)
  }

  lemma DeliverFrame(s: State, sequence: int64, p: Trade, notional: int64)
    ensures var t := Deliver(s, sequence, p, notional);
            t == s.(balances := t.balances, positions := t.positions)
  {
    hide Normalize, Wrap, AdjustBalance, AdjustPosition, PositionAsset, Buyer, Seller;
    var first := AdjustBalance(s, Buyer(p), PositionAsset(p.market, p.outcome), p.quantity, 0, sequence);
    var bought := if Buyer(p) > 0 then AdjustPosition(first, Buyer(p), p.market, p.outcome, p.quantity, sequence)
      else s;
    AdjustBalanceFrame(s, Buyer(p), PositionAsset(p.market, p.outcome), p.quantity, 0, sequence);
    AdjustPositionFrame(first, Buyer(p), p.market, p.outcome, p.quantity, sequence);
    var second := AdjustBalance(bought, Seller(p), p.collateralAsset, notional, 0, sequence);
    AdjustBalanceFrame(bought, Seller(p), p.collateralAsset, notional, 0, sequence);
    AdjustPositionFrame(second, Seller(p), p.market, p.outcome, Neg(p.quantity), sequence);
  }

  lemma AcceptFrame(s: State, e: Entry)
    requires e.payload.OrderAccepted?
    ensures var t := Apply(s, e).state;
            t == s.(balances := t.balances,
                    openOrders := s.openOrders[e.payload.accept.orderId := AcceptedOrder(e.payload.accept, e.sequence)])
  {
    hide AdjustBalance, Neg, AcceptedOrder, ReserveAssetOf;
    var p := e.payload.accept;
    AdjustBalanceFrame(s, p.account, ReserveAssetOf(p), Neg(p.reserveAmount), p.reserveAmount, e.sequence);
  }

  lemma CancelFrame(s: State, e: Entry)
    requires e.payload.OrderCancelled?
    ensures var t := Apply(s, e).state;
            t == s.(balances := t.balances, openOrders := s.openOrders - {e.payload.cancel.orderId})
  {
    hide AdjustBalance, Neg, Released;
    var (account, asset, amount) := Released(s, e.payload.cancel);
    AdjustBalanceFrame(s, account, asset, amount, Neg(amount), e.sequence);
  }

  /** The states between the two fills of a trade and before its delivery. */
  ghost function TakerFilled(s: State, e: Entry): Outcome
    requires e.payload.TradeMatched?
  {
    FillOrder(s, e.sequence, e.payload.trade.takerOrderId, e.payload.trade.quantity, e.payload.trade.price)
  }

  ghost function BothFilled(s: State, e: Entry): Outcome
    requires e.payload.TradeMatched?
  {
    FillOrder(TakerFilled(s, e).state, e.sequence, e.payload.trade.makerOrderId, e.payload.trade.quantity,
              e.payload.trade.price)
  }

  lemma TradeFrame(s: State, e: Entry)
    requires e.payload.TradeMatched? && Apply(s, e).Ok()
    ensures var p := e.payload.trade;
            && TakerFilled(s, e).Ok() && BothFilled(s, e).Ok()
            && p.price >= 0 && p.price * p.quantity <= MAX_INT64 && p.quantity > 0
            && Apply(s, e).state == Deliver(BothFilled(s, e).state, e.sequence, p, p.price * p.quantity)
    ensures var t, u := Apply(s, e).state, BothFilled(s, e).state;
            t == u.(balances := t.balances, positions := t.positions)
  {
    hide FillOrder, Deliver;
    var p := e.payload.trade;
    FillFrame(s, e.sequence, p.takerOrderId, p.quantity, p.price);
    DeliverFrame(BothFilled(s, e).state, e.sequence, p, p.price * p.quantity);
  }

  lemma FillsFrame(s: State, e: Entry)
    requires e.payload.TradeMatched? && TakerFilled(s, e).Ok() && BothFilled(s, e).Ok()
    ensures var u := BothFilled(s, e).state;
            u == s.(balances := u.balances, openOrders := u.openOrders)
  {
    hide FillOrder, FilledOrder;
    var p := e.payload.trade;
    FillFrame(s, e.sequence, p.takerOrderId, p.quantity, p.price);
    FillFrame(TakerFilled(s, e).state, e.sequence, p.makerOrderId, p.quantity, p.price);
  }

  lemma PayoutFrame(s: State, e: Entry)
    requires e.payload.SettlementPayout?
    ensures var t := Apply(s, e).state;
            t == s.(balances := t.balances, positions := t.positions)
  {
    hide AdjustBalance, SettlePosition, BalanceLeafOf, SettledAsset, PaidAsset, Neg;
    var p := e.payload.payout;
    var debited := AdjustBalance(s, p.account, SettledAsset(p), Neg(p.settled), 0, e.sequence);
    AdjustBalanceFrame(s, p.account, SettledAsset(p), Neg(p.settled), 0, e.sequence);
    SettlePositionFrame(debited, e.sequence, p.account, p.market, p.winningOutcome, p.settled);
    AdjustBalanceFrame(SettlePosition(debited, e.sequence, p.account, p.market, p.winningOutcome, p.settled).state,
                       p.account, PaidAsset(p), p.amount, 0, e.sequence);
  }

  lemma WithdrawalFrame(s: State, e: Entry)
    requires e.payload.WithdrawalRequested?
    ensures var t := Apply(s, e).state;
            t == s.(balances := t.balances, withdrawals := t.withdrawals)
  {
    hide AdjustBalance, Neg, Normalize;
    var p := e.payload.withdrawal;
    AdjustBalanceFrame(s, p.account, p.asset, Neg(p.amount), 0, e.sequence);
  }

  /** Only acceptances, cancellations and trades touch the open orders. */
  lemma OrdersFrame(s: State, e: Entry)
    requires !e.payload.OrderAccepted? && !e.payload.OrderCancelled? && !e.payload.TradeMatched?
    ensures Apply(s, e).state.openOrders == s.openOrders
  {
    hide Normalize, Wrap, Multiply, ApplyTrade, ApplyAccepted, ApplyCancelled;
    match e.payload
    case DepositCredited(account, asset, amount) =>
      hide AdjustBalance;
      AdjustBalanceFrame(s, account, asset, amount, 0, e.sequence);
    case WithdrawalRequested(_) =>
      hide Apply;
      WithdrawalFrame(s, e);
    case SettlementPayout(_) =>
      hide Apply;
      PayoutFrame(s, e);
    case _ =>
      hide Apply;
      OtherFrame(s, e);
  }

  /** Only trades and settlements touch the positions. */
  lemma PositionsFrame(s: State, e: Entry)
    requires !e.payload.TradeMatched? && !e.payload.SettlementPayout?
    ensures Apply(s, e).state.positions == s.positions
  {
    match e.payload
    case DepositCredited(account, asset, amount) =>
      hide AdjustBalance;
      AdjustBalanceFrame(s, account, asset, amount, 0, e.sequence);
    case WithdrawalRequested(_) =>
      hide Apply;
      WithdrawalFrame(s, e);
    case OrderAccepted(_) =>
      hide Apply;
      AcceptFrame(s, e);
    case OrderCancelled(_) =>
      hide Apply;
      CancelFrame(s, e);
    case _ =>
      hide Apply;
      OtherFrame(s, e);
  }

  /** Only nonce advances touch the nonces, only withdrawal requests the withdrawals, and only resolutions the
      market leaves. */
  lemma SideMapsFrame(s: State, e: Entry)
    requires Apply(s, e).Ok()
    ensures !e.payload.NonceAdvanced? ==> Apply(s, e).state.nonces == s.nonces
    ensures !e.payload.WithdrawalRequested? ==> Apply(s, e).state.withdrawals == s.withdrawals
    ensures !e.payload.MarketResolved? ==> Apply(s, e).state.marketFunding == s.marketFunding
  {
    match e.payload
    case TradeMatched(p) =>
      hide Apply, TakerFilled, BothFilled;
      TradeFrame(s, e);
      FillsFrame(s, e);
    case OrderAccepted(_) =>
      hide Apply;
      AcceptFrame(s, e);
    case OrderCancelled(_) =>
      hide Apply;
      CancelFrame(s, e);
    case WithdrawalRequested(_) =>
      hide Apply;
      WithdrawalFrame(s, e);
    case SettlementPayout(_) =>
      hide Apply;
      PayoutFrame(s, e);
    case DepositCredited(account, asset, amount) =>
      hide AdjustBalance;
      AdjustBalanceFrame(s, account, asset, amount, 0, e.sequence);
    case _ =>
      hide Apply;
      OtherFrame(s, e);
  }

  // ---------------------------------------------------------------- totals per asset

  /** Every balance leaf sits under the key printed from its own account and asset, and is not empty. */
  ghost predicate WellKeyed(s: State) {
    forall k :: k in s.balances ==>
      var l := s.balances[k];
      && l.account > 0 && Normalize(l.asset) == l.asset && k == BalanceKey(l.account, l.asset)
      && (l.free != 0 || l.locked != 0)
  }

  ghost function LeafValue(asset: string): BalanceLeaf -> int {
    (l: BalanceLeaf) => if l.asset == asset then l.free + l.locked else 0
  }

  /** Free plus locked of one asset, over all accounts. */
  ghost function Total(s: State, asset: string): int {
    Sum(s.balances, LeafValue(asset))
  }

  lemma AdjustWellKeyed(s: State, account: int64, asset: string, free: int64, locked: int64, sequence: int64)
    requires WellKeyed(s)
    ensures WellKeyed(AdjustBalance(s, account, asset, free, locked, sequence))
  {
    hide Normalize, Add, BalanceKey;
    NormalizeIdempotent(asset);
    BalanceKeyInjective(account, asset, account, Normalize(asset));
  }

  /** A balance update changes the total of its own asset by the sum of its deltas and no other total. */
  lemma AdjustBalanceTotal(s: State, account: int64, asset: string, free: int64, locked: int64, sequence: int64,
                           x: string)
    requires WellKeyed(s)
    ensures var t := AdjustBalance(s, account, asset, free, locked, sequence);
            && WellKeyed(t)
            && Cong(Total(t, x), Total(s, x) + (if account > 0 && Normalize(asset) == x then free + locked else 0))
  {
    hide Normalize, Wrap, BalanceKey, Sum;
    AdjustWellKeyed(s, account, asset, free, locked, sequence);
    if account > 0 {
      var key := BalanceKey(account, asset);
      var was := BalanceLeafOf(s, account, asset);
      var leaf := Moved(was, account, asset, free, locked, sequence);
      if key in s.balances {
        BalanceKeyInjective(account, asset, was.account, was.asset);
      }
      PutBalanceSum(s.balances, key, leaf, x);
      if leaf.asset == x {
        CongMoved(Total(s, x) - was.free - was.locked, was.free, free, was.locked, locked);
      }
    }
  }

  lemma PutBalanceSum(b: map<string, BalanceLeaf>, key: string, leaf: BalanceLeaf, x: string)
    ensures Sum(PutBalance(b, key, leaf), LeafValue(x)) ==
            Sum(b, LeafValue(x)) - At(b, key, LeafValue(x)) + LeafValue(x)(leaf)
  {
    SumRemove(b, key, LeafValue(x));
    SumPut(b, key, leaf, LeafValue(x));
  }

  lemma CongMoved(rest: int, f: int, df: int, l: int, dl: int)
    ensures Cong(rest + Wrap(f + df) + Wrap(l + dl), rest + f + l + df + dl)
  {
    hide Wrap;
    WrapAdd(rest + Wrap(l + dl), f + df);
    WrapAdd(rest + f + df, l + dl);
  }
}
