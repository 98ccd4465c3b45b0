/** Where value goes: what every entry adds to, or takes from, the free and locked balances of one
    asset, seen over all accounts or for a single one. */
module Flows {
  import opened Int64
  import opened Text
  import opened Sums
  import opened Ledger
  import opened Accounts

  /** What is being watched: an asset over all accounts, or one account's holding of it. */
  datatype View = Everyone(asset: string) | Holder(account: int64, asset: string) {
    ghost predicate Sees(a: int64, x: string) {
      match this
      case Everyone(asset) => Normalize(x) == asset
      case Holder(account, asset) => a == account && Normalize(x) == Normalize(asset)
    }
  }

  /** Free plus locked, under a view. */
  ghost function Value(s: State, v: View): int {
    match v
    case Everyone(asset) => Total(s, asset)
    case Holder(account, asset) => Free(s, account, asset) + Locked(s, account, asset)
  }

  /** An amount, if it reaches a real account in view. */
  ghost function Moves(account: int64, asset: string, amount: int, v: View): int {
    if account > 0 && v.Sees(account, asset) then amount else 0
  }

  /** What a fill takes out of the order's reserve for good. */
  ghost function SpentBy(s: State, id: string, quantity: int, price: int, v: View): int {
    if id !in s.openOrders then 0
    else
      var o := s.openOrders[id];
      Moves(o.account, o.reserveAsset, if o.side == "BUY" then price * quantity else quantity, v)
  }

  ghost function TradeFlow(s: State, e: Entry, v: View): int
    requires e.payload.TradeMatched?
  {
    var p := e.payload.trade;
    Moves(Buyer(p), PositionAsset(p.market, p.outcome), p.quantity, v)
    + Moves(Seller(p), p.collateralAsset, p.price * p.quantity, v)
    - SpentBy(s, p.takerOrderId, p.quantity, p.price, v)
    - SpentBy(s, p.makerOrderId, p.quantity, p.price, v)
  }

  /** The exact amount one entry brings into view. */
  ghost function Flow(s: State, e: Entry, v: View): int {
    match e.payload
    case DepositCredited(account, asset, amount) => Moves(account, asset, amount, v)
    case WithdrawalRequested(p) => -Moves(p.account, p.asset, p.amount, v)
    case TradeMatched(_) => TradeFlow(s, e, v)
    case SettlementPayout(p) =>
      Moves(p.account, PaidAsset(p), p.amount, v) - Moves(p.account, SettledAsset(p), p.settled, v)
    case _ => 0
  }

  // ---------------------------------------------------------------- single updates

  lemma CongPlus(a: int, b: int, c: int)
    requires Cong(a, b)
    ensures Cong(a + c, b + c)
  {
    hide Wrap;
    WrapAdd(a, c);
    WrapAdd(b, c);
  }

  /** A balance update whose deltas sum to d, up to wrap-around. */
  lemma AdjustFlow(s: State, account: int64, asset: string, free: int64, locked: int64, sequence: int64, v: View,
                   d: int)
    requires WellKeyed(s) && Cong(free + locked, d)
    ensures var t := AdjustBalance(s, account, asset, free, locked, sequence);
            WellKeyed(t) && Cong(Value(t, v), Value(s, v) + Moves(account, asset, d, v))
  {
    hide Wrap, Normalize, AdjustBalance, WellKeyed, Sum, BalanceLeafOf;
    AdjustBalanceTotal(s, account, asset, free, locked, sequence, v.asset);
    CongPlus(free + locked, d, Value(s, v));
    if v.Holder? {
      AdjustBalanceAt(s, account, asset, free, locked, sequence, v.account, v.asset);
      CongMoved(0, Free(s, v.account, v.asset), free, Locked(s, v.account, v.asset), locked);
    }
  }

  lemma ValueDecides(s: State, t: State, v: View)
    requires s.balances == t.balances
    ensures WellKeyed(s) == WellKeyed(t) && Value(s, v) == Value(t, v)
  {
  }

  lemma NegCancels(r: int64)
    ensures Cong(Neg(r) + r, 0) && Cong(r + Neg(r), 0) && Cong(0 + Neg(r), -(r as int))
  {
    hide Wrap;
    WrapAdd(-(r as int), r);
    WrapAdd(0, -(r as int));
  }

  lemma SpendFlow(s: State, sequence: int64, id: string, quantity: int64, spent: int64, v: View)
    requires WellKeyed(s) && id in s.openOrders && Spend(s, sequence, id, quantity, spent).Ok()
    ensures var t := Spend(s, sequence, id, quantity, spent).state;
            var o := s.openOrders[id];
            WellKeyed(t) && Cong(Value(t, v), Value(s, v) - Moves(o.account, o.reserveAsset, spent, v))
  {
    hide Wrap, Normalize, AdjustBalance, WellKeyed, Value, ExpectedReserve, Neg;
    var o := s.openOrders[id];
    var t := Spend(s, sequence, id, quantity, spent).state;
    var released := Sub(Sub(o.reserved, spent), ExpectedReserve(o.side, o.price, Sub(o.remaining, quantity)));
    var paid := AdjustBalance(s, o.account, o.reserveAsset, 0, Neg(spent), sequence);
    NegCancels(spent);
    AdjustFlow(s, o.account, o.reserveAsset, 0, Neg(spent), sequence, v, -(spent as int));
    NegCancels(released);
    AdjustFlow(paid, o.account, o.reserveAsset, released, Neg(released), sequence, v, 0);
    var refunded := if released > 0
      then AdjustBalance(paid, o.account, o.reserveAsset, released, Neg(released), sequence) else paid;
    ValueDecides(refunded, t, v);
  }

  lemma FillFlow(s: State, sequence: int64, id: string, quantity: int64, price: int64, v: View)
    requires WellKeyed(s) && FillOrder(s, sequence, id, quantity, price).Ok()
    ensures var t := FillOrder(s, sequence, id, quantity, price).state;
            WellKeyed(t) && Cong(Value(t, v), Value(s, v) - SpentBy(s, id, quantity, price, v))
  {
    hide Wrap, Normalize, Spend, WellKeyed, Value;
    var o := s.openOrders[id];
    var spent := if o.side == "BUY" then Multiply(price, quantity).value else quantity;
    SpendFlow(s, sequence, id, quantity, spent, v);
  }

  lemma DeliverFlow(s: State, sequence: int64, p: Trade, notional: int64, v: View)
    requires WellKeyed(s)
    ensures var t := Deliver(s, sequence, p, notional);
            WellKeyed(t) && Cong(Value(t, v),
                                 Value(s, v) + Moves(Buyer(p), PositionAsset(p.market, p.outcome), p.quantity, v)
                                                          + Moves(Seller(p), p.collateralAsset, notional, v))
  {
    hide Normalize, Wrap, AdjustBalance, AdjustPosition, PositionAsset, Buyer, Seller, WellKeyed, Value;
    var asset := PositionAsset(p.market, p.outcome);
    var first := AdjustBalance(s, Buyer(p), asset, p.quantity, 0, sequence);
    AdjustFlow(s, Buyer(p), asset, p.quantity, 0, sequence, v, p.quantity);
    var bought := if Buyer(p) > 0 then AdjustPosition(first, Buyer(p), p.market, p.outcome, p.quantity, sequence)
      else s;
    AdjustPositionFrame(first, Buyer(p), p.market, p.outcome, p.quantity, sequence);
    ValueDecides(bought, if Buyer(p) > 0 then first else s, v);
    var second := AdjustBalance(bought, Seller(p), p.collateralAsset, notional, 0, sequence);
    AdjustFlow(bought, Seller(p), p.collateralAsset, notional, 0, sequence, v, notional);
    AdjustPositionFrame(second, Seller(p), p.market, p.outcome, Neg(p.quantity), sequence);
    ValueDecides(Deliver(s, sequence, p, notional), if Seller(p) > 0 then second else bought, v);
    CongPlus(Value(bought, v), Value(s, v) + Moves(Buyer(p), asset, p.quantity, v),
             Moves(Seller(p), p.collateralAsset, notional, v));
  }

  /** The first fill changes neither whose order the second is nor what it reserves, even if both are one. */
  lemma MakerUnchanged(s: State, e: Entry, v: View)
    requires e.payload.TradeMatched? && Apply(s, e).Ok()
    ensures var p := e.payload.trade;
            SpentBy(TakerFilled(s, e).state, p.makerOrderId, p.quantity, p.price, v) ==
            SpentBy(s, p.makerOrderId, p.quantity, p.price, v)
  {
    hide Apply, FillOrder, Deliver, Moves, ExpectedReserve, Wrap;
    var p := e.payload.trade;
    TradeFrame(s, e);
    FillFrame(s, e.sequence, p.takerOrderId, p.quantity, p.price);
    FillFrame(TakerFilled(s, e).state, e.sequence, p.makerOrderId, p.quantity, p.price);
  }

  lemma TradeTotal(s: State, e: Entry, v: View)
    requires WellKeyed(s) && e.payload.TradeMatched? && Apply(s, e).Ok()
    ensures var t := Apply(s, e).state;
            WellKeyed(t) && Cong(Value(t, v), Value(s, v) + TradeFlow(s, e, v))
  {
    hide Apply, Wrap, Normalize, FillOrder, Deliver, WellKeyed, Value, PositionAsset, Buyer, Seller, SpentBy, Moves;
    var p := e.payload.trade;
    TradeFrame(s, e);
    MakerUnchanged(s, e, v);
    var a, b := TakerFilled(s, e).state, BothFilled(s, e).state;
    FillFlow(s, e.sequence, p.takerOrderId, p.quantity, p.price, v);
    FillFlow(a, e.sequence, p.makerOrderId, p.quantity, p.price, v);
    DeliverFlow(b, e.sequence, p, p.price * p.quantity, v);
    var fst, snd := SpentBy(s, p.takerOrderId, p.quantity, p.price, v),
      SpentBy(a, p.makerOrderId, p.quantity, p.price, v);
    var delivered := Moves(Buyer(p), PositionAsset(p.market, p.outcome), p.quantity, v)
      + Moves(Seller(p), p.collateralAsset, p.price * p.quantity, v);
    CongPlus(Value(a, v), Value(s, v) - fst, -snd);
    CongPlus(Value(b, v), Value(s, v) - fst - snd, delivered);
    assert Cong(Value(b, v), Value(s, v) - fst - snd);
  }

  lemma PayoutTotal(s: State, e: Entry, v: View)
    requires WellKeyed(s) && e.payload.SettlementPayout? && Apply(s, e).Ok()
    ensures var t := Apply(s, e).state;
            WellKeyed(t) && Cong(Value(t, v), Value(s, v) + Flow(s, e, v))
  {
    hide Wrap, Normalize, AdjustBalance, SettlePosition, SettledAsset, PaidAsset, WellKeyed, Value, BalanceLeafOf,
         Neg, Moves;
    var p := e.payload.payout;
    var debited := AdjustBalance(s, p.account, SettledAsset(p), Neg(p.settled), 0, e.sequence);
    NegCancels(p.settled);
    AdjustFlow(s, p.account, SettledAsset(p), Neg(p.settled), 0, e.sequence, v, -(p.settled as int));
    var settled := SettlePosition(debited, e.sequence, p.account, p.market, p.winningOutcome, p.settled).state;
    SettlePositionFrame(debited, e.sequence, p.account, p.market, p.winningOutcome, p.settled);
    ValueDecides(debited, settled, v);
    AdjustFlow(settled, p.account, PaidAsset(p), p.amount, 0, e.sequence, v, p.amount);
    MovesNeg(p.account, SettledAsset(p), p.settled, v);
    MovesNeg(p.account, PaidAsset(p), p.amount, v);
    CongPlus(Value(settled, v), Value(s, v) - Moves(p.account, SettledAsset(p), p.settled, v),
             Moves(p.account, PaidAsset(p), p.amount, v));
  }

  lemma MovesNeg(account: int64, asset: string, amount: int, v: View)
    ensures Moves(account, asset, -amount, v) == -Moves(account, asset, amount, v)
    ensures Moves(account, asset, 0, v) == 0
  {
  }

  lemma {:induction false} WellKeyedRun(s: State, entries: seq<Entry>)
    requires WellKeyed(s) && Run(s, entries).Ok()
    ensures WellKeyed(Run(s, entries).state)
    decreases entries
  {
    hide Apply, WellKeyed;
    if entries != [] {
      FlowStep(s, entries[0], Everyone(""));
      WellKeyedRun(Apply(s, entries[0]).state, entries[1..]);
    }
  }

  /** Every accepted entry changes what any view shows by exactly its flow, whatever the entry. */
  lemma FlowStep(s: State, e: Entry, v: View)
    requires WellKeyed(s) && Apply(s, e).Ok()
    ensures WellKeyed(Apply(s, e).state)
    ensures Cong(Value(Apply(s, e).state, v), Value(s, v) + Flow(s, e, v))
  {
    hide Wrap, Normalize, AdjustBalance, WellKeyed, Value, Neg, Moves, ApplyTrade, ApplyPayout, ApplyNonce,
         ApplyResolved;
    var t := Apply(s, e).state;
    match e.payload
    case TradeMatched(_) => TradeTotal(s, e, v);
    case SettlementPayout(_) => PayoutTotal(s, e, v);
    case DepositCredited(account, asset, amount) => AdjustFlow(s, account, asset, amount, 0, e.sequence, v, amount);
    case WithdrawalRequested(p) =>
      NegCancels(p.amount);
      AdjustFlow(s, p.account, p.asset, Neg(p.amount), 0, e.sequence, v, -(p.amount as int));
      MovesNeg(p.account, p.asset, p.amount, v);
      ValueDecides(t, AdjustBalance(s, p.account, p.asset, Neg(p.amount), 0, e.sequence), v);
    case OrderAccepted(p) =>
      NegCancels(p.reserveAmount);
      AdjustFlow(s, p.account, ReserveAssetOf(p), Neg(p.reserveAmount), p.reserveAmount, e.sequence, v, 0);
      MovesNeg(p.account, ReserveAssetOf(p), 0, v);
      ValueDecides(t, AdjustBalance(s, p.account, ReserveAssetOf(p), Neg(p.reserveAmount), p.reserveAmount,
                                    e.sequence), v);
    case OrderCancelled(p) =>
      hide Released;
      var (account, asset, amount) := Released(s, p);
      NegCancels(amount);
      AdjustFlow(s, account, asset, amount, Neg(amount), e.sequence, v, 0);
      MovesNeg(account, asset, 0, v);
      ValueDecides(t, if amount > 0 then AdjustBalance(s, account, asset, amount, Neg(amount), e.sequence) else s, v);
    case _ =>
      OtherFrame(s, e);
      ValueDecides(s, t, v);
  }
}
