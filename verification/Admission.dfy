/** Exactly which entries the ledger takes, read off the state before them. */
module Admission {
  import opened Int64
  import opened Text
  import opened Ledger
  import opened Accounts
  import opened Authorisations
  import OrderLifetime

  // ---------------------------------------------------------------- fills and trades

  /** What an order still needs to hold for the part not yet filled; nothing if that does not fit a word. */
  ghost function Rest(o: OrderLeaf, left: int64): int {
    if left <= 0 then 0
    else if o.side == "SELL" then left
    else if 0 <= o.price * left <= MAX_INT64 then o.price * left
    else 0
  }

  ghost function Price(o: OrderLeaf, quantity: int64, price: int64): int {
    if o.side == "BUY" then price * quantity else quantity
  }

  /** Enough is left of the order, and, as words, its reserve pays for the fill and what remains. */
  ghost predicate Executable(o: OrderLeaf, quantity: int64, price: int64) {
    && 0 < quantity <= o.remaining
    && (o.side == "SELL" || (o.side == "BUY" && price >= 0 && price * quantity <= MAX_INT64))
    && Wrap(o.reserved - Price(o, quantity, price) - Rest(o, o.remaining - quantity)) >= 0
  }

  /** The order as a fill leaves it. */
  ghost function Rested(o: OrderLeaf, quantity: int64): OrderLeaf
    requires 0 < quantity <= o.remaining
  {
    RestFits(o, o.remaining - quantity);
    o.(remaining := o.remaining - quantity, reserved := Rest(o, o.remaining - quantity))
  }

  lemma RestFits(o: OrderLeaf, left: int64)
    ensures IsInt64(Rest(o, left)) && Rest(o, left) >= 0
  {
  }

  lemma RestIs(o: OrderLeaf, left: int64)
    requires o.side == "BUY" || o.side == "SELL"
    ensures ExpectedReserve(o.side, o.price, left) == Rest(o, left)
  {
    hide Normalize;
    OrderLifetime.SidesNormal();
    if left > 0 && o.price < 0 {
      assert o.price * left < 0;
    }
    if left > 0 && o.price >= 0 {
      assert o.price * left >= 0;
    }
  }

  lemma SpendTakenIff(s: State, sequence: int64, id: string, quantity: int64, spent: int64)
    requires id in s.openOrders && 0 < quantity <= s.openOrders[id].remaining
    ensures var o := s.openOrders[id];
            Spend(s, sequence, id, quantity, spent).Ok()
            <==> Wrap(o.reserved - spent - ExpectedReserve(o.side, o.price, o.remaining - quantity)) >= 0
  {
    hide AdjustBalance, ExpectedReserve, Wrap;
    var o := s.openOrders[id];
    WrapInRange(o.remaining - quantity);
    WrapAdd(o.reserved - spent, ExpectedReserve(o.side, o.price, o.remaining - quantity));
  }

  lemma FillTakenIff(s: State, sequence: int64, id: string, quantity: int64, price: int64)
    ensures FillOrder(s, sequence, id, quantity, price).Ok()
            <==> id in s.openOrders && Executable(s.openOrders[id], quantity, price)
  {
    hide Spend, ExpectedReserve, Wrap, Rest;
    if id in s.openOrders {
      var o := s.openOrders[id];
      if 0 < quantity <= o.remaining && (o.side == "BUY" || o.side == "SELL") {
        RestIs(o, o.remaining - quantity);
        if o.side == "SELL" {
          SpendTakenIff(s, sequence, id, quantity, quantity);
        } else if price >= 0 && price * quantity <= MAX_INT64 {
          assert price * quantity >= 0;
          SpendTakenIff(s, sequence, id, quantity, price * quantity);
        }
      }
    }
  }

  /** Both orders can be filled; an order traded against itself has to be filled twice. */
  ghost predicate TradeTaken(s: State, p: Trade) {
    && p.price >= 0 && p.price * p.quantity <= MAX_INT64
    && p.takerOrderId in s.openOrders && p.makerOrderId in s.openOrders
    && var taker, maker := s.openOrders[p.takerOrderId], s.openOrders[p.makerOrderId];
    && Executable(taker, p.quantity, p.price)
    && Executable(if p.makerOrderId == p.takerOrderId then Rested(taker, p.quantity) else maker, p.quantity, p.price)
  }

  lemma TradeTakenIff(s: State, e: Entry)
    requires e.payload.TradeMatched?
    ensures Apply(s, e).Ok() <==> TradeTaken(s, e.payload.trade)
  {
    hide FillOrder, Deliver, Executable, Rest;
    var p := e.payload.trade;
    FillTakenIff(s, e.sequence, p.takerOrderId, p.quantity, p.price);
    var taken := FillOrder(s, e.sequence, p.takerOrderId, p.quantity, p.price);
    if taken.Ok() {
      FillTakenIff(taken.state, e.sequence, p.makerOrderId, p.quantity, p.price);
      FillFrame(s, e.sequence, p.takerOrderId, p.quantity, p.price);
      SecondFill(s, e.sequence, p);
    }
  }

  /** The second fill meets the order the first one left. */
  lemma SecondFill(s: State, sequence: int64, p: Trade)
    requires FillOrder(s, sequence, p.takerOrderId, p.quantity, p.price).Ok()
    ensures p.takerOrderId in s.openOrders && 0 < p.quantity <= s.openOrders[p.takerOrderId].remaining
    ensures var t := FillOrder(s, sequence, p.takerOrderId, p.quantity, p.price).state;
            (p.makerOrderId in t.openOrders && Executable(t.openOrders[p.makerOrderId], p.quantity, p.price))
            <==> p.makerOrderId in s.openOrders
                 && Executable(if p.makerOrderId == p.takerOrderId then Rested(s.openOrders[p.takerOrderId], p.quantity)
                               else s.openOrders[p.makerOrderId], p.quantity, p.price)
  {
    hide FillOrder, Rest, ExpectedReserve, Wrap;
    FillFrame(s, sequence, p.takerOrderId, p.quantity, p.price);
    var o := s.openOrders[p.takerOrderId];
    WrapInRange(o.remaining - p.quantity);
    RestIs(o, o.remaining - p.quantity);
    SameTerms(FilledOrder(o, p.quantity, sequence), Rested(o, p.quantity), p.quantity, p.price);
  }

  lemma SameTerms(a: OrderLeaf, b: OrderLeaf, quantity: int64, price: int64)
    requires a.side == b.side && a.price == b.price && a.remaining == b.remaining && a.reserved == b.reserved
    ensures Executable(a, quantity, price) <==> Executable(b, quantity, price)
  {
  }

  // ---------------------------------------------------------------- payouts

  /** The shares to be settled are free, and as many are in the position. */
  ghost predicate PayoutTaken(s: State, p: Payout) {
    && p.account > 0 && p.market > 0 && p.settled > 0 && p.amount >= 0
    && p.settled <= Free(s, p.account, SettledAsset(p))
    && p.settled <= QuantityOf(s, p.account, p.market, p.winningOutcome)
  }

  lemma PayoutTakenIff(s: State, e: Entry)
    requires e.payload.SettlementPayout?
    ensures Apply(s, e).Ok() <==> PayoutTaken(s, e.payload.payout)
  {
    hide AdjustBalance, BalanceLeafOf, SettledAsset, PaidAsset, PositionKey, Wrap, PutPosition, Neg;
    var p := e.payload.payout;
    AdjustBalanceFrame(s, p.account, SettledAsset(p), Neg(p.settled), 0, e.sequence);
    var q := QuantityOf(s, p.account, p.market, p.winningOutcome);
    if 0 < p.settled <= q {
      WrapInRange(q - p.settled);
    }
  }

  // ---------------------------------------------------------------- every entry

  ghost predicate AdvanceTaken(s: State, p: Payload)
    requires p.NonceAdvanced?
  {
    && p.nonceAccount > 0 && !Blank(p.authKey) && 1 <= p.accepted < MODULUS - 1 && p.next == p.accepted + 1
    && var key := NonceKey(p.nonceAccount, p.authKey);
    key in s.nonces ==> s.nonces[key].nextNonce <= p.accepted
  }

  ghost predicate Taken(s: State, e: Entry) {
    match e.payload
    case NonceAdvanced(_, _, _, _, _, _) => AdvanceTaken(s, e.payload)
    case TradingKeyAuthorized(w) => Complete(w)
    case TradeMatched(p) => TradeTaken(s, p)
    case MarketResolved(market, outcome, _, _) => market > 0 && !Blank(outcome)
    case SettlementPayout(p) => PayoutTaken(s, p)
    case Unsupported(_) => false
    case Malformed(_) => false
    case OrderAccepted(_) => true
    case OrderCancelled(_) => true
    case DepositCredited(_, _, _) => true
    case WithdrawalRequested(_) => true
  }

  /** Acceptances, cancellations, deposits and withdrawals are always taken; what every other entry asks of
      the ledger is exactly this. */
  lemma TakenIff(s: State, e: Entry)
    ensures Apply(s, e).Ok() <==> Taken(s, e)
  {
    hide ApplyTrade, ApplyPayout, ApplyAccepted, ApplyCancelled, ApplyWithdrawal, AdjustBalance, TradeTaken,
         PayoutTaken, Complete, ValidateKeyWitness, TrimSpace, NonceKey, Blank;
    match e.payload {
      case TradeMatched(p) => TradeTakenIff(s, e);
      case SettlementPayout(p) => PayoutTakenIff(s, e);
      case TradingKeyAuthorized(w) => AuthorisationTakenIff(s, e);
      case MarketResolved(_, outcome, _, _) => TrimsToNothing(outcome);
      case NonceAdvanced(_, authKey, _, _, _, _) => TrimsToNothing(authKey);
      case _ =>
    }
  }

  /** A run is accepted iff the ledger takes each entry where it comes. */
  lemma {:induction false} RunTakenIff(s: State, entries: seq<Entry>)
    ensures Run(s, entries).Ok()
            <==> forall i :: 0 <= i < |entries| ==> Taken(Run(s, entries[..i]).state, entries[i])
    decreases entries
  {
    hide Apply, Taken;
    if entries != [] {
      var t, rest := Apply(s, entries[0]).state, entries[1..];
      TakenIff(s, entries[0]);
      assert Run(s, entries[..0]).state == s;
      if Apply(s, entries[0]).Ok() {
        RunTakenIff(t, rest);
        forall i | 0 < i < |entries| ensures Run(s, entries[..i]).state == Run(t, rest[..i - 1]).state {
          assert entries[..i][1..] == rest[..i - 1];
        }
        if Run(s, entries).Ok() {
          forall i | 0 < i < |entries| ensures Taken(Run(s, entries[..i]).state, entries[i]) {
            assert rest[i - 1] == entries[i];
          }
        } else {
          var j :| 0 <= j < |rest| && !Taken(Run(t, rest[..j]).state, rest[j]);
          assert rest[j] == entries[j + 1];
        }
      }
    }
  }

  // ---------------------------------------------------------------- what a refusal says

  /** What an error says about filling one order. */
  ghost predicate FillFault(open: map<string, OrderLeaf>, id: string, quantity: int64, price: int64, err: Error) {
    match err
    case UnknownOrder => id !in open
    case FillNotPositive => quantity <= 0
    case FillExceedsRemaining => id in open && open[id].remaining < quantity
    case UnsupportedSide => id in open && open[id].side != "BUY" && open[id].side != "SELL"
    case NegativeRelease =>
      && id in open && 0 < quantity <= open[id].remaining
      && Wrap(open[id].reserved - Price(open[id], quantity, price) - Rest(open[id], open[id].remaining - quantity)) < 0
    case _ => false
  }

  /** What an error says about a trade: its notional, its taker's order or its maker's, filled after it. */
  ghost predicate TradeFault(s: State, p: Trade, err: Error) {
    if err == MultiplyFailed then p.price < 0 || p.quantity < 0 || p.price * p.quantity > MAX_INT64
    else
      || FillFault(s.openOrders, p.takerOrderId, p.quantity, p.price, err)
      || FillFault(s.openOrders, p.makerOrderId, p.quantity, p.price, err)
      || (p.takerOrderId == p.makerOrderId && SelfFault(s, p, err))
  }

  /** The same for an order traded against itself, once its first fill is made. */
  ghost predicate SelfFault(s: State, p: Trade, err: Error) {
    && p.takerOrderId in s.openOrders && 0 < p.quantity <= s.openOrders[p.takerOrderId].remaining
    && var o := s.openOrders[p.takerOrderId];
    FillFault(if o.remaining == p.quantity then map[] else map[p.takerOrderId := Rested(o, p.quantity)],
              p.takerOrderId, p.quantity, p.price, err)
  }

  lemma FillErrorTrue(s: State, sequence: int64, id: string, quantity: int64, price: int64)
    requires quantity >= 0 && 0 <= price && price * quantity <= MAX_INT64
    ensures var err := FillOrder(s, sequence, id, quantity, price).err;
            err != Nil ==> FillFault(s.openOrders, id, quantity, price, err)
  {
    hide Spend, ExpectedReserve, Wrap, Rest;
    if id in s.openOrders {
      var o := s.openOrders[id];
      if 0 < quantity <= o.remaining && (o.side == "BUY" || o.side == "SELL") {
        RestIs(o, o.remaining - quantity);
        assert price * quantity >= 0;
        var spent := if o.side == "BUY" then price * quantity else quantity;
        SpendTakenIff(s, sequence, id, quantity, spent);
        SpendError(s, sequence, id, quantity, spent);
      }
    }
  }

  lemma SpendError(s: State, sequence: int64, id: string, quantity: int64, spent: int64)
    requires id in s.openOrders
    ensures Spend(s, sequence, id, quantity, spent).err in {Nil, NegativeRelease}
  {
    hide AdjustBalance, ExpectedReserve, Wrap;
  }

  lemma TradeErrorTrue(s: State, e: Entry)
    requires e.payload.TradeMatched? && !Apply(s, e).Ok()
    ensures TradeFault(s, e.payload.trade, Apply(s, e).err)
  {
    hide FillOrder, Deliver, FillFault, Rest;
    var p := e.payload.trade;
    if p.price >= 0 && p.quantity >= 0 && p.price * p.quantity <= MAX_INT64 {
      FillErrorTrue(s, e.sequence, p.takerOrderId, p.quantity, p.price);
      FaultKinds(s.openOrders, p.takerOrderId, p.quantity, p.price, Apply(s, e).err);
      var taken := FillOrder(s, e.sequence, p.takerOrderId, p.quantity, p.price);
      if taken.Ok() {
        FillErrorTrue(taken.state, e.sequence, p.makerOrderId, p.quantity, p.price);
        FaultKinds(taken.state.openOrders, p.makerOrderId, p.quantity, p.price, Apply(s, e).err);
        SecondFault(s, e.sequence, p, Apply(s, e).err);
      }
    }
  }

  lemma FaultKinds(open: map<string, OrderLeaf>, id: string, quantity: int64, price: int64, err: Error)
    ensures FillFault(open, id, quantity, price, err) ==> err != MultiplyFailed && err != Nil
  {
  }

  lemma SecondFault(s: State, sequence: int64, p: Trade, err: Error)
    requires FillOrder(s, sequence, p.takerOrderId, p.quantity, p.price).Ok()
    requires var t := FillOrder(s, sequence, p.takerOrderId, p.quantity, p.price).state;
             FillFault(t.openOrders, p.makerOrderId, p.quantity, p.price, err)
    ensures FillFault(s.openOrders, p.makerOrderId, p.quantity, p.price, err)
            || (p.takerOrderId == p.makerOrderId && SelfFault(s, p, err))
  {
    hide FillOrder, Rest, ExpectedReserve, Wrap;
    FillFrame(s, sequence, p.takerOrderId, p.quantity, p.price);
    var o := s.openOrders[p.takerOrderId];
    WrapInRange(o.remaining - p.quantity);
    RestIs(o, o.remaining - p.quantity);
    SameRest(FilledOrder(o, p.quantity, sequence), Rested(o, p.quantity));
  }

  lemma SameRest(a: OrderLeaf, b: OrderLeaf)
    requires a.side == b.side && a.price == b.price
    ensures forall left: int64 :: Rest(a, left) == Rest(b, left)
  {
  }

  ghost predicate PayoutFault(s: State, p: Payout, err: Error) {
    match err
    case MissingField => p.account <= 0 || p.market <= 0
    case SettlementInvalid => p.settled <= 0 || p.amount < 0
    case SettlementExceedsBalance => Free(s, p.account, SettledAsset(p)) < p.settled
    case UnknownPosition => PositionKey(p.account, p.market, p.winningOutcome) !in s.positions
    case SettlementExceedsPosition => QuantityOf(s, p.account, p.market, p.winningOutcome) < p.settled
    case _ => false
  }

  ghost predicate Fault(s: State, e: Entry, err: Error) {
    match e.payload
    case NonceAdvanced(account, authKey, _, _, accepted, next) =>
      (match err
       case MissingField => account <= 0 || Blank(authKey)
       case NonceInvalid => !(1 <= accepted < MODULUS - 1 && next == accepted + 1)
       case NonceRegressed =>
         NonceKey(account, authKey) in s.nonces && accepted < s.nonces[NonceKey(account, authKey)].nextNonce
       case _ => false)
    case TradingKeyAuthorized(w) => err == MissingField && !Complete(w)
    case MarketResolved(market, outcome, _, _) => err == MissingField && (market <= 0 || Blank(outcome))
    case TradeMatched(p) => TradeFault(s, p, err)
    case SettlementPayout(p) => PayoutFault(s, p, err)
    case Unsupported(_) => err == UnsupportedEntry
    case Malformed(_) => err == UndecodablePayload
    case _ => false
  }

  lemma PayoutErrorTrue(s: State, e: Entry)
    requires e.payload.SettlementPayout? && !Apply(s, e).Ok()
    ensures PayoutFault(s, e.payload.payout, Apply(s, e).err)
  {
    hide AdjustBalance, BalanceLeafOf, SettledAsset, PaidAsset, PositionKey, Wrap, PutPosition, Neg;
    var p := e.payload.payout;
    AdjustBalanceFrame(s, p.account, SettledAsset(p), Neg(p.settled), 0, e.sequence);
    var q := QuantityOf(s, p.account, p.market, p.winningOutcome);
    if 0 < p.settled <= q {
      WrapInRange(q - p.settled);
    }
  }

  /** A refusal says what is wrong, in terms of the ledger before the entry. The guard against a negative
      position after a settlement never strikes. */
  lemma RefusalSaysWhy(s: State, e: Entry)
    ensures !Apply(s, e).Ok() ==> Fault(s, e, Apply(s, e).err)
    ensures Apply(s, e).err != NegativePosition
  {
    hide ApplyTrade, ApplyPayout, ApplyAccepted, ApplyCancelled, ApplyWithdrawal, AdjustBalance, TradeFault,
         PayoutFault, Complete, ValidateKeyWitness, TrimSpace, NonceKey, Blank;
    match e.payload {
      case TradeMatched(p) =>
        if !Apply(s, e).Ok() {
          TradeErrorTrue(s, e);
          TradeNotNegative(s, p, Apply(s, e).err);
        }
      case SettlementPayout(p) =>
        if !Apply(s, e).Ok() {
          PayoutErrorTrue(s, e);
          PayoutNotNegative(s, p, Apply(s, e).err);
        }
      case TradingKeyAuthorized(w) =>
        AuthorisationTakenIff(s, e);
        WitnessError(w);
      case MarketResolved(_, outcome, _, _) => TrimsToNothing(outcome);
      case NonceAdvanced(_, authKey, _, _, _, _) => TrimsToNothing(authKey);
      case _ =>
    }
  }

  lemma WitnessError(w: KeyWitness)
    ensures ValidateKeyWitness(w) in {Nil, MissingField}
  {
    hide TrimSpace;
  }

  lemma TradeNotNegative(s: State, p: Trade, err: Error)
    requires TradeFault(s, p, err)
    ensures err != NegativePosition
  {
    hide Rest;
  }

  lemma PayoutNotNegative(s: State, p: Payout, err: Error)
    requires PayoutFault(s, p, err)
    ensures err != NegativePosition
  {
  }
}
