/** Locked balances are exactly the reserves of the open orders. The code checks none of the
    conditions this rests on; the step theorem says which entries break it and that no others do. */
module LockedFunds {
  import opened Int64
  import opened Text
  import opened Sums
  import opened Ledger
  import opened Accounts

  ghost predicate Same(account: int64, asset: string, a: int64, x: string) {
    account == a && Normalize(asset) == Normalize(x)
  }

  /** What one open order reserves of asset x for account a. */
  ghost function Reserve(a: int64, x: string): OrderLeaf -> int {
    (o: OrderLeaf) => if Same(o.account, o.reserveAsset, a, x) then o.reserved else 0
  }

  ghost function Reserved(s: State, a: int64, x: string): int {
    Sum(s.openOrders, Reserve(a, x))
  }

  ghost predicate ExplainedAt(s: State, a: int64, x: string) {
    Locked(s, a, x) == Wrap(Reserved(s, a, x))
  }

  ghost predicate Explained(s: State) {
    forall a: int64, x: string :: a > 0 ==> ExplainedAt(s, a, x)
  }

  ghost predicate NonNegativeReserves(s: State) {
    forall id :: id in s.openOrders ==> s.openOrders[id].reserved >= 0
  }

  /** Whether an entry touches (a, x) without keeping locked funds and open orders in step: an
      acceptance that overwrites an order still holding a reserve, the cancellation of an order the ledger
      does not hold that still releases something, or the cancellation of an order with a negative
      reserve, which nothing undoes. */
  ghost predicate LosesTrackAt(s: State, e: Entry, a: int64, x: string) {
    match e.payload
    case OrderAccepted(p) =>
      && p.orderId in s.openOrders
      && var o := s.openOrders[p.orderId];
      Same(o.account, o.reserveAsset, a, x) && o.reserved != 0
    case OrderCancelled(p) =>
      var (account, asset, amount) := Released(s, p);
      Same(account, asset, a, x) && (if p.orderId in s.openOrders then amount < 0 else amount != 0)
    case _ => false
  }

  /** The same, for the ledger as a whole, as a check a caller can make before applying the entry. */
  predicate LosesTrack(s: State, e: Entry) {
    match e.payload
    case OrderAccepted(p) =>
      p.orderId in s.openOrders && s.openOrders[p.orderId].account > 0 && s.openOrders[p.orderId].reserved != 0
    case OrderCancelled(p) =>
      var (account, _, amount) := Released(s, p);
      account > 0 && (if p.orderId in s.openOrders then amount < 0 else amount != 0)
    case _ => false
  }

  lemma LosesTrackSomewhere(s: State, e: Entry)
    ensures LosesTrack(s, e) <==> exists a: int64, x: string :: a > 0 && LosesTrackAt(s, e, a, x)
  {
    hide Normalize, Multiply, ExpectedReserve, CancelledReserveAsset;
    if LosesTrack(s, e) {
      if e.payload.OrderAccepted? {
        var o := s.openOrders[e.payload.accept.orderId];
        assert LosesTrackAt(s, e, o.account, o.reserveAsset);
      } else {
        var (account, asset, _) := Released(s, e.payload.cancel);
        assert LosesTrackAt(s, e, account, asset);
      }
    }
  }

  // ---------------------------------------------------------------- one fill

  lemma SpendKeeps(s: State, sequence: int64, id: string, quantity: int64, spent: int64, a: int64, x: string)
    requires a > 0 && id in s.openOrders && ExplainedAt(s, a, x)
    requires Sub(s.openOrders[id].remaining, quantity) >= 0
    requires Spend(s, sequence, id, quantity, spent).Ok()
    ensures ExplainedAt(Spend(s, sequence, id, quantity, spent).state, a, x)
  {
    hide Normalize, Wrap, Sum, BalanceLeafOf, AdjustBalance, ExpectedReserve;
    var o := s.openOrders[id];
    var t := Spend(s, sequence, id, quantity, spent).state;
    var remaining := Sub(o.remaining, quantity);
    var expected := ExpectedReserve(o.side, o.price, remaining);
    var released := Sub(Sub(o.reserved, spent), expected);
    var paid := AdjustBalance(s, o.account, o.reserveAsset, 0, Neg(spent), sequence);
    var refunded := if released > 0
      then AdjustBalance(paid, o.account, o.reserveAsset, released, Neg(released), sequence) else paid;
    AdjustBalanceFrame(s, o.account, o.reserveAsset, 0, Neg(spent), sequence);
    AdjustBalanceFrame(paid, o.account, o.reserveAsset, released, Neg(released), sequence);
    var filled := o.(filled := Add(o.filled, quantity), remaining := remaining, reserved := expected,
                     status := "OPEN", lastSeq := sequence);
    assert t.openOrders == if remaining == 0 then s.openOrders - {id} else s.openOrders[id := filled];
    SumRemove(s.openOrders, id, Reserve(a, x));
    SumPut(s.openOrders, id, filled, Reserve(a, x));
    ExpectedReserveOfNothing(o.side, o.price);
    AdjustBalanceAt(s, o.account, o.reserveAsset, 0, Neg(spent), sequence, a, x);
    AdjustBalanceAt(paid, o.account, o.reserveAsset, released, Neg(released), sequence, a, x);
    BalancesDecide(t, refunded, a, x);
    if Same(o.account, o.reserveAsset, a, x) {
      assert Reserved(t, a, x) == Reserved(s, a, x) - o.reserved + expected;
      SpendArithmetic(Reserved(s, a, x), o.reserved, spent, expected);
    }
  }

  lemma SpendArithmetic(total: int, reserved: int, spent: int, expected: int)
    ensures var released: int := Wrap(Wrap(reserved - spent) - expected);
            var once: int := Wrap(Wrap(total) + Wrap(-spent));
            && once == Wrap(total - spent)
            && Wrap(once + Wrap(-released)) == Wrap(total - reserved + expected)
            && (released == 0 ==> once == Wrap(total - reserved + expected))
  {
    hide Wrap;
    var released: int := Wrap(Wrap(reserved - spent) - expected);
    WrapAdd(total, Wrap(-spent));
    WrapAdd(total, -spent);
    WrapAdd(total - spent, Wrap(-released));
    WrapAdd(total - spent, -released);
    WrapAdd(reserved - spent, expected);
    WrapAdd(total - spent, reserved - spent - expected);
    assert total - spent - (reserved - spent - expected) == total - reserved + expected;
    assert total - spent + -released == total - spent - released;
  }

  lemma FillKeeps(s: State, sequence: int64, id: string, quantity: int64, price: int64, a: int64, x: string)
    requires a > 0 && ExplainedAt(s, a, x)
    requires FillOrder(s, sequence, id, quantity, price).Ok()
    ensures ExplainedAt(FillOrder(s, sequence, id, quantity, price).state, a, x)
  {
    hide Spend, ExplainedAt, Normalize, Wrap, Multiply;
    var o := s.openOrders[id];
    WrapInRange(o.remaining - quantity);
    var spent := if o.side == "BUY" then Multiply(price, quantity).value else quantity;
    SpendKeeps(s, sequence, id, quantity, spent, a, x);
  }

  /** Updates that leave the orders and every locked balance alone. */
  lemma FreeMoveKeeps(s: State, t: State, a: int64, x: string)
    requires ExplainedAt(s, a, x) && t.openOrders == s.openOrders && Locked(t, a, x) == Locked(s, a, x)
    ensures ExplainedAt(t, a, x)
  {
  }

  lemma DeliverFreeOnly(s: State, sequence: int64, p: Trade, notional: int64, a: int64, x: string)
    ensures var t := Deliver(s, sequence, p, notional);
            t.openOrders == s.openOrders && Locked(t, a, x) == Locked(s, a, x)
  {
    hide Normalize, Wrap, AdjustBalance, AdjustPosition, PositionAsset, Buyer, Seller, BalanceLeafOf;
    var first := AdjustBalance(s, Buyer(p), PositionAsset(p.market, p.outcome), p.quantity, 0, sequence);
    var bought := if Buyer(p) > 0 then AdjustPosition(first, Buyer(p), p.market, p.outcome, p.quantity, sequence)
      else s;
    FreeOnly(s, Buyer(p), PositionAsset(p.market, p.outcome), p.quantity, sequence, a, x);
    AdjustPositionFrame(first, Buyer(p), p.market, p.outcome, p.quantity, sequence);
    BalancesDecide(bought, if Buyer(p) > 0 then first else s, a, x);
    var second := AdjustBalance(bought, Seller(p), p.collateralAsset, notional, 0, sequence);
    FreeOnly(bought, Seller(p), p.collateralAsset, notional, sequence, a, x);
    AdjustPositionFrame(second, Seller(p), p.market, p.outcome, Neg(p.quantity), sequence);
    BalancesDecide(Deliver(s, sequence, p, notional), if Seller(p) > 0 then second else bought, a, x);
  }

  lemma TradeKeeps(s: State, sequence: int64, p: Trade, a: int64, x: string)
    requires a > 0 && ExplainedAt(s, a, x) && ApplyTrade(s, sequence, p).Ok()
    ensures ExplainedAt(ApplyTrade(s, sequence, p).state, a, x)
  {
    hide FillOrder, Deliver, Multiply, ExplainedAt, Normalize, BalanceLeafOf;
    var taker := FillOrder(s, sequence, p.takerOrderId, p.quantity, p.price);
    FillKeeps(s, sequence, p.takerOrderId, p.quantity, p.price, a, x);
    var maker := FillOrder(taker.state, sequence, p.makerOrderId, p.quantity, p.price);
    FillKeeps(taker.state, sequence, p.makerOrderId, p.quantity, p.price, a, x);
    var notional := Multiply(p.price, p.quantity).value;
    DeliverFreeOnly(maker.state, sequence, p, notional, a, x);
    FreeMoveKeeps(maker.state, Deliver(maker.state, sequence, p, notional), a, x);
  }

  lemma PayoutKeeps(s: State, sequence: int64, p: Payout, a: int64, x: string)
    requires a > 0 && ExplainedAt(s, a, x) && ApplyPayout(s, sequence, p).Ok()
    ensures ExplainedAt(ApplyPayout(s, sequence, p).state, a, x)
  {
    hide Normalize, Wrap, AdjustBalance, SettlePosition, BalanceLeafOf, SettledAsset, PaidAsset;
    var debited := AdjustBalance(s, p.account, SettledAsset(p), Neg(p.settled), 0, sequence);
    FreeOnly(s, p.account, SettledAsset(p), Neg(p.settled), sequence, a, x);
    var settled := SettlePosition(debited, sequence, p.account, p.market, p.winningOutcome, p.settled);
    SettlePositionFrame(debited, sequence, p.account, p.market, p.winningOutcome, p.settled);
    BalancesDecide(debited, settled.state, a, x);
    FreeOnly(settled.state, p.account, PaidAsset(p), p.amount, sequence, a, x);
  }

  // ---------------------------------------------------------------- accept and cancel

  lemma AcceptStep(s: State, e: Entry, a: int64, x: string)
    requires a > 0 && ExplainedAt(s, a, x) && e.payload.OrderAccepted?
    ensures ExplainedAt(Apply(s, e).state, a, x) <==> !LosesTrackAt(s, e, a, x)
  {
    hide Normalize, Wrap, AdjustBalance, BalanceLeafOf, ReserveAssetOf, Sum;
    var p := e.payload.accept;
    var asset := ReserveAssetOf(p);
    var moved := AdjustBalance(s, p.account, asset, Neg(p.reserveAmount), p.reserveAmount, e.sequence);
    AdjustBalanceAt(s, p.account, asset, Neg(p.reserveAmount), p.reserveAmount, e.sequence, a, x);
    AdjustBalanceFrame(s, p.account, asset, Neg(p.reserveAmount), p.reserveAmount, e.sequence);
    var t := Apply(s, e).state;
    BalancesDecide(t, moved, a, x);
    SumPut(s.openOrders, p.orderId, AcceptedOrder(p, e.sequence), Reserve(a, x));
    var was := At(s.openOrders, p.orderId, Reserve(a, x));
    var added := if Same(p.account, asset, a, x) then p.reserveAmount else 0;
    assert Reserved(t, a, x) == Reserved(s, a, x) - was + added;
    WrapAdd(Reserved(s, a, x), added);
    WrapDiffers(Reserved(s, a, x) + added, was);
  }

  /** Subtracting a word changes the stored result unless the word is zero. */
  lemma WrapDiffers(x: int, w: int)
    requires IsInt64(w)
    ensures Wrap(x - w) == Wrap(x) <==> w == 0
  {
    hide Wrap;
    WrapCharacterised(x, Wrap(x));
    WrapCharacterised(x - w, Wrap(x));
  }

  /** What a cancellation does to a locked balance, whether or not the ledger knows the order. */
  lemma CancelLocked(s: State, e: Entry, a: int64, x: string)
    requires a > 0 && e.payload.OrderCancelled?
    ensures var (account, asset, amount) := Released(s, e.payload.cancel);
            Locked(Apply(s, e).state, a, x) ==
              Wrap(Locked(s, a, x) - (if Same(account, asset, a, x) && amount > 0 then amount else 0))
  {
    hide Normalize, Wrap, AdjustBalance, BalanceLeafOf, Released;
    var (account, asset, amount) := Released(s, e.payload.cancel);
    AdjustBalanceAt(s, account, asset, amount, Neg(amount), e.sequence, a, x);
    var moved := if amount > 0 then AdjustBalance(s, account, asset, amount, Neg(amount), e.sequence) else s;
    BalancesDecide(Apply(s, e).state, moved, a, x);
    WrapInRange(Locked(s, a, x));
    WrapAdd(Locked(s, a, x), -(amount as int));
  }

  lemma CancelStep(s: State, e: Entry, a: int64, x: string)
    requires a > 0 && ExplainedAt(s, a, x) && e.payload.OrderCancelled?
    ensures ExplainedAt(Apply(s, e).state, a, x) <==> !LosesTrackAt(s, e, a, x)
  {
    hide Normalize, Wrap, Apply, BalanceLeafOf, Sum, ExpectedReserve, CancelledReserveAsset;
    var p := e.payload.cancel;
    CancelFrame(s, e);
    CancelLocked(s, e, a, x);
    SumRemove(s.openOrders, p.orderId, Reserve(a, x));
    var total := Reserved(s, a, x);
    var (account, asset, amount) := Released(s, p);
    var taken := if Same(account, asset, a, x) && amount > 0 then amount else 0;
    WrapAdd(total, taken);
    if p.orderId !in s.openOrders {
      WrapDiffers(total, taken);
    } else if Same(account, asset, a, x) {
      WrapInRange(Wrap(total));
      WrapDiffers(total, amount);
    }
  }

  // ---------------------------------------------------------------- every entry, every run

  lemma StepAt(s: State, e: Entry, a: int64, x: string)
    requires a > 0 && ExplainedAt(s, a, x) && Apply(s, e).Ok()
    ensures ExplainedAt(Apply(s, e).state, a, x) <==> !LosesTrackAt(s, e, a, x)
  {
    hide Normalize, ApplyNonce, ApplyResolved;
    match e.payload
    case OrderAccepted(_) => AcceptStep(s, e, a, x);
    case OrderCancelled(_) => CancelStep(s, e, a, x);
    case TradeMatched(p) =>
      hide ApplyTrade, ExplainedAt;
      TradeKeeps(s, e.sequence, p, a, x);
    case SettlementPayout(p) =>
      hide ApplyPayout, ExplainedAt;
      PayoutKeeps(s, e.sequence, p, a, x);
    case DepositCredited(account, asset, amount) =>
      hide AdjustBalance, BalanceLeafOf, Wrap, Normalize;
      FreeOnly(s, account, asset, amount, e.sequence, a, x);
    case WithdrawalRequested(p) =>
      hide AdjustBalance, BalanceLeafOf, Wrap, Normalize;
      FreeOnly(s, p.account, p.asset, Neg(p.amount), e.sequence, a, x);
      BalancesDecide(Apply(s, e).state, AdjustBalance(s, p.account, p.asset, Neg(p.amount), 0, e.sequence), a, x);
    case _ =>
      hide ApplyNonce, ApplyResolved, Normalize, Wrap, BalanceLeafOf;
      OtherFrame(s, e);
      BalancesDecide(s, Apply(s, e).state, a, x);
  }

  ghost predicate Sound(s: State) {
    Explained(s) && NonNegativeReserves(s)
  }

  predicate ReservesNegative(e: Entry) {
    e.payload.OrderAccepted? && e.payload.accept.reserveAmount < 0
  }

  /** An entry the ledger applies without complaint although it parts locked funds from open orders, now or
      once the order is cancelled. */
  predicate Breaks(s: State, e: Entry) {
    LosesTrack(s, e) || ReservesNegative(e)
  }

  lemma FillReserves(s: State, sequence: int64, id: string, quantity: int64, price: int64)
    requires NonNegativeReserves(s)
    requires FillOrder(s, sequence, id, quantity, price).Ok()
    ensures NonNegativeReserves(FillOrder(s, sequence, id, quantity, price).state)
  {
    hide FillOrder, Wrap, Normalize, ExpectedReserve;
    FillFrame(s, sequence, id, quantity, price);
  }

  lemma SameReserves(s: State, t: State)
    requires s.openOrders == t.openOrders && NonNegativeReserves(s)
    ensures NonNegativeReserves(t)
  {
  }

  lemma ReservesStep(s: State, e: Entry)
    requires NonNegativeReserves(s) && Apply(s, e).Ok()
    ensures NonNegativeReserves(Apply(s, e).state) <==> !ReservesNegative(e)
  {
    hide Apply;
    match e.payload
    case TradeMatched(p) =>
      hide NonNegativeReserves, FillOrder;
      TradeFrame(s, e);
      FillReserves(s, e.sequence, p.takerOrderId, p.quantity, p.price);
      FillReserves(TakerFilled(s, e).state, e.sequence, p.makerOrderId, p.quantity, p.price);
      SameReserves(BothFilled(s, e).state, Apply(s, e).state);
    case OrderAccepted(p) =>
      AcceptFrame(s, e);
      assert p.orderId in Apply(s, e).state.openOrders;
    case OrderCancelled(p) => CancelFrame(s, e);
    case _ => OrdersFrame(s, e);
  }

  /** One entry, whatever reserves the ledger holds: locked funds stay the sums of open reserves exactly when
      the entry is not one of the three kinds that lose track of a reserve. */
  lemma ExplainedStep(s: State, e: Entry)
    requires Explained(s) && Apply(s, e).Ok()
    ensures Explained(Apply(s, e).state) <==> !LosesTrack(s, e)
  {
    hide Apply, ExplainedAt, LosesTrackAt, LosesTrack;
    LosesTrackSomewhere(s, e);
    forall a: int64, x: string | a > 0
      ensures ExplainedAt(Apply(s, e).state, a, x) <==> !LosesTrackAt(s, e, a, x)
    {
      StepAt(s, e, a, x);
    }
  }

  /** Reserves stay non-negative exactly when the entry does not reserve a negative amount; and then
      cancelling a known order never loses track. */
  lemma SoundStep(s: State, e: Entry)
    requires Sound(s) && Apply(s, e).Ok()
    ensures NonNegativeReserves(Apply(s, e).state) <==> !ReservesNegative(e)
    ensures Sound(Apply(s, e).state) <==> !Breaks(s, e)
  {
    hide Apply, Explained, LosesTrack, NonNegativeReserves, ReservesNegative;
    ReservesStep(s, e);
    ExplainedStep(s, e);
  }

  predicate TracksRun(s: State, entries: seq<Entry>)
    decreases entries
  {
    entries != [] ==> !LosesTrack(s, entries[0]) && TracksRun(Apply(s, entries[0]).state, entries[1..])
  }

  /** Over every accepted run that never loses track, negative reserves included. */
  lemma {:induction false} ExplainedRun(s: State, entries: seq<Entry>)
    requires Explained(s) && Run(s, entries).Ok() && TracksRun(s, entries)
    ensures Explained(Run(s, entries).state)
    decreases entries
  {
    hide Apply, Explained, LosesTrack;
    if entries != [] {
      ExplainedStep(s, entries[0]);
      ExplainedRun(Apply(s, entries[0]).state, entries[1..]);
    }
  }

  /** No entry of the run breaks the books. */
  predicate Careful(s: State, entries: seq<Entry>)
    decreases entries
  {
    entries != [] ==> !Breaks(s, entries[0]) && Careful(Apply(s, entries[0]).state, entries[1..])
  }

  lemma {:induction false} SoundRunFrom(s: State, entries: seq<Entry>)
    requires Sound(s) && Run(s, entries).Ok() && Careful(s, entries)
    ensures Sound(Run(s, entries).state)
    decreases entries
  {
    hide Apply, Sound, Breaks;
    if entries != [] {
      SoundStep(s, entries[0]);
      SoundRunFrom(Apply(s, entries[0]).state, entries[1..]);
    }
  }

  lemma EmptySound()
    ensures Sound(EMPTY)
  {
    hide Normalize;
    assert forall a: int64, x: string :: Locked(EMPTY, a, x) == 0;
  }

  /** Every run from the empty ledger that is accepted and careful: each locked balance is the sum of
      the reserves of that account's open orders in that asset, and is never negative while that sum
      fits a machine word. */
  lemma LockedExplained(entries: seq<Entry>, a: int64, x: string)
    requires Run(EMPTY, entries).Ok() && Careful(EMPTY, entries) && a > 0
    ensures var s := Run(EMPTY, entries).state;
            && Locked(s, a, x) == Wrap(Reserved(s, a, x))
            && Reserved(s, a, x) >= 0
            && (IsInt64(Reserved(s, a, x)) ==> Locked(s, a, x) == Reserved(s, a, x) >= 0)
  {
    hide Apply, Wrap, BalanceLeafOf, Normalize, Run, Careful, Sum;
    EmptySound();
    SoundRunFrom(EMPTY, entries);
    var s := Run(EMPTY, entries).state;
    assert ExplainedAt(s, a, x);
    SumNonNegative(s.openOrders, Reserve(a, x));
    if IsInt64(Reserved(s, a, x)) {
      WrapInRange(Reserved(s, a, x));
    }
  }

  /** The ledger accepts an order id twice, and then the first reserve is locked for good. */
  lemma ReusedOrderIdBreaks(p: Acceptance, first: int64, second: int64)
    requires p.account > 0 && p.reserveAmount > 0
    ensures var twice := [Entry(first, OrderAccepted(p)), Entry(second, OrderAccepted(p))];
            Run(EMPTY, twice).Ok() && !Sound(Run(EMPTY, twice).state)
  {
    hide Sound, Wrap, Normalize, AdjustBalance;
    var a, b := Entry(first, OrderAccepted(p)), Entry(second, OrderAccepted(p));
    var s := Apply(EMPTY, a).state;
    EmptySound();
    SoundStep(EMPTY, a);
    SoundStep(s, b);
    AcceptFrame(EMPTY, a);
    hide Apply;
    RunTwo(EMPTY, a, b);
  }

  lemma RunTwo(s: State, a: Entry, b: Entry)
    requires Apply(s, a).Ok() && Apply(Apply(s, a).state, b).Ok()
    ensures Run(s, [a, b]) == Apply(Apply(s, a).state, b)
  {
    hide Apply;
    var t := Apply(s, a).state;
    assert [a, b][1..] == [b] && [b][1..] == [];
    assert Run(t, [b]) == Run(Apply(t, b).state, []);
  }

  /** It also cancels an order it does not hold, and then unlocks what was never locked. */
  lemma UnknownCancelBreaks(p: Cancellation, sequence: int64)
    requires p.account > 0 && Released(EMPTY, p).2 > 0
    ensures Apply(EMPTY, Entry(sequence, OrderCancelled(p))).Ok()
    ensures !Sound(Apply(EMPTY, Entry(sequence, OrderCancelled(p))).state)
  {
    hide Sound, Wrap, Normalize, AdjustBalance, ExpectedReserve, CancelledReserveAsset;
    EmptySound();
    SoundStep(EMPTY, Entry(sequence, OrderCancelled(p)));
  }

  /** And it accepts a negative reserve, which a cancellation then does not give back: nothing is open, and
      the locked balance stays negative. */
  lemma NegativeReserveBreaks(p: Acceptance, c: Cancellation, first: int64, second: int64)
    requires p.account > 0 && p.reserveAmount < 0 && c.orderId == p.orderId
    ensures var run := Run(EMPTY, [Entry(first, OrderAccepted(p)), Entry(second, OrderCancelled(c))]);
            && run.Ok() && run.state.openOrders == map[]
            && Locked(run.state, p.account, ReserveAssetOf(p)) == p.reserveAmount
            && !Explained(run.state)
  {
    hide Wrap, Normalize, AdjustBalance, BalanceLeafOf;
    var a, b := Entry(first, OrderAccepted(p)), Entry(second, OrderCancelled(c));
    var s := Apply(EMPTY, a).state;
    var t := Apply(s, b).state;
    var x := ReserveAssetOf(p);
    AcceptFrame(EMPTY, a);
    CancelFrame(s, b);
    RunTwo(EMPTY, a, b);
    var moved := AdjustBalance(EMPTY, p.account, x, Neg(p.reserveAmount), p.reserveAmount, first);
    AdjustBalanceAt(EMPTY, p.account, x, Neg(p.reserveAmount), p.reserveAmount, first, p.account, x);
    EmptyLocked(p.account, x);
    BalancesDecide(s, moved, p.account, x);
    BalancesDecide(s, t, p.account, x);
    WrapInRange(p.reserveAmount);
    WrapInRange(0);
    assert Reserved(t, p.account, x) == 0;
    assert !ExplainedAt(t, p.account, x);
  }

  lemma EmptyLocked(a: int64, x: string)
    ensures Locked(EMPTY, a, x) == 0
  {
    hide Normalize;
  }

  // ---------------------------------------------------------------- quantities of open orders

  /** Filled and remaining add up, and an order accepted with a positive quantity has some left. */
  ghost predicate Accounted(o: OrderLeaf) {
    && o.filled >= 0
    && o.filled + o.remaining == o.original
    && (o.original > 0 ==> o.remaining > 0)
    && (o.filled > 0 ==> o.original > 0)
  }

  ghost predicate AllAccounted(s: State) {
    forall id :: id in s.openOrders ==> Accounted(s.openOrders[id])
  }

  lemma FillAccounted(s: State, sequence: int64, id: string, quantity: int64, price: int64)
    requires AllAccounted(s) && FillOrder(s, sequence, id, quantity, price).Ok()
    ensures AllAccounted(FillOrder(s, sequence, id, quantity, price).state)
  {
    hide FillOrder, Wrap, Normalize, ExpectedReserve;
    FillFrame(s, sequence, id, quantity, price);
    var o := s.openOrders[id];
    WrapInRange(o.remaining - quantity);
    WrapInRange(o.filled + quantity);
  }

  lemma AccountedStep(s: State, e: Entry)
    requires AllAccounted(s) && Apply(s, e).Ok()
    ensures AllAccounted(Apply(s, e).state)
  {
    hide Apply;
    match e.payload
    case TradeMatched(p) =>
      hide Accounted, FillOrder;
      TradeFrame(s, e);
      FillAccounted(s, e.sequence, p.takerOrderId, p.quantity, p.price);
      FillAccounted(TakerFilled(s, e).state, e.sequence, p.makerOrderId, p.quantity, p.price);
    case OrderAccepted(_) => AcceptFrame(s, e);
    case OrderCancelled(_) => CancelFrame(s, e);
    case _ => OrdersFrame(s, e);
  }

  /** In every accepted run, careful or not, each open order's quantities add up. */
  lemma {:induction false} OrdersAccounted(s: State, entries: seq<Entry>)
    requires AllAccounted(s) && Run(s, entries).Ok()
    ensures AllAccounted(Run(s, entries).state)
    decreases entries
  {
    hide Apply, AllAccounted;
    if entries != [] {
      AccountedStep(s, entries[0]);
      OrdersAccounted(Apply(s, entries[0]).state, entries[1..]);
    }
  }
}
