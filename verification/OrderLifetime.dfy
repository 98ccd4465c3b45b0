/** An order from its freeze through its fills to its end: the reserve always suffices, and what the
    owner is left with is exactly what was not paid. */
module OrderLifetime {
  import opened Int64
  import opened Text
  import opened Sums
  import opened Ledger
  import opened Accounts

  // ---------------------------------------------------------------- freezing and sending

  datatype FreezeError =
    | QuantityNotPositive
    | PriceNotPositive
    | FreezeOverflow
    | UnknownOrderType
    | MissingOutcome
    | UnknownSide

  datatype Freeze = Frozen(asset: string, amount: int64) | Refused(reason: FreezeError)

  function CalculateFreeze(side: string, orderType: string, market: int64, outcome: string, price: int64,
                           quantity: int64): Freeze {
    if quantity <= 0 then Refused(QuantityNotPositive)
    else if side == "BUY" then
      if orderType == "LIMIT" then
        if price <= 0 then Refused(PriceNotPositive)
        else if price > MAX_INT64 / quantity then Refused(FreezeOverflow)
        else
          ProductBound(price, quantity);
          Frozen(DEFAULT_COLLATERAL, price * quantity)
      else if orderType == "MARKET" then
        if 100 > MAX_INT64 / quantity then Refused(FreezeOverflow)
        else
          ProductBound(100, quantity);
          Frozen(DEFAULT_COLLATERAL, 100 * quantity)
      else Refused(UnknownOrderType)
    else if side == "SELL" then
      if TrimSpace(outcome) == "" then Refused(MissingOutcome)
      else Frozen(PositionAsset(market, outcome), quantity)
    else Refused(UnknownSide)
  }

  datatype Command = Command(orderType: string, timeInForce: string, price: int64)

  /** A market order is sent as an immediate-or-cancel limit order at the extreme price. */
  function CommandFor(side: string, orderType: string, timeInForce: string, price: int64): Command {
    if orderType == "MARKET" then Command("LIMIT", "IOC", if side == "BUY" then 99 else 1)
    else Command(orderType, timeInForce, price)
  }

  /** Whether an order at this price meets an opposite one at the other price. */
  predicate Meets(side: string, price: int, other: int) {
    if side == "BUY" then other <= price else price <= other
  }

  /** Exactly which requests are frozen, and for how much: the guards refuse an overflow and nothing that
      would have fitted, and what is frozen covers the whole order at the price it is sent at. */
  lemma FreezeExact(side: string, orderType: string, timeInForce: string, market: int64, outcome: string,
                    price: int64, quantity: int64)
    ensures var freeze := CalculateFreeze(side, orderType, market, outcome, price, quantity);
            var unit := if orderType == "MARKET" then 100 else price;
            && (freeze.Frozen? <==>
                  quantity > 0 && ((side == "BUY" && (orderType == "MARKET" || (orderType == "LIMIT" && price > 0))
                                    && unit * quantity <= MAX_INT64)
                                   || (side == "SELL" && TrimSpace(outcome) != "")))
            && (freeze.Frozen? ==>
                  && freeze.amount == (if side == "BUY" then unit * quantity else quantity)
                  && freeze.asset == (if side == "BUY" then DEFAULT_COLLATERAL else PositionAsset(market, outcome))
                  && freeze.amount >= Need(side, CommandFor(side, orderType, timeInForce, price).price, quantity))
  {
    hide TrimSpace, PositionAsset;
    if quantity > 0 {
      ProductBound(100, quantity);
      if price > 0 {
        ProductBound(price, quantity);
      }
    }
  }

  /** A refusal says what is wrong with the request; an overflow is one of the true amount. */
  lemma FreezeRefusalSaysWhy(side: string, orderType: string, market: int64, outcome: string, price: int64,
                             quantity: int64)
    ensures var freeze := CalculateFreeze(side, orderType, market, outcome, price, quantity);
            freeze.Refused? ==>
              match freeze.reason
              case QuantityNotPositive => quantity <= 0
              case PriceNotPositive => side == "BUY" && orderType == "LIMIT" && price <= 0
              case FreezeOverflow =>
                side == "BUY" && (if orderType == "MARKET" then 100 else price) * quantity > MAX_INT64
              case UnknownOrderType => side == "BUY" && orderType != "LIMIT" && orderType != "MARKET"
              case MissingOutcome => side == "SELL" && Blank(outcome)
              case UnknownSide => side != "BUY" && side != "SELL"
  {
    hide TrimSpace, PositionAsset, Blank;
    TrimsToNothing(outcome);
    if quantity > 0 {
      ProductBound(100, quantity);
      if price > 0 {
        ProductBound(price, quantity);
      }
    }
  }

  /** What sending a market order as that command means: among the limit prices that are allowed, 1 to 99,
      it meets every one and no order could meet more; it never rests in the book; and what was frozen
      leaves a market buy exactly one unit a share to spare, any other order nothing. */
  lemma CommandMeaning(side: string, orderType: string, timeInForce: string, market: int64, outcome: string,
                       price: int64, quantity: int64)
    requires CalculateFreeze(side, orderType, market, outcome, price, quantity).Frozen?
    ensures var c := CommandFor(side, orderType, timeInForce, price);
            var spare := CalculateFreeze(side, orderType, market, outcome, price, quantity).amount
              - Need(side, c.price, quantity);
            && (orderType == "MARKET" ==> c.orderType == "LIMIT" && c.timeInForce == "IOC")
            && (orderType == "MARKET" ==> forall other :: Meets(side, c.price, other) <==>
                exists p :: 1 <= p <= 99 && Meets(side, p, other))
            && (orderType != "MARKET" ==> c == Command(orderType, timeInForce, price))
            && spare == if side == "BUY" && orderType == "MARKET" then quantity else 0
  {
    hide TrimSpace, PositionAsset;
    FreezeExact(side, orderType, timeInForce, market, outcome, price, quantity);
    var c := CommandFor(side, orderType, timeInForce, price);
    if orderType == "MARKET" {
      forall other ensures Meets(side, c.price, other) <==> exists p :: 1 <= p <= 99 && Meets(side, p, other) {
        if Meets(side, c.price, other) {
          assert 1 <= c.price <= 99;
        }
      }
    }
  }

  // ---------------------------------------------------------------- reserves

  /** What an order must still hold to be filled completely at its limit price. */
  function Need(side: string, price: int64, remaining: int64): int {
    if side == "SELL" then remaining else price * remaining
  }

  ghost predicate Funded(o: OrderLeaf) {
    && (o.side == "BUY" || o.side == "SELL")
    && (o.side == "BUY" ==> o.price >= 0)
    && o.remaining > 0
    && o.reserved >= Need(o.side, o.price, o.remaining)
  }

  lemma SidesNormal()
    ensures Normalize("BUY") == "BUY" && Normalize("SELL") == "SELL"
  {
    NormalFixed("BUY");
    NormalFixed("SELL");
  }

  lemma ExpectedIsNeed(side: string, price: int64, quantity: int64)
    requires side == "BUY" || side == "SELL"
    requires quantity >= 0 && price >= 0 && Need(side, price, quantity) <= MAX_INT64
    ensures ExpectedReserve(side, price, quantity) == Need(side, price, quantity)
  {
    hide Normalize;
    SidesNormal();
  }

  /** One execution: how much, and at what price. */
  datatype Fill = Fill(sequence: int64, quantity: int64, price: int64)

  predicate Admissible(o: OrderLeaf, f: Fill) {
    0 < f.quantity <= o.remaining && (o.side == "BUY" ==> 0 <= f.price <= o.price)
  }

  function Cost(side: string): Fill -> int {
    (f: Fill) => if side == "SELL" then f.quantity else f.price * f.quantity
  }

  lemma FillBounds(price: int, p: int, q: int, remaining: int, reserved: int)
    requires 0 <= p <= price && 0 < q <= remaining && reserved >= price * remaining
    ensures 0 <= p * q <= price * q
    ensures price * remaining == price * q + price * (remaining - q)
    ensures 0 <= price * (remaining - q)
    ensures p * q + price * (remaining - q) <= reserved
  {
    assert p * q <= price * q;
    assert price * remaining == price * (q + (remaining - q));
  }

  /** A funded order takes any admissible fill: it is paid from the reserve, the reserve becomes
      exactly what the remainder needs, and the difference is refunded. */
  lemma FillFunded(s: State, id: string, f: Fill)
    requires id in s.openOrders && Funded(s.openOrders[id]) && Admissible(s.openOrders[id], f)
    ensures var o := s.openOrders[id];
            var r := FillOrder(s, f.sequence, id, f.quantity, f.price);
            var left := Need(o.side, o.price, o.remaining - f.quantity);
            && r.Ok()
            && (f.quantity == o.remaining ==> r.state.openOrders == s.openOrders - {id})
            && (f.quantity < o.remaining ==>
                  && id in r.state.openOrders
                  && var n := r.state.openOrders[id];
                  && Funded(n) && n.reserved == left && n.remaining == o.remaining - f.quantity
                  && n.account == o.account && n.reserveAsset == o.reserveAsset && n.side == o.side
                       && n.price == o.price)
            && (o.account > 0 ==>
                  && Locked(r.state, o.account, o.reserveAsset) ==
                       Wrap(Locked(s, o.account, o.reserveAsset) - (o.reserved - left))
                  && Free(r.state, o.account, o.reserveAsset) ==
                       Wrap(Free(s, o.account, o.reserveAsset) + (o.reserved - left - Cost(o.side)(f))))
  {
    hide Normalize, Wrap, AdjustBalance, BalanceLeafOf, Multiply, ExpectedReserve;
    var o := s.openOrders[id];
    var q := f.quantity;
    if o.side == "BUY" {
      FillBounds(o.price, f.price, q, o.remaining, o.reserved);
    }
    var spent: int64, left: int64 := Cost(o.side)(f), Need(o.side, o.price, o.remaining - q);
    WrapInRange(o.remaining - q);
    if o.side == "BUY" {
      ExpectedIsNeed(o.side, o.price, o.remaining - q);
    } else {
      SellExpected(o.price, o.remaining - q);
    }
    WrapInRange(o.reserved - spent);
    WrapInRange(o.reserved - spent - left);
    var r := FillOrder(s, f.sequence, id, q, f.price);
    MultiplyExact(f.price, q);
    assert r == Spend(s, f.sequence, id, q, spent);
    FillFrame(s, f.sequence, id, q, f.price);
    if o.account > 0 {
      SpendBalances(s, f.sequence, id, q, spent, left);
    }
  }

  lemma MultiplyExact(a: int64, b: int64)
    ensures Multiply(a, b) == if a >= 0 && b >= 0 && a * b <= MAX_INT64 then Some(a * b) else None
  {
  }

  lemma SellExpected(price: int64, quantity: int64)
    requires quantity >= 0
    ensures ExpectedReserve("SELL", price, quantity) == quantity
  {
    hide Normalize;
    SidesNormal();
  }

  lemma SpendBalances(s: State, sequence: int64, id: string, quantity: int64, spent: int64, left: int64)
    requires id in s.openOrders && s.openOrders[id].account > 0
    requires var o := s.openOrders[id];
             && ExpectedReserve(o.side, o.price, Sub(o.remaining, quantity)) == left
             && Sub(Sub(o.reserved, spent), left) == o.reserved - spent - left >= 0
    ensures var o := s.openOrders[id];
            var t := Spend(s, sequence, id, quantity, spent).state;
            && Locked(t, o.account, o.reserveAsset) == Wrap(Locked(s, o.account, o.reserveAsset) - (o.reserved - left))
            && Free(t, o.account, o.reserveAsset) ==
                 Wrap(Free(s, o.account, o.reserveAsset) + (o.reserved - left - spent))
  {
    hide Normalize, Wrap, AdjustBalance, BalanceLeafOf, ExpectedReserve, Sub;
    var o := s.openOrders[id];
    var a, x := o.account, o.reserveAsset;
    var released := Sub(Sub(o.reserved, spent), left);
    var paid := AdjustBalance(s, a, x, 0, Neg(spent), sequence);
    AdjustBalanceAt(s, a, x, 0, Neg(spent), sequence, a, x);
    AdjustBalanceAt(paid, a, x, released, Neg(released), sequence, a, x);
    var refunded := if released > 0 then AdjustBalance(paid, a, x, released, Neg(released), sequence) else paid;
    BalancesDecide(Spend(s, sequence, id, quantity, spent).state, refunded, a, x);
    var f, l := Free(s, a, x), Locked(s, a, x);
    WrapInRange(f);
    WrapAdd(f, released);
    WrapAdd(l, -(spent as int));
    WrapAdd(l - spent, -(released as int));
    WrapAdd(l - spent, Wrap(-(released as int)));
  }

  // ---------------------------------------------------------------- any sequence of fills

  ghost function FillAll(s: State, id: string, fills: seq<Fill>): Outcome
    decreases fills
  {
    if fills == [] then Outcome(s, Nil)
    else
      var step := FillOrder(s, fills[0].sequence, id, fills[0].quantity, fills[0].price);
      if step.Ok() then FillAll(step.state, id, fills[1..]) else step
  }

  function FillSize(f: Fill): int { f.quantity }

  /** Positive fills, within the quantity that is left, and for a buy at or below the limit. */
  ghost predicate AdmissibleAll(o: OrderLeaf, fills: seq<Fill>) {
    && (forall i :: 0 <= i < |fills| ==> fills[i].quantity > 0 && (o.side == "BUY" ==> 0 <= fills[i].price <= o.price))
    && SeqSum(fills, FillSize) <= o.remaining
  }

  /** The reserve after the fills: untouched before the first, then exactly what the remainder needs. */
  ghost function Left(o: OrderLeaf, fills: seq<Fill>): int {
    if fills == [] then o.reserved
    else if o.side == "SELL" then o.remaining - SeqSum(fills, FillSize)
    else o.price * (o.remaining - SeqSum(fills, FillSize))
  }

  ghost predicate SettledUp(s: State, t: State, o: OrderLeaf, left: int, paid: int) {
    o.account > 0 ==>
      && Locked(t, o.account, o.reserveAsset) == Wrap(Locked(s, o.account, o.reserveAsset) - (o.reserved - left))
      && Free(t, o.account, o.reserveAsset) == Wrap(Free(s, o.account, o.reserveAsset) + (o.reserved - left - paid))
  }

  lemma SettledUpChain(s: State, t: State, u: State, o: OrderLeaf, n: OrderLeaf, left: int, paid: int, more: int)
    requires n.account == o.account && n.reserveAsset == o.reserveAsset
    requires SettledUp(s, t, o, n.reserved, paid) && SettledUp(t, u, n, left, more)
    ensures SettledUp(s, u, o, left, paid + more)
  {
    hide Wrap, BalanceLeafOf;
    if o.account > 0 {
      var l, f := Locked(s, o.account, o.reserveAsset), Free(s, o.account, o.reserveAsset);
      WrapAdd(l - (o.reserved - n.reserved), n.reserved - left);
      WrapAdd(f + (o.reserved - n.reserved - paid), n.reserved - left - more);
    }
  }

  lemma SettledUpSelf(s: State, o: OrderLeaf)
    ensures SettledUp(s, s, o, o.reserved, 0)
  {
    hide Wrap, BalanceLeafOf;
    WrapInRange(Locked(s, o.account, o.reserveAsset));
    WrapInRange(Free(s, o.account, o.reserveAsset));
  }

  ghost predicate SameTerms(o: OrderLeaf, n: OrderLeaf) {
    n.account == o.account && n.reserveAsset == o.reserveAsset && n.side == o.side && n.price == o.price
  }

  lemma {:induction false} SumPositive(fills: seq<Fill>)
    requires forall i :: 0 <= i < |fills| ==> fills[i].quantity > 0
    ensures SeqSum(fills, FillSize) >= |fills|
  {
    if fills != [] {
      SumPositive(fills[..|fills| - 1]);
    }
  }

  /** No admissible sequence of fills is ever refused, and after it locked and free balances tell
      exactly what was paid and what was refunded. */
  lemma {:induction false} FillsNeverRefused(s: State, id: string, fills: seq<Fill>)
    requires id in s.openOrders && Funded(s.openOrders[id]) && AdmissibleAll(s.openOrders[id], fills)
    ensures var o := s.openOrders[id];
            var r := FillAll(s, id, fills);
            && r.Ok()
            && (id in r.state.openOrders <==> SeqSum(fills, FillSize) < o.remaining)
            && (id in r.state.openOrders ==>
                  && SameTerms(o, r.state.openOrders[id])
                  && r.state.openOrders[id].reserved == Left(o, fills)
                  && r.state.openOrders[id].remaining == o.remaining - SeqSum(fills, FillSize))
            && SettledUp(s, r.state, o, Left(o, fills), SeqSum(fills, Cost(o.side)))
    decreases fills
  {
    hide FillOrder, Wrap, Normalize, BalanceLeafOf, SettledUp;
    var o := s.openOrders[id];
    if fills == [] {
      SettledUpSelf(s, o);
    } else {
      var f, rest := fills[0], fills[1..];
      assert fills == [f] + rest;
      SeqSumCons(f, rest, FillSize);
      SeqSumCons(f, rest, Cost(o.side));
      SumPositive(rest);
      FillFunded(s, id, f);
      FillSettledUp(s, id, f);
      var t := FillOrder(s, f.sequence, id, f.quantity, f.price).state;
      if f.quantity == o.remaining {
        assert rest == [];
      } else {
        var n := t.openOrders[id];
        FillsNeverRefused(t, id, rest);
        SettledUpChain(s, t, FillAll(t, id, rest).state, o, n, Left(o, fills), Cost(o.side)(f),
                       SeqSum(rest, Cost(o.side)));
      }
    }
  }

  lemma FillSettledUp(s: State, id: string, f: Fill)
    requires id in s.openOrders && Funded(s.openOrders[id]) && Admissible(s.openOrders[id], f)
    ensures var o := s.openOrders[id];
            SettledUp(s, FillOrder(s, f.sequence, id, f.quantity, f.price).state, o,
                      Need(o.side, o.price, o.remaining - f.quantity), Cost(o.side)(f))
  {
    hide FillOrder, Wrap, Normalize, BalanceLeafOf;
    FillFunded(s, id, f);
  }

  // ---------------------------------------------------------------- from freeze to end

  /** The acceptance the matching service journals for a request the order service has frozen and sent. */
  ghost predicate FrozenAcceptance(p: Acceptance, orderType: string, price: int64) {
    var freeze := CalculateFreeze(p.side, orderType, p.market, p.outcome, price, p.quantity);
    && freeze.Frozen? && p.reserveAsset == freeze.asset && p.reserveAmount == freeze.amount
    && p.price == CommandFor(p.side, orderType, "", price).price
    && p.account > 0
  }

  lemma FrozenFunded(p: Acceptance, orderType: string, price: int64, sequence: int64)
    requires FrozenAcceptance(p, orderType, price)
    ensures var o := AcceptedOrder(p, sequence);
            p.account > 0 && Funded(o) && o.side == p.side && o.price == p.price && o.reserveAsset == p.reserveAsset
              && o.reserved == p.reserveAmount
  {
    hide Normalize, PositionAsset;
    SidesNormal();
    PositionAssetNormal(p.market, p.outcome);
    CollateralNormal();
    assert PositionAsset(p.market, p.outcome) != "" by {
      hide Decimal, Normalize;
      PositionAssetNonEmpty(p.market, p.outcome);
    }
  }

  lemma PositionAssetNonEmpty(m: int, o: string)
    ensures PositionAsset(m, o) != ""
  {
  }

  /** The order's last state: cancelled if any of it is still open. */
  ghost function Close(s: State, sequence: int64, c: Cancellation): State {
    if c.orderId in s.openOrders then ApplyCancelled(s, sequence, c) else s
  }

  /** Freeze, accept, any admissible fills, then completion or cancellation: nothing is refused, the
      locked balance is back where it was, and the free balance is down by exactly what was paid. Holds
      for limit orders and for market buys, frozen at 100 a share and sent at 99. */
  lemma WholeLife(s: State, p: Acceptance, orderType: string, price: int64, sequence: int64, fills: seq<Fill>,
                  end: int64, c: Cancellation)
    requires FrozenAcceptance(p, orderType, price) && c.orderId == p.orderId
    requires AdmissibleAll(AcceptedOrder(p, sequence), fills)
    ensures var accepted := ApplyAccepted(s, sequence, p);
            var filled := FillAll(accepted, p.orderId, fills);
            var t := Close(filled.state, end, c);
            && filled.Ok() && p.orderId !in t.openOrders
            && Locked(t, p.account, p.reserveAsset) == Locked(s, p.account, p.reserveAsset)
            && Free(t, p.account, p.reserveAsset) ==
                 Wrap(Free(s, p.account, p.reserveAsset) - SeqSum(fills, Cost(p.side)))
  {
    hide FillAll, Wrap, Normalize, BalanceLeafOf, FrozenAcceptance, ApplyAccepted, AcceptedOrder, ApplyCancelled,
         Left, Funded, AdmissibleAll, SeqSum;
    var o := AcceptedOrder(p, sequence);
    var accepted := ApplyAccepted(s, sequence, p);
    FrozenFunded(p, orderType, price, sequence);
    AcceptBalances(s, p, sequence, orderType, price);
    FillsNeverRefused(accepted, p.orderId, fills);
    LeftFacts(o, fills);
    var filled := FillAll(accepted, p.orderId, fills).state;
    var a, x := p.account, p.reserveAsset;
    var l: int, f: int, left, paid := Locked(s, a, x), Free(s, a, x), Left(o, fills), SeqSum(fills, Cost(p.side));
    LifeArithmetic(l, f, p.reserveAmount, left, paid);
    assert Locked(filled, a, x) == Wrap(l + left) && Free(filled, a, x) == Wrap(f - left - paid);
    WrapInRange(l);
    if p.orderId in filled.openOrders {
      CancelBalances(filled, end, c);
    }
  }

  lemma LeftFacts(o: OrderLeaf, fills: seq<Fill>)
    requires Funded(o) && AdmissibleAll(o, fills)
    ensures Left(o, fills) >= 0
    ensures SeqSum(fills, FillSize) <= o.remaining
    ensures SeqSum(fills, FillSize) == o.remaining ==> Left(o, fills) == 0
  {
    assert fills == [] ==> SeqSum(fills, FillSize) == 0;
    hide SeqSum;
    var rest := o.remaining - SeqSum(fills, FillSize);
    if o.side == "BUY" {
      ProductFacts(o.price, rest);
      ProductFacts(o.price, o.remaining);
    }
  }

  lemma ProductFacts(a: int, b: int)
    requires a >= 0 && b >= 0
    ensures a * b >= 0 && (b == 0 ==> a * b == 0)
  {
  }

  lemma LifeArithmetic(l: int, f: int, amount: int, left: int, paid: int)
    ensures Wrap(Wrap(l + amount) - (amount - left)) == Wrap(l + left)
    ensures Wrap(Wrap(f - amount) + (amount - left - paid)) == Wrap(f - left - paid)
    ensures Wrap(Wrap(l + left) - left) == Wrap(l)
    ensures Wrap(Wrap(f - left - paid) + left) == Wrap(f - paid)
  {
    hide Wrap;
    WrapAdd(l + amount, amount - left);
    WrapAdd(f - amount, amount - left - paid);
    WrapAdd(l + left, left);
    WrapAdd(f - left - paid, left);
  }

  lemma AcceptBalances(s: State, p: Acceptance, sequence: int64, orderType: string, price: int64)
    requires FrozenAcceptance(p, orderType, price)
    ensures var t := ApplyAccepted(s, sequence, p);
            && p.orderId in t.openOrders && t.openOrders[p.orderId] == AcceptedOrder(p, sequence)
            && AcceptedOrder(p, sequence).account == p.account && AcceptedOrder(p, sequence).remaining == p.quantity
            && Locked(t, p.account, p.reserveAsset) == Wrap(Locked(s, p.account, p.reserveAsset) + p.reserveAmount)
            && Free(t, p.account, p.reserveAsset) == Wrap(Free(s, p.account, p.reserveAsset) - p.reserveAmount)
  {
    hide Wrap, Normalize, BalanceLeafOf, AdjustBalance, CalculateFreeze, ReserveAssetOf;
    FrozenFunded(p, orderType, price, sequence);
    var moved := AdjustBalance(s, p.account, p.reserveAsset, Neg(p.reserveAmount), p.reserveAmount, sequence);
    AdjustBalanceAt(s, p.account, p.reserveAsset, Neg(p.reserveAmount), p.reserveAmount, sequence, p.account,
                    p.reserveAsset);
    BalancesDecide(ApplyAccepted(s, sequence, p), moved, p.account, p.reserveAsset);
    WrapAdd(Free(s, p.account, p.reserveAsset), -(p.reserveAmount as int));
  }

  lemma CancelBalances(s: State, sequence: int64, c: Cancellation)
    requires c.orderId in s.openOrders && s.openOrders[c.orderId].account > 0 && s.openOrders[c.orderId].reserved >= 0
    ensures var o := s.openOrders[c.orderId];
            var t := ApplyCancelled(s, sequence, c);
            && c.orderId !in t.openOrders
            && Locked(t, o.account, o.reserveAsset) == Wrap(Locked(s, o.account, o.reserveAsset) - o.reserved)
            && Free(t, o.account, o.reserveAsset) == Wrap(Free(s, o.account, o.reserveAsset) + o.reserved)
  {
    hide Wrap, Normalize, BalanceLeafOf, AdjustBalance;
    var o := s.openOrders[c.orderId];
    AdjustBalanceAt(s, o.account, o.reserveAsset, o.reserved, Neg(o.reserved), sequence, o.account, o.reserveAsset);
    var moved := if o.reserved > 0
      then AdjustBalance(s, o.account, o.reserveAsset, o.reserved, Neg(o.reserved), sequence) else s;
    BalancesDecide(ApplyCancelled(s, sequence, c), moved, o.account, o.reserveAsset);
    WrapAdd(Locked(s, o.account, o.reserveAsset), -(o.reserved as int));
    WrapInRange(Locked(s, o.account, o.reserveAsset));
    WrapInRange(Free(s, o.account, o.reserveAsset));
  }

  /** A cancellation of an order the ledger does not hold rebuilds the reserve from its own fields, however
      side and outcome are spelt. That is what the order would have held, except for an unfilled market buy:
      frozen at 100 a share, it is rebuilt at 99. */
  lemma RebuiltCancellation(s: State, p: Acceptance, orderType: string, price: int64, sequence: int64, c: Cancellation)
    requires FrozenAcceptance(p, orderType, price) && p.orderId !in s.openOrders
    requires c == Cancellation(p.orderId, p.account, p.market, c.outcome, c.side, c.reserveAsset, p.price, p.quantity)
    requires Normalize(c.side) == p.side && Normalize(c.outcome) == Normalize(p.outcome)
    requires Normalize(c.reserveAsset) == "" || Normalize(c.reserveAsset) == p.reserveAsset
    ensures var held, rebuilt := Released(ApplyAccepted(s, sequence, p), c), Released(s, c);
            && held.0 == rebuilt.0 && held.1 == rebuilt.1
            && (held.2 == rebuilt.2 <==> !(p.side == "BUY" && orderType == "MARKET"))
  {
    hide Normalize, PositionAsset, AdjustBalance, ExpectedReserve, AcceptedOrder;
    AcceptBalances(s, p, sequence, orderType, price);
    FrozenFunded(p, orderType, price, sequence);
    FreezeExact(p.side, orderType, "", p.market, p.outcome, price, p.quantity);
    SidesNormal();
    ReserveOfSpelling(c.side, p.side, p.price, p.quantity);
    AssetOfSpelling(p.market, c.outcome, p.outcome);
    if p.side == "SELL" {
      SellExpected(p.price, p.quantity);
    } else {
      ExpectedIsNeed(p.side, p.price, p.quantity);
    }
  }

  lemma ReserveOfSpelling(a: string, b: string, price: int64, quantity: int64)
    requires Normalize(a) == Normalize(b)
    ensures ExpectedReserve(a, price, quantity) == ExpectedReserve(b, price, quantity)
  {
    hide Normalize;
  }

  lemma AssetOfSpelling(market: int64, a: string, b: string)
    requires Normalize(a) == Normalize(b)
    ensures PositionAsset(market, a) == PositionAsset(market, b)
  {
    hide Normalize;
  }
}
