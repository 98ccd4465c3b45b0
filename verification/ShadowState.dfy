/** The shadow ledger as the program holds it: an object with six maps that each journal entry updates
    in place. Every method is proved to do what Ledger.dfy says, including what it leaves behind when
    it fails half way. */
module ShadowState {
  import opened Int64
  import opened Text
  import opened Ledger
  import opened Roots

  class Shadow {
    var balances: map<string, BalanceLeaf>
    var nonces: map<string, NonceLeaf>
    var openOrders: map<string, OrderLeaf>
    var positions: map<string, PositionLeaf>
    var marketFunding: map<string, MarketFundingLeaf>
    var withdrawals: map<string, WithdrawalLeaf>

    ghost function Contents(): State
      reads this
    {
      State(balances, nonces, openOrders, positions, marketFunding, withdrawals)
    }

    constructor ()
      ensures Contents() == EMPTY
    {
      balances, nonces, openOrders := map[], map[], map[];
      positions, marketFunding, withdrawals := map[], map[], map[];
    }

    method Clone() returns (copy: Shadow)
      ensures fresh(copy) && copy.Contents() == Contents()
    {
      copy := new Shadow();
      copy.balances, copy.nonces, copy.openOrders := balances, nonces, openOrders;
      copy.positions, copy.marketFunding, copy.withdrawals := positions, marketFunding, withdrawals;
    }

    method AdjustBalance(account: int64, asset: string, freeDelta: int64, lockedDelta: int64, sequence: int64)
      modifies this
      ensures Contents() == Ledger.AdjustBalance(old(Contents()), account, asset, freeDelta, lockedDelta, sequence)
    {
      hide Normalize, Wrap, BalanceKey;
      if account <= 0 {
        return;
      }
      var key := BalanceKey(account, asset);
      var leaf := if key in balances then balances[key] else BalanceLeaf(0, "", 0, 0, 0);
      leaf := leaf.(account := account);
      leaf := leaf.(asset := Normalize(asset));
      leaf := leaf.(free := Add(leaf.free, freeDelta));
      leaf := leaf.(locked := Add(leaf.locked, lockedDelta));
      leaf := leaf.(lastSeq := sequence);
      if leaf.free == 0 && leaf.locked == 0 {
        balances := balances - {key};
        return;
      }
      balances := balances[key := leaf];
    }

    method AdjustPosition(account: int64, market: int64, outcome: string, delta: int64, sequence: int64)
      modifies this
      ensures Contents() == Ledger.AdjustPosition(old(Contents()), account, market, outcome, delta, sequence)
    {
      hide Normalize, Wrap, PositionKey;
      if account <= 0 || delta == 0 {
        return;
      }
      var key := PositionKey(account, market, outcome);
      var leaf := if key in positions then positions[key] else PositionLeaf(0, 0, "", 0, "", 0);
      leaf := leaf.(account := account, market := market, outcome := Normalize(outcome));
      leaf := leaf.(quantity := Add(leaf.quantity, delta));
      leaf := leaf.(settlementStatus := "OPEN", lastSeq := sequence);
      if leaf.quantity == 0 {
        positions := positions - {key};
        return;
      }
      positions := positions[key := leaf];
    }

    method SettlePosition(sequence: int64, account: int64, market: int64, outcome: string, settled: int64)
      returns (err: Error)
      modifies this
      ensures Outcome(Contents(), err) ==
              Ledger.SettlePosition(old(Contents()), sequence, account, market, outcome, settled)
    {
      hide Normalize, Wrap, PositionKey;
      var key := PositionKey(account, market, outcome);
      if key !in positions {
        return UnknownPosition;
      }
      var leaf := positions[key];
      if leaf.quantity < settled {
        return SettlementExceedsPosition;
      }
      leaf := leaf.(quantity := Sub(leaf.quantity, settled));
      leaf := leaf.(lastSeq := sequence);
      if leaf.quantity == 0 {
        positions := positions - {key};
      } else if leaf.quantity > 0 {
        leaf := leaf.(settlementStatus := "PARTIALLY_SETTLED");
        positions := positions[key := leaf];
      } else {
        return NegativePosition;
      }
      return Nil;
    }

    method ApplyOrderAccepted(sequence: int64, p: Acceptance)
      modifies this
      ensures Contents() == Ledger.ApplyAccepted(old(Contents()), sequence, p)
    {
      hide Normalize, Wrap, Ledger.AdjustBalance, ReserveAssetOf;
      var asset := ReserveAssetOf(p);
      AdjustBalance(p.account, asset, Neg(p.reserveAmount), p.reserveAmount, sequence);
      openOrders := openOrders[p.orderId := OrderLeaf(
        p.orderId, p.account, p.market, Normalize(p.outcome), Normalize(p.side), p.price,
        p.quantity, 0, p.quantity, asset, p.reserveAmount, "OPEN", sequence)];
    }

    method ApplyOrderCancelled(sequence: int64, p: Cancellation)
      modifies this
      ensures Contents() == Ledger.ApplyCancelled(old(Contents()), sequence, p)
    {
      hide Normalize, Wrap, Ledger.AdjustBalance, ExpectedReserve, CancelledReserveAsset;
      var order;
      if p.orderId in openOrders {
        order := openOrders[p.orderId];
      } else {
        var remaining := p.remaining;
        if remaining < 0 {
          remaining := 0;
        }
        order := OrderLeaf(p.orderId, p.account, p.market, Normalize(p.outcome), Normalize(p.side), p.price, 0, 0,
                           remaining,
                           CancelledReserveAsset(p), ExpectedReserve(p.side, p.price, remaining), "", 0);
      }
      if order.reserved > 0 {
        AdjustBalance(order.account, order.reserveAsset, order.reserved, Neg(order.reserved), sequence);
      }
      openOrders := openOrders - {p.orderId};
    }

    method FillOrder(sequence: int64, orderId: string, fillQuantity: int64, executionPrice: int64) returns (err: Error)
      modifies this
      ensures Outcome(Contents(), err) ==
              Ledger.FillOrder(old(Contents()), sequence, orderId, fillQuantity, executionPrice)
    {
      hide Normalize, Wrap, Ledger.AdjustBalance, ExpectedReserve, Multiply;
      if orderId !in openOrders {
        return UnknownOrder;
      }
      var order := openOrders[orderId];
      if fillQuantity <= 0 {
        return FillNotPositive;
      }
      if order.remaining < fillQuantity {
        return FillExceedsRemaining;
      }
      var released := 0;
      if order.side == "BUY" {
        var notional := Multiply(executionPrice, fillQuantity);
        if notional.None? {
          return MultiplyFailed;
        }
        AdjustBalance(order.account, order.reserveAsset, 0, Neg(notional.value), sequence);
        order := order.(reserved := Sub(order.reserved, notional.value));
        var expected := ExpectedReserve(order.side, order.price, Sub(order.remaining, fillQuantity));
        released := Sub(order.reserved, expected);
        if released < 0 {
          return NegativeRelease;
        }
        if released > 0 {
          AdjustBalance(order.account, order.reserveAsset, released, Neg(released), sequence);
        }
        order := order.(reserved := expected);
      } else if order.side == "SELL" {
        AdjustBalance(order.account, order.reserveAsset, 0, Neg(fillQuantity), sequence);
        order := order.(reserved := Sub(order.reserved, fillQuantity));
        var expected := ExpectedReserve(order.side, order.price, Sub(order.remaining, fillQuantity));
        released := Sub(order.reserved, expected);
        if released < 0 {
          return NegativeRelease;
        }
        if released > 0 {
          AdjustBalance(order.account, order.reserveAsset, released, Neg(released), sequence);
        }
        order := order.(reserved := expected);
      } else {
        return UnsupportedSide;
      }
      order := order.(filled := Add(order.filled, fillQuantity));
      order := order.(remaining := Sub(order.remaining, fillQuantity));
      order := order.(lastSeq := sequence);
      if order.remaining == 0 {
        openOrders := openOrders - {orderId};
        return Nil;
      }
      order := order.(status := "OPEN");
      openOrders := openOrders[orderId := order];
      return Nil;
    }

    method ApplyTradeMatched(sequence: int64, p: Trade) returns (err: Error)
      modifies this
      ensures Outcome(Contents(), err) == Ledger.ApplyTrade(old(Contents()), sequence, p)
    {
      hide Normalize, Wrap, Ledger.AdjustBalance, Ledger.AdjustPosition, Ledger.FillOrder, Multiply, PositionAsset;
      var notional := Multiply(p.price, p.quantity);
      if notional.None? {
        return MultiplyFailed;
      }
      err := FillOrder(sequence, p.takerOrderId, p.quantity, p.price);
      if err != Nil {
        return;
      }
      err := FillOrder(sequence, p.makerOrderId, p.quantity, p.price);
      if err != Nil {
        return;
      }
      var buyer, seller := Buyer(p), Seller(p);
      var positionAsset := PositionAsset(p.market, p.outcome);
      if buyer > 0 {
        AdjustBalance(buyer, positionAsset, p.quantity, 0, sequence);
        AdjustPosition(buyer, p.market, p.outcome, p.quantity, sequence);
      }
      if seller > 0 {
        AdjustBalance(seller, p.collateralAsset, notional.value, 0, sequence);
        AdjustPosition(seller, p.market, p.outcome, Neg(p.quantity), sequence);
      }
      return Nil;
    }

    method ApplyNonceAdvanced(sequence: int64, account: int64, authKey: string, scope: string, keyStatus: string,
                              accepted: uint64, next: uint64) returns (err: Error)
      modifies this
      ensures Outcome(Contents(), err) ==
              Ledger.ApplyNonce(old(Contents()), sequence, account, authKey, scope, keyStatus, accepted, next)
    {
      hide TrimSpace, NonceKey, StatusOf, ScopeOf;
      if account <= 0 {
        return MissingField;
      }
      var authKeyId := TrimSpace(authKey);
      if authKeyId == "" {
        return MissingField;
      }
      if accepted == 0 {
        return NonceInvalid;
      }
      if next == 0 || next != (accepted + 1) % MODULUS {
        return NonceInvalid;
      }
      var key := NonceKey(account, authKey);
      if key in nonces && accepted < nonces[key].nextNonce {
        return NonceRegressed;
      }
      nonces := nonces[key := NonceLeaf(account, authKeyId, next, StatusOf(keyStatus), ScopeOf(scope), sequence)];
      return Nil;
    }

    method ApplyMarketResolved(sequence: int64, market: int64, resolvedOutcome: string, resolverType: string,
                               resolverRef: string) returns (err: Error)
      modifies this
      ensures Outcome(Contents(), err) ==
              Ledger.ApplyResolved(old(Contents()), sequence, market, resolvedOutcome, resolverType, resolverRef)
    {
      hide Normalize, Decimal, ResolutionRef;
      if market <= 0 {
        return MissingField;
      }
      var outcome := Normalize(resolvedOutcome);
      if outcome == "" {
        return MissingField;
      }
      marketFunding := marketFunding[Decimal(market) := MarketFundingLeaf(market,
          ResolutionRef(resolverType, resolverRef), "RESOLVED", outcome, sequence)];
      return Nil;
    }

    method ApplySettlementPayout(sequence: int64, p: Payout) returns (err: Error)
      modifies this
      ensures Outcome(Contents(), err) == Ledger.ApplyPayout(old(Contents()), sequence, p)
    {
      hide Normalize, Wrap, Ledger.AdjustBalance, Ledger.SettlePosition, BalanceKey, PositionAsset;
      if p.account <= 0 || p.market <= 0 {
        return MissingField;
      }
      if p.settled <= 0 || p.amount < 0 {
        return SettlementInvalid;
      }
      var positionAsset := Normalize(p.positionAsset);
      if positionAsset == "" {
        positionAsset := PositionAsset(p.market, p.winningOutcome);
      }
      var key := BalanceKey(p.account, positionAsset);
      var free := if key in balances then balances[key].free else 0;
      if free < p.settled {
        return SettlementExceedsBalance;
      }
      AdjustBalance(p.account, positionAsset, Neg(p.settled), 0, sequence);
      err := SettlePosition(sequence, p.account, p.market, p.winningOutcome, p.settled);
      if err != Nil {
        return;
      }
      if p.amount > 0 {
        var payoutAsset := Normalize(p.payoutAsset);
        if payoutAsset == "" {
          payoutAsset := DEFAULT_COLLATERAL;
        }
        AdjustBalance(p.account, payoutAsset, p.amount, 0, sequence);
      }
      return Nil;
    }

    method Apply(e: Entry) returns (err: Error)
      modifies this
      ensures Outcome(Contents(), err) == Ledger.Apply(old(Contents()), e)
    {
      hide Ledger.AdjustBalance, Ledger.ApplyTrade, Ledger.ApplyNonce, Ledger.ApplyResolved, Ledger.ApplyPayout,
           Ledger.ApplyAccepted, Ledger.ApplyCancelled, Normalize, TrimSpace, Wrap, ValidateKeyWitness;
      match e.payload
      case NonceAdvanced(account, authKey, scope, keyStatus, accepted, next) =>
        err := ApplyNonceAdvanced(e.sequence, account, authKey, scope, keyStatus, accepted, next);
      case TradingKeyAuthorized(w) =>
        err := ValidateKeyWitness(w);
      case OrderAccepted(p) =>
        ApplyOrderAccepted(e.sequence, p);
        err := Nil;
      case OrderCancelled(p) =>
        ApplyOrderCancelled(e.sequence, p);
        err := Nil;
      case TradeMatched(p) =>
        err := ApplyTradeMatched(e.sequence, p);
      case DepositCredited(account, asset, amount) =>
        AdjustBalance(account, asset, amount, 0, e.sequence);
        err := Nil;
      case WithdrawalRequested(p) =>
        AdjustBalance(p.account, p.asset, Neg(p.amount), 0, e.sequence);
        withdrawals := withdrawals[p.id := WithdrawalLeaf(
          p.id, p.account, Normalize(p.asset), p.amount, TrimSpace(p.recipient), TrimSpace(p.lane), e.sequence)];
        err := Nil;
      case MarketResolved(market, outcome, resolverType, resolverRef) =>
        err := ApplyMarketResolved(e.sequence, market, outcome, resolverType, resolverRef);
      case SettlementPayout(p) =>
        err := ApplySettlementPayout(e.sequence, p);
      case Unsupported(_) =>
        err := UnsupportedEntry;
      case Malformed(_) =>
        err := UndecodablePayload;
    }

    /** Entries in order, stopping at the first error with the state as it then is. */
    method ApplyAll(entries: seq<Entry>) returns (err: Error)
      modifies this
      ensures Outcome(Contents(), err) == Ledger.Run(old(Contents()), entries)
    {
      hide Ledger.Apply;
      for i := 0 to |entries|
        invariant Ledger.Run(old(Contents()), entries) == Ledger.Run(Contents(), entries[i..])
      {
        assert entries[i..][0] == entries[i] && entries[i..][1..] == entries[i + 1..];
        err := Apply(entries[i]);
        if err != Nil {
          return;
        }
      }
      return Nil;
    }

    method ComputeRoots(c: Codec) returns (roots: RootSet)
      ensures roots == RootsOf(c, Contents())
    {
      hide Encode, LeafRoot;
      var balancesRoot := ComputeLeafRoot(c, BALANCES, balances, c.balance);
      var nonceRoot := ComputeLeafRoot(c, NONCES, nonces, c.nonce);
      var openOrdersRoot := ComputeLeafRoot(c, OPEN_ORDERS, openOrders, c.order);
      var positionRoot := ComputeLeafRoot(c, POSITIONS, positions, c.position);
      var marketFundingRoot := ComputeLeafRoot(c, MARKET_FUNDING, marketFunding, c.funding);
      var withdrawalsRoot := ComputeLeafRoot(c, WITHDRAWALS, withdrawals, c.withdrawal);
      var ordersRoot := HashStrings(c.hash, OrdersParts(nonceRoot, openOrdersRoot));
      var insuranceRoot := HashStrings(c.hash, INSURANCE_ZERO);
      var positionsFundingRoot :=
        HashStrings(c.hash, PositionsFundingParts(positionRoot, marketFundingRoot, insuranceRoot));
      var stateRoot := HashStrings(c.hash, StateParts(balancesRoot, ordersRoot, positionsFundingRoot, withdrawalsRoot));
      return RootSet(balancesRoot, ordersRoot, positionsFundingRoot, withdrawalsRoot, stateRoot);
    }
  }
}
