/** The shadow ledger as a value: six leaf maps, the journal entries that drive them, and what one
    entry does to the maps. ShadowState.dfy holds the same ledger as an object updated in place. */
module Ledger {
  import opened Int64
  import opened Text

  datatype Option<+T> = None | Some(value: T)

  datatype BalanceLeaf = BalanceLeaf(account: int64, asset: string, free: int64, locked: int64, lastSeq: int64)

  datatype NonceLeaf = NonceLeaf(account: int64, authKey: string, nextNonce: uint64, keyStatus: string, scope: string,
                                 lastSeq: int64)

  datatype OrderLeaf = OrderLeaf(
    orderId: string, account: int64, market: int64, outcome: string, side: string, price: int64,
    original: int64, filled: int64, remaining: int64, reserveAsset: string, reserved: int64,
    status: string, lastSeq: int64)

  // Cost basis, realised PnL and the funding snapshot are always written as zero.
  datatype PositionLeaf = PositionLeaf(account: int64, market: int64, outcome: string, quantity: int64,
                                       settlementStatus: string, lastSeq: int64)

  datatype MarketFundingLeaf = MarketFundingLeaf(market: int64, oracleRef: string, settlementState: string,
                                                 resolvedOutcome: string, lastSeq: int64)

  // Status, beneficiary and claim nullifier are constants at this stage.
  datatype WithdrawalLeaf = WithdrawalLeaf(
    withdrawalId: string, account: int64, asset: string, amount: int64, recipient: string, lane: string,
    requestSeq: int64)

  datatype State = State(
    balances: map<string, BalanceLeaf>,
    nonces: map<string, NonceLeaf>,
    openOrders: map<string, OrderLeaf>,
    positions: map<string, PositionLeaf>,
    marketFunding: map<string, MarketFundingLeaf>,
    withdrawals: map<string, WithdrawalLeaf>)

  const EMPTY := State(map[], map[], map[], map[], map[], map[])

  // ---------------------------------------------------------------- journal

  datatype KeyWitness = KeyWitness(
    tradingKeyId: string, authorizationRef: string, account: int64, wallet: string, chainId: int64,
    vault: string, publicKey: string, signature: string)

  datatype Payload =
    | NonceAdvanced(nonceAccount: int64, authKey: string, scope: string, keyStatus: string, accepted: uint64,
                    next: uint64)
    | TradingKeyAuthorized(keyWitness: KeyWitness)
    | OrderAccepted(accept: Acceptance)
    | OrderCancelled(cancel: Cancellation)
    | TradeMatched(trade: Trade)
    | DepositCredited(depositAccount: int64, depositAsset: string, depositAmount: int64)
    | WithdrawalRequested(withdrawal: Withdrawal)
    | MarketResolved(resolvedMarket: int64, resolvedOutcome: string, resolverType: string, resolverRef: string)
    | SettlementPayout(payout: Payout)
    | Unsupported(entryType: string)
    | Malformed(entryType: string) // a payload that does not decode as its entry type

  datatype Acceptance = Acceptance(
    orderId: string, account: int64, market: int64, outcome: string, side: string, collateralAsset: string,
    reserveAsset: string, reserveAmount: int64, price: int64, quantity: int64)

  datatype Cancellation = Cancellation(
    orderId: string, account: int64, market: int64, outcome: string, side: string, reserveAsset: string,
    price: int64, remaining: int64)

  datatype Trade = Trade(
    collateralAsset: string, market: int64, outcome: string, price: int64, quantity: int64,
    takerOrderId: string, makerOrderId: string, takerAccount: int64, makerAccount: int64, takerSide: string)

  datatype Withdrawal = Withdrawal(id: string, account: int64, asset: string, amount: int64, recipient: string,
                                   lane: string)

  datatype Payout = Payout(
    eventId: string, market: int64, account: int64, winningOutcome: string, positionAsset: string,
    settled: int64, payoutAsset: string, amount: int64)

  datatype Entry = Entry(sequence: int64, payload: Payload)

  datatype Error =
    | Nil
    | MissingField
    | NonceInvalid
    | NonceRegressed
    | MultiplyFailed
    | UnknownOrder
    | FillNotPositive
    | FillExceedsRemaining
    | NegativeRelease
    | UnsupportedSide
    | SettlementInvalid
    | SettlementExceedsBalance
    | UnknownPosition
    | SettlementExceedsPosition
    | NegativePosition
    | UnsupportedEntry
    | UndecodablePayload

  /** What an apply leaves behind. On an error the state may already be partly updated. */
  datatype Outcome = Outcome(state: State, err: Error) {
    predicate Ok() { err == Nil }
  }

  // ---------------------------------------------------------------- arithmetic

  function Multiply(left: int64, right: int64): (r: Option<int64>)
    ensures r == if left >= 0 && right >= 0 && left * right <= MAX_INT64 then Some(left * right) else None
  {
    if left < 0 || right < 0 then None
    else if left == 0 || right == 0 then Some(0)
    else if left > MAX_INT64 / right then (ProductBound(left, right); None)
    else (ProductBound(left, right); Some(left * right))
  }

  lemma ProductBound(left: int, right: int)
    requires left > 0 && right > 0
    ensures 0 < left * right
    ensures left > MAX_INT64 / right <==> left * right > MAX_INT64
  {
    var q := MAX_INT64 / right;
    if left > q {
      assert left * right >= (q + 1) * right;
    } else {
      assert left * right <= q * right;
    }
  }

  function ExpectedReserve(side: string, price: int64, quantity: int64): (r: int64)
    ensures r >= 0
  {
    if quantity <= 0 then 0
    else if Normalize(side) == "SELL" then quantity
    else
      match Multiply(price, quantity)
      case None => 0
      case Some(value) => value
  }

  // ---------------------------------------------------------------- leaf updates

  function BalanceLeafOf(s: State, account: int64, asset: string): BalanceLeaf {
    var key := BalanceKey(account, asset);
    if key in s.balances then s.balances[key] else BalanceLeaf(0, "", 0, 0, 0)
  }

  /** A leaf with nothing in it is deleted, any other leaf is stored. */
  function PutBalance(balances: map<string, BalanceLeaf>, key: string, leaf: BalanceLeaf): map<string, BalanceLeaf> {
    if leaf.free == 0 && leaf.locked == 0 then balances - {key} else balances[key := leaf]
  }

  function Moved(was: BalanceLeaf, account: int64, asset: string, freeDelta: int64, lockedDelta: int64,
                 sequence: int64): BalanceLeaf {
    BalanceLeaf(account, Normalize(asset), Add(was.free, freeDelta), Add(was.locked, lockedDelta), sequence)
  }

  function AdjustBalance(s: State, account: int64, asset: string, freeDelta: int64, lockedDelta: int64,
                         sequence: int64): State {
    if account <= 0 then s
    else
      var leaf := Moved(BalanceLeafOf(s, account, asset), account, asset, freeDelta, lockedDelta, sequence);
      s.(balances := PutBalance(s.balances, BalanceKey(account, asset), leaf))
  }

  function QuantityOf(s: State, account: int64, market: int64, outcome: string): int64 {
    var key := PositionKey(account, market, outcome);
    if key in s.positions then s.positions[key].quantity else 0
  }

  function PutPosition(positions: map<string, PositionLeaf>, key: string, leaf: PositionLeaf)
    : map<string, PositionLeaf>
  {
    if leaf.quantity == 0 then positions - {key} else positions[key := leaf]
  }

  function AdjustPosition(s: State, account: int64, market: int64, outcome: string, delta: int64,
                          sequence: int64): State {
    if account <= 0 || delta == 0 then s
    else
      var leaf := PositionLeaf(account, market, Normalize(outcome),
                               Add(QuantityOf(s, account, market, outcome), delta), "OPEN", sequence);
      s.(positions := PutPosition(s.positions, PositionKey(account, market, outcome), leaf))
  }

  function SettlePosition(s: State, sequence: int64, account: int64, market: int64, outcome: string,
                          settled: int64): Outcome {
    var key := PositionKey(account, market, outcome);
    if key !in s.positions then Outcome(s, UnknownPosition)
    else
      var leaf := s.positions[key];
      if leaf.quantity < settled then Outcome(s, SettlementExceedsPosition)
      else
        var left := leaf.(quantity := Sub(leaf.quantity, settled), settlementStatus := "PARTIALLY_SETTLED",
                          lastSeq := sequence);
        if left.quantity < 0 then Outcome(s, NegativePosition)
        else Outcome(s.(positions := PutPosition(s.positions, key, left)), Nil)
  }

  // ---------------------------------------------------------------- orders

  function ReserveAssetOf(p: Acceptance): string {
    if Normalize(p.reserveAsset) != "" then Normalize(p.reserveAsset) else Normalize(p.collateralAsset)
  }

  function ApplyAccepted(s: State, sequence: int64, p: Acceptance): State {
    var asset := ReserveAssetOf(p);
    var moved := AdjustBalance(s, p.account, asset, Neg(p.reserveAmount), p.reserveAmount, sequence);
    moved.(openOrders := moved.openOrders[p.orderId := AcceptedOrder(p, sequence)])
  }

  function AcceptedOrder(p: Acceptance, sequence: int64): OrderLeaf {
    OrderLeaf(p.orderId, p.account, p.market, Normalize(p.outcome), Normalize(p.side), p.price,
              p.quantity, 0, p.quantity, ReserveAssetOf(p), p.reserveAmount, "OPEN", sequence)
  }

  function CancelledReserveAsset(p: Cancellation): string {
    if Normalize(p.reserveAsset) != "" then Normalize(p.reserveAsset)
    else if Normalize(p.side) == "SELL" then PositionAsset(p.market, p.outcome)
    else DEFAULT_COLLATERAL
  }

  /** The reserve a cancellation releases: account, asset and amount. An order the ledger does not
      hold is rebuilt from the cancellation itself. */
  function Released(s: State, p: Cancellation): (int64, string, int64) {
    if p.orderId in s.openOrders then
      var o := s.openOrders[p.orderId];
      (o.account, o.reserveAsset, o.reserved)
    else
      var remaining := if p.remaining < 0 then 0 else p.remaining;
      (p.account, CancelledReserveAsset(p), ExpectedReserve(p.side, p.price, remaining))
  }

  function ApplyCancelled(s: State, sequence: int64, p: Cancellation): State {
    var (account, asset, reserved) := Released(s, p);
    var moved := if reserved > 0 then AdjustBalance(s, account, asset, reserved, Neg(reserved), sequence) else s;
    moved.(openOrders := moved.openOrders - {p.orderId})
  }

  function FillOrder(s: State, sequence: int64, orderId: string, quantity: int64, price: int64): Outcome {
    if orderId !in s.openOrders then Outcome(s, UnknownOrder)
    else
      var o := s.openOrders[orderId];
      if quantity <= 0 then Outcome(s, FillNotPositive)
      else if o.remaining < quantity then Outcome(s, FillExceedsRemaining)
      else if o.side == "BUY" then
        match Multiply(price, quantity)
        case None => Outcome(s, MultiplyFailed)
        case Some(notional) => Spend(s, sequence, orderId, quantity, notional)
      else if o.side == "SELL" then Spend(s, sequence, orderId, quantity, quantity)
      else Outcome(s, UnsupportedSide)
  }

  /** Take `spent` out of an order's reserve, refund what the smaller remainder no longer needs and
      close the order when nothing remains. */
  function Spend(s: State, sequence: int64, orderId: string, quantity: int64, spent: int64): Outcome
    requires orderId in s.openOrders
  {
    var o := s.openOrders[orderId];
    var paid := AdjustBalance(s, o.account, o.reserveAsset, 0, Neg(spent), sequence);
    var remaining := Sub(o.remaining, quantity);
    var expected := ExpectedReserve(o.side, o.price, remaining);
    var released := Sub(Sub(o.reserved, spent), expected);
    if released < 0 then Outcome(paid, NegativeRelease)
    else
      var refunded := if released > 0
        then AdjustBalance(paid, o.account, o.reserveAsset, released, Neg(released), sequence) else paid;
      var filled := o.(filled := Add(o.filled, quantity), remaining := remaining, reserved := expected,
                       status := "OPEN", lastSeq := sequence);
      Outcome(refunded.(openOrders := if remaining == 0 then refunded.openOrders - {orderId}
                        else refunded.openOrders[orderId := filled]), Nil)
  }

  function Buyer(p: Trade): int64 {
    if Normalize(p.takerSide) == "BUY" then p.takerAccount else p.makerAccount
  }

  function Seller(p: Trade): int64 {
    if Normalize(p.takerSide) == "BUY" then p.makerAccount else p.takerAccount
  }

  function ApplyTrade(s: State, sequence: int64, p: Trade): Outcome {
    match Multiply(p.price, p.quantity)
    case None => Outcome(s, MultiplyFailed)
    case Some(notional) =>
      var taker := FillOrder(s, sequence, p.takerOrderId, p.quantity, p.price);
      if !taker.Ok() then taker
      else
        var maker := FillOrder(taker.state, sequence, p.makerOrderId, p.quantity, p.price);
        if !maker.Ok() then maker
        else Outcome(Deliver(maker.state, sequence, p, notional), Nil)
  }

  /** Hand the buyer the shares and the seller the collateral, and move the position ledger along. */
  function Deliver(s: State, sequence: int64, p: Trade, notional: int64): State {
    var bought :=
      if Buyer(p) > 0 then
        AdjustPosition(AdjustBalance(s, Buyer(p), PositionAsset(p.market, p.outcome), p.quantity, 0, sequence),
                       Buyer(p), p.market, p.outcome, p.quantity, sequence)
      else s;
    if Seller(p) > 0 then
      AdjustPosition(AdjustBalance(bought, Seller(p), p.collateralAsset, notional, 0, sequence),
                     Seller(p), p.market, p.outcome, Neg(p.quantity), sequence)
    else bought
  }

  // ---------------------------------------------------------------- the other entries

  function ScopeOf(scope: string): string {
    if Normalize(scope) == "" then "TRADE" else Normalize(scope)
  }

  function StatusOf(status: string): string {
    if Normalize(status) == "" then "ACTIVE" else Normalize(status)
  }

  function ApplyNonce(s: State, sequence: int64, account: int64, authKey: string, scope: string, keyStatus: string,
                      accepted: uint64, next: uint64): Outcome {
    if account <= 0 || TrimSpace(authKey) == "" then Outcome(s, MissingField)
    else if accepted == 0 || next == 0 || next != (accepted + 1) % MODULUS then Outcome(s, NonceInvalid)
    else
      var key := NonceKey(account, authKey);
      if key in s.nonces && accepted < s.nonces[key].nextNonce then Outcome(s, NonceRegressed)
      else Outcome(s.(nonces := s.nonces[key := NonceLeaf(account, TrimSpace(authKey), next, StatusOf(keyStatus),
                                                          ScopeOf(scope), sequence)]), Nil)
  }

  function ValidateKeyWitness(w: KeyWitness): Error {
    if TrimSpace(w.tradingKeyId) == "" || TrimSpace(w.authorizationRef) == "" || w.account <= 0
       || TrimSpace(w.wallet) == "" || w.chainId <= 0 || TrimSpace(w.vault) == ""
       || TrimSpace(w.publicKey) == "" || TrimSpace(w.signature) == ""
    then MissingField else Nil
  }

  function ResolutionRef(resolverType: string, resolverRef: string): string {
    var ref := TrimSpace(resolverRef);
    if ref != "" && TrimSpace(resolverType) != "" then Normalize(resolverType) + ":" + ref
    else if ref != "" then ref
    else Normalize(resolverType)
  }

  function ApplyResolved(s: State, sequence: int64, market: int64, outcome: string, resolverType: string,
                         resolverRef: string): Outcome {
    if market <= 0 || Normalize(outcome) == "" then Outcome(s, MissingField)
    else
      var leaf := MarketFundingLeaf(market, ResolutionRef(resolverType, resolverRef), "RESOLVED", Normalize(outcome),
                                    sequence);
      Outcome(s.(marketFunding := s.marketFunding[Decimal(market) := leaf]), Nil)
  }

  function ApplyWithdrawal(s: State, sequence: int64, p: Withdrawal): State {
    var debited := AdjustBalance(s, p.account, p.asset, Neg(p.amount), 0, sequence);
    debited.(withdrawals := debited.withdrawals[p.id := WithdrawalLeaf(
      p.id, p.account, Normalize(p.asset), p.amount, TrimSpace(p.recipient), TrimSpace(p.lane), sequence)])
  }

  function SettledAsset(p: Payout): string {
    if Normalize(p.positionAsset) != "" then Normalize(p.positionAsset) else PositionAsset(p.market, p.winningOutcome)
  }

  function PaidAsset(p: Payout): string {
    if Normalize(p.payoutAsset) != "" then Normalize(p.payoutAsset) else DEFAULT_COLLATERAL
  }

  function ApplyPayout(s: State, sequence: int64, p: Payout): Outcome {
    if p.account <= 0 || p.market <= 0 then Outcome(s, MissingField)
    else if p.settled <= 0 || p.amount < 0 then Outcome(s, SettlementInvalid)
    else if BalanceLeafOf(s, p.account, SettledAsset(p)).free < p.settled then Outcome(s, SettlementExceedsBalance)
    else
      var debited := AdjustBalance(s, p.account, SettledAsset(p), Neg(p.settled), 0, sequence);
      var settled := SettlePosition(debited, sequence, p.account, p.market, p.winningOutcome, p.settled);
      if !settled.Ok() then settled
      else if p.amount > 0 then Outcome(AdjustBalance(settled.state, p.account, PaidAsset(p), p.amount, 0, sequence),
                                        Nil)
      else settled
  }

  function Apply(s: State, e: Entry): Outcome {
    match e.payload
    case NonceAdvanced(account, authKey, scope, keyStatus, accepted, next) =>
      ApplyNonce(s, e.sequence, account, authKey, scope, keyStatus, accepted, next)
    case TradingKeyAuthorized(w) => Outcome(s, ValidateKeyWitness(w))
    case OrderAccepted(p) => Outcome(ApplyAccepted(s, e.sequence, p), Nil)
    case OrderCancelled(p) => Outcome(ApplyCancelled(s, e.sequence, p), Nil)
    case TradeMatched(p) => ApplyTrade(s, e.sequence, p)
    case DepositCredited(account, asset, amount) =>
      Outcome(AdjustBalance(s, account, asset, amount, 0, e.sequence), Nil)
    case WithdrawalRequested(p) => Outcome(ApplyWithdrawal(s, e.sequence, p), Nil)
    case MarketResolved(market, outcome, resolverType, resolverRef) =>
      ApplyResolved(s, e.sequence, market, outcome, resolverType, resolverRef)
    case SettlementPayout(p) => ApplyPayout(s, e.sequence, p)
    case Unsupported(_) => Outcome(s, UnsupportedEntry)
    case Malformed(_) => Outcome(s, UndecodablePayload)
  }

  /** Entries applied in order up to the first error. */
  function Run(s: State, entries: seq<Entry>): Outcome
    decreases entries
  {
    if entries == [] then Outcome(s, Nil)
    else
      var step := Apply(s, entries[0]);
      if step.Ok() then Run(step.state, entries[1..]) else step
  }

  lemma {:induction false} RunConcat(s: State, a: seq<Entry>, b: seq<Entry>)
    ensures Run(s, a + b) == if Run(s, a).Ok() then Run(Run(s, a).state, b) else Run(s, a)
    decreases a
  {
    if a == [] {
      assert a + b == b;
    } else {
      assert (a + b)[1..] == a[1..] + b;
      RunConcat(Apply(s, a[0]).state, a[1..], b);
    }
  }
}
