/** The position ledger: its history is the net of trades and settlements, and it agrees with the
    balances held in position assets. */
module Positions {
  import opened Int64
  import opened Text
  import opened Sums
  import opened Ledger
  import opened Accounts
  import opened Flows
  import opened Conservation
  import LockedFunds

  /** One position: an account's shares of one outcome of one market. */
  datatype Key = Key(account: int64, market: int64, outcome: string) {
    ghost predicate Is(a: int64, m: int64, o: string) {
      a == account && m == market && Normalize(o) == Normalize(outcome)
    }
  }

  ghost function Quantity(s: State, k: Key): int64 {
    QuantityOf(s, k.account, k.market, k.outcome)
  }

  /** Net shares an entry's trade gives to the position. */
  ghost function TradedIn(k: Key): Entry -> int {
    (e: Entry) =>
      if !e.payload.TradeMatched? then 0
      else
        var p := e.payload.trade;
        (if Buyer(p) > 0 && k.Is(Buyer(p), p.market, p.outcome) then p.quantity else 0)
        - (if Seller(p) > 0 && k.Is(Seller(p), p.market, p.outcome) then p.quantity else 0)
  }

  /** Shares an entry's payout settles out of the position. */
  ghost function SettledFrom(k: Key): Entry -> int {
    (e: Entry) =>
      if e.payload.SettlementPayout?
        && k.Is(e.payload.payout.account, e.payload.payout.market, e.payload.payout.winningOutcome)
      then e.payload.payout.settled else 0
  }

  lemma PositionsDecide(s: State, t: State, k: Key)
    requires s.positions == t.positions
    ensures Quantity(s, k) == Quantity(t, k)
  {
  }

  lemma DeliverQuantity(s: State, sequence: int64, p: Trade, notional: int64, k: Key)
    ensures var bought := if Buyer(p) > 0 && k.Is(Buyer(p), p.market, p.outcome) then p.quantity else 0;
            var sold := if Seller(p) > 0 && k.Is(Seller(p), p.market, p.outcome) then p.quantity else 0;
            Quantity(Deliver(s, sequence, p, notional), k) == Wrap(Quantity(s, k) + bought - sold)
  {
    hide Normalize, Wrap, AdjustBalance, AdjustPosition, PositionAsset, Buyer, Seller, QuantityOf;
    var first := AdjustBalance(s, Buyer(p), PositionAsset(p.market, p.outcome), p.quantity, 0, sequence);
    AdjustBalanceFrame(s, Buyer(p), PositionAsset(p.market, p.outcome), p.quantity, 0, sequence);
    PositionsDecide(s, first, k);
    AdjustPositionAt(first, Buyer(p), p.market, p.outcome, p.quantity, sequence, k.account, k.market, k.outcome);
    var bought := if Buyer(p) > 0 then AdjustPosition(first, Buyer(p), p.market, p.outcome, p.quantity, sequence)
      else s;
    var second := AdjustBalance(bought, Seller(p), p.collateralAsset, notional, 0, sequence);
    AdjustBalanceFrame(bought, Seller(p), p.collateralAsset, notional, 0, sequence);
    PositionsDecide(bought, second, k);
    AdjustPositionAt(second, Seller(p), p.market, p.outcome, Neg(p.quantity), sequence, k.account, k.market, k.outcome);
    WrapInRange(Quantity(s, k));
    WrapInRange(Quantity(bought, k));
    var sum := Quantity(s, k) + (if Buyer(p) > 0 && k.Is(Buyer(p), p.market, p.outcome) then p.quantity else 0);
    assert Quantity(bought, k) == Wrap(sum);
    WrapAdd(Wrap(sum), -(p.quantity as int));
    WrapAdd(sum, p.quantity);
  }

  lemma TradeQuantity(s: State, e: Entry, k: Key)
    requires e.payload.TradeMatched? && Apply(s, e).Ok()
    ensures Quantity(Apply(s, e).state, k) == Wrap(Quantity(s, k) + TradedIn(k)(e))
  {
    hide Normalize, Wrap, QuantityOf, Apply, TakerFilled, BothFilled, Deliver;
    var p := e.payload.trade;
    TradeFrame(s, e);
    FillsFrame(s, e);
    PositionsDecide(s, BothFilled(s, e).state, k);
    DeliverQuantity(BothFilled(s, e).state, e.sequence, p, p.price * p.quantity, k);
  }

  lemma PayoutQuantity(s: State, e: Entry, k: Key)
    requires e.payload.SettlementPayout? && Apply(s, e).Ok()
    ensures Quantity(Apply(s, e).state, k) == Wrap(Quantity(s, k) - SettledFrom(k)(e))
  {
    hide Normalize, Wrap, QuantityOf, AdjustBalance, BalanceLeafOf, SettlePosition, SettledAsset, PaidAsset, Neg;
    var p := e.payload.payout;
    var debited := AdjustBalance(s, p.account, SettledAsset(p), Neg(p.settled), 0, e.sequence);
    AdjustBalanceFrame(s, p.account, SettledAsset(p), Neg(p.settled), 0, e.sequence);
    PositionsDecide(s, debited, k);
    SettlePositionAt(debited, e.sequence, p.account, p.market, p.winningOutcome, p.settled, k.account, k.market,
                     k.outcome);
    var settled := SettlePosition(debited, e.sequence, p.account, p.market, p.winningOutcome, p.settled).state;
    AdjustBalanceFrame(settled, p.account, PaidAsset(p), p.amount, 0, e.sequence);
    PositionsDecide(settled, Apply(s, e).state, k);
    WrapInRange(Quantity(s, k));
  }

  /** One entry moves a position by its trade less its settlement, whatever the ledger held before. */
  lemma QuantityStep(s: State, e: Entry, k: Key)
    requires Apply(s, e).Ok()
    ensures Quantity(Apply(s, e).state, k) == Wrap(Quantity(s, k) + TradedIn(k)(e) - SettledFrom(k)(e))
  {
    hide Apply, Wrap, QuantityOf;
    if e.payload.TradeMatched? {
      TradeQuantity(s, e, k);
    } else if e.payload.SettlementPayout? {
      PayoutQuantity(s, e, k);
    } else {
      PositionsFrame(s, e);
      PositionsDecide(s, Apply(s, e).state, k);
      WrapInRange(Quantity(s, k));
    }
  }

  /** Over any accepted run, a position is the net traded less the settled, as a machine word. */
  lemma {:induction false} QuantityRun(s: State, entries: seq<Entry>, k: Key)
    requires Run(s, entries).Ok()
    ensures Quantity(Run(s, entries).state, k) ==
            Wrap(Quantity(s, k) + SeqSum(entries, TradedIn(k)) - SeqSum(entries, SettledFrom(k)))
    decreases entries
  {
    hide Apply, Wrap, QuantityOf, TradedIn, SettledFrom;
    if entries == [] {
      WrapInRange(Quantity(s, k));
    } else {
      var e, rest := entries[0], entries[1..];
      assert entries == [e] + rest;
      QuantityStep(s, e, k);
      QuantityRun(Apply(s, e).state, rest, k);
      SeqSumCons(e, rest, TradedIn(k));
      SeqSumCons(e, rest, SettledFrom(k));
      WrapAdd(Quantity(s, k) + TradedIn(k)(e) - SettledFrom(k)(e),
              SeqSum(rest, TradedIn(k)) - SeqSum(rest, SettledFrom(k)));
    }
  }

  /** Every position leaf sits under the key printed from its own fields. */
  ghost predicate Keyed(s: State) {
    forall key :: key in s.positions ==>
      key == PositionKey(s.positions[key].account, s.positions[key].market, s.positions[key].outcome)
  }

  lemma AdjustKeyed(s: State, account: int64, market: int64, outcome: string, delta: int64, sequence: int64)
    requires Keyed(s)
    ensures Keyed(AdjustPosition(s, account, market, outcome, delta, sequence))
  {
    hide Normalize, PositionKey, Wrap, QuantityOf;
    NormalizeIdempotent(outcome);
    PositionKeyInjective(account, market, outcome, account, market, Normalize(outcome));
  }

  lemma SettleKeyed(s: State, sequence: int64, account: int64, market: int64, outcome: string, settled: int64)
    requires Keyed(s)
    ensures Keyed(SettlePosition(s, sequence, account, market, outcome, settled).state)
  {
    hide Normalize, PositionKey, Wrap;
  }

  lemma KeyedDecides(s: State, t: State)
    requires s.positions == t.positions && Keyed(s)
    ensures Keyed(t)
  {
  }

  lemma DeliverKeyed(s: State, sequence: int64, p: Trade, notional: int64)
    requires Keyed(s)
    ensures Keyed(Deliver(s, sequence, p, notional))
  {
    hide Normalize, Wrap, AdjustBalance, AdjustPosition, PositionAsset, Buyer, Seller, Keyed;
    var first := AdjustBalance(s, Buyer(p), PositionAsset(p.market, p.outcome), p.quantity, 0, sequence);
    AdjustBalanceFrame(s, Buyer(p), PositionAsset(p.market, p.outcome), p.quantity, 0, sequence);
    KeyedDecides(s, first);
    AdjustKeyed(first, Buyer(p), p.market, p.outcome, p.quantity, sequence);
    var bought := if Buyer(p) > 0 then AdjustPosition(first, Buyer(p), p.market, p.outcome, p.quantity, sequence)
      else s;
    var second := AdjustBalance(bought, Seller(p), p.collateralAsset, notional, 0, sequence);
    AdjustBalanceFrame(bought, Seller(p), p.collateralAsset, notional, 0, sequence);
    KeyedDecides(bought, second);
    AdjustKeyed(second, Seller(p), p.market, p.outcome, Neg(p.quantity), sequence);
  }

  lemma PayoutKeyed(s: State, e: Entry)
    requires Keyed(s) && e.payload.SettlementPayout? && Apply(s, e).Ok()
    ensures Keyed(Apply(s, e).state)
  {
    hide AdjustBalance, BalanceLeafOf, SettlePosition, SettledAsset, PaidAsset, Neg, Keyed;
    var p := e.payload.payout;
    var debited := AdjustBalance(s, p.account, SettledAsset(p), Neg(p.settled), 0, e.sequence);
    AdjustBalanceFrame(s, p.account, SettledAsset(p), Neg(p.settled), 0, e.sequence);
    KeyedDecides(s, debited);
    SettleKeyed(debited, e.sequence, p.account, p.market, p.winningOutcome, p.settled);
    var settled := SettlePosition(debited, e.sequence, p.account, p.market, p.winningOutcome, p.settled).state;
    AdjustBalanceFrame(settled, p.account, PaidAsset(p), p.amount, 0, e.sequence);
    KeyedDecides(settled, Apply(s, e).state);
  }

  lemma TradeKeyed(s: State, e: Entry)
    requires Keyed(s) && e.payload.TradeMatched? && Apply(s, e).Ok()
    ensures Keyed(Apply(s, e).state)
  {
    hide Apply, TakerFilled, BothFilled, Deliver, Keyed;
    var p := e.payload.trade;
    TradeFrame(s, e);
    FillsFrame(s, e);
    KeyedDecides(s, BothFilled(s, e).state);
    DeliverKeyed(BothFilled(s, e).state, e.sequence, p, p.price * p.quantity);
  }

  lemma KeyedStep(s: State, e: Entry)
    requires Keyed(s) && Apply(s, e).Ok()
    ensures Keyed(Apply(s, e).state)
  {
    hide Apply, Keyed;
    if e.payload.TradeMatched? {
      TradeKeyed(s, e);
    } else if e.payload.SettlementPayout? {
      PayoutKeyed(s, e);
    } else {
      PositionsFrame(s, e);
      KeyedDecides(s, Apply(s, e).state);
    }
  }

  lemma {:induction false} KeyedRun(s: State, entries: seq<Entry>)
    requires Keyed(s) && Run(s, entries).Ok()
    ensures Keyed(Run(s, entries).state)
    decreases entries
  {
    hide Apply, Keyed;
    if entries != [] {
      KeyedStep(s, entries[0]);
      KeyedRun(Apply(s, entries[0]).state, entries[1..]);
    }
  }

  // ---------------------------------------------------------------- agreement with balances

  ghost function Holding(k: Key): View {
    Holder(k.account, PositionAsset(k.market, k.outcome))
  }

  ghost predicate AgreesAt(s: State, k: Key) {
    Cong(Quantity(s, k), Value(s, Holding(k)))
  }

  ghost predicate Agrees(s: State) {
    forall k: Key :: k.account > 0 ==> AgreesAt(s, k)
  }

  /** The position whose shares an asset stands for, if it stands for any: the printed name must read back. */
  predicate NamesPosition(asset: string) {
    var (market, outcome) := PositionParts(Normalize(asset));
    IsInt64(market) && PositionAsset(market, outcome) == Normalize(asset)
  }

  lemma NamesPositionIff(asset: string, m: int64, o: string)
    ensures Normalize(asset) == PositionAsset(m, o) ==> NamesPosition(asset)
    ensures NamesPosition(asset) ==>
              var (market, outcome) := PositionParts(Normalize(asset));
              Normalize(asset) == PositionAsset(market, outcome)
  {
    hide Normalize, PositionAsset, PositionParts;
    if Normalize(asset) == PositionAsset(m, o) {
      PositionPartsOf(m, o);
      NormalizeIdempotent(o);
      PositionAssetInjective(m, o, m, Normalize(o));
    }
  }

  /** What an order of account a spends of asset x in a trade. */
  function Spends(s: State, id: string, p: Trade, a: int64, x: string): int {
    if id !in s.openOrders then 0
    else
      var o := s.openOrders[id];
      if o.account != a || Normalize(o.reserveAsset) != x then 0
      else if o.side == "BUY" then p.price * p.quantity
      else p.quantity
  }

  /** What a trade leaves account a with of asset x, beyond what it adds to a's position in it. The buyer's
      shares are on both sides and cancel; the seller's position falls whatever pays for it. */
  function Gap(s: State, p: Trade, a: int64, x: string): int {
    (if Seller(p) == a && Normalize(p.collateralAsset) == x then p.price * p.quantity else 0)
    + (if Seller(p) == a && PositionAsset(p.market, p.outcome) == x then p.quantity else 0)
    - Spends(s, p.takerOrderId, p, a, x) - Spends(s, p.makerOrderId, p, a, x)
  }

  predicate GapIn(s: State, p: Trade, a: int64, asset: string) {
    a > 0 && NamesPosition(asset) && Gap(s, p, a, Normalize(asset)) != 0
  }

  predicate GapOfOrder(s: State, p: Trade, id: string) {
    id in s.openOrders && GapIn(s, p, s.openOrders[id].account, s.openOrders[id].reserveAsset)
  }

  /** An entry the ledger accepts although it parts positions from the shares held: it moves a position
      asset by itself, settles a position out of another asset, or is a trade with a gap at one of the four
      holdings it names. */
  predicate PartsPositions(s: State, e: Entry) {
    match e.payload
    case DepositCredited(account, asset, amount) => account > 0 && amount != 0 && NamesPosition(asset)
    case WithdrawalRequested(w) => w.account > 0 && w.amount != 0 && NamesPosition(w.asset)
    case SettlementPayout(p) =>
      || SettledAsset(p) != PositionAsset(p.market, p.winningOutcome)
      || (p.amount > 0 && NamesPosition(PaidAsset(p)))
    case TradeMatched(p) =>
      || GapIn(s, p, Seller(p), p.collateralAsset) || GapIn(s, p, Seller(p), PositionAsset(p.market, p.outcome))
      || GapOfOrder(s, p, p.takerOrderId) || GapOfOrder(s, p, p.makerOrderId)
    case _ => false
  }

  /** How far one entry parts a position from its balance. */
  ghost function Drift(s: State, e: Entry, k: Key): int {
    Flow(s, e, Holding(k)) - TradedIn(k)(e) + SettledFrom(k)(e)
  }

  lemma DriftDecides(s: State, e: Entry, k: Key)
    requires WellKeyed(s) && Apply(s, e).Ok() && AgreesAt(s, k)
    ensures AgreesAt(Apply(s, e).state, k) <==> Cong(Drift(s, e, k), 0)
  {
    hide Apply, Wrap, QuantityOf, TradedIn, SettledFrom, Flow, WellKeyed, Value;
    QuantityStep(s, e, k);
    FlowStep(s, e, Holding(k));
    var q, v := Quantity(s, k), Value(s, Holding(k));
    var pf, bf := TradedIn(k)(e) - SettledFrom(k)(e), Flow(s, e, Holding(k));
    WrapInRange(Wrap(q + pf));
    CongPlus(v, q, bf);
    CongCancel(q, pf, bf);
    CongDrop(pf, Drift(s, e, k));
  }

  lemma CongCancel(q: int, a: int, b: int)
    ensures Cong(q + a, q + b) <==> Cong(a, b)
  {
    hide Wrap;
    WrapZero(q + a, q + b);
    WrapZero(a, b);
  }

  lemma TradeDrift(s: State, e: Entry, k: Key)
    requires k.account > 0 && e.payload.TradeMatched?
    ensures Drift(s, e, k) == Gap(s, e.payload.trade, k.account, PositionAsset(k.market, k.outcome))
  {
    hide Normalize, PositionAsset, Buyer, Seller;
    var p := e.payload.trade;
    PositionAssetNormal(k.market, k.outcome);
    PositionAssetNormal(p.market, p.outcome);
    PositionAssetInjective(p.market, p.outcome, k.market, k.outcome);
  }

  lemma PayoutDrift(s: State, e: Entry, k: Key)
    requires k.account > 0 && e.payload.SettlementPayout? && Apply(s, e).Ok()
    ensures var p, x := e.payload.payout, PositionAsset(k.market, k.outcome);
            && p.account > 0 && p.settled > 0 && p.amount >= 0
            && Drift(s, e, k) ==
               if k.account != p.account then 0
               else (if PaidAsset(p) == x then p.amount else 0) - (if SettledAsset(p) == x then p.settled else 0)
                    + (if PositionAsset(p.market, p.winningOutcome) == x then p.settled else 0)
  {
    hide Normalize, PositionAsset, AdjustBalance, BalanceLeafOf, SettlePosition;
    var p := e.payload.payout;
    NormalizeIdempotent(p.payoutAsset);
    NormalizeIdempotent(p.positionAsset);
    CollateralNormal();
    PositionAssetNormal(k.market, k.outcome);
    PositionAssetNormal(p.market, p.winningOutcome);
    PositionAssetInjective(p.market, p.winningOutcome, k.market, k.outcome);
  }

  lemma OtherDrift(s: State, e: Entry, k: Key)
    requires k.account > 0 && !e.payload.TradeMatched? && !e.payload.SettlementPayout?
    ensures Drift(s, e, k) ==
            match e.payload
            case DepositCredited(account, asset, amount) =>
              (if account == k.account && Normalize(asset) == PositionAsset(k.market, k.outcome) then amount else 0)
            case WithdrawalRequested(w) =>
              (if w.account == k.account && Normalize(w.asset) == PositionAsset(k.market, k.outcome)
               then -(w.amount as int)
               else 0)
            case _ => 0
  {
    hide Normalize, PositionAsset;
    PositionAssetNormal(k.market, k.outcome);
  }

  lemma GapSmall(s: State, p: Trade, a: int64, x: string)
    requires p.price >= 0 && 0 < p.quantity && p.price * p.quantity <= MAX_INT64
    ensures -MODULUS < Gap(s, p, a, x) < MODULUS
  {
    hide Normalize, PositionAsset, Seller, Spends;
    SpendsSmall(s, p.takerOrderId, p, a, x);
    SpendsSmall(s, p.makerOrderId, p, a, x);
  }

  lemma SpendsSmall(s: State, id: string, p: Trade, a: int64, x: string)
    requires p.price >= 0 && 0 < p.quantity && p.price * p.quantity <= MAX_INT64
    ensures 0 <= Spends(s, id, p, a, x) <= MAX_INT64
    ensures p.price * p.quantity >= 0
  {
    hide Normalize;
  }

  lemma DriftSmall(s: State, e: Entry, k: Key)
    requires k.account > 0 && Apply(s, e).Ok()
    ensures -MODULUS < Drift(s, e, k) < MODULUS
  {
    hide Apply, Drift, Normalize, PositionAsset, SettledAsset, PaidAsset, Buyer, Seller, FillOrder, Deliver, Gap;
    match e.payload
    case TradeMatched(p) =>
      TradeFrame(s, e);
      TradeDrift(s, e, k);
      GapSmall(s, p, k.account, PositionAsset(k.market, k.outcome));
    case SettlementPayout(_) => PayoutDrift(s, e, k);
    case _ => OtherDrift(s, e, k);
  }

  /** A gap can only be where the trade or one of its orders has something to move. */
  lemma GapIsNamed(s: State, p: Trade, k: Key)
    requires k.account > 0 && Gap(s, p, k.account, PositionAsset(k.market, k.outcome)) != 0
    ensures PartsPositions(s, Entry(0, TradeMatched(p)))
  {
    hide Normalize, PositionAsset, NamesPosition, Seller;
    PositionAssetNormal(p.market, p.outcome);
    NamesPositionIff(p.collateralAsset, k.market, k.outcome);
    NamesPositionIff(PositionAsset(p.market, p.outcome), k.market, k.outcome);
    if p.takerOrderId in s.openOrders {
      NamesPositionIff(s.openOrders[p.takerOrderId].reserveAsset, k.market, k.outcome);
    }
    if p.makerOrderId in s.openOrders {
      NamesPositionIff(s.openOrders[p.makerOrderId].reserveAsset, k.market, k.outcome);
    }
  }

  lemma DriftsNowhere(s: State, e: Entry, k: Key)
    requires k.account > 0 && Apply(s, e).Ok() && !PartsPositions(s, e)
    ensures Drift(s, e, k) == 0
  {
    hide Apply, Drift, Normalize, PositionAsset, SettledAsset, PaidAsset, NamesPosition, Gap;
    match e.payload
    case TradeMatched(p) =>
      TradeDrift(s, e, k);
      if Drift(s, e, k) != 0 {
        GapIsNamed(s, p, k);
      }
    case SettlementPayout(p) =>
      PayoutDrift(s, e, k);
      PaidNormal(p);
      NamesPositionIff(PaidAsset(p), k.market, k.outcome);
    case DepositCredited(_, asset, _) =>
      OtherDrift(s, e, k);
      NamesPositionIff(asset, k.market, k.outcome);
    case WithdrawalRequested(w) =>
      OtherDrift(s, e, k);
      NamesPositionIff(w.asset, k.market, k.outcome);
    case _ => OtherDrift(s, e, k);
  }

  lemma PaidNormal(p: Payout)
    ensures Normalize(PaidAsset(p)) == PaidAsset(p)
  {
    hide Normalize;
    NormalizeIdempotent(p.payoutAsset);
    CollateralNormal();
  }

  lemma KeyNamed(account: int64, asset: string) returns (k: Key)
    requires NamesPosition(asset)
    ensures k.account == account && PositionAsset(k.market, k.outcome) == Normalize(asset)
  {
    var (market, outcome) := PositionParts(Normalize(asset));
    k := Key(account, market, outcome);
  }

  lemma DriftsSomewhere(s: State, e: Entry) returns (k: Key)
    requires Apply(s, e).Ok() && PartsPositions(s, e)
    ensures k.account > 0 && Drift(s, e, k) != 0
  {
    hide Apply, Drift, Normalize, PositionAsset, SettledAsset, PaidAsset, NamesPosition, Gap;
    match e.payload
    case TradeMatched(p) =>
      if GapIn(s, p, Seller(p), p.collateralAsset) {
        k := KeyNamed(Seller(p), p.collateralAsset);
      } else if GapIn(s, p, Seller(p), PositionAsset(p.market, p.outcome)) {
        k := KeyNamed(Seller(p), PositionAsset(p.market, p.outcome));
      } else {
        var id := if GapOfOrder(s, p, p.takerOrderId) then p.takerOrderId else p.makerOrderId;
        k := KeyNamed(s.openOrders[id].account, s.openOrders[id].reserveAsset);
      }
      TradeDrift(s, e, k);
    case SettlementPayout(p) =>
      if SettledAsset(p) != PositionAsset(p.market, p.winningOutcome) {
        k := Key(p.account, p.market, p.winningOutcome);
      } else {
        k := KeyNamed(p.account, PaidAsset(p));
        PaidNormal(p);
      }
      PayoutPositive(s, e);
      PayoutDrift(s, e, k);
    case DepositCredited(account, asset, _) =>
      k := KeyNamed(account, asset);
      OtherDrift(s, e, k);
    case WithdrawalRequested(w) =>
      k := KeyNamed(w.account, w.asset);
      OtherDrift(s, e, k);
  }

  lemma PayoutPositive(s: State, e: Entry)
    requires e.payload.SettlementPayout? && Apply(s, e).Ok()
    ensures e.payload.payout.account > 0
  {
    hide AdjustBalance, BalanceLeafOf, SettlePosition, SettledAsset, PaidAsset;
  }

  /** One entry, whatever it is: every position keeps agreeing with the shares held exactly when the entry
      is not one of those. */
  lemma AgreesStepIff(s: State, e: Entry)
    requires WellKeyed(s) && Agrees(s) && Apply(s, e).Ok()
    ensures WellKeyed(Apply(s, e).state)
    ensures Agrees(Apply(s, e).state) <==> !PartsPositions(s, e)
  {
    hide Apply, PartsPositions, AgreesAt, WellKeyed, Drift, Wrap;
    FlowStep(s, e, Everyone(""));
    forall k: Key | k.account > 0 ensures AgreesAt(Apply(s, e).state, k) <==> Drift(s, e, k) == 0 {
      DriftDecides(s, e, k);
      DriftSmall(s, e, k);
      SmallCong(Drift(s, e, k));
    }
    if PartsPositions(s, e) {
      var k := DriftsSomewhere(s, e);
      assert !AgreesAt(Apply(s, e).state, k);
    } else {
      forall k: Key | k.account > 0 ensures Drift(s, e, k) == 0 {
        DriftsNowhere(s, e, k);
      }
    }
  }

  /** A deposit of shares is accepted and leaves the account with shares but no position. */
  lemma ShareDepositBreaks(sequence: int64, account: int64, m: int64, o: string, amount: int64)
    requires account > 0 && amount != 0
    ensures var e := Entry(sequence, DepositCredited(account, PositionAsset(m, o), amount));
            Apply(EMPTY, e).Ok() && !Agrees(Apply(EMPTY, e).state)
  {
    hide AdjustBalance, PositionAsset, NamesPosition, Agrees, WellKeyed;
    EmptyAgrees();
    PositionAssetNormal(m, o);
    NamesPositionIff(PositionAsset(m, o), m, o);
    AgreesStepIff(EMPTY, Entry(sequence, DepositCredited(account, PositionAsset(m, o), amount)));
  }

  /** A trade between orders that hold what they sell, for a collateral that is no position asset, has no
      gap. */
  lemma MatchedTradeKeeps(s: State, e: Entry)
    requires e.payload.TradeMatched? && Matched(s, e.payload.trade) && !NamesPosition(e.payload.trade.collateralAsset)
    ensures !PartsPositions(s, e)
  {
    hide Normalize, PositionAsset, NamesPosition;
    var p := e.payload.trade;
    PositionAssetNormal(p.market, p.outcome);
    SameNames(p.collateralAsset, s.openOrders[p.takerOrderId].reserveAsset);
    SameNames(p.collateralAsset, s.openOrders[p.makerOrderId].reserveAsset);
    SameNames(p.collateralAsset, PositionAsset(p.market, p.outcome));
    NamesPositionIff(PositionAsset(p.market, p.outcome), p.market, p.outcome);
  }

  lemma SameNames(x: string, y: string)
    ensures Normalize(x) == Normalize(y) ==> (NamesPosition(x) <==> NamesPosition(y))
  {
  }

  /** No entry of the run parts positions from balances. */
  predicate KeepsPositionsRun(s: State, entries: seq<Entry>)
    decreases entries
  {
    entries != [] ==> !PartsPositions(s, entries[0]) && KeepsPositionsRun(Apply(s, entries[0]).state, entries[1..])
  }

  lemma {:induction false} AgreesRun(s: State, entries: seq<Entry>)
    requires WellKeyed(s) && Agrees(s) && KeepsPositionsRun(s, entries) && Run(s, entries).Ok()
    ensures WellKeyed(Run(s, entries).state) && Agrees(Run(s, entries).state)
    decreases entries
  {
    hide Apply, PartsPositions, Agrees, WellKeyed;
    if entries != [] {
      AgreesStepIff(s, entries[0]);
      AgreesRun(Apply(s, entries[0]).state, entries[1..]);
    }
  }

  // ---------------------------------------------------------------- settlement

  /** Where positions agree with balances, locked shares are not negative and the holding fits a word,
      the free-balance guard already implies everything the position checks ask: past the guard no
      settlement is refused. */
  lemma SettlementNeverStuck(s: State, e: Entry)
    requires e.payload.SettlementPayout?
    requires var p := e.payload.payout;
             var k := Key(p.account, p.market, p.winningOutcome);
             && AgreesAt(s, k) && SettledAsset(p) == PositionAsset(p.market, p.winningOutcome)
             && Locked(s, p.account, SettledAsset(p)) >= 0 && IsInt64(Value(s, Holding(k)))
    ensures var p := e.payload.payout;
            Apply(s, e).Ok() <==> p.account > 0 && p.market > 0 && p.settled > 0 && p.amount >= 0
                                  && p.settled <= Free(s, p.account, SettledAsset(p))
    ensures Apply(s, e).err in {Nil, MissingField, SettlementInvalid, SettlementExceedsBalance}
  {
    hide Normalize, AdjustBalance, BalanceLeafOf, SettledAsset, PaidAsset, Neg, PositionKey, Wrap, PositionAsset,
         PutPosition;
    var p := e.payload.payout;
    var k := Key(p.account, p.market, p.winningOutcome);
    WrapInRange(Quantity(s, k));
    WrapInRange(Value(s, Holding(k)));
    assert Quantity(s, k) == Free(s, p.account, SettledAsset(p)) + Locked(s, p.account, SettledAsset(p));
    var debited := AdjustBalance(s, p.account, SettledAsset(p), Neg(p.settled), 0, e.sequence);
    AdjustBalanceFrame(s, p.account, SettledAsset(p), Neg(p.settled), 0, e.sequence);
    PositionsDecide(s, debited, k);
    if p.settled > 0 && p.settled <= Free(s, p.account, SettledAsset(p)) {
      WrapInRange(Quantity(s, k) - p.settled);
    }
  }

  /** The same for every run: after any accepted, careful history that keeps positions, a settlement
      that names its position asset is refused by the guards alone. */
  lemma SettlementAfterAnyRun(entries: seq<Entry>, e: Entry)
    requires Run(EMPTY, entries).Ok() && KeepsPositionsRun(EMPTY, entries) && LockedFunds.Careful(EMPTY, entries)
    requires e.payload.SettlementPayout? && e.payload.payout.account > 0
    requires var s, p := Run(EMPTY, entries).state, e.payload.payout;
             && SettledAsset(p) == PositionAsset(p.market, p.winningOutcome)
             && IsInt64(LockedFunds.Reserved(s, p.account, SettledAsset(p)))
             && IsInt64(Value(s, Holding(Key(p.account, p.market, p.winningOutcome))))
    ensures var s, p := Run(EMPTY, entries).state, e.payload.payout;
            Apply(s, e).Ok() <==>
              p.market > 0 && p.settled > 0 && p.amount >= 0 && p.settled <= Free(s, p.account, SettledAsset(p))
  {
    hide Run, KeepsPositionsRun, LockedFunds.Careful, Apply, LockedFunds.Reserved, SettledAsset, Value, AgreesAt,
         BalanceLeafOf, WellKeyed, PositionAsset;
    var s, p := Run(EMPTY, entries).state, e.payload.payout;
    EmptyAgrees();
    AgreesRun(EMPTY, entries);
    LockedFunds.LockedExplained(entries, p.account, SettledAsset(p));
    assert AgreesAt(s, Key(p.account, p.market, p.winningOutcome));
    SettlementNeverStuck(s, e);
  }

  lemma EmptyAgrees()
    ensures WellKeyed(EMPTY) && Agrees(EMPTY)
  {
    hide Normalize, PositionAsset;
  }
}
