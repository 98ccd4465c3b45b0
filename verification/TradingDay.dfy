/** A market's life in five entries: deposit, a buy and a sell order, their trade, and the settlement of the
    bought shares. For every choice of accounts, market, prices and quantity that fits int64 the ledger
    accepts it, and it meets the conditions the run-long laws ask for. */
module TradingDay {
  import opened Int64
  import opened Text
  import opened Sums
  import opened Ledger
  import opened Accounts
  import opened LockedFunds
  import opened Flows
  import opened Conservation
  import opened Positions
  import OrderLifetime

  datatype Day = Day(buyer: int64, seller: int64, market: int64, outcome: string, limit: int64, price: int64,
                     quantity: int64, deposit: int64, payout: int64)

  /** The trade itself fits: this is all the ledger looks at. */
  ghost predicate Tradable(d: Day) {
    0 <= d.price <= d.limit && d.quantity > 0 && d.limit * d.quantity <= MAX_INT64
  }

  ghost predicate Plausible(d: Day) {
    Tradable(d) && d.buyer > 0 && d.seller > 0 && d.buyer != d.seller && d.market > 0 && d.payout >= 0
  }

  function Buy(d: Day): Acceptance
    requires Tradable(d)
  {
    PriceFits(d);
    Acceptance("buy", d.buyer, d.market, d.outcome, "BUY", "USDT", "USDT", d.limit * d.quantity, d.limit, d.quantity)
  }

  function Sell(d: Day): Acceptance {
    Acceptance("sell", d.seller, d.market, d.outcome, "SELL", "USDT", PositionAsset(d.market, d.outcome), d.quantity,
               d.price, d.quantity)
  }

  function Match(d: Day): Trade {
    Trade("USDT", d.market, d.outcome, d.price, d.quantity, "buy", "sell", d.buyer, d.seller, "BUY")
  }

  function Settle(d: Day): Payout {
    Payout("event", d.market, d.buyer, d.outcome, "", d.quantity, "", d.payout)
  }

  function Trading(d: Day): seq<Entry>
    requires Tradable(d)
  {
    [Entry(1, DepositCredited(d.buyer, "USDT", d.deposit)), Entry(2, OrderAccepted(Buy(d))),
     Entry(3, OrderAccepted(Sell(d))), Entry(4, TradeMatched(Match(d)))]
  }

  function Settlement(d: Day): Entry {
    Entry(5, SettlementPayout(Settle(d)))
  }

  lemma PriceFits(d: Day)
    requires Tradable(d)
    ensures 0 <= d.price * d.quantity <= d.limit * d.quantity
  {
    Scale(d.price, d.quantity);
    Scale(d.limit - d.price, d.quantity);
    assert d.limit * d.quantity == d.price * d.quantity + (d.limit - d.price) * d.quantity;
  }

  lemma Scale(a: int, b: int)
    requires a >= 0 && b >= 0
    ensures a * b >= 0
  {
  }

  /** Both orders open, nothing else. */
  lemma OrdersOpen(d: Day)
    requires Tradable(d)
    ensures var es := Trading(d);
            var s1 := Apply(EMPTY, es[0]).state;
            var s2 := Apply(s1, es[1]).state;
            var s3 := Apply(s2, es[2]).state;
            && Apply(EMPTY, es[0]).Ok() && Apply(s1, es[1]).Ok() && Apply(s2, es[2]).Ok()
            && s1.openOrders == map[]
            && s2.openOrders == map["buy" := AcceptedOrder(Buy(d), 2)]
            && s3.openOrders == map["buy" := AcceptedOrder(Buy(d), 2), "sell" := AcceptedOrder(Sell(d), 3)]
  {
    hide AdjustBalance, AcceptedOrder, Buy, Sell;
    var es := Trading(d);
    var s1 := Apply(EMPTY, es[0]).state;
    AdjustBalanceFrame(EMPTY, d.buyer, "USDT", d.deposit, 0, 1);
    var s2 := Apply(s1, es[1]).state;
    NamesOf(d);
    AcceptFrame(s1, es[1]);
    AcceptFrame(s2, es[2]);
  }

  lemma NamesOf(d: Day)
    requires Tradable(d)
    ensures Buy(d).orderId == "buy" && Sell(d).orderId == "sell"
  {
  }

  /** The orders as the ledger holds them. */
  lemma OrderTerms(d: Day)
    requires Tradable(d)
    ensures var b := AcceptedOrder(Buy(d), 2);
            && b.side == "BUY" && b.account == d.buyer && b.reserveAsset == "USDT"
                 && b.reserved == d.limit * d.quantity >= 0
            && OrderLifetime.Funded(b) && b.price == d.limit && b.remaining == d.quantity
    ensures var r := AcceptedOrder(Sell(d), 3);
            && r.side == "SELL" && r.account == d.seller && r.reserveAsset == PositionAsset(d.market, d.outcome)
                 && r.reserved == d.quantity
            && OrderLifetime.Funded(r) && r.price == d.price && r.remaining == d.quantity
  {
    hide Normalize, PositionAsset;
    OrderLifetime.SidesNormal();
    CollateralNormal();
    PositionAssetNormal(d.market, d.outcome);
    OrderLifetime.PositionAssetNonEmpty(d.market, d.outcome);
    PriceFits(d);
  }

  lemma TradeAccepted(d: Day, s: State)
    requires Tradable(d) && s.openOrders == map["buy" := AcceptedOrder(Buy(d), 2), "sell" := AcceptedOrder(Sell(d), 3)]
    ensures var e := Trading(d)[3];
            Apply(s, e).Ok() && Apply(s, e).state.openOrders == map[] && Matched(s, Match(d))
  {
    hide FillOrder, Deliver, AcceptedOrder, Buy, Sell, Normalize, PositionAsset, OrderLifetime.Funded;
    var e := Trading(d)[3];
    OrderTerms(d);
    PriceFits(d);
    OrderLifetime.SidesNormal();
    CollateralNormal();
    PositionAssetNormal(d.market, d.outcome);
    OrderLifetime.FillFunded(s, "buy", OrderLifetime.Fill(4, d.quantity, d.price));
    var t := TakerFilled(s, e).state;
    OrderLifetime.FillFunded(t, "sell", OrderLifetime.Fill(4, d.quantity, d.price));
    DeliverFrame(BothFilled(s, e).state, 4, Match(d), d.price * d.quantity);
    assert BothFilled(s, e).state.openOrders == map[];
  }

  /** The trading day is accepted and leaves no order open, whoever trades. */
  lemma TradingRuns(d: Day)
    requires Tradable(d)
    ensures var es := Trading(d);
            Run(EMPTY, es).Ok() && Run(EMPTY, es).state.openOrders == map[]
  {
    hide Apply, AcceptedOrder, Buy, Sell, Matched;
    var es := Trading(d);
    var s1 := Apply(EMPTY, es[0]).state;
    var s2 := Apply(s1, es[1]).state;
    var s3 := Apply(s2, es[2]).state;
    var s4 := Apply(s3, es[3]).state;
    OrdersOpen(d);
    TradeAccepted(d, s3);
    assert es[3..] == [es[3]] && es[3..][1..] == [];
    assert Run(s3, es[3..]) == Outcome(s4, Nil);
    assert es[2..][0] == es[2] && es[2..][1..] == es[3..];
    assert Run(s2, es[2..]) == Outcome(s4, Nil);
    assert es[1..][0] == es[1] && es[1..][1..] == es[2..];
    assert Run(s1, es[1..]) == Outcome(s4, Nil);
  }

  lemma TradeKeepsBooks(d: Day, s: State)
    requires Plausible(d)
    requires s.openOrders == map["buy" := AcceptedOrder(Buy(d), 2), "sell" := AcceptedOrder(Sell(d), 3)]
    ensures !Untied(s, Trading(d)[3]) && !PartsPositions(s, Trading(d)[3])
  {
    hide Apply, Normalize, PositionAsset, AcceptedOrder, Buy, Sell, Matched, Balanced, NamesPosition, PartsPositions;
    var e := Trading(d)[3];
    TradeAccepted(d, s);
    NotPositionLike();
    AmountsOf(d);
    CollateralNormal();
    PositionAssetNormal(d.market, d.outcome);
    MatchedBalancedIff(s, e);
    MatchedTradeKeeps(s, e);
  }

  /** With real accounts it satisfies what the locked-funds, conservation and position laws ask. */
  lemma TradingAccepted(d: Day)
    requires Plausible(d)
    ensures var es := Trading(d);
            && Run(EMPTY, es).Ok() && Run(EMPTY, es).state.openOrders == map[]
            && Careful(EMPTY, es) && TiedRun(EMPTY, es) && KeepsPositionsRun(EMPTY, es)
  {
    hide Apply, Normalize, PositionAsset, AcceptedOrder, Buy, Sell, Balanced, NamesPosition, Run, GapIn, GapOfOrder;
    TradingRuns(d);
    var es := Trading(d);
    var s1 := Apply(EMPTY, es[0]).state;
    var s2 := Apply(s1, es[1]).state;
    var s3 := Apply(s2, es[2]).state;
    OrdersOpen(d);
    OrderTerms(d);
    TradeKeepsBooks(d, s3);
    NotPositionLike();
    AmountsOf(d);
    assert es[3..] == [es[3]] && es[3..][1..] == [];
    assert Careful(s3, es[3..]) && TiedRun(s3, es[3..]) && KeepsPositionsRun(s3, es[3..]);
    assert es[2..][0] == es[2] && es[2..][1..] == es[3..];
    assert Careful(s2, es[2..]) && TiedRun(s2, es[2..]) && KeepsPositionsRun(s2, es[2..]);
    assert es[1..][0] == es[1] && es[1..][1..] == es[2..];
    assert Careful(s1, es[1..]) && TiedRun(s1, es[1..]) && KeepsPositionsRun(s1, es[1..]);
  }

  /** With just one real account the same day is accepted, and the total of the traded shares moves although
      the record of the day says nothing was deposited or withdrawn. */
  lemma OneUnkeptAccountBreaks(d: Day, r: Record, batchId: int64)
    requires Tradable(d) && !(d.buyer > 0 <==> d.seller > 0) && IsRecordOf(r, batchId, Trading(d))
    ensures var es, x := Trading(d), PositionAsset(d.market, d.outcome);
            && Run(EMPTY, es).Ok()
            && !Cong(Total(Run(EMPTY, es).state, x) - Total(EMPTY, x), Recorded(r, es, x))
  {
    hide Run, Total, IsRecordOf, Recorded, Leaked, PositionAsset, Wrap, Trading;
    TradingRuns(d);
    TradeLeaks(d);
    SmallCong(if d.buyer > 0 then d.quantity else -d.quantity);
    RecordTiesToLedger(EMPTY, Trading(d), r, batchId, PositionAsset(d.market, d.outcome));
  }

  lemma TradeLeaks(d: Day)
    requires Tradable(d) && !(d.buyer > 0 <==> d.seller > 0)
    ensures Leaked(EMPTY, Trading(d), PositionAsset(d.market, d.outcome)) == if d.buyer > 0 then d.quantity
            else -d.quantity
  {
    hide Apply, Normalize, PositionAsset, AcceptedOrder, Buy, Sell, Matched, TradeFlow;
    var es, x := Trading(d), PositionAsset(d.market, d.outcome);
    var s1 := Apply(EMPTY, es[0]).state;
    var s2 := Apply(s1, es[1]).state;
    var s3 := Apply(s2, es[2]).state;
    OrdersOpen(d);
    TradeAccepted(d, s3);
    PositionAssetNormal(d.market, d.outcome);
    CollateralNormal();
    OrderLifetime.SidesNormal();
    MatchedTradeConserves(s3, es[3], x);
    assert es[3..] == [es[3]] && es[3..][1..] == [];
    assert Leaked(s3, es[3..], x) == if d.buyer > 0 then d.quantity else -d.quantity;
    assert es[2..][0] == es[2] && es[2..][1..] == es[3..];
    assert Leaked(s2, es[2..], x) == Leaked(s3, es[3..], x);
    assert es[1..][0] == es[1] && es[1..][1..] == es[2..];
    assert Leaked(s1, es[1..], x) == Leaked(s3, es[3..], x);
  }

  lemma AmountsOf(d: Day)
    requires Plausible(d)
    ensures Buy(d).reserveAmount >= 0 && Sell(d).reserveAmount >= 0 && Buy(d).orderId == "buy"
            && Sell(d).orderId == "sell"
    ensures Buyer(Match(d)) > 0 && Seller(Match(d)) > 0
  {
    hide Normalize;
    OrderLifetime.SidesNormal();
    PriceFits(d);
  }

  lemma NotPositionLike()
    ensures !NamesPosition("USDT")
  {
    hide Normalize, PositionAsset;
    CollateralNormal();
    var (market, outcome) := PositionParts("USDT");
    PositionAssetNormal(market, outcome);
  }

  // ---------------------------------------------------------------- two buys

  /** The seller's order, entered as a second buy. */
  function OtherBuy(d: Day): Acceptance
    requires Tradable(d)
  {
    Buy(d).(orderId := "other", account := d.seller)
  }

  function TwoBuys(d: Day): seq<Entry>
    requires Tradable(d)
  {
    [Entry(1, OrderAccepted(Buy(d))), Entry(2, OrderAccepted(OtherBuy(d))),
     Entry(3, TradeMatched(Match(d).(makerOrderId := "other")))]
  }

  lemma TwoBuysOpen(d: Day)
    requires Tradable(d)
    ensures var es := TwoBuys(d);
            var s1 := Apply(EMPTY, es[0]).state;
            var s2 := Apply(s1, es[1]).state;
            && Apply(EMPTY, es[0]).Ok() && Apply(s1, es[1]).Ok()
            && s2.openOrders == map["buy" := AcceptedOrder(Buy(d), 1), "other" := AcceptedOrder(OtherBuy(d), 2)]
  {
    hide AdjustBalance, AcceptedOrder, ReserveAssetOf;
    var es := TwoBuys(d);
    var s1 := Apply(EMPTY, es[0]).state;
    AcceptFrame(EMPTY, es[0]);
    AcceptFrame(s1, es[1]);
  }

  lemma TwoBuysTerms(d: Day)
    requires Tradable(d)
    ensures var b, r := AcceptedOrder(Buy(d), 1), AcceptedOrder(OtherBuy(d), 2);
            && b.side == "BUY" && b.reserveAsset == "USDT" && OrderLifetime.Funded(b)
            && b.price == d.limit && b.remaining == d.quantity
            && r.side == "BUY" && r.reserveAsset == "USDT" && OrderLifetime.Funded(r)
            && r.price == d.limit && r.remaining == d.quantity
  {
    hide Normalize;
    OrderLifetime.SidesNormal();
    CollateralNormal();
    PriceFits(d);
  }

  lemma TwoBuysTrade(d: Day, s: State)
    requires Tradable(d)
    requires s.openOrders == map["buy" := AcceptedOrder(Buy(d), 1), "other" := AcceptedOrder(OtherBuy(d), 2)]
    ensures Apply(s, TwoBuys(d)[2]).Ok()
  {
    hide FillOrder, Deliver, AcceptedOrder, Buy, OtherBuy, OrderLifetime.Funded;
    var e := TwoBuys(d)[2];
    TwoBuysTerms(d);
    PriceFits(d);
    OrderLifetime.FillFunded(s, "buy", OrderLifetime.Fill(3, d.quantity, d.price));
    OrderLifetime.FillFunded(TakerFilled(s, e).state, "other", OrderLifetime.Fill(3, d.quantity, d.price));
  }

  /** Both accounts are kept, both orders spend collateral, and the shares come out of nothing. */
  lemma TwoBuysLeak(d: Day, s: State)
    requires Tradable(d) && d.buyer > 0
    requires s.openOrders == map["buy" := AcceptedOrder(Buy(d), 1), "other" := AcceptedOrder(OtherBuy(d), 2)]
    ensures TradeFlow(s, TwoBuys(d)[2], Everyone(PositionAsset(d.market, d.outcome))) == d.quantity
  {
    hide Normalize, PositionAsset, AcceptedOrder, Buy, OtherBuy;
    TwoBuysTerms(d);
    OrderLifetime.SidesNormal();
    CollateralNormal();
    PositionAssetNormal(d.market, d.outcome);
  }

  /** Two buy orders traded against each other are accepted, and the total of the shares rises although the
      record of the batch says nothing was deposited. */
  lemma TwoBuysBreak(d: Day, r: Record, batchId: int64)
    requires Tradable(d) && d.buyer > 0 && IsRecordOf(r, batchId, TwoBuys(d))
    ensures var es, x := TwoBuys(d), PositionAsset(d.market, d.outcome);
            && Run(EMPTY, es).Ok()
            && !Cong(Total(Run(EMPTY, es).state, x) - Total(EMPTY, x), Recorded(r, es, x))
  {
    hide Apply, Total, IsRecordOf, Recorded, PositionAsset, Wrap, TradeFlow, AcceptedOrder, Buy, OtherBuy;
    var es, x := TwoBuys(d), PositionAsset(d.market, d.outcome);
    var s1 := Apply(EMPTY, es[0]).state;
    var s2 := Apply(s1, es[1]).state;
    TwoBuysOpen(d);
    TwoBuysTrade(d, s2);
    TwoBuysLeak(d, s2);
    assert es[2..] == [es[2]] && es[2..][1..] == [];
    assert Run(s2, es[2..]).Ok() && Leaked(s2, es[2..], x) == d.quantity;
    assert es[1..][0] == es[1] && es[1..][1..] == es[2..];
    assert Run(s1, es[1..]).Ok() && Leaked(s1, es[1..], x) == d.quantity;
    assert Run(EMPTY, es).Ok() && Leaked(EMPTY, es, x) == d.quantity;
    SmallCong(d.quantity);
    RecordTiesToLedger(EMPTY, es, r, batchId, x);
  }

  // ---------------------------------------------------------------- settlement

  /** And the settlement of every bought share is accepted after it. */
  lemma SettlementAccepted(d: Day)
    requires Plausible(d)
    ensures Apply(Run(EMPTY, Trading(d)).state, Settlement(d)).Ok()
  {
    hide Apply, Run, Careful, KeepsPositionsRun, TiedRun, Trading, Normalize, PositionAsset, Wrap, BalanceLeafOf,
         Sum, QuantityOf, WellKeyed;
    var es, s, k := Trading(d), Run(EMPTY, Trading(d)).state, Key(d.buyer, d.market, d.outcome);
    TradingAccepted(d);
    SettlesItsAsset(d);
    var x := PositionAsset(d.market, d.outcome);
    LockedExplained(es, d.buyer, x);
    NothingReserved(s, d.buyer, x);
    EmptyAgrees();
    AgreesRun(EMPTY, es);
    assert AgreesAt(s, k);
    BoughtShares(d);
    WrapInRange(d.quantity);
    WrapInRange(Free(s, d.buyer, x));
    SettlementAfterAnyRun(es, Settlement(d));
  }

  lemma SettlesItsAsset(d: Day)
    ensures SettledAsset(Settle(d)) == PositionAsset(d.market, d.outcome)
  {
    hide PositionAsset;
    NormalFixed("");
  }

  lemma NothingReserved(s: State, a: int64, x: string)
    requires s.openOrders == map[]
    ensures Reserved(s, a, x) == 0
  {
  }

  /** The buyer's position is what was bought. */
  lemma BoughtShares(d: Day)
    requires Plausible(d)
    ensures Quantity(Run(EMPTY, Trading(d)).state, Key(d.buyer, d.market, d.outcome)) == d.quantity
  {
    hide Apply, Run, Careful, KeepsPositionsRun, TiedRun, Normalize, Wrap, SeqSum, Buy, Sell;
    var es, k := Trading(d), Key(d.buyer, d.market, d.outcome);
    TradingAccepted(d);
    QuantityRun(EMPTY, es, k);
    OrderLifetime.SidesNormal();
    FourTerms(es, TradedIn(k));
    FourTerms(es, SettledFrom(k));
    EmptyQuantity(k);
    WrapInRange(d.quantity);
  }

  lemma EmptyQuantity(k: Key)
    ensures Quantity(EMPTY, k) == 0
  {
    hide PositionKey;
  }

  lemma FourTerms(es: seq<Entry>, f: Entry -> int)
    requires |es| == 4
    ensures SeqSum(es, f) == f(es[0]) + f(es[1]) + f(es[2]) + f(es[3])
  {
    assert es == [] + [es[0]] + [es[1]] + [es[2]] + [es[3]];
    SeqSumSnoc([], es[0], f);
    SeqSumSnoc([] + [es[0]], es[1], f);
    SeqSumSnoc([] + [es[0]] + [es[1]], es[2], f);
    SeqSumSnoc([] + [es[0]] + [es[1]] + [es[2]], es[3], f);
  }
}
