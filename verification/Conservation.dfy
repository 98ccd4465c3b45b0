/** The conservation record of a batch: per-asset credits and debits, their net, and how the net ties
    to the ledger's totals. */
module Conservation {
  import opened Int64
  import opened Text
  import opened Sums
  import opened Sorting
  import opened Ledger
  import opened Accounts
  import opened Flows

  datatype AssetDelta = AssetDelta(asset: string, totalDebit: int64, totalCredit: int64, netDelta: int64)

  datatype Record = Record(batchId: int64, deltas: seq<AssetDelta>, conserved: bool)

  // ---------------------------------------------------------------- what an entry credits and debits

  /** Asset and amount an entry adds to the credit side, if it adds any. */
  function Credit(p: Payload): Option<(string, int64)> {
    match p
    case DepositCredited(_, asset, amount) => Some((Normalize(asset), amount))
    case TradeMatched(t) => Some((Normalize(t.collateralAsset), Wrap(t.price * t.quantity)))
    case SettlementPayout(t) => Some((Normalize(t.payoutAsset), t.amount))
    case _ => None
  }

  function Debit(p: Payload): Option<(string, int64)> {
    match p
    case WithdrawalRequested(w) => Some((Normalize(w.asset), w.amount))
    case TradeMatched(t) => Some((Normalize(t.collateralAsset), Wrap(t.price * t.quantity)))
    case SettlementPayout(t) => Some((Normalize(t.payoutAsset), t.amount))
    case _ => None
  }

  /** The four entry types the record reads; a payload of one of these that does not decode is an error. */
  predicate Undecodable(p: Payload) {
    p.Malformed? && p.entryType in {"DEPOSIT_CREDITED", "WITHDRAWAL_REQUESTED", "TRADE_MATCHED", "SETTLEMENT_PAYOUT"}
  }

  /** The name of a payload's entry type. */
  function EntryType(p: Payload): string {
    match p
    case NonceAdvanced(_, _, _, _, _, _) => "NONCE_ADVANCED"
    case TradingKeyAuthorized(_) => "TRADING_KEY_AUTHORIZED"
    case OrderAccepted(_) => "ORDER_ACCEPTED"
    case OrderCancelled(_) => "ORDER_CANCELLED"
    case TradeMatched(_) => "TRADE_MATCHED"
    case DepositCredited(_, _, _) => "DEPOSIT_CREDITED"
    case WithdrawalRequested(_) => "WITHDRAWAL_REQUESTED"
    case MarketResolved(_, _, _, _) => "MARKET_RESOLVED"
    case SettlementPayout(_) => "SETTLEMENT_PAYOUT"
    case Unsupported(entryType) => entryType
    case Malformed(entryType) => entryType
  }

  /** A payload of this type that decodes and is credited or debited. */
  ghost predicate Counted(p: Payload, entryType: string) {
    !p.Unsupported? && !p.Malformed? && EntryType(p) == entryType && (Credit(p).Some? || Debit(p).Some?)
  }

  /** A payload that does not decode stops the record exactly if a decoded one of its type would count. */
  lemma UndecodableIff(entryType: string)
    ensures Undecodable(Malformed(entryType)) <==> exists p :: Counted(p, entryType)
  {
    hide Normalize, Wrap;
    assert Counted(DepositCredited(0, "", 0), "DEPOSIT_CREDITED");
    assert Counted(WithdrawalRequested(Withdrawal("", 0, "", 0, "", "")), "WITHDRAWAL_REQUESTED");
    assert Counted(TradeMatched(Trade("", 0, "", 0, 0, "", "", 0, 0, "")), "TRADE_MATCHED");
    assert Counted(SettlementPayout(Payout("", 0, 0, "", "", 0, "", 0)), "SETTLEMENT_PAYOUT");
  }

  function Amount(side: Option<(string, int64)>, x: string): int {
    if side.Some? && side.value.0 == x then side.value.1 else 0
  }

  type Side = Payload -> Option<(string, int64)>

  ghost function AmountIn(side: Side, x: string): Entry -> int {
    (e: Entry) => Amount(side(e.payload), x)
  }

  /** The exact sum of one side over the batch. */
  ghost function SideSum(entries: seq<Entry>, side: Side, x: string): int {
    SeqSum(entries, AmountIn(side, x))
  }

  ghost function SideAssets(entries: seq<Entry>, side: Side): set<string> {
    set e | e in entries && side(e.payload).Some? :: side(e.payload).value.0
  }

  ghost function Credited(entries: seq<Entry>, x: string): int {
    SideSum(entries, Credit, x)
  }

  ghost function Debited(entries: seq<Entry>, x: string): int {
    SideSum(entries, Debit, x)
  }

  ghost function Mentioned(entries: seq<Entry>): set<string> {
    SideAssets(entries, Credit) + SideAssets(entries, Debit)
  }

  /** The record stated without the accumulating maps: sorted assets, each with its exact sums stored
      as machine words. */
  ghost predicate IsRecordOf(r: Record, batchId: int64, entries: seq<Entry>) {
    var assets := Sorted(Mentioned(entries));
    && r.batchId == batchId
    && |r.deltas| == |assets|
    && (forall i :: 0 <= i < |assets| ==> r.deltas[i] == DeltaOf(entries, assets[i]))
    && (r.conserved <==> forall i :: 0 <= i < |r.deltas| ==> r.deltas[i].netDelta == 0)
  }

  ghost function DeltaOf(entries: seq<Entry>, x: string): AssetDelta {
    AssetDelta(x, Wrap(Debited(entries, x)), Wrap(Credited(entries, x)),
               Wrap(Credited(entries, x) - Debited(entries, x)))
  }

  // ---------------------------------------------------------------- building it

  /** One side of the books: a map from asset to running total. */
  function Accumulate(m: map<string, int64>, side: Option<(string, int64)>): map<string, int64> {
    match side
    case None => m
    case Some((asset, amount)) => m[asset := Add(if asset in m then m[asset] else 0, amount)]
  }

  ghost predicate Tallies(m: map<string, int64>, entries: seq<Entry>, side: Side) {
    m.Keys == SideAssets(entries, side) && forall x :: x in m ==> m[x] == Wrap(SideSum(entries, side, x))
  }

  lemma SideAssetsSnoc(entries: seq<Entry>, side: Side, e: Entry)
    ensures var a := side(e.payload);
            SideAssets(entries + [e], side) == if a.Some? then SideAssets(entries, side) + {a.value.0}
              else SideAssets(entries, side)
  {
    forall x
      ensures x in SideAssets(entries + [e], side) <==>
              x in SideAssets(entries, side) || (side(e.payload).Some? && x == side(e.payload).value.0)
    {
      assert forall d :: d in entries + [e] <==> d in entries || d == e;
    }
  }

  lemma SideSumSnoc(entries: seq<Entry>, side: Side, e: Entry, x: string)
    ensures SideSum(entries + [e], side, x) == SideSum(entries, side, x) + Amount(side(e.payload), x)
  {
    hide SeqSum;
    SeqSumSnoc(entries, e, AmountIn(side, x));
  }

  lemma TallyStep(m: map<string, int64>, entries: seq<Entry>, side: Side, e: Entry)
    requires Tallies(m, entries, side)
    ensures Tallies(Accumulate(m, side(e.payload)), entries + [e], side)
  {
    hide Wrap, SideAssets, SideSum;
    var a := side(e.payload);
    forall x ensures SideSum(entries + [e], side, x) == SideSum(entries, side, x) + Amount(a, x) {
      SideSumSnoc(entries, side, e, x);
    }
    SideAssetsSnoc(entries, side, e);
    if a.Some? {
      var (asset, amount) := a.value;
      WrapAdd(SideSum(entries, side, asset), amount);
      Unmentioned(entries, side, asset);
      WrapInRange(0);
    }
  }

  lemma {:induction false} SumOfZeros<T>(xs: seq<T>, f: T -> int)
    requires forall x :: x in xs ==> f(x) == 0
    ensures SeqSum(xs, f) == 0
  {
    if xs != [] {
      SumOfZeros(xs[..|xs| - 1], f);
    }
  }

  lemma Unmentioned(entries: seq<Entry>, side: Side, x: string)
    ensures x !in SideAssets(entries, side) ==> SideSum(entries, side, x) == 0
  {
    if x !in SideAssets(entries, side) {
      SumOfZeros(entries, AmountIn(side, x));
    }
  }

  method BuildRecord(batchId: int64, entries: seq<Entry>) returns (r: Option<Record>)
    ensures r.Some? <==> forall e :: e in entries ==> !Undecodable(e.payload)
    ensures r.Some? ==> IsRecordOf(r.value, batchId, entries)
  {
    var credits: map<string, int64>, debits: map<string, int64> := map[], map[];
    var i := 0;
    while i < |entries|
      invariant 0 <= i <= |entries|
      invariant forall j :: 0 <= j < i ==> !Undecodable(entries[j].payload)
      invariant Tallies(credits, entries[..i], Credit)
      invariant Tallies(debits, entries[..i], Debit)
    {
      hide Tallies, Accumulate, Credit, Debit;
      var e := entries[i];
      if Undecodable(e.payload) {
        return None;
      }
      assert entries[..i + 1] == entries[..i] + [e];
      TallyStep(credits, entries[..i], Credit, e);
      TallyStep(debits, entries[..i], Debit, e);
      credits := Accumulate(credits, Credit(e.payload));
      debits := Accumulate(debits, Debit(e.payload));
      i := i + 1;
    }
    assert entries[..|entries|] == entries;
    var record := Summarise(batchId, credits, debits);
    SummaryIsRecord(credits, debits, entries, record);
    return Some(record);
  }

  function NetDelta(credits: map<string, int64>, debits: map<string, int64>, asset: string): AssetDelta {
    var credit := if asset in credits then credits[asset] else 0;
    var debit := if asset in debits then debits[asset] else 0;
    AssetDelta(asset, debit, credit, Sub(credit, debit))
  }

  ghost predicate Summarises(r: Record, credits: map<string, int64>, debits: map<string, int64>) {
    var assets := Sorted(credits.Keys + debits.Keys);
    && |r.deltas| == |assets|
    && (forall i :: 0 <= i < |assets| ==> r.deltas[i] == NetDelta(credits, debits, assets[i]))
    && (r.conserved <==> forall i :: 0 <= i < |r.deltas| ==> r.deltas[i].netDelta == 0)
  }

  method Summarise(batchId: int64, credits: map<string, int64>, debits: map<string, int64>) returns (r: Record)
    ensures r.batchId == batchId && Summarises(r, credits, debits)
  {
    hide Sub, Sorted;
    var assets := SortKeys(credits.Keys + debits.Keys);
    var deltas, conserved := [], true;
    for j := 0 to |assets|
      invariant |deltas| == j
      invariant forall k :: 0 <= k < j ==> deltas[k] == NetDelta(credits, debits, assets[k])
      invariant conserved <==> forall k :: 0 <= k < j ==> deltas[k].netDelta == 0
    {
      var delta := NetDelta(credits, debits, assets[j]);
      if delta.netDelta != 0 {
        conserved := false;
      }
      deltas := deltas + [delta];
    }
    return Record(batchId, deltas, conserved);
  }

  lemma SummaryIsRecord(credits: map<string, int64>, debits: map<string, int64>, entries: seq<Entry>, r: Record)
    requires Tallies(credits, entries, Credit) && Tallies(debits, entries, Debit)
    requires Summarises(r, credits, debits)
    ensures IsRecordOf(r, r.batchId, entries)
  {
    hide NetDelta, DeltaOf, Sorted, SideSum, Wrap;
    assert credits.Keys + debits.Keys == Mentioned(entries);
    hide Tallies, Mentioned;
    var assets := Sorted(credits.Keys + debits.Keys);
    forall i | 0 <= i < |assets| ensures r.deltas[i] == DeltaOf(entries, assets[i]) {
      NetOfAsset(credits, debits, entries, assets[i]);
    }
  }

  lemma TalliedAt(m: map<string, int64>, entries: seq<Entry>, side: Side, x: string)
    requires Tallies(m, entries, side)
    ensures (if x in m then m[x] else 0) == Wrap(SideSum(entries, side, x))
  {
    hide Wrap, SideSum, SideAssets;
    Unmentioned(entries, side, x);
    WrapInRange(0);
  }

  lemma NetOfAsset(credits: map<string, int64>, debits: map<string, int64>, entries: seq<Entry>, x: string)
    requires Tallies(credits, entries, Credit) && Tallies(debits, entries, Debit)
    ensures NetDelta(credits, debits, x) == DeltaOf(entries, x)
  {
    hide Wrap, Credit, Debit, SideSum, Tallies;
    TalliedAt(credits, entries, Credit, x);
    TalliedAt(debits, entries, Debit, x);
    var c, d := Credited(entries, x), Debited(entries, x);
    WrapAdd(c, Wrap(d));
    WrapAdd(c, d);
  }

  lemma WrapZero(c: int, d: int)
    ensures Wrap(c - d) == 0 <==> Wrap(c) == Wrap(d)
  {
    hide Wrap;
    WrapInRange(0);
    WrapAdd(c - d, d);
    WrapAdd(c, d);
    WrapAdd(d, d);
  }

  // ---------------------------------------------------------------- the record is canonical

  /** Entries and batch id leave no freedom in the record. */
  lemma RecordUnique(r: Record, q: Record, batchId: int64, entries: seq<Entry>)
    requires IsRecordOf(r, batchId, entries) && IsRecordOf(q, batchId, entries)
    ensures r == q
  {
    hide Wrap, Sorted, Mentioned, DeltaOf;
    assert r.deltas == q.deltas;
  }

  /** The order of the entries within the batch does not matter. */
  lemma RecordPermutation(r: Record, batchId: int64, entries: seq<Entry>, shuffled: seq<Entry>)
    requires multiset(entries) == multiset(shuffled) && IsRecordOf(r, batchId, entries)
    ensures IsRecordOf(r, batchId, shuffled)
  {
    hide Wrap, Sorted, SeqSum, Credit, Debit;
    forall x ensures DeltaOf(entries, x) == DeltaOf(shuffled, x) {
      SeqSumPermutation(entries, shuffled, AmountIn(Credit, x));
      SeqSumPermutation(entries, shuffled, AmountIn(Debit, x));
    }
    SameMentioned(entries, shuffled);
    hide DeltaOf, Mentioned;
  }

  lemma SameMentioned(entries: seq<Entry>, shuffled: seq<Entry>)
    requires multiset(entries) == multiset(shuffled)
    ensures Mentioned(entries) == Mentioned(shuffled)
  {
    hide Credit, Debit;
    forall e ensures e in entries <==> e in shuffled {
      assert e in entries <==> e in multiset(entries);
    }
  }

  function DepositSide(p: Payload): Option<(string, int64)> {
    if p.DepositCredited? then Credit(p) else None
  }

  function WithdrawalSide(p: Payload): Option<(string, int64)> {
    if p.WithdrawalRequested? then Debit(p) else None
  }

  ghost function Deposited(entries: seq<Entry>, x: string): int {
    SideSum(entries, DepositSide, x)
  }

  ghost function Withdrawn(entries: seq<Entry>, x: string): int {
    SideSum(entries, WithdrawalSide, x)
  }

  /** Trades and payouts enter both sides alike, so deposits and withdrawals alone decide the net. */
  lemma {:induction false} NetIsDepositsLessWithdrawals(entries: seq<Entry>, x: string)
    ensures Credited(entries, x) - Debited(entries, x) == Deposited(entries, x) - Withdrawn(entries, x)
  {
    hide Wrap, Normalize;
    if entries != [] {
      var init, e := entries[..|entries| - 1], entries[|entries| - 1];
      assert entries == init + [e];
      NetIsDepositsLessWithdrawals(init, x);
      SeqSumSnoc(init, e, AmountIn(Credit, x));
      SeqSumSnoc(init, e, AmountIn(Debit, x));
      SeqSumSnoc(init, e, AmountIn(DepositSide, x));
      SeqSumSnoc(init, e, AmountIn(WithdrawalSide, x));
      assert Amount(Credit(e.payload), x) - Amount(Debit(e.payload), x) ==
             Amount(DepositSide(e.payload), x) - Amount(WithdrawalSide(e.payload), x);
    }
  }

  /** A batch is marked conserved exactly when deposits equal withdrawals in every asset. */
  lemma ConservedIff(r: Record, batchId: int64, entries: seq<Entry>)
    requires IsRecordOf(r, batchId, entries)
    ensures r.conserved <==> forall x :: Cong(Deposited(entries, x), Withdrawn(entries, x))
  {
    hide Wrap, Sorted, SideSum, Credit, Debit, Mentioned;
    var assets := Sorted(Mentioned(entries));
    forall i | 0 <= i < |assets|
      ensures r.deltas[i].netDelta == 0 <==> Cong(Deposited(entries, assets[i]), Withdrawn(entries, assets[i]))
    {
      NetIsDepositsLessWithdrawals(entries, assets[i]);
      WrapZero(Deposited(entries, assets[i]), Withdrawn(entries, assets[i]));
    }
    SortedSpec(Mentioned(entries));
    forall x | !(exists i :: 0 <= i < |assets| && assets[i] == x)
      ensures Cong(Deposited(entries, x), Withdrawn(entries, x))
    {
      assert x !in Elements(assets);
      OffTheRecord(entries, x);
    }
  }

  lemma OffTheRecord(entries: seq<Entry>, x: string)
    requires x !in Mentioned(entries)
    ensures Credited(entries, x) == 0 == Debited(entries, x)
    ensures Deposited(entries, x) == Withdrawn(entries, x)
  {
    hide SideSum, SideAssets, Credit, Debit;
    Unmentioned(entries, Credit, x);
    Unmentioned(entries, Debit, x);
    NetIsDepositsLessWithdrawals(entries, x);
  }

  // ---------------------------------------------------------------- what the totals are

  ghost function DepositedIn(x: string): Entry -> int {
    (e: Entry) =>
      if e.payload.DepositCredited? && Normalize(e.payload.depositAsset) == x then e.payload.depositAmount else 0
  }

  ghost function WithdrawnIn(x: string): Entry -> int {
    (e: Entry) =>
      if e.payload.WithdrawalRequested? && Normalize(e.payload.withdrawal.asset) == x then e.payload.withdrawal.amount
      else 0
  }

  /** Price times quantity of a trade, as a machine word. */
  ghost function NotionalIn(x: string): Entry -> int {
    (e: Entry) =>
      if e.payload.TradeMatched? && Normalize(e.payload.trade.collateralAsset) == x
      then Wrap(e.payload.trade.price * e.payload.trade.quantity) else 0
  }

  /** A payout under the asset it names; one that names none is recorded under no name. */
  ghost function NamedPayoutIn(x: string): Entry -> int {
    (e: Entry) =>
      if e.payload.SettlementPayout? && Normalize(e.payload.payout.payoutAsset) == x then e.payload.payout.amount else 0
  }

  /** What a batch credits is its deposits, the notional of its trades and its payouts; what it debits is its
      withdrawals and the same notional and payouts. */
  lemma {:induction false} TotalsAre(entries: seq<Entry>, x: string)
    ensures Credited(entries, x) ==
            SeqSum(entries, DepositedIn(x)) + SeqSum(entries, NotionalIn(x)) + SeqSum(entries, NamedPayoutIn(x))
    ensures Debited(entries, x) ==
            SeqSum(entries, WithdrawnIn(x)) + SeqSum(entries, NotionalIn(x)) + SeqSum(entries, NamedPayoutIn(x))
  {
    hide Wrap, Normalize;
    if entries != [] {
      var init, e := entries[..|entries| - 1], entries[|entries| - 1];
      assert entries == init + [e];
      TotalsAre(init, x);
      SideSumSnoc(init, Credit, e, x);
      SideSumSnoc(init, Debit, e, x);
      SidesOf(e, x);
    }
  }

  lemma SidesOf(e: Entry, x: string)
    ensures Amount(Credit(e.payload), x) == DepositedIn(x)(e) + NotionalIn(x)(e) + NamedPayoutIn(x)(e)
    ensures Amount(Debit(e.payload), x) == WithdrawnIn(x)(e) + NotionalIn(x)(e) + NamedPayoutIn(x)(e)
  {
    hide Wrap, Normalize;
  }

  /** So those are the two totals a record shows for an asset it lists. */
  lemma RecordTotals(r: Record, batchId: int64, entries: seq<Entry>, i: nat)
    requires IsRecordOf(r, batchId, entries) && i < |r.deltas|
    ensures var d, x := r.deltas[i], r.deltas[i].asset;
            && d.totalCredit == Wrap(SeqSum(entries, DepositedIn(x)) + SeqSum(entries, NotionalIn(x))
                                     + SeqSum(entries, NamedPayoutIn(x)))
            && d.totalDebit == Wrap(SeqSum(entries, WithdrawnIn(x)) + SeqSum(entries, NotionalIn(x))
                                    + SeqSum(entries, NamedPayoutIn(x)))
            && d.netDelta == Wrap(SeqSum(entries, DepositedIn(x)) - SeqSum(entries, WithdrawnIn(x)))
  {
    hide Wrap, Sorted, SideSum, SeqSum, Mentioned;
    TotalsAre(entries, r.deltas[i].asset);
  }

  /** The net a record reports for an asset; an asset it does not list has none. */
  ghost function NetIn(r: Record, x: string): int {
    if exists i :: 0 <= i < |r.deltas| && r.deltas[i].asset == x then
      var i :| 0 <= i < |r.deltas| && r.deltas[i].asset == x;
      r.deltas[i].netDelta
    else 0
  }

  lemma NetInRecord(r: Record, batchId: int64, entries: seq<Entry>, x: string)
    requires IsRecordOf(r, batchId, entries)
    ensures NetIn(r, x) == Wrap(Deposited(entries, x) - Withdrawn(entries, x))
  {
    hide Wrap, Sorted, SideSum, Credit, Debit, Mentioned;
    NetIsDepositsLessWithdrawals(entries, x);
    var assets := Sorted(Mentioned(entries));
    SortedSpec(Mentioned(entries));
    assert forall i :: 0 <= i < |assets| ==> r.deltas[i].asset == assets[i];
    if !(exists i :: 0 <= i < |r.deltas| && r.deltas[i].asset == x) {
      assert x !in Elements(assets);
      OffTheRecord(entries, x);
      WrapInRange(0);
    }
  }

  // ---------------------------------------------------------------- record and ledger

  /** A trade between one open buy order holding its collateral and one open sell order holding its
      shares, with the payload's accounts those of the orders. */
  predicate Matched(s: State, p: Trade) {
    var (buy, sell) := if Normalize(p.takerSide) == "BUY" then (p.takerOrderId, p.makerOrderId)
      else (p.makerOrderId, p.takerOrderId);
    && buy in s.openOrders && sell in s.openOrders && buy != sell
    && var b, r := s.openOrders[buy], s.openOrders[sell];
    && b.side == "BUY" && b.account == Buyer(p) && Normalize(b.reserveAsset) == Normalize(p.collateralAsset)
    && r.side == "SELL" && r.account == Seller(p) && Normalize(r.reserveAsset) == PositionAsset(p.market, p.outcome)
  }

  /** A matched trade moves value between accounts and neither creates nor destroys any, unless just
      one of its two accounts is one the ledger keeps no balance for: then shares appear or vanish. */
  lemma MatchedTradeConserves(s: State, e: Entry, x: string)
    requires e.payload.TradeMatched? && Matched(s, e.payload.trade) && Apply(s, e).Ok()
    ensures var p := e.payload.trade;
            && p.quantity > 0
            && ((Buyer(p) > 0 <==> Seller(p) > 0) ==> TradeFlow(s, e, Everyone(x)) == 0)
            && (!(Buyer(p) > 0 <==> Seller(p) > 0)
                && Normalize(p.collateralAsset) != PositionAsset(p.market, p.outcome) ==>
                  TradeFlow(s, e, Everyone(PositionAsset(p.market, p.outcome))) == if Buyer(p) > 0 then p.quantity
                    else -p.quantity)
  {
    hide Apply, FillOrder, Normalize, PositionAsset, Wrap, ExpectedReserve;
    var p := e.payload.trade;
    TradeFrame(s, e);
    PositionAssetNormal(p.market, p.outcome);
  }

  ghost function PaidIn(x: string): Entry -> int {
    (e: Entry) => if e.payload.SettlementPayout? && PaidAsset(e.payload.payout) == x then e.payload.payout.amount else 0
  }

  ghost function SettledIn(x: string): Entry -> int {
    (e: Entry) => if e.payload.SettlementPayout? && SettledAsset(e.payload.payout) == x then e.payload.payout.settled
      else 0
  }

  /** Net flow of asset x promised by the entries alone, without looking at the ledger. */
  ghost function Promised(entries: seq<Entry>, x: string): int {
    Deposited(entries, x) - Withdrawn(entries, x) + SeqSum(entries, PaidIn(x)) - SeqSum(entries, SettledIn(x))
  }

  /** What an entry adds to the total of x beyond what it says: deposits and withdrawals of accounts the
      ledger does not keep, and whatever a trade fails to conserve. */
  ghost function Leak(s: State, e: Entry, x: string): int {
    match e.payload
    case DepositCredited(account, asset, amount) =>
      if account <= 0 && Normalize(asset) == x then -(amount as int) else 0
    case WithdrawalRequested(w) => if w.account <= 0 && Normalize(w.asset) == x then w.amount else 0
    case TradeMatched(_) => TradeFlow(s, e, Everyone(x))
    case _ => 0
  }

  /** Net flow of asset x promised by one entry, without looking at the ledger. */
  ghost function PromisedBy(e: Entry, x: string): int {
    Amount(DepositSide(e.payload), x) - Amount(WithdrawalSide(e.payload), x) + PaidIn(x)(e) - SettledIn(x)(e)
  }

  lemma FlowIsPromiseAndLeak(s: State, e: Entry, x: string)
    requires Apply(s, e).Ok()
    ensures Flow(s, e, Everyone(x)) == PromisedBy(e, x) + Leak(s, e, x)
  {
    hide Normalize, TradeFlow, PositionAsset, Wrap;
    match e.payload
    case SettlementPayout(p) =>
      hide AdjustBalance, BalanceLeafOf, SettlePosition;
      assert p.account > 0;
      NormalizeIdempotent(p.payoutAsset);
      NormalizeIdempotent(p.positionAsset);
      PositionAssetNormal(p.market, p.winningOutcome);
      CollateralNormal();
    case _ =>
      hide Apply;
  }

  lemma PromisedCons(e: Entry, rest: seq<Entry>, x: string)
    ensures Promised([e] + rest, x) == PromisedBy(e, x) + Promised(rest, x)
  {
    hide DepositSide, WithdrawalSide, PaidIn, SettledIn, SeqSum;
    SeqSumCons(e, rest, AmountIn(DepositSide, x));
    SeqSumCons(e, rest, AmountIn(WithdrawalSide, x));
    SeqSumCons(e, rest, PaidIn(x));
    SeqSumCons(e, rest, SettledIn(x));
  }

  ghost function Leaked(s: State, entries: seq<Entry>, x: string): int
    decreases entries
  {
    if entries == [] then 0 else Leak(s, entries[0], x) + Leaked(Apply(s, entries[0]).state, entries[1..], x)
  }

  lemma {:induction false} PromiseKept(s: State, entries: seq<Entry>, x: string)
    requires WellKeyed(s) && Run(s, entries).Ok()
    ensures Cong(Total(Run(s, entries).state, x), Total(s, x) + Promised(entries, x) + Leaked(s, entries, x))
    decreases entries
  {
    hide Apply, Wrap, Total, WellKeyed, Flow, Leak, PromisedBy;
    if entries != [] {
      var e, rest := entries[0], entries[1..];
      assert entries == [e] + rest;
      var t := Apply(s, e).state;
      FlowStep(s, e, Everyone(x));
      FlowIsPromiseAndLeak(s, e, x);
      PromiseKept(t, rest, x);
      PromisedCons(e, rest, x);
      CongPlus(Total(t, x), Total(s, x) + Flow(s, e, Everyone(x)), Promised(rest, x) + Leaked(t, rest, x));
    }
  }

  /** What the record and the payouts of a batch say the total of x should have moved by. */
  ghost function Recorded(r: Record, entries: seq<Entry>, x: string): int {
    NetIn(r, x) + SeqSum(entries, PaidIn(x)) - SeqSum(entries, SettledIn(x))
  }

  /** Over every accepted batch, with no condition on its entries: the total of an asset moves by the net
      its conservation record reports, plus payouts, minus settled shares, plus what leaked. So record and
      ledger tie exactly when the leaks cancel. */
  lemma RecordTiesToLedger(s: State, entries: seq<Entry>, r: Record, batchId: int64, x: string)
    requires WellKeyed(s) && Run(s, entries).Ok() && IsRecordOf(r, batchId, entries)
    ensures var moved := Total(Run(s, entries).state, x) - Total(s, x);
            && Cong(moved, Recorded(r, entries, x) + Leaked(s, entries, x))
            && (Cong(moved, Recorded(r, entries, x)) <==> Cong(Leaked(s, entries, x), 0))
  {
    hide Run, Wrap, Total, WellKeyed, IsRecordOf, NetIn, SideSum, SeqSum, Leaked;
    PromiseKept(s, entries, x);
    NetInRecord(r, batchId, entries, x);
    var leaked := Leaked(s, entries, x);
    var paid := SeqSum(entries, PaidIn(x)) - SeqSum(entries, SettledIn(x));
    CongPlus(Total(Run(s, entries).state, x), Total(s, x) + Promised(entries, x) + leaked, -Total(s, x));
    WrapAdd(Deposited(entries, x) - Withdrawn(entries, x), paid + leaked);
    CongDrop(Recorded(r, entries, x), leaked);
  }

  lemma CongDrop(a: int, b: int)
    ensures Cong(a + b, a) <==> Cong(b, 0)
  {
    hide Wrap;
    if Cong(a + b, a) {
      CongPlus(a + b, a, -a);
    }
    if Cong(b, 0) {
      CongPlus(b, 0, a);
    }
  }

  // ---------------------------------------------------------------- when nothing leaks

  /** What a trade's payload gives kept accounts of asset x. */
  function Delivers(p: Trade, x: string): int {
    (if Buyer(p) > 0 && PositionAsset(p.market, p.outcome) == x then p.quantity else 0)
    + (if Seller(p) > 0 && Normalize(p.collateralAsset) == x then p.price * p.quantity else 0)
  }

  /** What an open order of a kept account spends of asset x in the trade. */
  function Pays(s: State, id: string, p: Trade, x: string): int {
    if id !in s.openOrders then 0
    else
      var o := s.openOrders[id];
      if o.account <= 0 || Normalize(o.reserveAsset) != x then 0
      else if o.side == "BUY" then p.price * p.quantity
      else p.quantity
  }

  predicate BalancedAt(s: State, p: Trade, x: string) {
    Delivers(p, x) == Pays(s, p.takerOrderId, p, x) + Pays(s, p.makerOrderId, p, x)
  }

  function ReserveAssets(s: State, id: string): set<string> {
    if id in s.openOrders then {Normalize(s.openOrders[id].reserveAsset)} else {}
  }

  /** The assets a trade can move: its shares, its collateral, and what its orders reserve. */
  function NamedAssets(s: State, p: Trade): set<string> {
    {PositionAsset(p.market, p.outcome), Normalize(p.collateralAsset)}
    + ReserveAssets(s, p.takerOrderId) + ReserveAssets(s, p.makerOrderId)
  }

  /** What a trade delivers is what its two orders spend, in each of those. */
  predicate Balanced(s: State, p: Trade) {
    forall x :: x in NamedAssets(s, p) ==> BalancedAt(s, p, x)
  }

  /** What the record books for an accepted trade is what the ledger gives a kept seller, and what a kept buyer's
      order spends. */
  lemma TradeBooked(s: State, e: Entry)
    requires e.payload.TradeMatched? && Apply(s, e).Ok()
    ensures var p := e.payload.trade;
            var x := Normalize(p.collateralAsset);
            && Amount(Credit(e.payload), x) == Amount(Debit(e.payload), x) == p.price * p.quantity
            && (Seller(p) > 0 && x != PositionAsset(p.market, p.outcome) ==> Delivers(p, x) == p.price * p.quantity)
            && (forall id :: id in s.openOrders && s.openOrders[id].account > 0 && s.openOrders[id].side == "BUY"
                             && Normalize(s.openOrders[id].reserveAsset) == x ==>
                               Pays(s, id, p, x) == p.price * p.quantity)
  {
    hide Apply, FillOrder, Deliver, Normalize, PositionAsset, Wrap, Buyer, Seller;
    TradeFrame(s, e);
    WrapInRange(e.payload.trade.price * e.payload.trade.quantity);
  }

  /** An entry the ledger accepts although it parts the record from the totals. */
  predicate Untied(s: State, e: Entry) {
    match e.payload
    case DepositCredited(account, _, amount) => account <= 0 && amount != 0
    case WithdrawalRequested(w) => w.account <= 0 && w.amount != 0
    case TradeMatched(p) => !Balanced(s, p)
    case _ => false
  }

  lemma TradeFlowIs(s: State, e: Entry, x: string)
    requires e.payload.TradeMatched?
    ensures var p := e.payload.trade;
            && TradeFlow(s, e, Everyone(x)) ==
               Delivers(p, x) - Pays(s, p.takerOrderId, p, x) - Pays(s, p.makerOrderId, p, x)
            && (x !in NamedAssets(s, p) ==> TradeFlow(s, e, Everyone(x)) == 0)
  {
    hide Normalize, PositionAsset, Buyer, Seller;
    PositionAssetNormal(e.payload.trade.market, e.payload.trade.outcome);
  }

  lemma TradeFlowSmall(s: State, e: Entry, x: string)
    requires e.payload.TradeMatched? && Apply(s, e).Ok()
    ensures -MODULUS < TradeFlow(s, e, Everyone(x)) < MODULUS
  {
    hide Apply, FillOrder, Deliver, Normalize, PositionAsset, Buyer, Seller;
    TradeFrame(s, e);
  }

  lemma SmallCong(w: int)
    requires -MODULUS < w < MODULUS
    ensures Cong(w, 0) <==> w == 0
  {
  }

  /** One entry, whatever it is: the ledger moves every asset total by what the entry says exactly when the
      entry is no deposit or withdrawal of an unkept account and no unbalanced trade. */
  lemma TieStepIff(s: State, e: Entry)
    requires Apply(s, e).Ok()
    ensures (forall x :: Cong(Flow(s, e, Everyone(x)), PromisedBy(e, x))) <==> !Untied(s, e)
  {
    hide Wrap, Flow, PromisedBy, Leak, Untied, Apply;
    forall x ensures Cong(Flow(s, e, Everyone(x)), PromisedBy(e, x)) <==> Leak(s, e, x) == 0 {
      FlowIsPromiseAndLeak(s, e, x);
      CongDrop(PromisedBy(e, x), Leak(s, e, x));
      LeakSmall(s, e, x);
      SmallCong(Leak(s, e, x));
    }
    if Untied(s, e) {
      var x := LeaksSomewhere(s, e);
      assert !Cong(Flow(s, e, Everyone(x)), PromisedBy(e, x));
    } else {
      forall x ensures Leak(s, e, x) == 0 {
        LeaksNowhere(s, e, x);
      }
    }
  }

  lemma LeakSmall(s: State, e: Entry, x: string)
    requires Apply(s, e).Ok()
    ensures -MODULUS < Leak(s, e, x) < MODULUS
  {
    hide Apply, Normalize, TradeFlow;
    if e.payload.TradeMatched? {
      TradeFlowSmall(s, e, x);
    }
  }

  lemma LeaksNowhere(s: State, e: Entry, x: string)
    requires !Untied(s, e)
    ensures Leak(s, e, x) == 0
  {
    hide Normalize, TradeFlow, Delivers, Pays, NamedAssets;
    if e.payload.TradeMatched? {
      TradeFlowIs(s, e, x);
      assert x in NamedAssets(s, e.payload.trade) ==> BalancedAt(s, e.payload.trade, x);
    }
  }

  lemma LeaksSomewhere(s: State, e: Entry) returns (x: string)
    requires Untied(s, e)
    ensures Leak(s, e, x) != 0
  {
    hide Normalize, TradeFlow, Delivers, Pays, NamedAssets;
    match e.payload
    case DepositCredited(_, asset, _) => x := Normalize(asset);
    case WithdrawalRequested(w) => x := Normalize(w.asset);
    case TradeMatched(p) =>
      x :| x in NamedAssets(s, p) && !BalancedAt(s, p, x);
      TradeFlowIs(s, e, x);
  }

  /** For a trade between orders that hold what they sell, in distinct assets, being balanced means that
      both of its accounts are kept or neither is. */
  lemma MatchedBalancedIff(s: State, e: Entry)
    requires e.payload.TradeMatched? && Matched(s, e.payload.trade) && Apply(s, e).Ok()
    requires var p := e.payload.trade;
             Normalize(p.collateralAsset) != PositionAsset(p.market, p.outcome)
    ensures var p := e.payload.trade;
            Balanced(s, p) <==> (Buyer(p) > 0 <==> Seller(p) > 0)
  {
    hide Apply, Normalize, PositionAsset, TradeFlow, Delivers, Pays, Matched, Buyer, Seller, NamedAssets;
    var p := e.payload.trade;
    forall x
      ensures BalancedAt(s, p, x) <==> TradeFlow(s, e, Everyone(x)) == 0
      ensures (Buyer(p) > 0 <==> Seller(p) > 0) ==> TradeFlow(s, e, Everyone(x)) == 0
    {
      TradeFlowIs(s, e, x);
      MatchedTradeConserves(s, e, x);
    }
    var x := PositionAsset(p.market, p.outcome);
    MatchedTradeConserves(s, e, x);
    SharesNamed(s, p);
  }

  lemma SharesNamed(s: State, p: Trade)
    ensures PositionAsset(p.market, p.outcome) in NamedAssets(s, p)
  {
  }

  /** No entry of the run parts the record from the totals. */
  predicate TiedRun(s: State, entries: seq<Entry>)
    decreases entries
  {
    entries != [] ==> !Untied(s, entries[0]) && TiedRun(Apply(s, entries[0]).state, entries[1..])
  }

  lemma {:induction false} TiedRunLeaksNothing(s: State, entries: seq<Entry>, x: string)
    requires TiedRun(s, entries)
    ensures Leaked(s, entries, x) == 0
    decreases entries
  {
    hide Apply, Untied, Leak;
    if entries != [] {
      LeaksNowhere(s, entries[0], x);
      TiedRunLeaksNothing(Apply(s, entries[0]).state, entries[1..], x);
    }
  }

  /** A batch of one deposit: the record reports its amount, and it is paid out of nothing else. */
  lemma DepositRecorded(e: Entry, r: Record, batchId: int64)
    requires e.payload.DepositCredited? && IsRecordOf(r, batchId, [e])
    ensures var x := Normalize(e.payload.depositAsset);
            NetIn(r, x) == e.payload.depositAmount == Recorded(r, [e], x)
  {
    hide Normalize, Wrap, IsRecordOf, NetIn, SeqSum, SideSum;
    var x, amount := Normalize(e.payload.depositAsset), e.payload.depositAmount;
    assert DepositSide(e.payload) == Some((x, amount)) && WithdrawalSide(e.payload) == None;
    OneSide(e, DepositSide, x);
    OneSide(e, WithdrawalSide, x);
    assert Amount(DepositSide(e.payload), x) == amount && Amount(WithdrawalSide(e.payload), x) == 0;
    assert Deposited([e], x) == amount && Withdrawn([e], x) == 0;
    OneTerm(e, PaidIn(x));
    OneTerm(e, SettledIn(x));
    NetInRecord(r, batchId, [e], x);
    WrapInRange(amount);
  }

  lemma OneSide(e: Entry, side: Side, x: string)
    ensures SideSum([e], side, x) == Amount(side(e.payload), x)
  {
    OneTerm(e, AmountIn(side, x));
  }

  lemma OneTerm(e: Entry, f: Entry -> int)
    ensures SeqSum([e], f) == f(e)
  {
    SeqSumSnoc([], e, f);
    assert [] + [e] == [e];
  }

  lemma UnkeptDepositRuns(e: Entry)
    requires e.payload.DepositCredited? && e.payload.depositAccount <= 0
    ensures Run(EMPTY, [e]) == Outcome(EMPTY, Nil)
  {
    assert [e][1..] == [];
    assert Apply(EMPTY, e) == Outcome(EMPTY, Nil);
  }

  /** A deposit to an account the ledger does not keep is accepted and recorded, and moves no total. */
  lemma UnkeptDepositBreaks(e: Entry, r: Record, batchId: int64)
    requires e.payload.DepositCredited? && e.payload.depositAccount <= 0 && e.payload.depositAmount != 0
    requires IsRecordOf(r, batchId, [e])
    ensures var t, x := Run(EMPTY, [e]).state, Normalize(e.payload.depositAsset);
            && Run(EMPTY, [e]).Ok() && Total(t, x) == Total(EMPTY, x)
            && NetIn(r, x) == e.payload.depositAmount
            && !Cong(Total(t, x) - Total(EMPTY, x), Recorded(r, [e], x))
  {
    hide Normalize, Wrap, IsRecordOf, NetIn, Total, Recorded, Run;
    DepositRecorded(e, r, batchId);
    UnkeptDepositRuns(e);
    SmallCong(e.payload.depositAmount);
  }
}
