/** What an exported snapshot says about balances, payouts and the state of positions, over the whole history it
    was replayed from. Quantities of positions are in Snapshot.dfy. */
module ExportedRecords {
  import opened Int64
  import opened Text
  import opened Sums
  import opened Sorting
  import opened Ledger
  import opened Accounts
  import opened Flows
  import opened Roots
  import opened Replay
  import opened Positions
  import opened Snapshot

  // ---------------------------------------------------------------- balances

  ghost predicate IsFor(r: BalanceRecord, a: int64, x: string) {
    r.account == a && r.asset == Normalize(x)
  }

  lemma BalanceRecordAt(batchId: int64, s: State, i: nat, a: int64, x: string)
    requires WellKeyed(s) && i < |Keys(s.balances)| && IsFor(ExportBalances(batchId, s.balances)[i], a, x)
    ensures var r := ExportBalances(batchId, s.balances)[i];
            && Keys(s.balances)[i] == BalanceKey(a, x)
            && r.available == Free(s, a, x) && r.frozen == Locked(s, a, x) && r.batchId == batchId
            && (r.available != 0 || r.frozen != 0) && r.sequenceNo == s.balances[BalanceKey(a, x)].lastSeq
  {
    hide Normalize, BalanceKey, StrictlySorted;
    var key := Keys(s.balances)[i];
    var l := s.balances[key];
    NormalizeIdempotent(x);
    BalanceKeyInjective(l.account, l.asset, a, x);
  }

  lemma BalanceHasRecord(batchId: int64, s: State, a: int64, x: string) returns (i: nat)
    requires WellKeyed(s) && BalanceKey(a, x) in s.balances
    ensures i < |Keys(s.balances)| && IsFor(ExportBalances(batchId, s.balances)[i], a, x)
  {
    hide Normalize, BalanceKey, StrictlySorted;
    var key := BalanceKey(a, x);
    assert key in Elements(Keys(s.balances));
    i :| 0 <= i < |Keys(s.balances)| && Keys(s.balances)[i] == key;
    var l := s.balances[key];
    BalanceKeyInjective(l.account, l.asset, a, x);
    NormalizeIdempotent(x);
  }

  lemma EmptyBalance(s: State, a: int64, x: string)
    requires WellKeyed(s)
    ensures BalanceKey(a, x) in s.balances <==> Free(s, a, x) != 0 || Locked(s, a, x) != 0
  {
    hide Normalize, BalanceKey;
  }

  /** For every account and asset, over the whole history: the exported record says what is free and what is
      locked, there is at most one, and there is none exactly when both are zero. */
  lemma BalanceTruth(f: Formats, batches: seq<StoredBatch>, a: int64, x: string)
    requires ReplayFrom(f, EMPTY, batches).Some?
    ensures var s := ReplayFrom(f, EMPTY, batches).value;
            var records := ExportBalances(LatestBatch(batches), s.balances);
            && (forall i :: 0 <= i < |records| && IsFor(records[i], a, x) ==>
                  records[i].available == Free(s, a, x) && records[i].frozen == Locked(s, a, x))
            && (forall i, j :: 0 <= i < j < |records| ==> !(IsFor(records[i], a, x) && IsFor(records[j], a, x)))
            && ((exists i :: 0 <= i < |records| && IsFor(records[i], a, x)) <==>
                Free(s, a, x) != 0 || Locked(s, a, x) != 0)
  {
    hide ReplayFrom, Run, Entries, ExportBalances, Keys, BalanceKey, Normalize, BalanceLeafOf, IsFor, WellKeyed;
    var s := ReplayFrom(f, EMPTY, batches).value;
    var records := ExportBalances(LatestBatch(batches), s.balances);
    ReplayIsRun(f, EMPTY, batches);
    EmptyAgrees();
    WellKeyedRun(EMPTY, Entries(f, batches));
    RecordCount(LatestBatch(batches), s);
    EmptyBalance(s, a, x);
    forall i | 0 <= i < |records| && IsFor(records[i], a, x)
      ensures Keys(s.balances)[i] == BalanceKey(a, x)
      ensures records[i].available == Free(s, a, x) && records[i].frozen == Locked(s, a, x)
      ensures Free(s, a, x) != 0 || Locked(s, a, x) != 0
    {
      BalanceRecordAt(LatestBatch(batches), s, i, a, x);
    }
    if BalanceKey(a, x) in s.balances {
      var i := BalanceHasRecord(LatestBatch(batches), s, a, x);
    }
  }

  lemma RecordCount(batchId: int64, s: State)
    ensures |ExportBalances(batchId, s.balances)| == |Keys(s.balances)|
    ensures forall i, j :: 0 <= i < j < |Keys(s.balances)| ==> Keys(s.balances)[i] != Keys(s.balances)[j]
  {
    hide Less;
    var ks := Keys(s.balances);
    forall i, j | 0 <= i < j < |ks| ensures ks[i] != ks[j] {
      LessTrichotomy(ks[i], ks[j]);
    }
  }

  // ---------------------------------------------------------------- payouts

  /** The payouts of a batch, each with the batch that holds it. */
  function PayoutsOf(batchId: int64, entries: seq<Entry>): seq<(int64, Payout)>
    decreases entries
  {
    if entries == [] then []
    else
      var p := entries[0].payload;
      (if p.SettlementPayout? then [(batchId, p.payout)] else []) + PayoutsOf(batchId, entries[1..])
  }

  ghost function AllPayouts(f: Formats, batches: seq<StoredBatch>): seq<(int64, Payout)> {
    if batches == [] then []
    else
      (match f.decode(batches[0].inputData) { case None => [] case Some(es) => PayoutsOf(batches[0].batchId, es) })
      + AllPayouts(f, batches[1..])
  }

  /** The last payout of an event. */
  function LastOf(payouts: seq<(int64, Payout)>, event: string): Option<(int64, Payout)> {
    if payouts == [] then None
    else
      var last := payouts[|payouts| - 1];
      if TrimSpace(last.1.eventId) == event then Some(last) else LastOf(payouts[..|payouts| - 1], event)
  }

  /** The events of the payouts, in the order they were first seen. */
  function FirstSeen(payouts: seq<(int64, Payout)>): seq<string> {
    if payouts == [] then []
    else
      var seen, event := FirstSeen(payouts[..|payouts| - 1]), TrimSpace(payouts[|payouts| - 1].1.eventId);
      if event in seen then seen else seen + [event]
  }

  /** A record with the fields of a payout; a blank asset has its default. */
  ghost predicate Reports(r: PayoutRecord, batchId: int64, p: Payout) {
    && r.eventId == TrimSpace(p.eventId) && r.batchId == batchId && r.market == p.market && r.user == p.account
    && r.winningOutcome == Normalize(p.winningOutcome) && r.settled == p.settled && r.amount == p.amount
    && r.positionAsset == (if Normalize(p.positionAsset) == "" then PositionAsset(p.market, p.winningOutcome)
                           else Normalize(p.positionAsset))
    && r.payoutAsset == (if Normalize(p.payoutAsset) == "" then "USDT" else Normalize(p.payoutAsset))
  }

  /** A tally of these payouts: for each event the last one, listed in the order of first sight. */
  ghost predicate Tallied(t: Tally, payouts: seq<(int64, Payout)>) {
    && t.order == FirstSeen(payouts)
    && (forall event :: event in t.byEvent <==> event in t.order)
    && (forall event :: event in t.byEvent <==> LastOf(payouts, event).Some?)
    && (forall event :: event in t.byEvent && LastOf(payouts, event).Some? ==>
          Reports(t.byEvent[event], LastOf(payouts, event).value.0, LastOf(payouts, event).value.1))
  }

  lemma RecordReports(batchId: int64, p: Payout)
    ensures Reports(RecordOf(batchId, p), batchId, p)
  {
    hide Normalize, TrimSpace, PositionAsset;
  }

  lemma TallyStep(t: Tally, u: Tally, payouts: seq<(int64, Payout)>, batchId: int64, p: Payout, event: string,
                  r: PayoutRecord)
    requires Tallied(t, payouts) && event == TrimSpace(p.eventId) && Reports(r, batchId, p)
    requires u.byEvent == t.byEvent[event := r]
    requires u.order == if event in t.byEvent then t.order else t.order + [event]
    ensures Tallied(u, payouts + [(batchId, p)])
  {
    hide LastOf, FirstSeen, Reports, TrimSpace;
    LastSnoc(payouts, batchId, p);
  }

  lemma NoteTallies(t: Tally, batchId: int64, e: Entry, payouts: seq<(int64, Payout)>)
    requires Tallied(t, payouts)
    ensures Tallied(Note(t, batchId, e), payouts + PayoutsOf(batchId, [e]))
  {
    hide Tallied, Reports, SettledAsset, PaidAsset, Normalize, TrimSpace, PositionKey, Add;
    assert [e][1..] == [];
    if e.payload.SettlementPayout? {
      var p := e.payload.payout;
      RecordReports(batchId, p);
      assert PayoutsOf(batchId, [e]) == [(batchId, p)];
      TallyStep(t, Note(t, batchId, e), payouts, batchId, p, TrimSpace(p.eventId), RecordOf(batchId, p));
    } else {
      assert payouts + PayoutsOf(batchId, [e]) == payouts;
    }
  }

  lemma LastSnoc(payouts: seq<(int64, Payout)>, batchId: int64, p: Payout)
    ensures forall event :: LastOf(payouts + [(batchId, p)], event) ==
              if TrimSpace(p.eventId) == event then Some((batchId, p)) else LastOf(payouts, event)
    ensures FirstSeen(payouts + [(batchId, p)]) ==
            if TrimSpace(p.eventId) in FirstSeen(payouts) then FirstSeen(payouts)
            else FirstSeen(payouts) + [TrimSpace(p.eventId)]
  {
    hide TrimSpace;
    assert (payouts + [(batchId, p)])[..|payouts|] == payouts;
  }

  lemma {:induction false} NoteAllTallies(t: Tally, batchId: int64, entries: seq<Entry>, payouts: seq<(int64, Payout)>)
    requires Tallied(t, payouts)
    ensures Tallied(NoteAll(t, batchId, entries), payouts + PayoutsOf(batchId, entries))
    decreases entries
  {
    hide Note, Tallied;
    if entries == [] {
      assert payouts + [] == payouts;
    } else {
      var e, rest := entries[0], entries[1..];
      NoteTallies(t, batchId, e, payouts);
      assert [e][1..] == [] && PayoutsOf(batchId, []) == [];
      NoteAllTallies(Note(t, batchId, e), batchId, rest, payouts + PayoutsOf(batchId, [e]));
      assert payouts + PayoutsOf(batchId, [e]) + PayoutsOf(batchId, rest) == payouts + PayoutsOf(batchId, entries);
    }
  }

  lemma {:induction false} NoteBatchesTallies(f: Formats, t: Tally, batches: seq<StoredBatch>,
                                              payouts: seq<(int64, Payout)>)
    requires Tallied(t, payouts) && forall i :: 0 <= i < |batches| ==> f.decode(batches[i].inputData).Some?
    ensures Tallied(NoteBatches(f, t, batches), payouts + AllPayouts(f, batches))
    decreases batches
  {
    hide NoteAll, Tallied;
    if batches == [] {
      assert payouts + [] == payouts;
    } else {
      var entries, id := f.decode(batches[0].inputData).value, batches[0].batchId;
      NoteAllTallies(t, id, entries, payouts);
      NoteBatchesTallies(f, NoteAll(t, id, entries), batches[1..], payouts + PayoutsOf(id, entries));
      assert payouts + PayoutsOf(id, entries) + AllPayouts(f, batches[1..]) == payouts + AllPayouts(f, batches);
    }
  }

  lemma NothingTallied()
    ensures Tallied(NO_TALLY, [])
  {
  }

  /** The exported payouts, over the whole history: one record for each event that was paid, in the order the
      events were first seen, with the fields of the event's last payout. */
  lemma PayoutTruth(f: Formats, batches: seq<StoredBatch>)
    requires ReplayFrom(f, EMPTY, batches).Some?
    ensures var t, payouts := NoteBatches(f, NO_TALLY, batches), AllPayouts(f, batches);
            && OrderKnown(t) && |ExportPayouts(t)| == |FirstSeen(payouts)|
            && forall i :: 0 <= i < |FirstSeen(payouts)| ==>
                 && LastOf(payouts, FirstSeen(payouts)[i]).Some?
                 && var (batchId, p) := LastOf(payouts, FirstSeen(payouts)[i]).value;
                    Reports(ExportPayouts(t)[i], batchId, p)
  {
    hide ReplayFrom, NoteBatches, AllPayouts, LastOf, FirstSeen, Reports, Normalize, TrimSpace;
    DecodedAll(f, EMPTY, batches);
    NothingTallied();
    NoteBatchesTallies(f, NO_TALLY, batches, []);
    NoteBatchesKnown(f, NO_TALLY, batches);
    assert [] + AllPayouts(f, batches) == AllPayouts(f, batches);
    var t := NoteBatches(f, NO_TALLY, batches);
    forall i | 0 <= i < |t.order| ensures t.order[i] in t.byEvent && ExportPayouts(t)[i] == t.byEvent[t.order[i]] {
    }
  }

  // ---------------------------------------------------------------- the state of positions

  /** Whether an entry moves a position, as a trade or as a settlement. */
  ghost predicate TradesPosition(e: Entry, k: Key) {
    && e.payload.TradeMatched?
    && var p := e.payload.trade;
    || (Buyer(p) > 0 && k.Is(Buyer(p), p.market, p.outcome)) || (Seller(p) > 0 && k.Is(Seller(p), p.market, p.outcome))
  }

  ghost predicate SettlesPosition(e: Entry, k: Key) {
    && e.payload.SettlementPayout?
    && k.Is(e.payload.payout.account, e.payload.payout.market, e.payload.payout.winningOutcome)
  }

  /** The last entry that moved the position. */
  ghost function LastMove(entries: seq<Entry>, k: Key): Option<Entry>
    decreases entries
  {
    if entries == [] then None
    else
      var rest := LastMove(entries[1..], k);
      if rest.Some? then rest
      else if TradesPosition(entries[0], k) || SettlesPosition(entries[0], k) then Some(entries[0])
      else None
  }

  /** A position leaf as its last move left it: open after a trade, partly settled after a settlement, and
      stamped by it. */
  ghost predicate LeftBy(s: State, k: Key, move: Option<Entry>) {
    var key := PositionKey(k.account, k.market, k.outcome);
    key in s.positions ==>
      && move.Some? && s.positions[key].lastSeq == move.value.sequence
      && s.positions[key].settlementStatus ==
         (if move.value.payload.TradeMatched? then "OPEN" else "PARTIALLY_SETTLED")
  }

  lemma LeftByDecides(s: State, t: State, k: Key, move: Option<Entry>)
    requires s.positions == t.positions && LeftBy(s, k, move)
    ensures LeftBy(t, k, move)
  {
    hide PositionKey;
  }

  lemma AdjustLeft(s: State, account: int64, market: int64, outcome: string, delta: int64, e: Entry, k: Key,
                   move: Option<Entry>)
    requires e.payload.TradeMatched? && account > 0 && delta != 0 && LeftBy(s, k, move)
    ensures var hit := k.Is(account, market, outcome);
            LeftBy(AdjustPosition(s, account, market, outcome, delta, e.sequence), k, if hit then Some(e) else move)
  {
    hide Normalize, PositionKey, Wrap, QuantityOf;
    PositionKeyInjective(account, market, outcome, k.account, k.market, k.outcome);
  }

  lemma DeliverLeft(s: State, e: Entry, notional: int64, k: Key, move: Option<Entry>)
    requires e.payload.TradeMatched? && e.payload.trade.quantity > 0 && LeftBy(s, k, move)
    ensures LeftBy(Deliver(s, e.sequence, e.payload.trade, notional), k, if TradesPosition(e, k) then Some(e) else move)
  {
    hide AdjustBalance, AdjustPosition, Buyer, Seller, PositionAsset, LeftBy, Wrap, Normalize;
    var p := e.payload.trade;
    var first := AdjustBalance(s, Buyer(p), PositionAsset(p.market, p.outcome), p.quantity, 0, e.sequence);
    AdjustBalanceFrame(s, Buyer(p), PositionAsset(p.market, p.outcome), p.quantity, 0, e.sequence);
    LeftByDecides(s, first, k, move);
    var bought := if Buyer(p) > 0 then AdjustPosition(first, Buyer(p), p.market, p.outcome, p.quantity, e.sequence)
      else s;
    if Buyer(p) > 0 {
      AdjustLeft(first, Buyer(p), p.market, p.outcome, p.quantity, e, k, move);
    }
    var after := if Buyer(p) > 0 && k.Is(Buyer(p), p.market, p.outcome) then Some(e) else move;
    var second := AdjustBalance(bought, Seller(p), p.collateralAsset, notional, 0, e.sequence);
    AdjustBalanceFrame(bought, Seller(p), p.collateralAsset, notional, 0, e.sequence);
    LeftByDecides(bought, second, k, after);
    if Seller(p) > 0 {
      NegNonZero(p.quantity);
      AdjustLeft(second, Seller(p), p.market, p.outcome, Neg(p.quantity), e, k, after);
    }
  }

  lemma NegNonZero(q: int64)
    requires q > 0
    ensures Neg(q) != 0
  {
  }

  lemma TradeLeft(s: State, e: Entry, k: Key, move: Option<Entry>)
    requires e.payload.TradeMatched? && Apply(s, e).Ok() && LeftBy(s, k, move)
    ensures LeftBy(Apply(s, e).state, k, if TradesPosition(e, k) then Some(e) else move)
  {
    hide Apply, TakerFilled, BothFilled, Deliver, LeftBy, TradesPosition;
    var p := e.payload.trade;
    TradeFrame(s, e);
    FillsFrame(s, e);
    LeftByDecides(s, BothFilled(s, e).state, k, move);
    DeliverLeft(BothFilled(s, e).state, e, p.price * p.quantity, k, move);
  }

  lemma PayoutLeft(s: State, e: Entry, k: Key, move: Option<Entry>)
    requires e.payload.SettlementPayout? && Apply(s, e).Ok() && LeftBy(s, k, move)
    ensures LeftBy(Apply(s, e).state, k, if SettlesPosition(e, k) then Some(e) else move)
  {
    hide AdjustBalance, BalanceLeafOf, SettlePosition, SettledAsset, PaidAsset, Neg, LeftBy, SettlesPosition;
    var p := e.payload.payout;
    var debited := AdjustBalance(s, p.account, SettledAsset(p), Neg(p.settled), 0, e.sequence);
    AdjustBalanceFrame(s, p.account, SettledAsset(p), Neg(p.settled), 0, e.sequence);
    LeftByDecides(s, debited, k, move);
    SettleLeft(debited, e, k, move);
    var settled := SettlePosition(debited, e.sequence, p.account, p.market, p.winningOutcome, p.settled).state;
    AdjustBalanceFrame(settled, p.account, PaidAsset(p), p.amount, 0, e.sequence);
    LeftByDecides(settled, Apply(s, e).state, k, if SettlesPosition(e, k) then Some(e) else move);
  }

  lemma SettleLeft(s: State, e: Entry, k: Key, move: Option<Entry>)
    requires e.payload.SettlementPayout? && LeftBy(s, k, move)
    requires var p := e.payload.payout;
             SettlePosition(s, e.sequence, p.account, p.market, p.winningOutcome, p.settled).Ok()
    ensures var p := e.payload.payout;
            LeftBy(SettlePosition(s, e.sequence, p.account, p.market, p.winningOutcome, p.settled).state, k,
                   if SettlesPosition(e, k) then Some(e) else move)
  {
    hide Normalize, PositionKey, Wrap;
    var p := e.payload.payout;
    PositionKeyInjective(p.account, p.market, p.winningOutcome, k.account, k.market, k.outcome);
  }

  lemma {:induction false} MovesFrom(s: State, entries: seq<Entry>, k: Key, move: Option<Entry>)
    requires Run(s, entries).Ok() && LeftBy(s, k, move)
    ensures var last := LastMove(entries, k);
            LeftBy(Run(s, entries).state, k, if last.Some? then last else move)
    decreases entries
  {
    hide Apply, LeftBy, TradesPosition, SettlesPosition;
    if entries != [] {
      var e := entries[0];
      var next := if TradesPosition(e, k) || SettlesPosition(e, k) then Some(e) else move;
      Kinds(e, k);
      if e.payload.TradeMatched? {
        TradeLeft(s, e, k, move);
      } else if e.payload.SettlementPayout? {
        PayoutLeft(s, e, k, move);
      } else {
        PositionsFrame(s, e);
        LeftByDecides(s, Apply(s, e).state, k, move);
      }
      MovesFrom(Apply(s, e).state, entries[1..], k, next);
    }
  }

  lemma Kinds(e: Entry, k: Key)
    ensures TradesPosition(e, k) ==> e.payload.TradeMatched?
    ensures SettlesPosition(e, k) ==> e.payload.SettlementPayout?
  {
  }

  // ---------------------------------------------------------------- the last settlement of a position

  ghost function LastSettlement(payouts: seq<(int64, Payout)>, k: Key): Option<(int64, Payout)> {
    if payouts == [] then None
    else
      var last := payouts[|payouts| - 1];
      if k.Is(last.1.account, last.1.market, last.1.winningOutcome) then Some(last)
      else LastSettlement(payouts[..|payouts| - 1], k)
  }

  /** The asset a payout takes the shares from; a blank one is the position's own. */
  ghost function TakenFrom(p: Payout): string {
    if Normalize(p.positionAsset) == "" then PositionAsset(p.market, p.winningOutcome) else Normalize(p.positionAsset)
  }

  /** The tally's line for a position, as the last payout that settled some of it left it. */
  ghost predicate SettledBy(t: Tally, k: Key, last: Option<(int64, Payout)>) {
    var key := PositionKey(k.account, k.market, k.outcome);
    && (key in t.settled <==> last.Some?)
    && (key in t.settled && last.Some? ==>
          t.settled[key].positionAsset == TakenFrom(last.value.1) && t.settled[key].lastBatch == last.value.0)
  }

  lemma NoteSettledBy(t: Tally, batchId: int64, e: Entry, k: Key, payouts: seq<(int64, Payout)>)
    requires SettledBy(t, k, LastSettlement(payouts, k))
    ensures SettledBy(Note(t, batchId, e), k, LastSettlement(payouts + PayoutsOf(batchId, [e]), k))
  {
    hide Normalize, TrimSpace, PositionKey, PositionAsset, Add;
    assert [e][1..] == [];
    if e.payload.SettlementPayout? {
      var p := e.payload.payout;
      PositionKeyInjective(p.account, p.market, p.winningOutcome, k.account, k.market, k.outcome);
      var all := payouts + [(batchId, p)];
      assert PayoutsOf(batchId, [e]) == [(batchId, e.payload.payout)];
      assert all[..|all| - 1] == payouts && all[|all| - 1] == (batchId, e.payload.payout);
    } else {
      assert payouts + PayoutsOf(batchId, [e]) == payouts;
    }
  }

  lemma {:induction false} NoteAllSettledBy(t: Tally, batchId: int64, entries: seq<Entry>, k: Key,
                                            payouts: seq<(int64, Payout)>)
    requires SettledBy(t, k, LastSettlement(payouts, k))
    ensures SettledBy(NoteAll(t, batchId, entries), k, LastSettlement(payouts + PayoutsOf(batchId, entries), k))
    decreases entries
  {
    hide Note, SettledBy, LastSettlement;
    if entries == [] {
      assert payouts + [] == payouts;
    } else {
      var e, rest := entries[0], entries[1..];
      NoteSettledBy(t, batchId, e, k, payouts);
      assert [e][1..] == [] && PayoutsOf(batchId, []) == [];
      NoteAllSettledBy(Note(t, batchId, e), batchId, rest, k, payouts + PayoutsOf(batchId, [e]));
      assert payouts + PayoutsOf(batchId, [e]) + PayoutsOf(batchId, rest) == payouts + PayoutsOf(batchId, entries);
    }
  }

  lemma {:induction false} NoteBatchesSettledBy(f: Formats, t: Tally, batches: seq<StoredBatch>, k: Key,
                                                payouts: seq<(int64, Payout)>)
    requires SettledBy(t, k, LastSettlement(payouts, k))
    requires forall i :: 0 <= i < |batches| ==> f.decode(batches[i].inputData).Some?
    ensures SettledBy(NoteBatches(f, t, batches), k, LastSettlement(payouts + AllPayouts(f, batches), k))
    decreases batches
  {
    hide NoteAll, SettledBy, LastSettlement;
    if batches == [] {
      assert payouts + [] == payouts;
    } else {
      var entries, id := f.decode(batches[0].inputData).value, batches[0].batchId;
      NoteAllSettledBy(t, id, entries, k, payouts);
      NoteBatchesSettledBy(f, NoteAll(t, id, entries), batches[1..], k, payouts + PayoutsOf(id, entries));
      assert payouts + PayoutsOf(id, entries) + AllPayouts(f, batches[1..]) == payouts + AllPayouts(f, batches);
    }
  }

  lemma NothingSettled(k: Key)
    ensures SettledBy(NO_TALLY, k, LastSettlement([], k))
  {
    hide PositionKey;
  }

  // ---------------------------------------------------------------- what a position record says

  /** The record of a position, against its last move and its last settlement. Its state is settled if nothing
      is left, and otherwise open or partly settled as the last move was a trade or a settlement. It has that
      move's number, or for want of one the batch of the last settlement, and names the asset that settlement
      took the shares from. */
  ghost predicate RecordTrue(r: PositionRecord, held: bool, k: Key, settledQuantity: int64, move: Option<Entry>,
                             settled: Option<(int64, Payout)>) {
    var number := if held && move.Some? then move.value.sequence else 0;
    && (held ==> move.Some?)
    && r.status == (if !held then (if settledQuantity > 0 then "SETTLED" else "OPEN")
                    else if move.value.payload.TradeMatched? then "OPEN" else "PARTIALLY_SETTLED")
    && r.sequenceNo == (if number == 0 && settled.Some? && settled.value.0 > 0 then settled.value.0 else number)
    && r.positionAsset == (if settled.Some? then TakenFrom(settled.value.1) else PositionAsset(k.market, k.outcome))
  }

  lemma ExportTrue(batchId: int64, s: State, t: Tally, k: Key, move: Option<Entry>, settled: Option<(int64, Payout)>)
    requires Keyed(s) && LeftBy(s, k, move) && SettledBy(t, k, settled)
    ensures var key := PositionKey(k.account, k.market, k.outcome);
            var r := ExportPosition(batchId, s.positions, t.settled, key);
            r.Some? ==> RecordTrue(r.value, key in s.positions, k, SettledOf(t, k), move, settled)
  {
    hide PositionKey, Normalize, PositionAsset, Wrap, TakenFrom;
    var key := PositionKey(k.account, k.market, k.outcome);
    StatusTrimmed();
    WrapInRange(0);
    if settled.Some? {
      TakenFromSomething(settled.value.1);
    }
    if key in s.positions {
      var leaf := s.positions[key];
      PositionKeyInjective(leaf.account, leaf.market, leaf.outcome, k.account, k.market, k.outcome);
      AssetOfOutcome(k.market, leaf.outcome, k.outcome);
    }
  }

  lemma TakenFromSomething(p: Payout)
    ensures TakenFrom(p) != ""
  {
    hide Normalize, Decimal;
  }

  lemma AssetOfOutcome(market: int64, a: string, b: string)
    requires Normalize(a) == Normalize(b)
    ensures PositionAsset(market, a) == PositionAsset(market, b)
  {
    hide Normalize;
  }

  /** Every exported position record, over the whole history. */
  lemma StatusTruth(f: Formats, batches: seq<StoredBatch>, k: Key, r: PositionRecord)
    requires ReplayFrom(f, EMPTY, batches).Some? && Describes(r, k)
    requires var s, t := ReplayFrom(f, EMPTY, batches).value, NoteBatches(f, NO_TALLY, batches);
             r in ExportPositions(LatestBatch(batches), s.positions, t.settled,
                                  Sorted(s.positions.Keys + t.settled.Keys))
    ensures var s, t := ReplayFrom(f, EMPTY, batches).value, NoteBatches(f, NO_TALLY, batches);
            RecordTrue(r, PositionKey(k.account, k.market, k.outcome) in s.positions, k, SettledOf(t, k),
                       LastMove(Entries(f, batches), k), LastSettlement(AllPayouts(f, batches), k))
  {
    hide ReplayFrom, Run, NoteBatches, Entries, PositionKey, Normalize, LastMove, LastSettlement, AllPayouts,
         RecordTrue, ExportPosition, ExportPositions, Describes, LeftBy, SettledBy, SettledAt, Sorted,
         Keyed, SettledKeyed;
    var s, t := ReplayFrom(f, EMPTY, batches).value, NoteBatches(f, NO_TALLY, batches);
    var payouts := AllPayouts(f, batches);
    ReplayIsRun(f, EMPTY, batches);
    NoPositions(k);
    MovesFrom(EMPTY, Entries(f, batches), k, None);
    EmptyKeyed();
    KeyedRun(EMPTY, Entries(f, batches));
    NoteBatchesKeyed(f, NO_TALLY, batches);
    DecodedAll(f, EMPTY, batches);
    NothingSettled(k);
    NoteBatchesSettledBy(f, NO_TALLY, batches, k, []);
    assert [] + payouts == payouts;
    RecordIsExport(LatestBatch(batches), s, t, k, r);
    ExportTrue(LatestBatch(batches), s, t, k, LastMove(Entries(f, batches), k), LastSettlement(payouts, k));
  }

  lemma EmptyKeyed()
    ensures Keyed(EMPTY) && SettledKeyed(NO_TALLY)
  {
  }

  lemma NoPositions(k: Key)
    ensures LeftBy(EMPTY, k, None)
  {
    hide PositionKey;
  }

  lemma StatusTrimmed()
    ensures TrimSpace("OPEN") == "OPEN" && TrimSpace("PARTIALLY_SETTLED") == "PARTIALLY_SETTLED"
  {
  }

  // ---------------------------------------------------------------- the snapshot as a whole

  ghost predicate OneEach(records: seq<PositionRecord>) {
    forall i, j :: 0 <= i < j < |records| ==>
      PositionKey(records[i].account, records[i].market, records[i].outcome) !=
      PositionKey(records[j].account, records[j].market, records[j].outcome)
  }

  lemma {:induction false} OneRecordPerKey(batchId: int64, s: State, t: Tally, keys: seq<string>)
    requires Keyed(s) && SettledKeyed(t)
    requires forall i :: 0 <= i < |keys| ==> keys[i] in s.positions || keys[i] in t.settled
    requires forall i, j :: 0 <= i < j < |keys| ==> keys[i] != keys[j]
    ensures var records := ExportPositions(batchId, s.positions, t.settled, keys);
            && OneEach(records)
            && forall i :: 0 <= i < |records| ==>
                 records[i].batchId == batchId
                 && PositionKey(records[i].account, records[i].market, records[i].outcome) in keys
  {
    hide PositionKey, ExportPosition, Keyed, SettledKeyed;
    if keys != [] {
      var before, key := keys[..|keys| - 1], keys[|keys| - 1];
      OneRecordPerKey(batchId, s, t, before);
      RecordIdentity(batchId, s, t, key);
      RecordBatch(batchId, s.positions, t.settled, key);
      assert keys == before + [key] && key !in before;
    }
  }

  lemma RecordBatch(batchId: int64, positions: map<string, PositionLeaf>, settled: map<string, Settled>, key: string)
    ensures var r := ExportPosition(batchId, positions, settled, key);
            r.Some? ==> r.value.batchId == batchId
  {
    hide PositionAsset, TrimSpace, Wrap;
  }

  /** A snapshot bears the number of the last batch, on itself and on every balance and position record, and the
      roots of the ledger it exports; no position has two records. */
  lemma SnapshotHeader(f: Formats, batches: seq<StoredBatch>)
    requires ReplayFrom(f, EMPTY, batches).Some? && OrderKnown(NoteBatches(f, NO_TALLY, batches))
    ensures var s := ReplayFrom(f, EMPTY, batches).value;
            var last := if batches == [] then 0 else batches[|batches| - 1].batchId;
            var a := Export(f.codec, LatestBatch(batches), s, NoteBatches(f, NO_TALLY, batches));
            && a.batchId == last && a.roots == RootsOf(f.codec, s) && OneEach(a.positions)
            && (forall i :: 0 <= i < |a.balances| ==> a.balances[i].batchId == last)
            && (forall i :: 0 <= i < |a.positions| ==> a.positions[i].batchId == last)
  {
    hide ReplayFrom, Run, NoteBatches, Entries, RootsOf, ExportPositions, OneEach, Keyed, SettledKeyed;
    var s, t := ReplayFrom(f, EMPTY, batches).value, NoteBatches(f, NO_TALLY, batches);
    ReplayIsRun(f, EMPTY, batches);
    EmptyKeyed();
    KeyedRun(EMPTY, Entries(f, batches));
    NoteBatchesKeyed(f, NO_TALLY, batches);
    var keys := Sorted(s.positions.Keys + t.settled.Keys);
    SortedSpec(s.positions.Keys + t.settled.Keys);
    hide Sorted, Less;
    forall i | 0 <= i < |keys| ensures keys[i] in s.positions || keys[i] in t.settled {
      assert keys[i] in Elements(keys);
    }
    forall i, j | 0 <= i < j < |keys| ensures keys[i] != keys[j] {
      LessTrichotomy(keys[i], keys[j]);
    }
    OneRecordPerKey(LatestBatch(batches), s, t, keys);
  }
}
