/** What the matching service journals for one placed order, and whether the ledger takes it. The service writes
    the cancellations of a command before its trades; the engine made the trades first. */
module MatchingJournal {
  import opened Int64
  import opened Text
  import opened Ledger
  import opened Accounts
  import opened OrderLifetime
  import opened OrderJournal

  /** An order as the engine left it, with the cancellation that is journalled if it was cancelled. */
  datatype Touched = Touched(cancel: Cancellation, cancelled: bool)

  /** The engine's result for one command: the order itself unless rejected, other orders affected, trades. */
  datatype Placed = Placed(accept: Acceptance, rejected: bool, own: Touched, affected: seq<Touched>, trades: seq<Trade>)

  // ---------------------------------------------------------------- what is written

  function Cancellations(touched: seq<Touched>): seq<Payload> {
    if touched == [] then []
    else
      var last := touched[|touched| - 1];
      Cancellations(touched[..|touched| - 1]) + (if last.cancelled then [OrderCancelled(last.cancel)] else [])
  }

  function TradePayloads(trades: seq<Trade>): (ps: seq<Payload>)
    ensures |ps| == |trades|
  {
    seq(|trades|, i requires 0 <= i < |trades| => TradeMatched(trades[i]))
  }

  function Opening(r: Placed): seq<Payload> {
    if r.rejected then [] else [OrderAccepted(r.accept)]
  }

  /** All orders whose cancellation the command may journal. */
  function AllTouched(r: Placed): seq<Touched> {
    (if r.rejected then [] else [r.own]) + r.affected
  }

  /** As the service writes it. */
  function Written(r: Placed): seq<Payload> {
    Opening(r) + Cancellations(AllTouched(r)) + TradePayloads(r.trades)
  }

  /** As it happened. */
  function InOrder(r: Placed): seq<Payload> {
    Opening(r) + TradePayloads(r.trades) + Cancellations(AllTouched(r))
  }

  lemma {:induction false} CancellationsConcat(a: seq<Touched>, b: seq<Touched>)
    ensures Cancellations(a + b) == Cancellations(a) + Cancellations(b)
    decreases b
  {
    if b == [] {
      assert a + b == a;
    } else {
      assert (a + b)[..|a + b| - 1] == a + b[..|b| - 1];
      CancellationsConcat(a, b[..|b| - 1]);
    }
  }

  /** What a command's entries are: a rejected one leaves no trace of its own order; any other is accepted, then
      cancelled if it was, before the affected orders in their order; the trades come last. */
  lemma WrittenIs(r: Placed)
    ensures r.rejected ==> Written(r) == Cancellations(r.affected) + TradePayloads(r.trades)
    ensures !r.rejected ==>
              Written(r) == [OrderAccepted(r.accept)] + (if r.own.cancelled then [OrderCancelled(r.own.cancel)] else [])
                            + Cancellations(r.affected) + TradePayloads(r.trades)
  {
    hide Cancellations, TradePayloads;
    var affected, trades := Cancellations(r.affected), TradePayloads(r.trades);
    if r.rejected {
      assert [] + r.affected == r.affected;
      assert [] + affected + trades == affected + trades;
    } else {
      CancellationsConcat([r.own], r.affected);
      OwnCancellation(r.own);
      var first, own := [OrderAccepted(r.accept)], Cancellations([r.own]);
      assert first + (own + affected) + trades == first + own + affected + trades;
    }
  }

  lemma OwnCancellation(own: Touched)
    ensures Cancellations([]) == []
    ensures Cancellations([own]) == if own.cancelled then [OrderCancelled(own.cancel)] else []
  {
    assert [own][..0] == [];
  }

  lemma CancellationsSnoc(touched: seq<Touched>, last: Touched)
    ensures Cancellations(touched + [last]) ==
            Cancellations(touched) + (if last.cancelled then [OrderCancelled(last.cancel)] else [])
  {
    assert (touched + [last])[..|touched|] == touched;
  }

  lemma NoTrades()
    ensures TradePayloads([]) == []
  {
  }

  lemma TradesSnoc(trades: seq<Trade>, last: Trade)
    ensures TradePayloads(trades + [last]) == TradePayloads(trades) + [TradeMatched(last)]
  {
  }

  /** Place by place: a cancellation is written iff it is that of a touched order the engine cancelled. */
  lemma {:induction false} CancellationWrittenIff(touched: seq<Touched>, p: Payload)
    ensures p in Cancellations(touched) <==>
            exists i :: 0 <= i < |touched| && touched[i].cancelled && p == OrderCancelled(touched[i].cancel)
  {
    if touched != [] {
      var before, last := touched[..|touched| - 1], touched[|touched| - 1];
      CancellationWrittenIff(before, p);
      assert touched == before + [last];
    }
  }

  method BuildRollupEntries(r: Placed) returns (entries: seq<Payload>)
    ensures entries == Written(r)
  {
    hide Cancellations, TradePayloads;
    entries := [];
    ghost var first := if r.rejected then [] else [r.own];
    OwnCancellation(r.own);
    if !r.rejected {
      entries := [OrderAccepted(r.accept)];
      if r.own.cancelled {
        entries := entries + [OrderCancelled(r.own.cancel)];
      }
    }
    assert entries == Opening(r) + Cancellations(first);
    assert first + r.affected[..0] == first;
    for i := 0 to |r.affected|
      invariant entries == Opening(r) + Cancellations(first + r.affected[..i])
    {
      ghost var seen := first + r.affected[..i];
      assert first + r.affected[..i + 1] == seen + [r.affected[i]];
      CancellationsSnoc(seen, r.affected[i]);
      if r.affected[i].cancelled {
        entries := entries + [OrderCancelled(r.affected[i].cancel)];
      }
      assert entries == Opening(r) + Cancellations(seen + [r.affected[i]]);
    }
    assert first + r.affected[..|r.affected|] == AllTouched(r);
    ghost var head := entries;
    NoTrades();
    for i := 0 to |r.trades|
      invariant entries == head + TradePayloads(r.trades[..i])
    {
      assert r.trades[..i + 1] == r.trades[..i] + [r.trades[i]];
      TradesSnoc(r.trades[..i], r.trades[i]);
      entries := entries + [TradeMatched(r.trades[i])];
    }
    assert r.trades[..|r.trades|] == r.trades;
  }

  // ---------------------------------------------------------------- entries, numbered by the table

  function Payloads(entries: seq<Entry>): (ps: seq<Payload>)
    ensures |ps| == |entries|
  {
    seq(|entries|, i requires 0 <= i < |entries| => entries[i].payload)
  }

  ghost predicate IsTrade(e: Entry) {
    e.payload.TradeMatched?
  }

  ghost predicate Names(e: Entry, id: string) {
    e.payload.TradeMatched? && (e.payload.trade.takerOrderId == id || e.payload.trade.makerOrderId == id)
  }

  predicate TradesName(trades: seq<Trade>, id: string) {
    exists i :: 0 <= i < |trades| && (trades[i].takerOrderId == id || trades[i].makerOrderId == id)
  }

  predicate CancelledIn(payloads: seq<Payload>, id: string) {
    exists i :: 0 <= i < |payloads| && payloads[i].OrderCancelled? && payloads[i].cancel.orderId == id
  }

  /** Some trade of the command names an order the command cancelled: its own, partly filled, or another. */
  ghost predicate TradedAndCancelled(r: Placed) {
    exists id :: TradesName(r.trades, id) && CancelledIn(Cancellations(AllTouched(r)), id)
  }

  // ---------------------------------------------------------------- runs that differ in time stamps only

  function Timeless(o: OrderLeaf): OrderLeaf {
    o.(lastSeq := 0)
  }

  ghost predicate AlikeAt(s: State, t: State, id: string) {
    && (id in s.openOrders <==> id in t.openOrders)
    && (id in s.openOrders ==> Timeless(s.openOrders[id]) == Timeless(t.openOrders[id]))
  }

  lemma SpendOk(s: State, sequence: int64, id: string, quantity: int64, spent: int64)
    requires id in s.openOrders
    ensures var o := s.openOrders[id];
            Spend(s, sequence, id, quantity, spent).Ok() <==>
            Sub(Sub(o.reserved, spent), ExpectedReserve(o.side, o.price, Sub(o.remaining, quantity))) >= 0
  {
    hide AdjustBalance, ExpectedReserve, Sub, Neg, Add;
  }

  /** Whether a fill is taken, and what it makes of the order, does not depend on balances or time stamps. */
  lemma FillAlike(s: State, t: State, m: int64, n: int64, id: string, quantity: int64, price: int64, other: string)
    requires AlikeAt(s, t, id) && AlikeAt(s, t, other)
    ensures var a, b := FillOrder(s, m, id, quantity, price), FillOrder(t, n, id, quantity, price);
            (a.Ok() <==> b.Ok()) && (a.Ok() ==> AlikeAt(a.state, b.state, other))
  {
    hide Spend, Multiply, ExpectedReserve, Wrap;
    if id in s.openOrders {
      var spent := if s.openOrders[id].side == "BUY" && Multiply(price, quantity).Some?
        then Multiply(price, quantity).value else quantity;
      SpendOk(s, m, id, quantity, spent);
      SpendOk(t, n, id, quantity, spent);
      if FillOrder(s, m, id, quantity, price).Ok() {
        FillFrame(s, m, id, quantity, price);
        FillFrame(t, n, id, quantity, price);
      }
    }
  }

  lemma TradeAlike(s: State, t: State, d: Entry, e: Entry, other: string)
    requires d.payload == e.payload && d.payload.TradeMatched?
    requires AlikeAt(s, t, d.payload.trade.takerOrderId) && AlikeAt(s, t, d.payload.trade.makerOrderId)
    requires AlikeAt(s, t, other)
    ensures (Apply(s, d).Ok() <==> Apply(t, e).Ok())
    ensures Apply(s, d).Ok() ==> AlikeAt(Apply(s, d).state, Apply(t, e).state, other)
  {
    hide FillOrder, Deliver, AlikeAt, Multiply;
    var p := d.payload.trade;
    FillAlike(s, t, d.sequence, e.sequence, p.takerOrderId, p.quantity, p.price, p.makerOrderId);
    FillAlike(s, t, d.sequence, e.sequence, p.takerOrderId, p.quantity, p.price, other);
    if TakerFilled(s, d).Ok() {
      var a, b := TakerFilled(s, d).state, TakerFilled(t, e).state;
      FillAlike(a, b, d.sequence, e.sequence, p.makerOrderId, p.quantity, p.price, other);
      if Apply(s, d).Ok() {
        TradeFrame(s, d);
        TradeFrame(t, e);
        OrdersDecide(BothFilled(s, d).state, Apply(s, d).state, BothFilled(t, e).state, Apply(t, e).state, other);
      }
    }
  }

  lemma OrdersDecide(s: State, s': State, t: State, t': State, id: string)
    requires s.openOrders == s'.openOrders && t.openOrders == t'.openOrders && AlikeAt(s, t, id)
    ensures AlikeAt(s', t', id)
  {
  }

  lemma {:induction false} TradesAlike(s: State, t: State, ds: seq<Entry>, es: seq<Entry>)
    requires |ds| == |es| && forall i :: 0 <= i < |ds| ==> ds[i].payload == es[i].payload && IsTrade(ds[i])
    requires forall i, id :: 0 <= i < |ds| && Names(ds[i], id) ==> AlikeAt(s, t, id)
    ensures Run(s, ds).Ok() <==> Run(t, es).Ok()
    decreases ds
  {
    hide Apply, AlikeAt;
    if ds != [] {
      var d, e := ds[0], es[0];
      assert Names(d, d.payload.trade.takerOrderId) && Names(d, d.payload.trade.makerOrderId);
      TradeAlike(s, t, d, e, d.payload.trade.takerOrderId);
      if Apply(s, d).Ok() {
        forall i, id | 0 <= i < |ds| - 1 && Names(ds[1..][i], id)
          ensures AlikeAt(Apply(s, d).state, Apply(t, e).state, id)
        {
          assert Names(ds[i + 1], id);
          TradeAlike(s, t, d, e, id);
        }
        TradesAlike(Apply(s, d).state, Apply(t, e).state, ds[1..], es[1..]);
      }
    }
  }

  // ---------------------------------------------------------------- cancellations before and after

  /** Cancellations are always accepted, and remove exactly the orders they name. */
  lemma {:induction false} CancelsRun(s: State, entries: seq<Entry>)
    requires forall i :: 0 <= i < |entries| ==> entries[i].payload.OrderCancelled?
    ensures Run(s, entries).Ok()
    ensures forall id :: id in Run(s, entries).state.openOrders <==> id in s.openOrders && !Cancelled(entries, id)
    ensures forall id :: id in Run(s, entries).state.openOrders ==>
              Run(s, entries).state.openOrders[id] == s.openOrders[id]
    decreases entries
  {
    hide Apply, Cancelled;
    if entries == [] {
      forall id ensures !Cancelled(entries, id) {
        NoneCancelled(id);
      }
    } else {
      var e, rest := entries[0], entries[1..];
      CancelOk(s, e);
      CancelFrame(s, e);
      CancelsRun(Apply(s, e).state, rest);
      assert entries == [e] + rest;
      forall id ensures Cancelled(entries, id) <==> Cancels(e, id) || Cancelled(rest, id) {
        CancelledCons(e, rest, id);
      }
    }
  }

  lemma CancelOk(s: State, e: Entry)
    requires e.payload.OrderCancelled?
    ensures Apply(s, e).Ok()
  {
    hide ApplyCancelled;
  }

  /** Trades that are all accepted name no order that is not open. */
  lemma {:induction false} GoneNotNamed(s: State, entries: seq<Entry>, id: string)
    requires id !in s.openOrders && Run(s, entries).Ok()
    requires forall i :: 0 <= i < |entries| ==> IsTrade(entries[i])
    ensures forall i :: 0 <= i < |entries| ==> !Names(entries[i], id)
    decreases entries
  {
    hide Apply, Executed;
    if entries != [] {
      var e, rest := entries[0], entries[1..];
      GoneStep(s, e, id);
      TradeFrame(s, e);
      NothingExecuted(e, id);
      GoneNotNamed(Apply(s, e).state, rest, id);
      forall i | 0 <= i < |entries| ensures !Names(entries[i], id) {
        assert i > 0 ==> entries[i] == rest[i - 1];
      }
    }
  }

  lemma NothingExecuted(e: Entry, id: string)
    requires e.payload.TradeMatched? && e.payload.trade.quantity > 0 && Executed(id)(e) == 0
    ensures !Names(e, id)
  {
  }

  lemma {:induction false} CancellationsAre(touched: seq<Touched>)
    ensures forall i :: 0 <= i < |Cancellations(touched)| ==> Cancellations(touched)[i].OrderCancelled?
  {
    if touched != [] {
      CancellationsAre(touched[..|touched| - 1]);
    }
  }

  // ---------------------------------------------------------------- the two orders compared

  lemma OpeningRuns(s: State, entries: seq<Entry>, r: Placed)
    requires Payloads(entries) == Opening(r)
    ensures Run(s, entries).Ok()
    ensures var t := Run(s, entries).state;
            if r.rejected then t == s
            else t.openOrders == s.openOrders[r.accept.orderId := AcceptedOrder(r.accept, entries[0].sequence)]
  {
    hide AcceptedOrder, AdjustBalance, ReserveAssetOf;
    if !r.rejected {
      var e := entries[0];
      assert Payloads(entries)[0] == OrderAccepted(r.accept);
      AcceptFrame(s, e);
      assert entries[1..] == [];
    }
  }

  /** Both openings leave the same orders open, time stamps aside. */
  lemma OpeningsAlike(s: State, ds: seq<Entry>, es: seq<Entry>, r: Placed, id: string)
    requires Payloads(ds) == Opening(r) == Payloads(es)
    ensures AlikeAt(Run(s, ds).state, Run(s, es).state, id)
  {
    hide Run;
    OpeningRuns(s, ds, r);
    OpeningRuns(s, es, r);
  }

  lemma PayloadsSplit(entries: seq<Entry>, a: seq<Payload>, b: seq<Payload>)
    requires Payloads(entries) == a + b
    ensures |a| <= |entries| && Payloads(entries[..|a|]) == a && Payloads(entries[|a|..]) == b
    ensures entries == entries[..|a|] + entries[|a|..]
  {
    var n := |a|;
    assert Payloads(entries[..n]) == (a + b)[..n] && Payloads(entries[n..]) == (a + b)[n..];
  }

  lemma PayloadAt(entries: seq<Entry>, i: nat)
    requires i < |entries|
    ensures Payloads(entries)[i] == entries[i].payload
  {
  }

  lemma CancelledPayloads(entries: seq<Entry>, id: string)
    ensures Cancelled(entries, id) <==> CancelledIn(Payloads(entries), id)
  {
    if Cancelled(entries, id) {
      var i :| 0 <= i < |entries| && Cancels(entries[i], id);
      PayloadAt(entries, i);
    }
    if CancelledIn(Payloads(entries), id) {
      var i :| 0 <= i < |entries| && Payloads(entries)[i].OrderCancelled? && Payloads(entries)[i].cancel.orderId == id;
      PayloadAt(entries, i);
      assert Cancels(entries[i], id);
    }
  }

  lemma TradesNamed(entries: seq<Entry>, trades: seq<Trade>, id: string)
    requires Payloads(entries) == TradePayloads(trades)
    ensures |entries| == |trades| && forall i :: 0 <= i < |entries| ==> IsTrade(entries[i])
    ensures TradesName(trades, id) <==> exists i :: 0 <= i < |entries| && Names(entries[i], id)
  {
    forall i | 0 <= i < |entries| ensures entries[i].payload == TradeMatched(trades[i]) {
      PayloadAt(entries, i);
    }
    if TradesName(trades, id) {
      var i :| 0 <= i < |trades| && (trades[i].takerOrderId == id || trades[i].makerOrderId == id);
      assert Names(entries[i], id);
    }
  }

  /** A command whose entries the ledger would take in the order they happened is taken as written exactly when
      none of its trades names an order it cancelled. */
  lemma WrittenAcceptedIff(s: State, written: seq<Entry>, ordered: seq<Entry>, r: Placed)
    requires Payloads(written) == Written(r) && Payloads(ordered) == InOrder(r) && Run(s, ordered).Ok()
    ensures Run(s, written).Ok() <==> !TradedAndCancelled(r)
  {
    hide Run, Payloads, Cancellations, TradePayloads, AlikeAt, Names, IsTrade, Cancelled, CancelledIn, TradesName,
         Opening, AllTouched;
    var opening, cancels, trades := Opening(r), Cancellations(AllTouched(r)), TradePayloads(r.trades);
    PayloadsSplit(written, opening + cancels, trades);
    var start, ws := written[..|opening + cancels|], written[|opening + cancels|..];
    PayloadsSplit(start, opening, cancels);
    var wo, wc := start[..|opening|], start[|opening|..];
    PayloadsSplit(ordered, opening + trades, cancels);
    var begin := ordered[..|opening + trades|];
    PayloadsSplit(begin, opening, trades);
    var oo, os := begin[..|opening|], begin[|opening|..];
    RunConcat(s, start, ws);
    RunConcat(s, wo, wc);
    RunConcat(s, begin, ordered[|opening + trades|..]);
    RunConcat(s, oo, os);
    OpeningRuns(s, wo, r);
    OpeningRuns(s, oo, r);
    var a, b := Run(s, wo).state, Run(s, oo).state;
    AreCancels(wc, r);
    CancelsRun(a, wc);
    var c := Run(a, wc).state;
    assert Run(s, written).Ok() <==> Run(c, ws).Ok();
    assert Run(b, os).Ok();
    forall id ensures AlikeAt(a, b, id) {
      OpeningsAlike(s, wo, oo, r, id);
    }
    if TradedAndCancelled(r) {
      CancelledTradeRefused(a, wc, ws, r);
    } else {
      UncancelledTradesRun(a, b, wc, ws, os, r);
    }
  }

  lemma AreCancels(entries: seq<Entry>, r: Placed)
    requires Payloads(entries) == Cancellations(AllTouched(r))
    ensures forall i :: 0 <= i < |entries| ==> entries[i].payload.OrderCancelled?
  {
    hide Cancellations;
    CancellationsAre(AllTouched(r));
    forall i | 0 <= i < |entries| ensures entries[i].payload.OrderCancelled? {
      PayloadAt(entries, i);
    }
  }

  lemma CancelledTradeRefused(a: State, cancels: seq<Entry>, trades: seq<Entry>, r: Placed)
    requires Payloads(cancels) == Cancellations(AllTouched(r)) && Payloads(trades) == TradePayloads(r.trades)
    requires TradedAndCancelled(r)
    ensures Run(a, cancels).Ok() && !Run(Run(a, cancels).state, trades).Ok()
  {
    hide Run, Payloads, Cancellations, TradePayloads, Names, IsTrade, Cancelled, CancelledIn, TradesName, AllTouched;
    var id :| TradesName(r.trades, id) && CancelledIn(Cancellations(AllTouched(r)), id);
    AreCancels(cancels, r);
    CancelsRun(a, cancels);
    CancelledPayloads(cancels, id);
    TradesNamed(trades, r.trades, id);
    var c := Run(a, cancels).state;
    assert id !in c.openOrders;
    if Run(c, trades).Ok() {
      GoneNotNamed(c, trades, id);
    }
  }

  lemma UncancelledTradesRun(a: State, b: State, cancels: seq<Entry>, ws: seq<Entry>, os: seq<Entry>, r: Placed)
    requires Payloads(cancels) == Cancellations(AllTouched(r))
    requires Payloads(ws) == TradePayloads(r.trades) == Payloads(os) && !TradedAndCancelled(r)
    requires (forall id :: AlikeAt(a, b, id)) && Run(b, os).Ok()
    ensures Run(a, cancels).Ok() && Run(Run(a, cancels).state, ws).Ok()
  {
    hide Run, Payloads, Cancellations, TradePayloads, Names, IsTrade, Cancelled, CancelledIn, TradesName, AllTouched;
    AreCancels(cancels, r);
    CancelsRun(a, cancels);
    var c := Run(a, cancels).state;
    TradesNamed(ws, r.trades, "");
    forall i | 0 <= i < |ws| ensures ws[i].payload == os[i].payload {
      PayloadAt(ws, i);
      PayloadAt(os, i);
    }
    forall i, id | 0 <= i < |ws| && Names(ws[i], id) ensures AlikeAt(c, b, id) {
      TradesNamed(ws, r.trades, id);
      CancelledPayloads(cancels, id);
      assert !CancelledIn(Cancellations(AllTouched(r)), id);
      assert AlikeAt(a, b, id);
    }
    TradesAlike(c, b, ws, os);
  }

  /** A market buy that finds too little to fill it: the rest is cancelled, so the order is traded and
      cancelled by one command. What happened is fine, and what is written is refused. */
  lemma PartialFillRefused(s: State, written: seq<Entry>, ordered: seq<Entry>, p: Acceptance, c: Cancellation, t: Trade,
                           price: int64)
    requires FrozenAcceptance(p, "MARKET", price) && p.side == "BUY" && c.orderId == p.orderId
    requires t.takerOrderId == p.orderId && t.makerOrderId != p.orderId && t.makerOrderId in s.openOrders
    requires var o := s.openOrders[t.makerOrderId];
             Funded(o) && o.side == "SELL" && 0 < t.quantity <= o.remaining && t.quantity < p.quantity
    requires 0 <= t.price <= 99
    requires var r := Placed(p, false, Touched(c, true), [], [t]);
             Payloads(written) == Written(r) && Payloads(ordered) == InOrder(r)
    ensures Run(s, ordered).Ok() && !Run(s, written).Ok()
  {
    hide Run, Payloads, FrozenAcceptance, Funded, Written, InOrder;
    var r := Placed(p, false, Touched(c, true), [], [t]);
    PartialFillHappens(s, ordered, p, c, t, price);
    assert TradedAndCancelled(r) by {
      PartialFillShape(p, c, t);
      assert r.trades[0].takerOrderId == p.orderId;
      assert Cancellations(AllTouched(r))[0] == OrderCancelled(c);
      assert TradesName(r.trades, p.orderId) && CancelledIn(Cancellations(AllTouched(r)), p.orderId);
    }
    WrittenAcceptedIff(s, written, ordered, r);
  }

  lemma PartialFillShape(p: Acceptance, c: Cancellation, t: Trade)
    ensures var r := Placed(p, false, Touched(c, true), [], [t]);
            && Cancellations(AllTouched(r)) == [OrderCancelled(c)]
            && InOrder(r) == [OrderAccepted(p), TradeMatched(t), OrderCancelled(c)]
  {
    var r := Placed(p, false, Touched(c, true), [], [t]);
    assert AllTouched(r) == [Touched(c, true)] && AllTouched(r)[..0] == [];
    assert TradePayloads([t]) == [TradeMatched(t)];
  }

  lemma PartialFillHappens(s: State, ordered: seq<Entry>, p: Acceptance, c: Cancellation, t: Trade, price: int64)
    requires FrozenAcceptance(p, "MARKET", price) && p.side == "BUY"
    requires t.takerOrderId == p.orderId && t.makerOrderId != p.orderId && t.makerOrderId in s.openOrders
    requires var o := s.openOrders[t.makerOrderId];
             Funded(o) && o.side == "SELL" && 0 < t.quantity <= o.remaining && t.quantity < p.quantity
    requires 0 <= t.price <= 99
    requires Payloads(ordered) == InOrder(Placed(p, false, Touched(c, true), [], [t]))
    ensures Run(s, ordered).Ok()
  {
    hide Apply, Payloads, FillOrder, Deliver, AcceptedOrder, Funded, InOrder;
    PartialFillShape(p, c, t);
    PayloadAt(ordered, 0);
    PayloadAt(ordered, 1);
    PayloadAt(ordered, 2);
    var e0, e1, e2 := ordered[0], ordered[1], ordered[2];
    var s1 := Apply(s, e0).state;
    AcceptFrame(s, e0);
    AcceptOk(s, e0);
    TakerTerms(p, e0.sequence, price);
    TradeTaken(s1, e1);
    var s2 := Apply(s1, e1).state;
    CancelOk(s2, e2);
    assert ordered[2..] == [e2] && ordered[2..][1..] == [];
    assert Run(s2, ordered[2..]).Ok();
    assert ordered[1..][0] == e1 && ordered[1..][1..] == ordered[2..];
    assert Run(s1, ordered[1..]).Ok();
  }

  lemma AcceptOk(s: State, e: Entry)
    requires e.payload.OrderAccepted?
    ensures Apply(s, e).Ok()
  {
    hide ApplyAccepted;
  }

  lemma TakerTerms(p: Acceptance, sequence: int64, price: int64)
    requires FrozenAcceptance(p, "MARKET", price) && p.side == "BUY"
    ensures var o := AcceptedOrder(p, sequence);
            Funded(o) && o.side == "BUY" && o.price == 99 && o.remaining == p.quantity
  {
    hide Funded, CalculateFreeze;
    FrozenFunded(p, "MARKET", price, sequence);
    Terms(p, sequence);
  }

  /** A trade between a funded buy and a funded sell, within both, is taken. */
  lemma TradeTaken(s: State, e: Entry)
    requires e.payload.TradeMatched?
    requires var t := e.payload.trade;
             && t.takerOrderId in s.openOrders && t.makerOrderId in s.openOrders && t.takerOrderId != t.makerOrderId
             && var buy, sell := s.openOrders[t.takerOrderId], s.openOrders[t.makerOrderId];
             && Funded(buy) && buy.side == "BUY" && Funded(sell) && sell.side == "SELL"
             && 0 < t.quantity <= buy.remaining && t.quantity <= sell.remaining && 0 <= t.price <= buy.price
    ensures Apply(s, e).Ok()
  {
    hide FillOrder, Deliver;
    var t := e.payload.trade;
    var buy := s.openOrders[t.takerOrderId];
    FillBounds(buy.price, t.price, t.quantity, buy.remaining, buy.reserved);
    FillFunded(s, t.takerOrderId, Fill(e.sequence, t.quantity, t.price));
    OtherFill(s, e.sequence, t.takerOrderId, t.quantity, t.price, t.makerOrderId);
    FillFunded(TakerFilled(s, e).state, t.makerOrderId, Fill(e.sequence, t.quantity, t.price));
  }
}
