/** An order inside a whole journal. Whatever other entries come between, an accepted order stays funded while
    it is open, its leaf tells exactly how much of it was executed, and no trade within its limit is refused
    on its account. */
module OrderJournal {
  import opened Int64
  import opened Text
  import opened Sums
  import opened Ledger
  import opened Accounts
  import opened Flows
  import opened OrderLifetime
  import LockedFunds

  // ---------------------------------------------------------------- what a journal does to one order

  /** How much of an order an entry executes; a trade may name it on both sides. */
  ghost function Executed(id: string): Entry -> int {
    (e: Entry) =>
      if !e.payload.TradeMatched? then 0
      else
        var p := e.payload.trade;
        (if p.takerOrderId == id then p.quantity else 0) + (if p.makerOrderId == id then p.quantity else 0)
  }

  predicate Reopens(e: Entry, id: string) {
    e.payload.OrderAccepted? && e.payload.accept.orderId == id
  }

  predicate Cancels(e: Entry, id: string) {
    e.payload.OrderCancelled? && e.payload.cancel.orderId == id
  }

  ghost predicate NeverReopened(entries: seq<Entry>, id: string) {
    forall i :: 0 <= i < |entries| ==> !Reopens(entries[i], id)
  }

  ghost predicate Cancelled(entries: seq<Entry>, id: string) {
    exists i :: 0 <= i < |entries| && Cancels(entries[i], id)
  }

  /** Order o after some of it was executed: the same terms, less remaining, and a reserve of exactly what the
      remainder needs. */
  ghost predicate FilledBy(o: OrderLeaf, n: OrderLeaf, done: int) {
    && SameTerms(o, n) && 0 <= done && n.remaining == o.remaining - done
    && n.reserved == if done == 0 then o.reserved else Need(o.side, o.price, n.remaining)
  }

  lemma FilledByChain(o: OrderLeaf, n: OrderLeaf, m: OrderLeaf, a: int, b: int)
    requires FilledBy(o, n, a) && FilledBy(n, m, b)
    ensures FilledBy(o, m, a + b)
  {
    hide Need;
  }

  /** The state of an order after an entry or a run that executed so much of it. */
  ghost predicate Advanced(o: OrderLeaf, t: State, id: string, done: int, cancelled: bool) {
    && (id in t.openOrders <==> !cancelled && done < o.remaining)
    && (id in t.openOrders ==> FilledBy(o, t.openOrders[id], done) && Funded(t.openOrders[id]))
  }

  // ---------------------------------------------------------------- one entry

  /** Every accepted fill, within the limit or not, leaves the rest of the order funded. */
  lemma AcceptedFill(s: State, sequence: int64, id: string, quantity: int64, price: int64)
    requires id in s.openOrders && Funded(s.openOrders[id]) && FillOrder(s, sequence, id, quantity, price).Ok()
    ensures 0 < quantity <= s.openOrders[id].remaining
    ensures Advanced(s.openOrders[id], FillOrder(s, sequence, id, quantity, price).state, id, quantity, false)
  {
    hide FillOrder, Normalize, ExpectedReserve, Wrap;
    FillFrame(s, sequence, id, quantity, price);
    var o := s.openOrders[id];
    WrapInRange(o.remaining - quantity);
    if o.side == "BUY" {
      FillBounds(o.price, 0, quantity, o.remaining, o.reserved);
      ExpectedIsNeed(o.side, o.price, o.remaining - quantity);
    } else {
      SellExpected(o.price, o.remaining - quantity);
    }
  }

  lemma OtherFill(s: State, sequence: int64, other: string, quantity: int64, price: int64, id: string)
    requires other != id && FillOrder(s, sequence, other, quantity, price).Ok()
    ensures var t := FillOrder(s, sequence, other, quantity, price).state;
            && (id in t.openOrders <==> id in s.openOrders)
            && (id in s.openOrders ==> t.openOrders[id] == s.openOrders[id])
  {
    hide FillOrder;
    FillFrame(s, sequence, other, quantity, price);
  }

  lemma SelfFilled(o: OrderLeaf)
    ensures FilledBy(o, o, 0)
  {
  }

  lemma TradeAdvances(s: State, e: Entry, id: string)
    requires id in s.openOrders && Funded(s.openOrders[id]) && e.payload.TradeMatched? && Apply(s, e).Ok()
    ensures 0 <= Executed(id)(e) <= s.openOrders[id].remaining
    ensures Advanced(s.openOrders[id], Apply(s, e).state, id, Executed(id)(e), false)
  {
    hide Apply, FillOrder, FilledBy, Funded, Deliver;
    var p, o := e.payload.trade, s.openOrders[id];
    var a, b := TakerFilled(s, e).state, BothFilled(s, e).state;
    TradeFrame(s, e);
    assert o.remaining > 0 by {
      Positive(o);
    }
    SelfFilled(o);
    if p.takerOrderId == id {
      AcceptedFill(s, e.sequence, id, p.quantity, p.price);
    } else {
      OtherFill(s, e.sequence, p.takerOrderId, p.quantity, p.price, id);
    }
    if p.makerOrderId != id {
      OtherFill(a, e.sequence, p.makerOrderId, p.quantity, p.price, id);
    } else {
      FillFrame(a, e.sequence, id, p.quantity, p.price);
      var n := a.openOrders[id];
      AcceptedFill(a, e.sequence, id, p.quantity, p.price);
      var first := if p.takerOrderId == id then p.quantity as int else 0;
      RemainingOf(o, n, first);
      if id in b.openOrders {
        FilledByChain(o, n, b.openOrders[id], first, p.quantity);
      }
    }
  }

  lemma Positive(o: OrderLeaf)
    requires Funded(o)
    ensures o.remaining > 0
  {
  }

  lemma RemainingOf(o: OrderLeaf, n: OrderLeaf, done: int)
    requires FilledBy(o, n, done)
    ensures n.remaining == o.remaining - done
  {
  }

  /** Any accepted entry that does not open the order anew. */
  lemma EntryAdvances(s: State, e: Entry, id: string)
    requires id in s.openOrders && Funded(s.openOrders[id]) && Apply(s, e).Ok() && !Reopens(e, id)
    ensures 0 <= Executed(id)(e) <= s.openOrders[id].remaining
    ensures Advanced(s.openOrders[id], Apply(s, e).state, id, Executed(id)(e), Cancels(e, id))
  {
    hide Apply, FilledBy;
    SelfFilled(s.openOrders[id]);
    match e.payload
    case TradeMatched(_) => TradeAdvances(s, e, id);
    case OrderAccepted(_) => AcceptFrame(s, e);
    case OrderCancelled(_) => CancelFrame(s, e);
    case _ => OrdersFrame(s, e);
  }

  // ---------------------------------------------------------------- whole journals

  /** An order that is gone stays gone, and nothing more of it is executed. */
  lemma {:induction false} GoneStaysGone(s: State, entries: seq<Entry>, id: string)
    requires id !in s.openOrders && Run(s, entries).Ok() && NeverReopened(entries, id)
    ensures id !in Run(s, entries).state.openOrders && SeqSum(entries, Executed(id)) == 0
    decreases entries
  {
    hide Apply, Executed;
    if entries != [] {
      var e, rest := entries[0], entries[1..];
      assert entries == [e] + rest;
      SeqSumCons(e, rest, Executed(id));
      GoneStep(s, e, id);
      GoneStaysGone(Apply(s, e).state, rest, id);
    }
  }

  lemma GoneStep(s: State, e: Entry, id: string)
    requires id !in s.openOrders && Apply(s, e).Ok() && !Reopens(e, id)
    ensures id !in Apply(s, e).state.openOrders && Executed(id)(e) == 0
  {
    hide Apply;
    match e.payload
    case TradeMatched(p) =>
      hide FillOrder, Deliver;
      TradeFrame(s, e);
      FillFrame(s, e.sequence, p.takerOrderId, p.quantity, p.price);
      FillFrame(TakerFilled(s, e).state, e.sequence, p.makerOrderId, p.quantity, p.price);
    case OrderAccepted(_) => AcceptFrame(s, e);
    case OrderCancelled(_) => CancelFrame(s, e);
    case _ => OrdersFrame(s, e);
  }

  lemma CancelledCons(e: Entry, rest: seq<Entry>, id: string)
    ensures Cancelled([e] + rest, id) <==> Cancels(e, id) || Cancelled(rest, id)
  {
    var entries := [e] + rest;
    if Cancels(e, id) {
      assert Cancels(entries[0], id);
    }
    if Cancelled(rest, id) {
      var i :| 0 <= i < |rest| && Cancels(rest[i], id);
      assert Cancels(entries[i + 1], id);
    }
  }

  /** Over every accepted journal that does not reuse its id, an order that was funded stays so while it is
      open; it is open exactly until it is cancelled or executed in full, which is never exceeded; and its
      leaf holds what is left of it with exactly the reserve that needs. */
  lemma {:induction false} FundedThroughout(s: State, entries: seq<Entry>, id: string)
    requires id in s.openOrders && Funded(s.openOrders[id])
    requires Run(s, entries).Ok() && NeverReopened(entries, id)
    ensures var done := SeqSum(entries, Executed(id));
            && 0 <= done <= s.openOrders[id].remaining
            && Advanced(s.openOrders[id], Run(s, entries).state, id, done, Cancelled(entries, id))
    decreases entries
  {
    hide Apply, Executed, FilledBy, Funded, Cancelled;
    var o := s.openOrders[id];
    if entries == [] {
      SelfFilled(o);
      Positive(o);
      assert !Cancelled([], id) by {
        NoneCancelled(id);
      }
    } else {
      var e, rest := entries[0], entries[1..];
      assert entries == [e] + rest;
      SeqSumCons(e, rest, Executed(id));
      CancelledCons(e, rest, id);
      EntryAdvances(s, e, id);
      var t := Apply(s, e).state;
      if id in t.openOrders {
        var n := t.openOrders[id];
        FundedThroughout(t, rest, id);
        RemainingOf(o, n, Executed(id)(e));
        if id in Run(t, rest).state.openOrders {
          FilledByChain(o, n, Run(t, rest).state.openOrders[id], Executed(id)(e), SeqSum(rest, Executed(id)));
        }
      } else {
        GoneStaysGone(t, rest, id);
      }
    }
  }

  lemma NoneCancelled(id: string)
    ensures !Cancelled([], id)
  {
  }

  // ---------------------------------------------------------------- no refusal on its account

  /** The trade fails before this order is looked at, on the other order's account, or not at all. */
  ghost predicate NotRefusedFor(s: State, e: Entry, id: string)
    requires e.payload.TradeMatched?
  {
    var p := e.payload.trade;
    && (p.takerOrderId == id ==> TakerFilled(s, e).Ok())
    && (p.makerOrderId == id && TakerFilled(s, e).Ok() ==> BothFilled(s, e).Ok())
  }

  lemma TradeNotRefused(s: State, e: Entry, id: string)
    requires id in s.openOrders && Funded(s.openOrders[id]) && e.payload.TradeMatched?
    requires var p, o := e.payload.trade, s.openOrders[id];
             && p.quantity > 0 && Executed(id)(e) <= o.remaining
             && (o.side == "BUY" ==> 0 <= p.price <= o.price)
    ensures NotRefusedFor(s, e, id)
  {
    hide FillOrder, Funded, FilledBy;
    var p, o := e.payload.trade, s.openOrders[id];
    if p.takerOrderId == id {
      FillFunded(s, id, Fill(e.sequence, p.quantity, p.price));
    }
    if p.makerOrderId == id && TakerFilled(s, e).Ok() {
      var a := TakerFilled(s, e).state;
      if p.takerOrderId == id {
        AcceptedFill(s, e.sequence, id, p.quantity, p.price);
        StillOpen(o, a.openOrders[id], p.quantity);
      } else {
        OtherFill(s, e.sequence, p.takerOrderId, p.quantity, p.price, id);
      }
      FillFunded(a, id, Fill(e.sequence, p.quantity, p.price));
    }
  }

  lemma StillOpen(o: OrderLeaf, n: OrderLeaf, done: int)
    requires FilledBy(o, n, done)
    ensures n.remaining == o.remaining - done && n.side == o.side && n.price == o.price
  {
  }

  /** From journal data alone: an order accepted with the freeze the order service computes, in any accepted
      journal that neither cancels it nor reuses its id, is filled by every further trade within its limit
      price and the quantity not yet executed. Market buys, frozen at 100 and sent at 99, included. */
  lemma FrozenOrderNeverRefused(before: seq<Entry>, sequence: int64, p: Acceptance, orderType: string, price: int64,
                                after: seq<Entry>, next: Entry)
    requires FrozenAcceptance(p, orderType, price) && next.payload.TradeMatched?
    requires Run(EMPTY, before + [Entry(sequence, OrderAccepted(p))] + after).Ok()
    requires NeverReopened(after, p.orderId) && !Cancelled(after, p.orderId)
    requires next.payload.trade.quantity > 0
    requires SeqSum(after, Executed(p.orderId)) + Executed(p.orderId)(next) <= p.quantity
    requires p.side == "BUY" ==> 0 <= next.payload.trade.price <= p.price
    ensures NotRefusedFor(Run(EMPTY, before + [Entry(sequence, OrderAccepted(p))] + after).state, next, p.orderId)
  {
    hide Run, FrozenAcceptance, Funded, FilledBy, Executed, NotRefusedFor, AcceptedOrder, Apply;
    var e, id := Entry(sequence, OrderAccepted(p)), p.orderId;
    var s := Run(EMPTY, before).state;
    var t := Apply(s, e).state;
    RunConcat(EMPTY, before + [e], after);
    RunConcat(EMPTY, before, [e]);
    RunOne(s, e);
    AcceptFrame(s, e);
    var o := t.openOrders[id];
    FrozenFunded(p, orderType, price, sequence);
    Terms(p, sequence);
    FundedThroughout(t, after, id);
    var u := Run(t, after).state;
    ExecutesSome(next, id);
    if Executed(id)(next) == 0 {
      NotNamed(u, next, id);
    } else {
      StillOpen(o, u.openOrders[id], SeqSum(after, Executed(id)));
      TradeNotRefused(u, next, id);
    }
  }

  lemma ExecutesSome(e: Entry, id: string)
    requires e.payload.TradeMatched? && e.payload.trade.quantity > 0
    ensures Executed(id)(e) >= 0
  {
  }

  lemma NotNamed(s: State, e: Entry, id: string)
    requires e.payload.TradeMatched? && e.payload.trade.quantity > 0 && Executed(id)(e) == 0
    ensures NotRefusedFor(s, e, id)
  {
  }

  lemma Terms(p: Acceptance, sequence: int64)
    ensures AcceptedOrder(p, sequence).remaining == p.quantity
  {
  }

  lemma RunOne(s: State, e: Entry)
    ensures Run(s, [e]).Ok() ==> Apply(s, e).Ok() && Run(s, [e]).state == Apply(s, e).state
  {
    hide Apply;
    assert [e][1..] == [];
  }

  // ---------------------------------------------------------------- what the owner pays

  /** The ledger as if the order were not there. */
  ghost function Without(s: State, id: string): State {
    s.(openOrders := s.openOrders - {id})
  }

  /** What an entry takes out of the order for good: notional for a buy, shares for a sell. */
  ghost function PaidFor(id: string, side: string): Entry -> int {
    (e: Entry) =>
      if !e.payload.TradeMatched? then 0
      else
        var p := e.payload.trade;
        var cost := if side == "BUY" then p.price * p.quantity else p.quantity as int;
        (if p.takerOrderId == id then cost else 0) + (if p.makerOrderId == id then cost else 0)
  }

  /** What the journal brings the owner's holding by everything but this order. */
  ghost function ByOthers(s: State, entries: seq<Entry>, id: string, v: View): int
    decreases entries
  {
    if entries == [] then 0
    else Flow(Without(s, id), entries[0], v) + ByOthers(Apply(s, entries[0]).state, entries[1..], id, v)
  }

  /** An open order adds to a flow exactly what it pays, and nothing else of it matters. */
  lemma FlowSplits(s: State, e: Entry, id: string)
    requires id in s.openOrders && s.openOrders[id].account > 0
    ensures var o := s.openOrders[id];
            var v := Holder(o.account, o.reserveAsset);
            Flow(s, e, v) == Flow(Without(s, id), e, v) - PaidFor(id, o.side)(e)
  {
    hide Normalize, PositionAsset, Buyer, Seller;
  }

  lemma FlowWithoutGone(s: State, e: Entry, id: string, side: string, v: View)
    requires id !in s.openOrders && Apply(s, e).Ok() && !Reopens(e, id)
    ensures Flow(s, e, v) == Flow(Without(s, id), e, v) && PaidFor(id, side)(e) == 0
  {
    hide Apply, Flow, FillOrder, Deliver;
    assert Without(s, id) == s;
    GoneStep(s, e, id);
    if e.payload.TradeMatched? {
      TradeFrame(s, e);
    }
  }

  lemma {:induction false} GoneMoney(s: State, entries: seq<Entry>, id: string, side: string, v: View)
    requires WellKeyed(s) && id !in s.openOrders && Run(s, entries).Ok() && NeverReopened(entries, id)
    ensures SeqSum(entries, PaidFor(id, side)) == 0
    ensures Cong(Value(Run(s, entries).state, v), Value(s, v) + ByOthers(s, entries, id, v))
    decreases entries
  {
    hide Apply, PaidFor, Flow, Value, WellKeyed, Wrap, Without;
    if entries != [] {
      var e, rest := entries[0], entries[1..];
      assert entries == [e] + rest;
      SeqSumCons(e, rest, PaidFor(id, side));
      FlowWithoutGone(s, e, id, side, v);
      FlowStep(s, e, v);
      GoneStep(s, e, id);
      var t := Apply(s, e).state;
      GoneMoney(t, rest, id, side, v);
      CongPlus(Value(t, v), Value(s, v) + Flow(s, e, v), ByOthers(t, rest, id, v));
    }
  }

  /** Over every accepted journal that does not reuse its id, what the owner holds of the order's asset, free and
      locked, changes by what everything else brings and by exactly what the order paid. */
  lemma {:induction false} MoneyThroughout(s: State, entries: seq<Entry>, id: string)
    requires WellKeyed(s) && id in s.openOrders && Funded(s.openOrders[id]) && s.openOrders[id].account > 0
    requires Run(s, entries).Ok() && NeverReopened(entries, id)
    ensures var o := s.openOrders[id];
            var v := Holder(o.account, o.reserveAsset);
            Cong(Value(Run(s, entries).state, v),
                 Value(s, v) + ByOthers(s, entries, id, v) - SeqSum(entries, PaidFor(id, o.side)))
    decreases entries
  {
    hide Apply, PaidFor, Flow, Value, WellKeyed, Wrap, Funded, Without, FilledBy, Executed;
    if entries != [] {
      var o, e, rest := s.openOrders[id], entries[0], entries[1..];
      var v := Holder(o.account, o.reserveAsset);
      assert entries == [e] + rest;
      SeqSumCons(e, rest, PaidFor(id, o.side));
      FlowSplits(s, e, id);
      FlowStep(s, e, v);
      EntryAdvances(s, e, id);
      var t := Apply(s, e).state;
      if id in t.openOrders {
        KeptTerms(o, t.openOrders[id], Executed(id)(e));
        MoneyThroughout(t, rest, id);
      } else {
        GoneMoney(t, rest, id, o.side, v);
      }
      CongPlus(Value(t, v), Value(s, v) + Flow(s, e, v),
               ByOthers(t, rest, id, v) - SeqSum(rest, PaidFor(id, o.side)));
    }
  }

  lemma KeptTerms(o: OrderLeaf, n: OrderLeaf, done: int)
    requires FilledBy(o, n, done)
    ensures SameTerms(o, n)
  {
  }

  /** And where locked funds are kept track of, the owner's free balance is that less what the orders still
      open reserve; an order that has ended is not among them. */
  lemma OwnerIsLeftWith(s: State, entries: seq<Entry>, id: string)
    requires WellKeyed(s) && id in s.openOrders && Funded(s.openOrders[id]) && s.openOrders[id].account > 0
    requires Run(s, entries).Ok() && NeverReopened(entries, id)
    requires LockedFunds.Explained(s) && LockedFunds.TracksRun(s, entries)
    ensures var o, t := s.openOrders[id], Run(s, entries).state;
            var v := Holder(o.account, o.reserveAsset);
            Cong(Free(t, o.account, o.reserveAsset),
                 Value(s, v) + ByOthers(s, entries, id, v) - SeqSum(entries, PaidFor(id, o.side))
                 - LockedFunds.Reserved(t, o.account, o.reserveAsset))
  {
    hide Run, ByOthers, PaidFor, WellKeyed, Wrap, Funded, LockedFunds.TracksRun, LockedFunds.Reserved, BalanceLeafOf;
    var o, t := s.openOrders[id], Run(s, entries).state;
    var v := Holder(o.account, o.reserveAsset);
    MoneyThroughout(s, entries, id);
    LockedFunds.ExplainedRun(s, entries);
    var left := Value(s, v) + ByOthers(s, entries, id, v) - SeqSum(entries, PaidFor(id, o.side));
    var locked, reserved := Locked(t, o.account, o.reserveAsset), LockedFunds.Reserved(t, o.account, o.reserveAsset);
    assert LockedFunds.ExplainedAt(t, o.account, o.reserveAsset);
    CongPlus(Value(t, v), left, -(locked as int));
    WrapAdd(left, reserved);
  }
}
