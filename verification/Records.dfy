/** Withdrawal, market and nonce leaves and the terms of open orders record the journal: each holds what the
    last entry for its id, market or key said. */
module Records {
  import opened Int64
  import opened Text
  import opened Ledger
  import opened Accounts

  function Lookup<V>(m: map<string, V>, key: string): Option<V> {
    if key in m then Some(m[key]) else None
  }

  /** The last request for a withdrawal id, as a leaf. */
  function LastRequest(entries: seq<Entry>, id: string): Option<WithdrawalLeaf>
    decreases entries
  {
    if entries == [] then None
    else
      var rest := LastRequest(entries[1..], id);
      var e := entries[0];
      if rest.Some? || !e.payload.WithdrawalRequested? || e.payload.withdrawal.id != id then rest
      else
        var p := e.payload.withdrawal;
        Some(WithdrawalLeaf(id, p.account, Normalize(p.asset), p.amount, TrimSpace(p.recipient), TrimSpace(p.lane),
                            e.sequence))
  }

  /** The last resolution of a market, as a leaf. */
  function LastResolution(entries: seq<Entry>, market: int64): Option<MarketFundingLeaf>
    decreases entries
  {
    if entries == [] then None
    else
      var rest := LastResolution(entries[1..], market);
      var e := entries[0];
      if rest.Some? || !e.payload.MarketResolved? || e.payload.resolvedMarket != market then rest
      else
        var kind, ref := Normalize(e.payload.resolverType), TrimSpace(e.payload.resolverRef);
        Some(MarketFundingLeaf(market, if ref == "" then kind else if kind == "" then ref else kind + ":" + ref,
                               "RESOLVED", Normalize(e.payload.resolvedOutcome), e.sequence))
  }

  lemma WithdrawalStored(s: State, e: Entry, id: string)
    requires e.payload.WithdrawalRequested?
    ensures Lookup(Apply(s, e).state.withdrawals, id) == if LastRequest([e], id).Some? then LastRequest([e], id)
            else Lookup(s.withdrawals, id)
  {
    hide AdjustBalance, Normalize, TrimSpace, Neg;
    var p := e.payload.withdrawal;
    AdjustBalanceFrame(s, p.account, p.asset, Neg(p.amount), 0, e.sequence);
    assert [e][1..] == [];
  }

  lemma SameBlank(s: string)
    ensures Normalize(s) == "" <==> TrimSpace(s) == ""
  {
    hide TrimSpace;
  }

  lemma ResolutionStored(s: State, e: Entry, market: int64)
    requires e.payload.MarketResolved? && Apply(s, e).Ok()
    ensures Lookup(Apply(s, e).state.marketFunding, Decimal(market)) ==
            if LastResolution([e], market).Some? then LastResolution([e], market)
              else Lookup(s.marketFunding, Decimal(market))
  {
    hide Normalize, TrimSpace, Decimal;
    assert [e][1..] == [];
    SameBlank(e.payload.resolverType);
    if Decimal(market) == Decimal(e.payload.resolvedMarket) {
      DecimalInjective(market, e.payload.resolvedMarket);
    }
  }

  lemma {:induction false} RecordsFrom(s: State, entries: seq<Entry>, id: string, market: int64)
    requires Run(s, entries).Ok()
    ensures var t := Run(s, entries).state;
            && Lookup(t.withdrawals, id) ==
                 (if LastRequest(entries, id).Some? then LastRequest(entries, id) else Lookup(s.withdrawals, id))
            && Lookup(t.marketFunding, Decimal(market)) ==
                 (if LastResolution(entries, market).Some? then LastResolution(entries, market)
                  else Lookup(s.marketFunding, Decimal(market)))
    decreases entries
  {
    hide Apply, Normalize, TrimSpace, Decimal, ResolutionRef;
    if entries != [] {
      var e := entries[0];
      SideMapsFrame(s, e);
      if e.payload.WithdrawalRequested? {
        WithdrawalStored(s, e, id);
      } else if e.payload.MarketResolved? {
        ResolutionStored(s, e, market);
      }
      assert [e][1..] == [];
      RecordsFrom(Apply(s, e).state, entries[1..], id, market);
    }
  }

  /** After every accepted run the ledger lists a withdrawal or a resolved market exactly when the journal
      does, with the fields of the last entry that named it. */
  lemma RecordsAreTheJournal(entries: seq<Entry>, id: string, market: int64)
    requires Run(EMPTY, entries).Ok()
    ensures Lookup(Run(EMPTY, entries).state.withdrawals, id) == LastRequest(entries, id)
    ensures Lookup(Run(EMPTY, entries).state.marketFunding, Decimal(market)) == LastResolution(entries, market)
  {
    hide Run, LastRequest, LastResolution;
    RecordsFrom(EMPTY, entries, id, market);
  }

  // ---------------------------------------------------------------- nonces

  /** The last advance of an account's key, as a leaf. A blank status or scope has its default. */
  function LastAdvance(entries: seq<Entry>, account: int64, key: string): Option<NonceLeaf>
    decreases entries
  {
    if entries == [] then None
    else
      var rest := LastAdvance(entries[1..], account, key);
      var p := entries[0].payload;
      if rest.Some? || !p.NonceAdvanced? || p.nonceAccount != account || TrimSpace(p.authKey) != TrimSpace(key)
      then rest
      else
        var status, scope := Normalize(p.keyStatus), Normalize(p.scope);
        Some(NonceLeaf(account, TrimSpace(key), p.next, if status == "" then "ACTIVE" else status,
                       if scope == "" then "TRADE" else scope, entries[0].sequence))
  }

  lemma AdvanceRecorded(s: State, e: Entry, account: int64, key: string)
    requires Apply(s, e).Ok()
    ensures var k := NonceKey(account, key);
            Lookup(Apply(s, e).state.nonces, k) ==
            if LastAdvance([e], account, key).Some? then LastAdvance([e], account, key) else Lookup(s.nonces, k)
  {
    hide Normalize, TrimSpace, NonceKey, Apply;
    assert [e][1..] == [];
    if e.payload.NonceAdvanced? {
      var p := e.payload;
      NonceKeyInjective(p.nonceAccount, p.authKey, account, key);
      AdvanceLeaf(s, e);
    } else {
      SideMapsFrame(s, e);
    }
  }

  lemma AdvanceLeaf(s: State, e: Entry)
    requires e.payload.NonceAdvanced? && Apply(s, e).Ok()
    ensures var p := e.payload;
            var status, scope := Normalize(p.keyStatus), Normalize(p.scope);
            Apply(s, e).state.nonces == s.nonces[NonceKey(p.nonceAccount, p.authKey) :=
              NonceLeaf(p.nonceAccount, TrimSpace(p.authKey), p.next, if status == "" then "ACTIVE" else status,
                        if scope == "" then "TRADE" else scope, e.sequence)]
  {
    hide Normalize, TrimSpace, NonceKey;
  }

  lemma {:induction false} NoncesFrom(s: State, entries: seq<Entry>, account: int64, key: string)
    requires Run(s, entries).Ok()
    ensures var k, last := NonceKey(account, key), LastAdvance(entries, account, key);
            Lookup(Run(s, entries).state.nonces, k) == if last.Some? then last else Lookup(s.nonces, k)
    decreases entries
  {
    hide Apply, Normalize, TrimSpace, NonceKey;
    if entries != [] {
      AdvanceRecorded(s, entries[0], account, key);
      assert [entries[0]][1..] == [];
      NoncesFrom(Apply(s, entries[0]).state, entries[1..], account, key);
    }
  }

  // ---------------------------------------------------------------- open orders

  /** The last acceptance of an order id. */
  function LastAcceptance(entries: seq<Entry>, id: string): Option<Acceptance>
    decreases entries
  {
    if entries == [] then None
    else
      var rest := LastAcceptance(entries[1..], id);
      var p := entries[0].payload;
      if rest.Some? || !p.OrderAccepted? || p.accept.orderId != id then rest else Some(p.accept)
  }

  /** An order leaf with the terms of an acceptance: what was asked for, not what is left of it. */
  ghost predicate TermsOf(o: OrderLeaf, p: Acceptance) {
    && o.orderId == p.orderId && o.account == p.account && o.market == p.market && o.outcome == Normalize(p.outcome)
    && o.side == Normalize(p.side) && o.price == p.price && o.original == p.quantity && o.status == "OPEN"
    && o.reserveAsset == (if Normalize(p.reserveAsset) == "" then Normalize(p.collateralAsset)
                          else Normalize(p.reserveAsset))
  }

  /** Two order leaves with the same terms. */
  ghost predicate SameAsked(o: OrderLeaf, n: OrderLeaf) {
    && n.orderId == o.orderId && n.account == o.account && n.market == o.market && n.outcome == o.outcome
    && n.side == o.side && n.price == o.price && n.original == o.original && n.reserveAsset == o.reserveAsset
    && n.status == "OPEN"
  }

  lemma FillKeepsTerms(s: State, sequence: int64, filled: string, quantity: int64, price: int64, id: string)
    requires FillOrder(s, sequence, filled, quantity, price).Ok()
    ensures var t := FillOrder(s, sequence, filled, quantity, price).state;
            && (id in t.openOrders ==> id in s.openOrders)
            && (id in t.openOrders ==>
                  t.openOrders[id] == s.openOrders[id] || SameAsked(s.openOrders[id], t.openOrders[id]))
  {
    hide FillOrder, ExpectedReserve, Wrap;
    FillFrame(s, sequence, filled, quantity, price);
  }

  ghost predicate HasTerms(s: State, id: string, p: Option<Acceptance>) {
    id in s.openOrders ==> p.Some? && TermsOf(s.openOrders[id], p.value)
  }

  lemma TradeKeepsTerms(s: State, e: Entry, id: string, p: Option<Acceptance>)
    requires e.payload.TradeMatched? && Apply(s, e).Ok() && HasTerms(s, id, p)
    ensures HasTerms(Apply(s, e).state, id, p)
  {
    hide Apply, FillOrder, Deliver, Normalize;
    var t := e.payload.trade;
    TradeFrame(s, e);
    FillKeepsTerms(s, e.sequence, t.takerOrderId, t.quantity, t.price, id);
    FillKeepsTerms(TakerFilled(s, e).state, e.sequence, t.makerOrderId, t.quantity, t.price, id);
  }

  lemma AcceptHasTerms(s: State, e: Entry)
    requires e.payload.OrderAccepted?
    ensures HasTerms(Apply(s, e).state, e.payload.accept.orderId, Some(e.payload.accept))
  {
    hide Apply, Normalize;
    AcceptFrame(s, e);
  }

  lemma {:induction false} OrdersFrom(s: State, entries: seq<Entry>, id: string, p: Option<Acceptance>)
    requires Run(s, entries).Ok() && HasTerms(s, id, p)
    ensures var last := LastAcceptance(entries, id);
            HasTerms(Run(s, entries).state, id, if last.Some? then last else p)
    decreases entries
  {
    hide Apply, TermsOf;
    if entries != [] {
      var e := entries[0];
      var next := if e.payload.OrderAccepted? && e.payload.accept.orderId == id then Some(e.payload.accept) else p;
      match e.payload {
        case TradeMatched(_) => TradeKeepsTerms(s, e, id, p);
        case OrderAccepted(_) =>
          AcceptFrame(s, e);
          AcceptHasTerms(s, e);
        case OrderCancelled(_) => CancelFrame(s, e);
        case _ => OrdersFrame(s, e);
      }
      OrdersFrom(Apply(s, e).state, entries[1..], id, next);
    }
  }

  /** After every accepted run a key's nonce leaf is its last advance, and an open order has the terms of the
      last acceptance of its id. */
  lemma KeysAndOrdersAreTheJournal(entries: seq<Entry>, account: int64, key: string, id: string)
    requires Run(EMPTY, entries).Ok()
    ensures Lookup(Run(EMPTY, entries).state.nonces, NonceKey(account, key)) == LastAdvance(entries, account, key)
    ensures HasTerms(Run(EMPTY, entries).state, id, LastAcceptance(entries, id))
  {
    hide Run, LastAdvance, LastAcceptance, TermsOf;
    NoncesFrom(EMPTY, entries, account, key);
    OrdersFrom(EMPTY, entries, id, None);
  }
}
