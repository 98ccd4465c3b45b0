/** The accepted snapshot: a replay that also tallies payouts, and the records exported from it. */
module Snapshot {
  import opened Int64
  import opened Text
  import opened Sums
  import opened Sorting
  import opened Ledger
  import opened Roots
  import opened ShadowState
  import opened Replay
  import opened Positions
  import Store

  datatype PayoutRecord = PayoutRecord(
    eventId: string, batchId: int64, market: int64, user: int64, winningOutcome: string, positionAsset: string,
    settled: int64, payoutAsset: string, amount: int64)

  datatype BalanceRecord = BalanceRecord(batchId: int64, account: int64, asset: string, available: int64,
                                         frozen: int64, sequenceNo: int64)

  datatype PositionRecord = PositionRecord(
    batchId: int64, account: int64, market: int64, outcome: string, positionAsset: string,
    quantity: int64, settled: int64, status: string, sequenceNo: int64)

  /** What has been settled out of one position so far. */
  datatype Settled = Settled(account: int64, market: int64, outcome: string, positionAsset: string, quantity: int64,
                             lastBatch: int64)

  datatype Tally = Tally(order: seq<string>, byEvent: map<string, PayoutRecord>, settled: map<string, Settled>)

  const NO_TALLY := Tally([], map[], map[])

  datatype Accepted = Accepted(
    batchId: int64, roots: RootSet, balances: seq<BalanceRecord>, positions: seq<PositionRecord>,
    payouts: seq<PayoutRecord>)

  // ---------------------------------------------------------------- tallying payouts

  function RecordOf(batchId: int64, p: Payout): PayoutRecord {
    PayoutRecord(TrimSpace(p.eventId), batchId, p.market, p.account, Normalize(p.winningOutcome), SettledAsset(p),
                 p.settled, PaidAsset(p), p.amount)
  }

  function SettledAt(t: Tally, key: string): Settled {
    if key in t.settled then t.settled[key] else Settled(0, 0, "", "", 0, 0)
  }

  /** A payout is recorded under its event, keeping the first position of a repeated event, and added to
      what its position has settled. */
  function Note(t: Tally, batchId: int64, e: Entry): Tally {
    if !e.payload.SettlementPayout? then t
    else
      var p := e.payload.payout;
      var r := RecordOf(batchId, p);
      var key := PositionKey(p.account, p.market, p.winningOutcome);
      Tally(if r.eventId in t.byEvent then t.order else t.order + [r.eventId],
            t.byEvent[r.eventId := r],
            t.settled[key := Settled(p.account, p.market, Normalize(p.winningOutcome), r.positionAsset,
                                     Add(SettledAt(t, key).quantity, p.settled), batchId)])
  }

  function NoteAll(t: Tally, batchId: int64, entries: seq<Entry>): Tally
    decreases entries
  {
    if entries == [] then t else NoteAll(Note(t, batchId, entries[0]), batchId, entries[1..])
  }

  function NoteBatches(f: Formats, t: Tally, batches: seq<StoredBatch>): Tally
    decreases batches
  {
    if batches == [] then t
    else
      match f.decode(batches[0].inputData)
      case None => t
      case Some(entries) => NoteBatches(f, NoteAll(t, batches[0].batchId, entries), batches[1..])
  }

  // ---------------------------------------------------------------- exporting

  function ExportBalance(batchId: int64, l: BalanceLeaf): BalanceRecord {
    BalanceRecord(batchId, l.account, l.asset, l.free, l.locked, l.lastSeq)
  }

  /** One position's record, or none if nothing is held and nothing was settled. */
  function ExportPosition(batchId: int64, positions: map<string, PositionLeaf>, settled: map<string, Settled>,
                          key: string): Option<PositionRecord> {
    var hasLeaf, hasSettled := key in positions, key in settled;
    var remaining := if hasLeaf then positions[key].quantity else 0;
    var done := if hasSettled then settled[key].quantity else 0;
    var total := Add(remaining, done);
    if total == 0 && done == 0 then None
    else
      var account := if hasSettled then settled[key].account else if hasLeaf then positions[key].account else 0;
      var market := if hasSettled then settled[key].market else if hasLeaf then positions[key].market else 0;
      var outcome := if hasSettled then settled[key].outcome else if hasLeaf then positions[key].outcome else "";
      var asset := if hasSettled then settled[key].positionAsset else if hasLeaf then PositionAsset(market, outcome)
        else "";
      var sequenceNo := if hasLeaf then positions[key].lastSeq else 0;
      var status := if hasLeaf then TrimSpace(positions[key].settlementStatus) else "";
      Some(PositionRecord(batchId, account, market, outcome,
                          if asset == "" then PositionAsset(market, outcome) else asset,
                          total, done,
                          if status != "" then status else if done > 0 then "SETTLED" else "OPEN",
                          if hasSettled && settled[key].lastBatch > 0 && sequenceNo == 0 then settled[key].lastBatch
                            else sequenceNo))
  }

  ghost function ExportPositions(batchId: int64, positions: map<string, PositionLeaf>, settled: map<string, Settled>,
                                 keys: seq<string>): seq<PositionRecord> {
    if keys == [] then []
    else
      var rest := ExportPositions(batchId, positions, settled, keys[..|keys| - 1]);
      match ExportPosition(batchId, positions, settled, keys[|keys| - 1])
      case None => rest
      case Some(r) => rest + [r]
  }

  ghost function ExportBalances(batchId: int64, balances: map<string, BalanceLeaf>): seq<BalanceRecord> {
    var keys := Keys(balances);
    seq(|keys|, i requires 0 <= i < |keys| => ExportBalance(batchId, balances[keys[i]]))
  }

  ghost function ExportPayouts(t: Tally): seq<PayoutRecord>
    requires forall i :: 0 <= i < |t.order| ==> t.order[i] in t.byEvent
  {
    seq(|t.order|, i requires 0 <= i < |t.order| => t.byEvent[t.order[i]])
  }

  function LatestBatch(batches: seq<StoredBatch>): int64 {
    if batches == [] then 0 else batches[|batches| - 1].batchId
  }

  ghost predicate OrderKnown(t: Tally) {
    forall i :: 0 <= i < |t.order| ==> t.order[i] in t.byEvent
  }

  /** The snapshot of a ledger and a tally. */
  ghost function Export(c: Codec, batchId: int64, s: State, t: Tally): Accepted
    requires OrderKnown(t)
  {
    Accepted(batchId, RootsOf(c, s), ExportBalances(batchId, s.balances),
             ExportPositions(batchId, s.positions, t.settled, Sorted(s.positions.Keys + t.settled.Keys)),
             ExportPayouts(t))
  }

  lemma NoteKnown(t: Tally, batchId: int64, e: Entry)
    requires OrderKnown(t)
    ensures OrderKnown(Note(t, batchId, e))
  {
    hide TrimSpace, Normalize, PositionKey, SettledAsset, PaidAsset, Add;
  }

  lemma {:induction false} NoteAllKnown(t: Tally, batchId: int64, entries: seq<Entry>)
    requires OrderKnown(t)
    ensures OrderKnown(NoteAll(t, batchId, entries))
    decreases entries
  {
    hide Note, OrderKnown;
    if entries != [] {
      NoteKnown(t, batchId, entries[0]);
      NoteAllKnown(Note(t, batchId, entries[0]), batchId, entries[1..]);
    }
  }

  lemma {:induction false} NoteBatchesKnown(f: Formats, t: Tally, batches: seq<StoredBatch>)
    requires OrderKnown(t)
    ensures OrderKnown(NoteBatches(f, t, batches))
    decreases batches
  {
    hide NoteAll, OrderKnown;
    if batches != [] && f.decode(batches[0].inputData).Some? {
      var entries := f.decode(batches[0].inputData).value;
      NoteAllKnown(t, batches[0].batchId, entries);
      NoteBatchesKnown(f, NoteAll(t, batches[0].batchId, entries), batches[1..]);
    }
  }

  method ExportPositionRecords(batchId: int64, positions: map<string, PositionLeaf>, settled: map<string, Settled>)
    returns (items: seq<PositionRecord>)
    ensures items == ExportPositions(batchId, positions, settled, Sorted(positions.Keys + settled.Keys))
  {
    hide ExportPosition, Sorted;
    var keys := SortKeys(positions.Keys + settled.Keys);
    items := [];
    for i := 0 to |keys|
      invariant items == ExportPositions(batchId, positions, settled, keys[..i])
    {
      assert keys[..i + 1][..i] == keys[..i];
      var record := ExportPosition(batchId, positions, settled, keys[i]);
      if record.Some? {
        items := items + [record.value];
      }
    }
    assert keys[..|keys|] == keys;
  }

  method ExportSnapshot(c: Codec, batchId: int64, state: Shadow, t: Tally) returns (a: Accepted)
    requires OrderKnown(t)
    ensures a == Export(c, batchId, state.Contents(), t)
  {
    hide Sorted, RootsOf, ExportPositions, StrictlySorted;
    var roots := state.ComputeRoots(c);
    var keys := SortKeys(state.balances.Keys);
    ghost var ks := Keys(state.balances);
    assert keys == ks;
    var balances := [];
    for i := 0 to |keys|
      invariant |balances| == i
      invariant forall j :: 0 <= j < i ==> balances[j] == ExportBalance(batchId, state.balances[ks[j]])
    {
      balances := balances + [ExportBalance(batchId, state.balances[keys[i]])];
    }
    assert balances == ExportBalances(batchId, state.balances);
    var positions := ExportPositionRecords(batchId, state.positions, t.settled);
    var payouts := [];
    for i := 0 to |t.order|
      invariant |payouts| == i
      invariant forall j :: 0 <= j < i ==> payouts[j] == t.byEvent[t.order[j]]
    {
      payouts := payouts + [t.byEvent[t.order[i]]];
    }
    assert payouts == ExportPayouts(t);
    return Accepted(batchId, roots, balances, positions, payouts);
  }

  // ---------------------------------------------------------------- the two builders

  /** Replay with every check, including that recorded roots, where present, are the recomputed ones. */
  ghost function CheckedFrom(f: Formats, s: State, batches: seq<StoredBatch>): Option<State>
    decreases batches
  {
    if batches == [] then Some(s)
    else
      match Extend(f, s, batches[0])
      case None => None
      case Some(t) =>
        if TrimSpace(batches[0].roots.state) != "" && StateRoot(f.codec, t) != batches[0].roots.state then None
        else CheckedFrom(f, t, batches[1..])
  }

  method ApplyNoting(state: Shadow, t: Tally, batchId: int64, entries: seq<Entry>) returns (noted: Tally, err: Error)
    requires OrderKnown(t)
    modifies state
    ensures Outcome(state.Contents(), err) == Run(old(state.Contents()), entries)
    ensures err == Nil ==> noted == NoteAll(t, batchId, entries) && OrderKnown(noted)
  {
    hide Apply, Note, OrderKnown;
    noted := t;
    for i := 0 to |entries|
      invariant Run(old(state.Contents()), entries) == Run(state.Contents(), entries[i..])
      invariant NoteAll(t, batchId, entries) == NoteAll(noted, batchId, entries[i..])
      invariant OrderKnown(noted)
    {
      assert entries[i..][0] == entries[i] && entries[i..][1..] == entries[i + 1..];
      NoteKnown(noted, batchId, entries[i]);
      noted := Note(noted, batchId, entries[i]);
      err := state.Apply(entries[i]);
      if err != Nil {
        return;
      }
    }
    err := Nil;
  }

  method BuildAcceptedReplaySnapshot(f: Formats, batches: seq<StoredBatch>) returns (r: Option<Accepted>)
    ensures r.Some? <==> CheckedFrom(f, EMPTY, batches).Some?
    ensures OrderKnown(NoteBatches(f, NO_TALLY, batches))
    ensures r.Some? ==>
            r.value ==
            Export(f.codec, LatestBatch(batches), CheckedFrom(f, EMPTY, batches).value,
                   NoteBatches(f, NO_TALLY, batches))
  {
    hide Run, RootsOf, InputIntact, ZeroStateRoot, NoteAll, Export, TrimSpace;
    NoteBatchesKnown(f, NO_TALLY, batches);
    var state := new Shadow();
    var roots := state.ComputeRoots(f.codec);
    var t := NO_TALLY;
    for i := 0 to |batches|
      invariant fresh(state) && OrderKnown(t)
      invariant CheckedFrom(f, EMPTY, batches) == CheckedFrom(f, state.Contents(), batches[i..])
      invariant NoteBatches(f, NO_TALLY, batches) == NoteBatches(f, t, batches[i..])
      invariant roots == RootsOf(f.codec, state.Contents())
    {
      var b := batches[i];
      assert batches[i..][0] == b && batches[i..][1..] == batches[i + 1..];
      var ok := CheckInput(f, b);
      if !ok {
        return None;
      }
      if roots.state != ExpectedPrev(f.codec, b) {
        return None;
      }
      var input := f.decode(b.inputData);
      if input.None? {
        return None;
      }
      var err;
      t, err := ApplyNoting(state, t, b.batchId, input.value);
      if err != Nil {
        return None;
      }
      roots := state.ComputeRoots(f.codec);
      if TrimSpace(b.roots.state) != "" && roots.state != b.roots.state {
        return None;
      }
    }
    assert batches[|batches|..] == [];
    var a := ExportSnapshot(f.codec, LatestBatch(batches), state, t);
    return Some(a);
  }

  method BuildTransitionSnapshot(f: Formats, batches: seq<StoredBatch>) returns (r: Option<Accepted>)
    ensures r.Some? <==> Store.Rebuild(f, EMPTY, batches).Some?
    ensures OrderKnown(NoteBatches(f, NO_TALLY, batches))
    ensures r.Some? ==>
            r.value ==
            Export(f.codec, LatestBatch(batches), Store.Rebuild(f, EMPTY, batches).value,
                   NoteBatches(f, NO_TALLY, batches))
  {
    hide Run, RootsOf, NoteAll, Export;
    NoteBatchesKnown(f, NO_TALLY, batches);
    var state := new Shadow();
    var t := NO_TALLY;
    for i := 0 to |batches|
      invariant fresh(state) && OrderKnown(t)
      invariant Store.Rebuild(f, EMPTY, batches) == Store.Rebuild(f, state.Contents(), batches[i..])
      invariant NoteBatches(f, NO_TALLY, batches) == NoteBatches(f, t, batches[i..])
    {
      var b := batches[i];
      assert batches[i..][0] == b && batches[i..][1..] == batches[i + 1..];
      var input := f.decode(b.inputData);
      if input.None? {
        return None;
      }
      var err;
      t, err := ApplyNoting(state, t, b.batchId, input.value);
      if err != Nil {
        return None;
      }
    }
    assert batches[|batches|..] == [];
    var a := ExportSnapshot(f.codec, LatestBatch(batches), state, t);
    return Some(a);
  }

  /** Where the accepted replay succeeds, the plain replay and the unchecked one reach the same ledger. */
  lemma {:induction false} ThreeReplaysAgree(f: Formats, s: State, batches: seq<StoredBatch>)
    requires CheckedFrom(f, s, batches).Some?
    ensures CheckedFrom(f, s, batches) == ReplayFrom(f, s, batches) == Store.Rebuild(f, s, batches)
    decreases batches
  {
    hide Extend, Store.Rebuild, StateRoot, TrimSpace;
    if batches != [] {
      ThreeReplaysAgree(f, Extend(f, s, batches[0]).value, batches[1..]);
    }
    assert ReplayFrom(f, s, batches).Some?;
    Store.RebuildFollows(f, s, batches);
  }

  /** So wherever the accepted builder succeeds, the transition builder exports the very same snapshot,
      balances, positions and payouts included, under the roots the plain replay reports. */
  lemma SnapshotsAgree(f: Formats, batches: seq<StoredBatch>)
    requires CheckedFrom(f, EMPTY, batches).Some?
    ensures Store.Rebuild(f, EMPTY, batches).Some? && ReplayFrom(f, EMPTY, batches).Some?
    ensures var t := NoteBatches(f, NO_TALLY, batches);
            && OrderKnown(t)
            && var a := Export(f.codec, LatestBatch(batches), CheckedFrom(f, EMPTY, batches).value, t);
            && a == Export(f.codec, LatestBatch(batches), Store.Rebuild(f, EMPTY, batches).value, t)
            && a.roots == RootsOf(f.codec, ReplayFrom(f, EMPTY, batches).value)
  {
    hide CheckedFrom, ReplayFrom, Store.Rebuild, RootsOf, NoteBatches;
    ThreeReplaysAgree(f, EMPTY, batches);
    NoteBatchesKnown(f, NO_TALLY, batches);
  }

  // ---------------------------------------------------------------- lifetime truth

  ghost function SettledOf(t: Tally, k: Key): int64 {
    SettledAt(t, PositionKey(k.account, k.market, k.outcome)).quantity
  }

  lemma NoteSettled(t: Tally, batchId: int64, e: Entry, k: Key)
    ensures SettledOf(Note(t, batchId, e), k) == Wrap(SettledOf(t, k) + SettledFrom(k)(e))
  {
    hide Normalize, Wrap, PositionKey, TrimSpace, SettledAsset, PaidAsset;
    WrapInRange(SettledOf(t, k));
    if e.payload.SettlementPayout? {
      var p := e.payload.payout;
      PositionKeyInjective(p.account, p.market, p.winningOutcome, k.account, k.market, k.outcome);
    }
  }

  lemma {:induction false} NoteAllSettled(t: Tally, batchId: int64, entries: seq<Entry>, k: Key)
    ensures SettledOf(NoteAll(t, batchId, entries), k) == Wrap(SettledOf(t, k) + SeqSum(entries, SettledFrom(k)))
    decreases entries
  {
    hide Note, Wrap, SettledOf, SettledFrom;
    if entries == [] {
      WrapInRange(SettledOf(t, k));
    } else {
      var e, rest := entries[0], entries[1..];
      assert entries == [e] + rest;
      NoteSettled(t, batchId, e, k);
      NoteAllSettled(Note(t, batchId, e), batchId, rest, k);
      SeqSumCons(e, rest, SettledFrom(k));
      WrapAdd(SettledOf(t, k) + SettledFrom(k)(e), SeqSum(rest, SettledFrom(k)));
    }
  }

  lemma {:induction false} NoteBatchesSettled(f: Formats, t: Tally, batches: seq<StoredBatch>, k: Key)
    requires forall i :: 0 <= i < |batches| ==> f.decode(batches[i].inputData).Some?
    ensures SettledOf(NoteBatches(f, t, batches), k) ==
            Wrap(SettledOf(t, k) + SeqSum(Entries(f, batches), SettledFrom(k)))
    decreases batches
  {
    hide NoteAll, Wrap, SettledOf, SettledFrom;
    if batches == [] {
      WrapInRange(SettledOf(t, k));
    } else {
      var entries, rest := f.decode(batches[0].inputData).value, batches[1..];
      var u := NoteAll(t, batches[0].batchId, entries);
      assert NoteBatches(f, t, batches) == NoteBatches(f, u, rest);
      assert Entries(f, batches) == entries + Entries(f, rest);
      hide NoteBatches, Entries, SeqSum;
      NoteAllSettled(t, batches[0].batchId, entries, k);
      NoteBatchesSettled(f, u, rest, k);
      SeqSumConcat(entries, Entries(f, rest), SettledFrom(k));
      WrapAdd(SettledOf(t, k) + SeqSum(entries, SettledFrom(k)), SeqSum(Entries(f, rest), SettledFrom(k)));
    }
  }

  ghost predicate SettledKeyed(t: Tally) {
    forall key :: key in t.settled ==>
      key == PositionKey(t.settled[key].account, t.settled[key].market, t.settled[key].outcome)
  }

  lemma {:induction false} NoteAllKeyed(t: Tally, batchId: int64, entries: seq<Entry>)
    requires SettledKeyed(t)
    ensures SettledKeyed(NoteAll(t, batchId, entries))
    decreases entries
  {
    hide Normalize, Wrap, PositionKey, TrimSpace, SettledAsset, PaidAsset;
    if entries != [] {
      var e := entries[0];
      if e.payload.SettlementPayout? {
        var p := e.payload.payout;
        NormalizeIdempotent(p.winningOutcome);
        PositionKeyInjective(p.account, p.market, p.winningOutcome, p.account, p.market, Normalize(p.winningOutcome));
      }
      NoteAllKeyed(Note(t, batchId, e), batchId, entries[1..]);
    }
  }

  lemma {:induction false} NoteBatchesKeyed(f: Formats, t: Tally, batches: seq<StoredBatch>)
    requires SettledKeyed(t)
    ensures SettledKeyed(NoteBatches(f, t, batches))
    decreases batches
  {
    hide NoteAll, SettledKeyed;
    if batches != [] && f.decode(batches[0].inputData).Some? {
      var entries := f.decode(batches[0].inputData).value;
      NoteAllKeyed(t, batches[0].batchId, entries);
      NoteBatchesKeyed(f, NoteAll(t, batches[0].batchId, entries), batches[1..]);
    }
  }

  lemma {:induction false} ExportedFrom(batchId: int64, positions: map<string, PositionLeaf>,
                                        settled: map<string, Settled>, keys: seq<string>, r: PositionRecord)
    ensures r in ExportPositions(batchId, positions, settled, keys) <==>
            exists i :: 0 <= i < |keys| && ExportPosition(batchId, positions, settled, keys[i]) == Some(r)
  {
    hide ExportPosition;
    if keys != [] {
      ExportedFrom(batchId, positions, settled, keys[..|keys| - 1], r);
      assert forall i :: 0 <= i < |keys| - 1 ==> keys[..|keys| - 1][i] == keys[i];
    }
  }

  /** One key's record carries that key's identity. */
  lemma RecordIdentity(batchId: int64, s: State, t: Tally, key: string)
    requires Keyed(s) && SettledKeyed(t) && (key in s.positions || key in t.settled)
    ensures ExportPosition(batchId, s.positions, t.settled, key).Some? ==>
              var r := ExportPosition(batchId, s.positions, t.settled, key).value;
              PositionKey(r.account, r.market, r.outcome) == key
  {
    hide PositionKey, PositionAsset, TrimSpace, Wrap;
  }

  ghost predicate Describes(r: PositionRecord, k: Key) {
    k.Is(r.account, r.market, r.outcome)
  }

  /** A record that describes a position is the one made for its key. */
  lemma RecordIsExport(batchId: int64, s: State, t: Tally, k: Key, r: PositionRecord)
    requires Keyed(s) && SettledKeyed(t) && Describes(r, k)
    requires r in ExportPositions(batchId, s.positions, t.settled, Sorted(s.positions.Keys + t.settled.Keys))
    ensures ExportPosition(batchId, s.positions, t.settled, PositionKey(k.account, k.market, k.outcome)) == Some(r)
  {
    hide PositionKey, Normalize, ExportPositions, ExportPosition, Keyed, SettledKeyed;
    var keys := Sorted(s.positions.Keys + t.settled.Keys);
    SortedSpec(s.positions.Keys + t.settled.Keys);
    hide Sorted, StrictlySorted;
    ExportedFrom(batchId, s.positions, t.settled, keys, r);
    var i :| 0 <= i < |keys| && ExportPosition(batchId, s.positions, t.settled, keys[i]) == Some(r);
    assert keys[i] in Elements(keys);
    RecordIdentity(batchId, s, t, keys[i]);
    PositionKeyInjective(r.account, r.market, r.outcome, k.account, k.market, k.outcome);
  }

  /** The exported positions of any ledger and tally whose quantities are what these sums say. */
  lemma ExportedTruth(batchId: int64, s: State, t: Tally, k: Key, traded: int, settled: int)
    requires Keyed(s) && SettledKeyed(t)
    requires Quantity(s, k) == Wrap(traded - settled) && SettledOf(t, k) == Wrap(settled)
    ensures var records := ExportPositions(batchId, s.positions, t.settled, Sorted(s.positions.Keys + t.settled.Keys));
            && (forall r :: r in records && Describes(r, k) ==>
                r.quantity == Wrap(traded) && r.settled == Wrap(settled))
            && ((exists r :: r in records && Describes(r, k)) <==> Wrap(traded) != 0 || Wrap(settled) != 0)
  {
    hide PositionKey, PositionAsset, TrimSpace, Normalize, Wrap, ExportPositions, Keyed, SettledKeyed;
    var keys := Sorted(s.positions.Keys + t.settled.Keys);
    SortedSpec(s.positions.Keys + t.settled.Keys);
    hide Sorted, StrictlySorted;
    var key := PositionKey(k.account, k.market, k.outcome);
    KeyRecord(batchId, s, t, k, traded, settled);
    var records := ExportPositions(batchId, s.positions, t.settled, keys);
    forall r | r in records && Describes(r, k) ensures ExportPosition(batchId, s.positions, t.settled, key) == Some(r) {
      RecordIsExport(batchId, s, t, k, r);
    }
    if Wrap(traded) != 0 || Wrap(settled) != 0 {
      var r := ExportPosition(batchId, s.positions, t.settled, key).value;
      assert key in Elements(keys);
      var i :| 0 <= i < |keys| && keys[i] == key;
      ExportedFrom(batchId, s.positions, t.settled, keys, r);
      RecordIdentity(batchId, s, t, key);
      PositionKeyInjective(r.account, r.market, r.outcome, k.account, k.market, k.outcome);
      assert r in records && Describes(r, k);
    }
  }

  lemma KeyRecord(batchId: int64, s: State, t: Tally, k: Key, traded: int, settled: int)
    requires Quantity(s, k) == Wrap(traded - settled) && SettledOf(t, k) == Wrap(settled)
    ensures var key := PositionKey(k.account, k.market, k.outcome);
            var r := ExportPosition(batchId, s.positions, t.settled, key);
            && (r.Some? <==> Wrap(traded) != 0 || Wrap(settled) != 0)
            && (r.Some? ==> r.value.quantity == Wrap(traded) && r.value.settled == Wrap(settled))
            && (r.Some? ==> key in s.positions || key in t.settled)
  {
    hide PositionKey, PositionAsset, TrimSpace, Normalize, Wrap;
    WrapAdd(traded - settled, Wrap(settled));
    WrapAdd(traded - settled, settled);
    WrapInRange(0);
  }

  lemma {:induction false} DecodedAll(f: Formats, s: State, batches: seq<StoredBatch>)
    requires ReplayFrom(f, s, batches).Some?
    ensures forall i :: 0 <= i < |batches| ==> f.decode(batches[i].inputData).Some?
    decreases batches
  {
    hide Run, StateRoot, InputIntact, ExpectedPrev;
    if batches != [] {
      DecodedAll(f, Extend(f, s, batches[0]).value, batches[1..]);
      forall i | 0 <= i < |batches| ensures f.decode(batches[i].inputData).Some? {
        if i > 0 {
          assert batches[i] == batches[1..][i - 1];
        }
      }
    }
  }

  /** For every position, over the whole history and however settlements interleave with trades: the
      exported quantity is the net quantity ever traded, the exported settled quantity is the sum of its
      payouts, and there is no record exactly when both are zero. */
  lemma LifetimeTruth(f: Formats, batches: seq<StoredBatch>, k: Key)
    requires ReplayFrom(f, EMPTY, batches).Some?
    ensures var s, t := ReplayFrom(f, EMPTY, batches).value, NoteBatches(f, NO_TALLY, batches);
            var traded := Wrap(SeqSum(Entries(f, batches), TradedIn(k)));
            var settled := Wrap(SeqSum(Entries(f, batches), SettledFrom(k)));
            var records := ExportPositions(LatestBatch(batches), s.positions, t.settled,
                                           Sorted(s.positions.Keys + t.settled.Keys));
            && (forall r :: r in records && Describes(r, k) ==> r.quantity == traded && r.settled == settled)
            && ((exists r :: r in records && Describes(r, k)) <==> traded != 0 || settled != 0)
  {
    hide ReplayFrom, Run, NoteBatches, Entries, ExportPositions, Sorted, Wrap, TradedIn, SettledFrom, Describes,
         Normalize, PositionKey;
    var s, t, entries := ReplayFrom(f, EMPTY, batches).value, NoteBatches(f, NO_TALLY, batches), Entries(f, batches);
    ReplayIsRun(f, EMPTY, batches);
    QuantityRun(EMPTY, entries, k);
    KeyedRun(EMPTY, entries);
    DecodedAll(f, EMPTY, batches);
    NoteBatchesSettled(f, NO_TALLY, batches, k);
    NoteBatchesKeyed(f, NO_TALLY, batches);
    ExportedTruth(LatestBatch(batches), s, t, k, SeqSum(entries, TradedIn(k)), SeqSum(entries, SettledFrom(k)));
  }
}
