/** Two builds of the next batch at once. A build reads the tables, computes, and inserts at the end; by then
    another process may have added batches and the journal may have grown. */
module OverlappingBuilds {
  import opened Int64
  import opened Text
  import opened Ledger
  import opened Roots
  import opened Replay
  import opened BatchChain

  /** A batch as a build makes it from the tables it has read. */
  ghost predicate BuiltFrom(f: Formats, read: Db, limit: int, stored: StoredBatch) {
    && NextEntries(read, limit) != []
    && var b := NewBatch(f, read, NextEntries(read, limit));
    stored == b.(batchId := stored.batchId, roots := stored.roots)
  }

  predicate SameTip(f: Formats, read: Db, db: Db) {
    LastSequence(read) == LastSequence(db) && TipRoot(f.codec, read) == TipRoot(f.codec, db)
  }

  function Inserted(db: Db, stored: StoredBatch): Db {
    db.(batches := db.batches + [stored])
  }

  /** Where the batches end, the pending entries begin. */
  lemma PendingStartsAt(f: Formats, db: Db, limit: int)
    requires Linked(f, db)
    ensures var k, entries := |Entries(f, db.batches)|, NextEntries(db, limit);
            && k + |entries| <= |db.journal| && Entries(f, db.batches) == db.journal[..k]
            && entries == db.journal[k..k + |entries|]
  {
    hide Entries, Pending, PrevRoot;
    PendingAfterBatches(f, db);
    var done, pending := Entries(f, db.batches), Pending(db.journal, LastSequence(db));
    assert (done + pending)[..|done|] == done && (done + pending)[|done|..] == pending;
  }

  /** In an ordered journal the last sequence number of a prefix says how long it is. */
  lemma LastDecides(journal: seq<Entry>, k: nat, l: nat)
    requires Ordered(journal) && k <= |journal| && l <= |journal|
    ensures LastOf(journal[..k]) == LastOf(journal[..l]) <==> k == l
  {
  }

  lemma LinkedFacts(f: Formats, db: Db)
    requires Linked(f, db)
    ensures Ordered(db.journal) && LastSequence(db) == LastOf(Entries(f, db.batches))
  {
    hide Entries, PrevRoot;
  }

  /** An insert keeps the chain of batches exactly when the tip is still the one the build read. */
  lemma InsertKeepsIff(f: Formats, read: Db, db: Db, limit: int, stored: StoredBatch)
    requires f.RoundTrips() && Linked(f, read) && Linked(f, db) && read.journal <= db.journal
    requires BuiltFrom(f, read, limit, stored)
    ensures Linked(f, Inserted(db, stored)) <==> SameTip(f, read, db)
  {
    hide Linked, Entries, Pending, Ordered, LastOf, HashOf, ZeroStateRoot;
    var entries, k, l := NextEntries(read, limit), |Entries(f, read.batches)|, |Entries(f, db.batches)|;
    PendingStartsAt(f, read, limit);
    PendingStartsAt(f, db, limit);
    LinkedFacts(f, read);
    LinkedFacts(f, db);
    assert read.journal[..k] == db.journal[..k];
    LastDecides(db.journal, k, l);
    if SameTip(f, read, db) {
      TakesSame(f, read, db, limit);
      LinkedStep(f, db, |entries|, stored);
    }
    if Linked(f, Inserted(db, stored)) {
      InsertedLinked(f, db, stored, entries);
      SamePlace(db.journal, k, l, entries[0]);
    }
  }

  lemma TakesSame(f: Formats, read: Db, db: Db, limit: int)
    requires Linked(f, read) && Linked(f, db) && read.journal <= db.journal && NextEntries(read, limit) != []
    requires |Entries(f, read.batches)| == |Entries(f, db.batches)|
    ensures var entries := NextEntries(read, limit);
            NextEntries(db, |entries|) == entries
  {
    hide Linked, Entries, Pending;
    var entries := NextEntries(read, limit);
    PendingStartsAt(f, read, limit);
    PendingStartsAt(f, db, |entries|);
    var k, n := |Entries(f, read.batches)|, |entries|;
    TakesEnough(f, db, n);
    assert read.journal[k..k + n] == db.journal[k..k + n];
  }

  lemma TakesEnough(f: Formats, db: Db, n: nat)
    requires Linked(f, db) && 0 < n && |Entries(f, db.batches)| + n <= |db.journal|
    ensures |NextEntries(db, n)| == n
  {
    hide Linked, Entries, Pending;
    PendingAfterBatches(f, db);
    assert |db.journal| == |Entries(f, db.batches)| + |Pending(db.journal, LastSequence(db))|;
  }

  lemma InsertedLinked(f: Formats, db: Db, stored: StoredBatch, entries: seq<Entry>)
    requires Linked(f, Inserted(db, stored)) && entries != [] && f.decode(stored.inputData) == Some(entries)
    ensures var l := |Entries(f, db.batches)|;
            l < |db.journal| && db.journal[l] == entries[0] && stored.prevStateRoot == TipRoot(f.codec, db)
  {
    hide Entries, Ordered, LastOf, ZeroStateRoot;
    EntriesSnoc(f, db.batches, stored, entries);
    var all := Entries(f, db.batches) + entries;
    assert all[|Entries(f, db.batches)|] == entries[0];
    var after := Inserted(db, stored).batches;
    assert after[|db.batches|].prevStateRoot == PrevRoot(f, after, |db.batches|);
  }

  lemma SamePlace(journal: seq<Entry>, k: nat, l: nat, e: Entry)
    requires Ordered(journal) && k < |journal| && l < |journal| && journal[k] == e == journal[l]
    ensures k == l
  {
  }

  /** The table refuses a second batch with the same first and last sequence number. That does not notice two
      builds from the same tables with different limits: both are inserted, and the chain is broken. */
  lemma RangeKeyLetsThrough(f: Formats, db: Db, one: StoredBatch, two: StoredBatch)
    requires f.RoundTrips() && Linked(f, db) && |Pending(db.journal, LastSequence(db))| >= 2
    requires BuiltFrom(f, db, 1, one) && BuiltFrom(f, db, 2, two)
    ensures (one.firstSequence, one.lastSequence) != (two.firstSequence, two.lastSequence)
    ensures Linked(f, Inserted(db, one)) && !Linked(f, Inserted(Inserted(db, one), two))
  {
    hide Linked, Entries, Pending, HashOf, ZeroStateRoot;
    InsertKeepsIff(f, db, db, 1, one);
    PendingStartsAt(f, db, 1);
    PendingStartsAt(f, db, 2);
    LinkedFacts(f, db);
    InsertKeepsIff(f, db, Inserted(db, one), 2, two);
    LastBelow(f, db);
  }

  lemma LastBelow(f: Formats, db: Db)
    requires Linked(f, db) && |Entries(f, db.batches)| < |db.journal|
    ensures LastSequence(db) < db.journal[|Entries(f, db.batches)|].sequence
  {
    hide Entries, PrevRoot;
    var done := Entries(f, db.batches);
    assert done == db.journal[..|done|];
  }

  // ---------------------------------------------------------------- runs with overlapping builds

  /** A build that has read and computed but not yet inserted: the tables it read, and its batch. */
  datatype Flight = Flight(read: Db, limit: int, batch: StoredBatch)

  /** The world of the batch store, and the builds under way in it, one to a process. */
  datatype Shared = Shared(world: World, flights: map<nat, Flight>)

  datatype Move =
    | Appends(entries: seq<Entry>)
    | Begins(process: nat, limit: int)
    | Finishes(process: nat, id: Option<int64>)
    | Restarts(process: nat)

  /** The table's unique key on first and last sequence number. */
  ghost predicate Clashes(db: Db, b: StoredBatch) {
    exists i :: 0 <= i < |db.batches| && db.batches[i].firstSequence == b.firstSequence
                && db.batches[i].lastSequence == b.lastSequence
  }

  ghost predicate Inserts(sh: Shared, process: nat, id: Option<int64>) {
    process in sh.flights && id.Some? && !Clashes(sh.world.db, sh.flights[process].batch)
  }

  /** What the build has computed when it reaches its insert. */
  ghost function FlightOf(f: Formats, w: World, process: nat, limit: int): Option<Flight> {
    var (_, cache, result) := Materialize(f, w.db, CacheOf(w, process), limit, None);
    var entries := NextEntries(w.db, limit);
    if entries == [] || !result.InsertFailed? || cache.Cold? then None
    else Some(Flight(w.db, limit, NewBatch(f, w.db, entries).(roots := RootsOf(f.codec, cache.state))))
  }

  ghost function Go(f: Formats, sh: Shared, m: Move): Shared {
    match m
    case Appends(entries) => sh.(world := Step(f, sh.world, Append(entries)))
    case Restarts(process) => Shared(Step(f, sh.world, Restart(process)), sh.flights - {process})
    case Begins(process, limit) =>
      if process in sh.flights then sh
      else
        var w, flight := Step(f, sh.world, Build(process, limit, None)), FlightOf(f, sh.world, process, limit);
        Shared(w, if flight.Some? then sh.flights[process := flight.value] else sh.flights)
    case Finishes(process, id) =>
      if !Inserts(sh, process, id) then sh.(flights := sh.flights - {process})
      else
        var batch := sh.flights[process].batch.(batchId := id.value);
        Shared(sh.world.(db := Inserted(sh.world.db, batch)), sh.flights - {process})
  }

  ghost function GoAll(f: Formats, sh: Shared, moves: seq<Move>): Shared {
    if moves == [] then sh else Go(f, GoAll(f, sh, moves[..|moves| - 1]), moves[|moves| - 1])
  }

  ghost function Quiet(f: Formats): Shared {
    Shared(Start(f), map[])
  }

  /** A build under way: it read a sound chain, and its batch extends that chain's ledger. */
  ghost predicate SoundFlight(f: Formats, w: World, flight: Flight) {
    && Linked(f, flight.read) && Chained(f, flight.read, w.hashed) && flight.read.journal <= w.db.journal
    && BuiltFrom(f, flight.read, flight.limit, flight.batch)
    && var extended := Extend(f, ReplayFrom(f, EMPTY, flight.read.batches).value, flight.batch);
    && extended.Some? && flight.batch.roots == RootsOf(f.codec, extended.value)
    && Preimages(f.codec, extended.value) <= w.hashed
  }

  ghost predicate SharedInv(f: Formats, sh: Shared) {
    Inv(f, sh.world) && forall p :: p in sh.flights ==> SoundFlight(f, sh.world, sh.flights[p])
  }

  /** A finish that inserts, although the tip has moved since its build read it. */
  ghost predicate Stale(f: Formats, sh: Shared, m: Move) {
    m.Finishes? && Inserts(sh, m.process, m.id) && !SameTip(f, sh.flights[m.process].read, sh.world.db)
  }

  ghost predicate NeverStale(f: Formats, sh: Shared, moves: seq<Move>) {
    moves != [] ==>
      var before := moves[..|moves| - 1];
      NeverStale(f, sh, before) && !Stale(f, GoAll(f, sh, before), moves[|moves| - 1])
  }

  lemma FlightGrows(f: Formats, w: World, v: World, flight: Flight)
    requires SoundFlight(f, w, flight) && w.hashed <= v.hashed && w.db.journal <= v.db.journal
    ensures SoundFlight(f, v, flight)
  {
    hide Linked, Extend, ReplayFrom, RootsOf, Preimages, BuiltFrom, StateRoot;
  }

  lemma StepGrows(f: Formats, w: World, e: Event)
    ensures w.hashed <= Step(f, w, e).hashed && w.db.journal <= Step(f, w, e).db.journal
  {
    hide Compute, Preimages, Ordered, NextEntries, NewBatch, RootsOf, StateRoot;
  }

  lemma Replays(f: Formats, db: Db, hashed: set<string>)
    requires Chained(f, db, hashed)
    ensures ReplayFrom(f, EMPTY, db.batches).Some?
  {
  }

  /** What a build computes is what its batch extends the tip's ledger to. */
  lemma FlightSound(f: Formats, w: World, process: nat, limit: int)
    requires f.RoundTrips() && Faithful(f.codec) && CollisionFree(f.codec, w.hashed) && Inv(f, w)
    requires FlightOf(f, w, process, limit).Some?
    ensures SoundFlight(f, Step(f, w, Build(process, limit, None)), FlightOf(f, w, process, limit).value)
  {
    hide Extend, ReplayFrom, StateRoot, Preimages, CollisionFree, Linked, Chained, NextEntries, NewBatch, Compute,
         RootsOf;
    var entries := NextEntries(w.db, limit);
    var b := NewBatch(f, w.db, entries);
    ShortcutAgrees(f, w, process, entries);
    var t := Compute(f, w.db, CacheOf(w, process), b).value;
    var flight := FlightOf(f, w, process, limit).value;
    var v := Step(f, w, Build(process, limit, None));
    Replays(f, w.db, w.hashed);
    assert v.hashed == w.hashed + Preimages(f.codec, t) && v.db == w.db;
    ChainedGrows(f, w.db, w.hashed, v.hashed);
    ExtendIgnores(f, ReplayFrom(f, EMPTY, w.db.batches).value, b, flight.batch);
  }

  lemma SameTipSameLedger(f: Formats, w: World, flight: Flight)
    requires Faithful(f.codec) && CollisionFree(f.codec, w.hashed) && Inv(f, w) && SoundFlight(f, w, flight)
    requires SameTip(f, flight.read, w.db)
    ensures ReplayFrom(f, EMPTY, flight.read.batches).value == ReplayFrom(f, EMPTY, w.db.batches).value
  {
    hide Linked, Extend, ReplayFrom, RootsOf, Preimages, BuiltFrom, StateRoot, CollisionFree, TipRoot, LastSequence;
    StateRootBinds(f.codec, ReplayFrom(f, EMPTY, flight.read.batches).value,
                   ReplayFrom(f, EMPTY, w.db.batches).value, w.hashed);
  }

  /** A finish keeps the store sound exactly when it is not stale. */
  lemma FinishKeepsIff(f: Formats, sh: Shared, process: nat, id: Option<int64>)
    requires f.RoundTrips() && Faithful(f.codec) && CollisionFree(f.codec, sh.world.hashed) && SharedInv(f, sh)
    ensures Inv(f, Go(f, sh, Finishes(process, id)).world) <==> !Stale(f, sh, Finishes(process, id))
  {
    hide Linked, Chained, Extend, ReplayFrom, RootsOf, Preimages, StateRoot, CollisionFree, SameTip, NewBatch,
         NextEntries, Clashes, SoundCache;
    if Inserts(sh, process, id) {
      var w, flight := sh.world, sh.flights[process];
      var batch := flight.batch.(batchId := id.value);
      assert BuiltFrom(f, flight.read, flight.limit, batch);
      InsertKeepsIff(f, flight.read, w.db, flight.limit, batch);
      if SameTip(f, flight.read, w.db) {
        SameTipSameLedger(f, w, flight);
        Replays(f, flight.read, w.hashed);
        var t := Extend(f, ReplayFrom(f, EMPTY, flight.read.batches).value, flight.batch).value;
        ChainedStep(f, w, batch, flight.batch, t);
        assert w.hashed + Preimages(f.codec, t) == w.hashed;
      }
    }
  }

  lemma MoveKeeps(f: Formats, sh: Shared, m: Move)
    requires f.RoundTrips() && Faithful(f.codec) && CollisionFree(f.codec, sh.world.hashed) && SharedInv(f, sh)
    requires !Stale(f, sh, m)
    ensures SharedInv(f, Go(f, sh, m))
  {
    hide SoundFlight, Inv, Step, CollisionFree, FlightOf, Inserts, Stale, BuiltFrom;
    var after := Go(f, sh, m);
    match m {
    case Appends(entries) =>
      AppendKeeps(f, sh.world, entries);
      StepGrows(f, sh.world, Append(entries));
    case Restarts(process) =>
      RestartKeeps(f, sh.world, process);
      StepGrows(f, sh.world, Restart(process));
    case Begins(process, limit) =>
      if process !in sh.flights {
        BuildKeeps(f, sh.world, process, limit, None);
        StepGrows(f, sh.world, Build(process, limit, None));
      }
    case Finishes(process, id) =>
      FinishKeepsIff(f, sh, process, id);
    }
    forall p | p in after.flights ensures SoundFlight(f, after.world, after.flights[p]) {
      if p in sh.flights {
        FlightGrows(f, sh.world, after.world, sh.flights[p]);
      } else {
        FlightSound(f, sh.world, p, m.limit);
      }
    }
  }

  lemma MoveHashes(f: Formats, sh: Shared, m: Move)
    ensures sh.world.hashed <= Go(f, sh, m).world.hashed
  {
    hide Step, FlightOf, Inserts;
    match m
    case Appends(entries) => StepGrows(f, sh.world, Append(entries));
    case Restarts(process) => StepGrows(f, sh.world, Restart(process));
    case Begins(process, limit) => StepGrows(f, sh.world, Build(process, limit, None));
    case Finishes(_, _) =>
  }

  /** Every run in which builds overlap, fail, restart and finish in any order, as long as no insert is stale:
      the stored batches stay a sound chain, and any cache gives the answer of a full replay. */
  lemma {:induction false} OverlapAgreement(f: Formats, moves: seq<Move>, process: nat, limit: int, id: Option<int64>)
    requires f.RoundTrips() && Faithful(f.codec) && NeverStale(f, Quiet(f), moves)
    requires CollisionFree(f.codec, GoAll(f, Quiet(f), moves).world.hashed)
    ensures SharedInv(f, GoAll(f, Quiet(f), moves))
    ensures var w := GoAll(f, Quiet(f), moves).world;
            SameAnswer(f, w.db, CacheOf(w, process), Cold, limit, id)
  {
    hide Go, CollisionFree, Inv, Stale, Start, SoundFlight, SameAnswer;
    if moves == [] {
      StartInv(f);
    } else {
      var before, m := GoAll(f, Quiet(f), moves[..|moves| - 1]), moves[|moves| - 1];
      MoveHashes(f, before, m);
      CollisionFreeBelow(f.codec, before.world.hashed, Go(f, before, m).world.hashed);
      OverlapAgreement(f, moves[..|moves| - 1], process, limit, id);
      MoveKeeps(f, before, m);
    }
    AnswerOfFullReplay(f, GoAll(f, Quiet(f), moves).world, process, limit, id);
  }

  // ---------------------------------------------------------------- a run that breaks the chain

  lemma GoSnoc(f: Formats, sh: Shared, moves: seq<Move>, m: Move)
    ensures GoAll(f, sh, moves + [m]) == Go(f, GoAll(f, sh, moves), m)
  {
    hide Go;
    assert (moves + [m])[..|moves|] == moves;
  }

  /** A build whose entries apply gets as far as its insert. */
  lemma BeginFlies(f: Formats, sh: Shared, process: nat, limit: int)
    requires f.RoundTrips() && Faithful(f.codec) && CollisionFree(f.codec, sh.world.hashed) && SharedInv(f, sh)
    requires process !in sh.flights && NextEntries(sh.world.db, limit) != []
    requires ReplayFrom(f, EMPTY, sh.world.db.batches).Some?
    requires Run(ReplayFrom(f, EMPTY, sh.world.db.batches).value, NextEntries(sh.world.db, limit)).Ok()
    ensures var after := Go(f, sh, Begins(process, limit));
            && process in after.flights && after.flights == sh.flights[process := after.flights[process]]
            && after.flights[process].read == after.world.db == sh.world.db
            && BuiltFrom(f, sh.world.db, limit, after.flights[process].batch)
  {
    hide ReplayFrom, StateRoot, Preimages, CollisionFree, Linked, Chained, NextEntries, RootsOf, Run, ExpectedPrev,
         ZeroStateRoot, Compute, HashOf, SoundFlight, SoundCache;
    var w := sh.world;
    var entries, s := NextEntries(w.db, limit), ReplayFrom(f, EMPTY, w.db.batches).value;
    var b := NewBatch(f, w.db, entries);
    ShortcutAgrees(f, w, process, entries);
    TipIsExpected(f, w, entries);
    TipOf(f, w);
    assert Extend(f, s, b).Some?;
  }

  lemma TipOf(f: Formats, w: World)
    requires Inv(f, w)
    ensures ReplayFrom(f, EMPTY, w.db.batches).Some?
    ensures StateRoot(f.codec, ReplayFrom(f, EMPTY, w.db.batches).value) == TipRoot(f.codec, w.db)
  {
    hide ReplayFrom, StateRoot, Preimages, Linked, SoundCache, TipRoot;
  }

  ghost predicate TwoDeposits(a: Entry, b: Entry) {
    a.payload.DepositCredited? && b.payload.DepositCredited? && 0 < a.sequence < b.sequence
  }

  lemma DepositsRun(a: Entry, b: Entry)
    requires TwoDeposits(a, b)
    ensures Run(EMPTY, [a]).Ok() && Run(EMPTY, [a, b]).Ok()
  {
    hide AdjustBalance;
    var s := Apply(EMPTY, a).state;
    assert [a][1..] == [] && [a, b][1..] == [b] && [b][1..] == [];
    assert Run(s, [b]).Ok();
  }

  lemma FirstPending(a: Entry, b: Entry)
    requires TwoDeposits(a, b)
    ensures var db := Db([a, b], []);
            Pending(db.journal, LastSequence(db)) == [a, b] && NextEntries(db, 1) == [a] && NextEntries(db, 2) == [a, b]
  {
    assert [a, b][1..] == [b] && [b][1..] == [];
    assert Pending([b], 0) == [b];
  }

  function Race(a: Entry, b: Entry): seq<Move> {
    [Appends([a, b]), Begins(0, 1), Begins(1, 2), Finishes(0, Some(1)), Finishes(1, Some(2))]
  }

  /** The tables and builds when both are under way. */
  lemma RaceUnderWay(f: Formats, a: Entry, b: Entry)
    requires f.RoundTrips() && Faithful(f.codec) && TwoDeposits(a, b)
    requires CollisionFree(f.codec, GoAll(f, Quiet(f), Race(a, b)[..3]).world.hashed)
    ensures var sh, db := GoAll(f, Quiet(f), Race(a, b)[..3]), Db([a, b], []);
            && sh.world.db == db && 0 in sh.flights && 1 in sh.flights
            && BuiltFrom(f, db, 1, sh.flights[0].batch) && BuiltFrom(f, db, 2, sh.flights[1].batch)
            && Linked(f, db) && SharedInv(f, sh) && sh.flights[0].read == db
  {
    hide CollisionFree, SoundFlight, Inv, Go, GoAll, BuiltFrom, Linked, Pending, NextEntries, Quiet;
    var moves, db := Race(a, b), Db([a, b], []);
    var sh1 := Go(f, Quiet(f), moves[0]);
    var sh2 := Go(f, sh1, moves[1]);
    var sh3 := Go(f, sh2, moves[2]);
    RaceUnrolled(f, a, b);
    MoveHashes(f, sh1, moves[1]);
    MoveHashes(f, sh2, moves[2]);
    CollisionFreeBelow(f.codec, sh1.world.hashed, sh3.world.hashed);
    CollisionFreeBelow(f.codec, sh2.world.hashed, sh3.world.hashed);
    RaceAppended(f, a, b);
    FirstPending(a, b);
    DepositsRun(a, b);
    BeginFlies(f, sh1, 0, 1);
    NotStale(f, sh1, moves[1]);
    MoveKeeps(f, sh1, moves[1]);
    BeginFlies(f, sh2, 1, 2);
    NotStale(f, sh2, moves[2]);
    MoveKeeps(f, sh2, moves[2]);
    InvLinked(f, sh1);
  }

  lemma NotStale(f: Formats, sh: Shared, m: Move)
    requires !m.Finishes?
    ensures !Stale(f, sh, m)
  {
  }

  lemma InvLinked(f: Formats, sh: Shared)
    requires SharedInv(f, sh)
    ensures Linked(f, sh.world.db)
  {
    hide Linked, Chained, SoundFlight, SoundCache;
  }

  lemma RaceUnrolled(f: Formats, a: Entry, b: Entry)
    ensures var moves, q := Race(a, b), Quiet(f);
            && GoAll(f, q, moves[..3]) == Go(f, Go(f, Go(f, q, moves[0]), moves[1]), moves[2])
            && GoAll(f, q, moves) == Go(f, Go(f, GoAll(f, q, moves[..3]), moves[3]), moves[4])
  {
    hide Go, Quiet;
    var moves, q := Race(a, b), Quiet(f);
    assert GoAll(f, q, []) == q;
    GoSnoc(f, q, [], moves[0]);
    GoSnoc(f, q, [moves[0]], moves[1]);
    GoSnoc(f, q, [moves[0], moves[1]], moves[2]);
    GoSnoc(f, q, moves[..3], moves[3]);
    GoSnoc(f, q, moves[..4], moves[4]);
    assert [] + [moves[0]] == [moves[0]] && [moves[0]] + [moves[1]] == [moves[0], moves[1]];
    assert [moves[0], moves[1]] + [moves[2]] == moves[..3];
    assert moves[..3] + [moves[3]] == moves[..4] && moves[..4] + [moves[4]] == moves;
  }

  lemma RaceAppended(f: Formats, a: Entry, b: Entry)
    requires TwoDeposits(a, b)
    ensures var sh := Go(f, Quiet(f), Appends([a, b]));
            && SharedInv(f, sh) && sh.world.db == Db([a, b], []) && sh.flights == map[]
            && ReplayFrom(f, EMPTY, sh.world.db.batches) == Some(EMPTY)
  {
    hide Inv, Preimages, Materialize, ZeroStateRoot;
    StartInv(f);
    AppendKeeps(f, Start(f), [a, b]);
    assert [] + [a, b] == [a, b];
    assert Ordered([a, b]);
  }

  /** From the start: two deposits are journalled, two processes build the next batch at once with limits 1 and
      2, both inserts pass the table's key, and the stored batches are no chain. */
  lemma RaceBreaksChain(f: Formats, a: Entry, b: Entry)
    requires f.RoundTrips() && Faithful(f.codec) && TwoDeposits(a, b)
    requires CollisionFree(f.codec, GoAll(f, Quiet(f), Race(a, b)).world.hashed)
    ensures var sh, db := GoAll(f, Quiet(f), Race(a, b)[..3]), GoAll(f, Quiet(f), Race(a, b)).world.db;
            && !Linked(f, db) && 0 in sh.flights && 1 in sh.flights
            && db.batches == [sh.flights[0].batch.(batchId := 1), sh.flights[1].batch.(batchId := 2)]
  {
    hide CollisionFree, GoAll, BuiltFrom, Linked, Pending, NextEntries, Quiet, Go, SharedInv, Inserts;
    var moves, db := Race(a, b), Db([a, b], []);
    var sh := GoAll(f, Quiet(f), moves[..3]);
    RaceUnrolled(f, a, b);
    RaceHashes(f, a, b);
    CollisionFreeBelow(f.codec, sh.world.hashed, GoAll(f, Quiet(f), moves).world.hashed);
    RaceUnderWay(f, a, b);
    FirstPending(a, b);
    var one, two := sh.flights[0].batch.(batchId := 1), sh.flights[1].batch.(batchId := 2);
    Renumber(f, db, 1, sh.flights[0].batch, one);
    Renumber(f, db, 2, sh.flights[1].batch, two);
    RangeKeyLetsThrough(f, db, one, two);
    FinishInserts(f, sh, 0, 1);
    FinishInserts(f, Go(f, sh, moves[3]), 1, 2);
  }

  lemma FinishInserts(f: Formats, sh: Shared, process: nat, id: int64)
    requires process in sh.flights
    requires forall i :: 0 <= i < |sh.world.db.batches| ==>
               (sh.world.db.batches[i].firstSequence, sh.world.db.batches[i].lastSequence) !=
               (sh.flights[process].batch.firstSequence, sh.flights[process].batch.lastSequence)
    ensures var after := Go(f, sh, Finishes(process, Some(id)));
            && after.world.db == Inserted(sh.world.db, sh.flights[process].batch.(batchId := id))
            && after.flights == sh.flights - {process}
  {
    hide Step, FlightOf;
    assert Inserts(sh, process, Some(id));
  }

  lemma Renumber(f: Formats, db: Db, limit: int, b: StoredBatch, c: StoredBatch)
    requires BuiltFrom(f, db, limit, b) && c == b.(batchId := c.batchId)
    ensures BuiltFrom(f, db, limit, c)
  {
  }

  /** Replay refuses what the race left behind, as long as the first deposit changed anything: the second batch
      names the root of the empty ledger. */
  lemma RacedTableRefused(f: Formats, a: Entry, b: Entry)
    requires f.RoundTrips() && Faithful(f.codec) && TwoDeposits(a, b)
    requires CollisionFree(f.codec, GoAll(f, Quiet(f), Race(a, b)).world.hashed)
    ensures ReplayFrom(f, EMPTY, GoAll(f, Quiet(f), Race(a, b)).world.db.batches).Some? <==>
            Run(EMPTY, [a]).state == EMPTY
  {
    hide CollisionFree, GoAll, Linked, Pending, NextEntries, Quiet, Run, ReplayFrom, StateRoot, ZeroStateRoot,
         Preimages, TrimSpace, Encode, RootsOf, SharedInv;
    var moves, db := Race(a, b), Db([a, b], []);
    var sh := GoAll(f, Quiet(f), moves[..3]);
    RaceBreaksChain(f, a, b);
    RaceHashes(f, a, b);
    CollisionFreeBelow(f.codec, sh.world.hashed, GoAll(f, Quiet(f), moves).world.hashed);
    RaceUnderWay(f, a, b);
    FirstPending(a, b);
    DepositsRun(a, b);
    var one, two := sh.flights[0].batch.(batchId := 1), sh.flights[1].batch.(batchId := 2);
    var t := Run(EMPTY, [a]).state;
    RaceFirst(f, sh, a, b, one);
    ReplaySucceedsIff(f, EMPTY, [one], two);
    assert [one] + [two] == [one, two];
    ZeroRootIsEmptyRoot(f.codec);
    EmptyTrims(f, sh);
    SealOf(f, db, 2, two);
    if StateRoot(f.codec, t) == StateRoot(f.codec, EMPTY) {
      StateRootBinds(f.codec, t, EMPTY, sh.world.hashed);
    }
  }

  lemma RaceHashes(f: Formats, a: Entry, b: Entry)
    ensures GoAll(f, Quiet(f), Race(a, b)[..3]).world.hashed <= GoAll(f, Quiet(f), Race(a, b)).world.hashed
  {
    hide GoAll, Quiet, Go;
    var moves := Race(a, b);
    var sh := GoAll(f, Quiet(f), moves[..3]);
    RaceUnrolled(f, a, b);
    MoveHashes(f, sh, moves[3]);
    MoveHashes(f, Go(f, sh, moves[3]), moves[4]);
  }

  lemma SealOf(f: Formats, db: Db, limit: int, b: StoredBatch)
    requires f.RoundTrips() && BuiltFrom(f, db, limit, b)
    ensures f.codec.hash(Encode(["shadow", "batch_input", b.inputData])) == b.inputHash
    ensures f.decode(b.inputData) == Some(NextEntries(db, limit)) && b.prevStateRoot == TipRoot(f.codec, db)
  {
    hide Encode, NextEntries, TipRoot;
  }

  lemma RaceFirst(f: Formats, sh: Shared, a: Entry, b: Entry, one: StoredBatch)
    requires f.RoundTrips() && TwoDeposits(a, b) && SharedInv(f, sh) && 0 in sh.flights
    requires sh.flights[0].read == Db([a, b], []) && BuiltFrom(f, Db([a, b], []), 1, sh.flights[0].batch)
    requires one == sh.flights[0].batch.(batchId := 1)
    ensures ReplayFrom(f, EMPTY, [one]) == Some(Run(EMPTY, [a]).state)
    ensures Preimages(f.codec, Run(EMPTY, [a]).state) <= sh.world.hashed
  {
    hide Run, StateRoot, ExpectedPrev, InputIntact, Preimages, RootsOf, Inv, Linked, NextEntries, BuiltFrom;
    var flight := sh.flights[0];
    FirstPending(a, b);
    SealOf(f, Db([a, b], []), 1, flight.batch);
    assert ReplayFrom(f, EMPTY, []) == Some(EMPTY);
    assert SoundFlight(f, sh.world, flight);
    ExtendIgnores(f, EMPTY, flight.batch, one);
    assert [one][1..] == [];
  }

  lemma EmptyTrims(f: Formats, sh: Shared)
    requires SharedInv(f, sh) && sh.world.db.batches == [] && CollisionFree(f.codec, sh.world.hashed)
    ensures Preimages(f.codec, EMPTY) <= sh.world.hashed
    ensures TrimSpace(StateRoot(f.codec, EMPTY)) == StateRoot(f.codec, EMPTY) != ""
  {
    hide Linked, SoundFlight, SoundCache, Encode, TrimSpace, LeafRoot, Hashed;
    assert ReplayFrom(f, EMPTY, []) == Some(EMPTY);
    assert Encode(StatePartsOf(f.codec, EMPTY)) in Preimages(f.codec, EMPTY);
    TrimDigest(StateRoot(f.codec, EMPTY));
  }
}
