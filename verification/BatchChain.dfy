/** The batch store over whole runs. Several processes share the journal and batch tables; each keeps a
    ledger from an earlier replay and uses it when its root is the one the next batch continues from.
    Inserts may fail after the cache has moved on, other processes may have added batches since, and
    processes restart. In every such run the shortcut computes what a full replay computes. */
module BatchChain {
  import opened Int64
  import opened Text
  import opened Ledger
  import opened Roots
  import opened Replay

  datatype Db = Db(journal: seq<Entry>, batches: seq<StoredBatch>)

  datatype Cache = Cold | Warm(state: State, root: string)

  datatype Result = Made(batch: StoredBatch) | NothingPending | ReplayFailed | InsertFailed

  // ---------------------------------------------------------------- the next batch

  /** Journal entries after a sequence number, in order. */
  function Pending(journal: seq<Entry>, after: int64): seq<Entry> {
    if journal == [] then []
    else if journal[0].sequence > after then [journal[0]] + Pending(journal[1..], after)
    else Pending(journal[1..], after)
  }

  function Take(entries: seq<Entry>, limit: int): seq<Entry> {
    var n := if limit <= 0 then 256 else limit;
    if |entries| <= n then entries else entries[..n]
  }

  function LastSequence(db: Db): int64 {
    if db.batches == [] then 0 else db.batches[|db.batches| - 1].lastSequence
  }

  function TipRoot(c: Codec, db: Db): string {
    if db.batches == [] then ZeroStateRoot(c) else db.batches[|db.batches| - 1].roots.state
  }

  function NextEntries(db: Db, limit: int): seq<Entry> {
    Take(Pending(db.journal, LastSequence(db)), limit)
  }

  function NewBatch(f: Formats, db: Db, entries: seq<Entry>): StoredBatch
    requires entries != []
  {
    var data := f.encode(entries);
    StoredBatch(0, entries[0].sequence, entries[|entries| - 1].sequence, |entries|, data,
                HashOf(f.codec, InputParts(data)), TipRoot(f.codec, db), RootSet("", "", "", "", ""))
  }

  /** The ledger after the new batch, as the program finds it: on the cached ledger when its root is the
      tip, by replaying everything otherwise. */
  ghost function Compute(f: Formats, db: Db, cache: Cache, b: StoredBatch): Option<State> {
    if cache.Warm? && cache.root == b.prevStateRoot then Extend(f, cache.state, b) else FullReplay(f, db, b)
  }

  ghost function FullReplay(f: Formats, db: Db, b: StoredBatch): Option<State> {
    ReplayFrom(f, EMPTY, db.batches + [b])
  }

  /** One call: `id` is the row id the insert returns, or None when the insert fails. */
  ghost function Materialize(f: Formats, db: Db, cache: Cache, limit: int, id: Option<int64>): (Db, Cache, Result) {
    var entries := NextEntries(db, limit);
    if entries == [] then (db, cache, NothingPending)
    else
      var b := NewBatch(f, db, entries);
      match Compute(f, db, cache, b)
      case None => (db, cache, ReplayFailed)
      case Some(t) =>
        var warm := Warm(t, StateRoot(f.codec, t));
        match id
        case None => (db, warm, InsertFailed)
        case Some(row) =>
          var stored := b.(batchId := row, roots := RootsOf(f.codec, t));
          (db.(batches := db.batches + [stored]), warm, Made(stored))
  }

  // ---------------------------------------------------------------- runs

  /** The shared tables, each process's cache, and all strings hashed into state roots so far. */
  datatype World = World(db: Db, caches: map<nat, Cache>, hashed: set<string>)

  datatype Event =
    | Append(entries: seq<Entry>)
    | Build(process: nat, limit: int, id: Option<int64>)
    | Restart(process: nat)

  ghost function CacheOf(w: World, process: nat): Cache {
    if process in w.caches then w.caches[process] else Cold
  }

  ghost predicate Ordered(journal: seq<Entry>) {
    && (forall i :: 0 <= i < |journal| ==> journal[i].sequence > 0)
    && (forall i, j :: 0 <= i < j < |journal| ==> journal[i].sequence < journal[j].sequence)
  }

  /** Appends that would not come last in sequence order do not happen. */
  ghost function Step(f: Formats, w: World, e: Event): World {
    match e
    case Append(entries) =>
      if Ordered(w.db.journal + entries) then w.(db := w.db.(journal := w.db.journal + entries)) else w
    case Restart(process) => w.(caches := w.caches - {process})
    case Build(process, limit, id) =>
      var (db, cache, _) := Materialize(f, w.db, CacheOf(w, process), limit, id);
      w.(db := db, caches := w.caches[process := cache],
         hashed := w.hashed + (if cache.Warm? then Preimages(f.codec, cache.state) else {}))
  }

  ghost function RunWorld(f: Formats, w: World, events: seq<Event>): World {
    if events == [] then w else Step(f, RunWorld(f, w, events[..|events| - 1]), events[|events| - 1])
  }

  ghost function Start(f: Formats): World {
    World(Db([], []), map[], Preimages(f.codec, EMPTY))
  }

  // ---------------------------------------------------------------- what every run keeps

  ghost predicate SoundCache(c: Codec, cache: Cache, hashed: set<string>) {
    cache.Warm? ==> cache.root == StateRoot(c, cache.state) && Preimages(c, cache.state) <= hashed
  }

  /** The stored batches replay to a ledger with the tip root. */
  ghost predicate Chained(f: Formats, db: Db, hashed: set<string>) {
    && ReplayFrom(f, EMPTY, db.batches).Some?
    && var s := ReplayFrom(f, EMPTY, db.batches).value;
    StateRoot(f.codec, s) == TipRoot(f.codec, db) && Preimages(f.codec, s) <= hashed
  }

  /** Each batch names its predecessor's root, and together they hold a gap-free journal prefix. */
  ghost predicate Linked(f: Formats, db: Db) {
    && Ordered(db.journal)
    && (forall i :: 0 <= i < |db.batches| ==> db.batches[i].prevStateRoot == PrevRoot(f, db.batches, i))
    && Entries(f, db.batches) <= db.journal
    && (db.batches == [] <==> Entries(f, db.batches) == [])
    && LastSequence(db) == LastOf(Entries(f, db.batches))
  }

  function PrevRoot(f: Formats, batches: seq<StoredBatch>, i: nat): string
    requires i < |batches|
  {
    if i == 0 then ZeroStateRoot(f.codec) else batches[i - 1].roots.state
  }

  function LastOf(entries: seq<Entry>): int64 {
    if entries == [] then 0 else entries[|entries| - 1].sequence
  }

  ghost predicate Inv(f: Formats, w: World) {
    && Linked(f, w.db) && Chained(f, w.db, w.hashed)
    && forall p :: p in w.caches ==> SoundCache(f.codec, w.caches[p], w.hashed)
  }

  // ---------------------------------------------------------------- the shortcut agrees

  lemma TipIsExpected(f: Formats, w: World, entries: seq<Entry>)
    requires Inv(f, w) && CollisionFree(f.codec, w.hashed) && entries != []
    ensures var b := NewBatch(f, w.db, entries);
            ExpectedPrev(f.codec, b) == b.prevStateRoot == TipRoot(f.codec, w.db)
  {
    hide Encode, ReplayFrom, TrimSpace, ZeroStateRoot, LeafRoot, Hashed;
    var s := ReplayFrom(f, EMPTY, w.db.batches).value;
    var root := StateRoot(f.codec, s);
    assert Encode(StatePartsOf(f.codec, s)) in Preimages(f.codec, s);
    assert root == f.codec.hash(Encode(StatePartsOf(f.codec, s)));
    assert IsHexDigest(root);
    TrimDigest(root);
  }

  /** Taken or not, the cached branch computes exactly what replaying every stored batch and the new one
      computes: the same success or failure and the same ledger. */
  lemma ShortcutAgrees(f: Formats, w: World, process: nat, entries: seq<Entry>)
    requires Faithful(f.codec) && CollisionFree(f.codec, w.hashed) && Inv(f, w) && entries != []
    ensures var b := NewBatch(f, w.db, entries);
            Compute(f, w.db, CacheOf(w, process), b) == FullReplay(f, w.db, b) ==
              Extend(f, ReplayFrom(f, EMPTY, w.db.batches).value, b)
  {
    hide Extend, ReplayFrom, StateRoot, Preimages, Linked, CollisionFree;
    var b := NewBatch(f, w.db, entries);
    var s := ReplayFrom(f, EMPTY, w.db.batches).value;
    ReplaySnoc(f, EMPTY, w.db.batches, b);
    TipIsExpected(f, w, entries);
    var cache := CacheOf(w, process);
    if cache.Warm? && cache.root == b.prevStateRoot {
      StateRootBinds(f.codec, cache.state, s, w.hashed);
    }
  }

  lemma {:induction false} PendingIsSuffix(journal: seq<Entry>, k: nat, after: int64)
    requires k <= |journal|
    requires forall i :: 0 <= i < k ==> journal[i].sequence <= after
    requires forall i :: k <= i < |journal| ==> journal[i].sequence > after
    ensures Pending(journal, after) == journal[k..]
    decreases journal
  {
    if journal != [] {
      if k == 0 {
        PendingIsSuffix(journal[1..], 0, after);
        assert journal[0..] == [journal[0]] + journal[1..];
      } else {
        PendingIsSuffix(journal[1..], k - 1, after);
        assert journal[1..][k - 1..] == journal[k..];
      }
    }
  }

  lemma PendingAfterBatches(f: Formats, db: Db)
    requires Linked(f, db)
    ensures Entries(f, db.batches) + Pending(db.journal, LastSequence(db)) == db.journal
  {
    hide Entries, PrevRoot, Pending;
    var done := Entries(f, db.batches);
    var k := |done|;
    assert done == db.journal[..k];
    PendingIsSuffix(db.journal, k, LastSequence(db));
  }

  lemma {:induction false} EntriesSnoc(f: Formats, batches: seq<StoredBatch>, b: StoredBatch, entries: seq<Entry>)
    requires f.decode(b.inputData) == Some(entries)
    ensures Entries(f, batches + [b]) == Entries(f, batches) + entries
  {
    if batches == [] {
      assert batches + [b] == [b];
      assert [b][1..] == [];
      assert Entries(f, [b]) == entries + [];
    } else {
      assert (batches + [b])[1..] == batches[1..] + [b];
      EntriesSnoc(f, batches[1..], b, entries);
    }
  }

  lemma LinkedStep(f: Formats, db: Db, limit: int, stored: StoredBatch)
    requires f.RoundTrips() && Linked(f, db) && NextEntries(db, limit) != []
    requires var b := NewBatch(f, db, NextEntries(db, limit));
             stored == b.(batchId := stored.batchId, roots := stored.roots)
    ensures Linked(f, db.(batches := db.batches + [stored]))
  {
    hide Entries, Pending, ZeroStateRoot, HashOf, PrevRoot, Ordered, Take;
    var entries := NextEntries(db, limit);
    PendingAfterBatches(f, db);
    EntriesSnoc(f, db.batches, stored, entries);
    var done, pending := Entries(f, db.batches), Pending(db.journal, LastSequence(db));
    TakePrefix(done, pending, limit);
    var db' := db.(batches := db.batches + [stored]);
    assert Entries(f, db'.batches) == done + entries;
    assert LastSequence(db') == LastOf(done + entries);
    PrevRootsSnoc(f, db, stored);
  }

  lemma TakePrefix(done: seq<Entry>, pending: seq<Entry>, limit: int)
    ensures done + Take(pending, limit) <= done + pending
  {
  }

  lemma PrevRootsSnoc(f: Formats, db: Db, stored: StoredBatch)
    requires forall i :: 0 <= i < |db.batches| ==> db.batches[i].prevStateRoot == PrevRoot(f, db.batches, i)
    requires stored.prevStateRoot == TipRoot(f.codec, db)
    ensures var all := db.batches + [stored];
            forall i :: 0 <= i < |all| ==> all[i].prevStateRoot == PrevRoot(f, all, i)
  {
    hide ZeroStateRoot;
    var all := db.batches + [stored];
    forall i | 0 <= i < |all| ensures all[i].prevStateRoot == PrevRoot(f, all, i) {
      if i < |db.batches| {
        assert all[i] == db.batches[i] && PrevRoot(f, all, i) == PrevRoot(f, db.batches, i);
      }
    }
  }

  lemma ChainedStep(f: Formats, w: World, stored: StoredBatch, b: StoredBatch, t: State)
    requires Chained(f, w.db, w.hashed) && Extend(f, ReplayFrom(f, EMPTY, w.db.batches).value, b) == Some(t)
    requires stored == b.(batchId := stored.batchId, roots := RootsOf(f.codec, t))
    ensures Chained(f, w.db.(batches := w.db.batches + [stored]), w.hashed + Preimages(f.codec, t))
  {
    hide ReplayFrom, RootsOf, Preimages;
    var s := ReplayFrom(f, EMPTY, w.db.batches).value;
    ReplaySnoc(f, EMPTY, w.db.batches, stored);
    ExtendIgnores(f, s, b, stored);
  }

  /** A batch's id and recorded roots play no part in replaying it. */
  lemma ExtendIgnores(f: Formats, s: State, b: StoredBatch, stored: StoredBatch)
    requires stored == b.(batchId := stored.batchId, roots := stored.roots)
    ensures Extend(f, s, stored) == Extend(f, s, b)
  {
    hide Run, StateRoot, HashOf, TrimSpace, ZeroStateRoot;
  }

  lemma ChainedGrows(f: Formats, db: Db, small: set<string>, large: set<string>)
    requires Chained(f, db, small) && small <= large
    ensures Chained(f, db, large)
  {
    hide ReplayFrom, RootsOf, Preimages;
  }

  lemma BuildKeeps(f: Formats, w: World, process: nat, limit: int, id: Option<int64>)
    requires f.RoundTrips() && Faithful(f.codec) && CollisionFree(f.codec, w.hashed) && Inv(f, w)
    ensures Inv(f, Step(f, w, Build(process, limit, id)))
  {
    hide Extend, ReplayFrom, StateRoot, Preimages, CollisionFree, Linked, Chained, NextEntries, NewBatch, Compute,
         RootsOf;
    var entries := NextEntries(w.db, limit);
    var w' := Step(f, w, Build(process, limit, id));
    if entries == [] {
      assert w'.db == w.db;
    } else {
      var b := NewBatch(f, w.db, entries);
      ShortcutAgrees(f, w, process, entries);
      var computed := Compute(f, w.db, CacheOf(w, process), b);
      if computed.Some? {
        var t := computed.value;
        RootOfRoots(f.codec, t);
        assert w'.hashed == w.hashed + Preimages(f.codec, t);
        if id.Some? {
          var stored := b.(batchId := id.value, roots := RootsOf(f.codec, t));
          LinkedStep(f, w.db, limit, stored);
          ChainedStep(f, w, stored, b, t);
        }
      }
    }
    if w'.db == w.db {
      ChainedGrows(f, w.db, w.hashed, w'.hashed);
    }
  }

  lemma RootOfRoots(c: Codec, s: State)
    ensures StateRoot(c, s) == RootsOf(c, s).state
  {
    hide RootsOf;
  }

  lemma AppendLinked(f: Formats, db: Db, entries: seq<Entry>)
    requires Linked(f, db) && Ordered(db.journal + entries)
    ensures Linked(f, db.(journal := db.journal + entries))
  {
    hide Entries, ZeroStateRoot, Ordered;
    assert Entries(f, db.batches) <= db.journal <= db.journal + entries;
  }

  lemma AppendKeeps(f: Formats, w: World, entries: seq<Entry>)
    requires Inv(f, w)
    ensures Inv(f, Step(f, w, Append(entries)))
  {
    hide ReplayFrom, RootsOf, Preimages, Linked, SoundCache, ZeroStateRoot, Ordered;
    if Ordered(w.db.journal + entries) {
      AppendLinked(f, w.db, entries);
      assert Chained(f, w.db.(journal := w.db.journal + entries), w.hashed);
    }
  }

  lemma {:induction false} EveryRunInv(f: Formats, events: seq<Event>)
    requires f.RoundTrips() && Faithful(f.codec) && CollisionFree(f.codec, RunWorld(f, Start(f), events).hashed)
    ensures Inv(f, RunWorld(f, Start(f), events))
  {
    hide Step, CollisionFree, Inv, Start;
    if events == [] {
      StartInv(f);
    } else {
      var before, e := RunWorld(f, Start(f), events[..|events| - 1]), events[|events| - 1];
      HashedGrows(f, before, e);
      CollisionFreeBelow(f.codec, before.hashed, Step(f, before, e).hashed);
      EveryRunInv(f, events[..|events| - 1]);
      match e
      case Append(entries) => AppendKeeps(f, before, entries);
      case Restart(process) => RestartKeeps(f, before, process);
      case Build(process, limit, id) => BuildKeeps(f, before, process, limit, id);
    }
  }

  lemma RestartKeeps(f: Formats, w: World, process: nat)
    requires Inv(f, w)
    ensures Inv(f, Step(f, w, Restart(process)))
  {
    hide Linked, Chained, SoundCache;
  }

  lemma StartInv(f: Formats)
    ensures Inv(f, Start(f))
  {
    hide StateRoot, Preimages, ZeroStateRoot, Encode;
    ZeroRootIsEmptyRoot(f.codec);
  }

  lemma HashedGrows(f: Formats, w: World, e: Event)
    ensures w.hashed <= Step(f, w, e).hashed
  {
    hide Materialize, Preimages, Ordered;
  }

  lemma CollisionFreeBelow(c: Codec, small: set<string>, large: set<string>)
    requires CollisionFree(c, large) && small <= large
    ensures CollisionFree(c, small)
  {
    hide IsHexDigest;
  }

  /** Every run of appends, builds by any process, failed inserts and restarts, unless two of the strings
      it hashed collide: the stored batches replay to the tip root, name their predecessors, hold a
      gap-free prefix of the journal, and the next build by any process, whatever its cache holds, gives
      the answer of a full replay. */
  lemma CacheAgreement(f: Formats, events: seq<Event>, process: nat, limit: int)
    requires f.RoundTrips() && Faithful(f.codec) && CollisionFree(f.codec, RunWorld(f, Start(f), events).hashed)
    ensures var w := RunWorld(f, Start(f), events);
            && Linked(f, w.db) && Chained(f, w.db, w.hashed)
            && forall id :: SameAnswer(f, w.db, CacheOf(w, process), Cold, limit, id)
  {
    hide RunWorld, Start, Linked, Chained, CollisionFree, Materialize, SoundCache;
    var w := RunWorld(f, Start(f), events);
    EveryRunInv(f, events);
    forall id ensures SameAnswer(f, w.db, CacheOf(w, process), Cold, limit, id) {
      AnswerOfFullReplay(f, w, process, limit, id);
    }
  }

  /** Two caches lead one call to the same tables and the same result. */
  ghost predicate SameAnswer(f: Formats, db: Db, a: Cache, b: Cache, limit: int, id: Option<int64>) {
    var x, y := Materialize(f, db, a, limit, id), Materialize(f, db, b, limit, id);
    x.0 == y.0 && x.2 == y.2
  }

  lemma AnswerOfFullReplay(f: Formats, w: World, process: nat, limit: int, id: Option<int64>)
    requires Faithful(f.codec) && CollisionFree(f.codec, w.hashed) && Inv(f, w)
    ensures SameAnswer(f, w.db, CacheOf(w, process), Cold, limit, id)
  {
    hide FullReplay, Extend, RootsOf, NextEntries, NewBatch, Inv, CollisionFree, ReplayFrom;
    var entries := NextEntries(w.db, limit);
    if entries != [] {
      ShortcutAgrees(f, w, process, entries);
    }
  }

  /** Two runs that stored the same journal entries end in the same roots, however they were batched and
      whichever processes built them. */
  lemma SplitsAgree(f: Formats, a: seq<Event>, b: seq<Event>)
    requires f.RoundTrips() && Faithful(f.codec)
    requires CollisionFree(f.codec, RunWorld(f, Start(f), a).hashed)
             && CollisionFree(f.codec, RunWorld(f, Start(f), b).hashed)
    requires Entries(f, RunWorld(f, Start(f), a).db.batches) == Entries(f, RunWorld(f, Start(f), b).db.batches)
    ensures TipRoot(f.codec, RunWorld(f, Start(f), a).db) == TipRoot(f.codec, RunWorld(f, Start(f), b).db)
  {
    hide RunWorld, Start, ReplayFrom, Preimages, CollisionFree, TipRoot, Entries, Linked;
    EveryRunInv(f, a);
    EveryRunInv(f, b);
    BoundariesIrrelevant(f, RunWorld(f, Start(f), a).db.batches, RunWorld(f, Start(f), b).db.batches);
  }
}
