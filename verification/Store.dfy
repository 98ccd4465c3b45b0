/** The batch store as the program holds it: shared tables, and per store an optional cached ledger.
    Building a batch changes the store and the tables only; the cached ledger object itself is never
    written to, so a batch that fails leaves it as it was. */
module Store {
  import opened Int64
  import opened Ledger
  import opened Roots
  import opened ShadowState
  import opened Replay
  import opened BatchChain

  class Tables {
    var journal: seq<Entry>
    var batches: seq<StoredBatch>

    ghost function Contents(): Db
      reads this
    {
      Db(journal, batches)
    }

    constructor ()
      ensures Contents() == Db([], [])
    {
      journal, batches := [], [];
    }
  }

  /** Replaying without any check of hashes or roots, as the cache is warmed. */
  ghost function Rebuild(f: Formats, s: State, batches: seq<StoredBatch>): Option<State>
    decreases batches
  {
    if batches == [] then Some(s)
    else
      match f.decode(batches[0].inputData)
      case None => None
      case Some(entries) => if Run(s, entries).Ok() then Rebuild(f, Run(s, entries).state, batches[1..]) else None
  }

  /** What passes the checks passes without them. */
  lemma {:induction false} RebuildFollows(f: Formats, s: State, batches: seq<StoredBatch>)
    requires ReplayFrom(f, s, batches).Some?
    ensures Rebuild(f, s, batches) == ReplayFrom(f, s, batches)
    decreases batches
  {
    hide Run, StateRoot, InputIntact, ExpectedPrev;
    if batches != [] {
      RebuildFollows(f, Extend(f, s, batches[0]).value, batches[1..]);
    }
  }

  class BatchStore {
    const f: Formats
    const db: Tables
    var cachedState: Shadow?
    var cachedRoot: string

    ghost function CacheContents(): Cache
      reads this, cachedState
    {
      if cachedState == null then Cold else Warm(cachedState.Contents(), cachedRoot)
    }

    constructor (f: Formats, db: Tables)
      ensures this.f == f && this.db == db && CacheContents() == Cold
    {
      this.f, this.db := f, db;
      cachedState, cachedRoot := null, "";
    }

    method WarmCacheFromFullReplay(batches: seq<StoredBatch>, roots: RootSet)
      modifies this
      ensures Rebuild(f, EMPTY, batches).Some? ==>
              CacheContents() == Warm(Rebuild(f, EMPTY, batches).value, roots.state)
      ensures Rebuild(f, EMPTY, batches).None? ==> cachedState == old(cachedState) && cachedRoot == old(cachedRoot)
    {
      hide Run;
      var state := new Shadow();
      for i := 0 to |batches|
        invariant fresh(state) && cachedState == old(cachedState) && cachedRoot == old(cachedRoot)
        invariant Rebuild(f, EMPTY, batches) == Rebuild(f, state.Contents(), batches[i..])
      {
        assert batches[i..][0] == batches[i] && batches[i..][1..] == batches[i + 1..];
        var input := f.decode(batches[i].inputData);
        if input.None? {
          return;
        }
        var err := state.ApplyAll(input.value);
        if err != Nil {
          return;
        }
      }
      assert batches[|batches|..] == [];
      cachedState := state;
      cachedRoot := roots.state;
    }

    /** `id` is what the insert returns; None stands for an insert that fails. */
    method MaterializeNextBatch(limit: int, id: Option<int64>) returns (r: Result)
      modifies this, db
      ensures (db.Contents(), CacheContents(), r) == Materialize(f, old(db.Contents()), old(CacheContents()), limit, id)
      ensures r.ReplayFailed? ==> cachedState == old(cachedState)
    {
      hide Run, Extend, ReplayFrom, RootsOf, Encode, ZeroStateRoot, Pending, Rebuild;
      var tables := Db(db.journal, db.batches);
      var entries := NextEntries(tables, limit);
      if |entries| == 0 {
        return NothingPending;
      }
      var data := f.encode(entries);
      var inputHash := HashStrings(f.codec.hash, InputParts(data));
      var newBatch := StoredBatch(0, entries[0].sequence, entries[|entries| - 1].sequence, |entries|, data, inputHash,
                                  TipRoot(f.codec, tables), RootSet("", "", "", "", ""));
      assert newBatch == NewBatch(f, tables, entries);
      var roots;
      if cachedState != null && cachedRoot == newBatch.prevStateRoot {
        var state := cachedState.Clone();
        var result := ReplayBatchOnState(f, state, newBatch);
        if result.None? {
          return ReplayFailed;
        }
        roots := result.value;
        cachedState := state;
        cachedRoot := roots.state;
      } else {
        var replayBatches := db.batches + [newBatch];
        var result := ReplayStoredBatches(f, replayBatches);
        if result.None? {
          return ReplayFailed;
        }
        roots := result.value;
        RebuildFollows(f, EMPTY, replayBatches);
        WarmCacheFromFullReplay(replayBatches, roots);
      }
      if id.None? {
        return InsertFailed;
      }
      var batch := newBatch.(batchId := id.value, roots := roots);
      db.batches := db.batches + [batch];
      return Made(batch);
    }
  }
}
