/** What the batch table holds after any run: each batch describes and seals its own input, records the roots
    its replay reaches, and so passes every check of the accepted replay. */
module StoredBatches {
  import opened Int64
  import opened Text
  import opened Ledger
  import opened Roots
  import opened Replay
  import opened BatchChain
  import Snapshot

  /** The hash of a batch's input, with its parts written out. */
  function InputSeal(f: Formats, data: string): string {
    f.codec.hash(Encode(["shadow", "batch_input", data]))
  }

  /** A batch carries the hash of its input, and says truly where in the journal it lies. */
  ghost predicate Sealed(f: Formats, b: StoredBatch) {
    && b.inputHash == InputSeal(f, b.inputData)
    && f.decode(b.inputData).Some?
    && var entries := f.decode(b.inputData).value;
    && entries != [] && b.entryCount == |entries|
    && b.firstSequence == entries[0].sequence && b.lastSequence == entries[|entries| - 1].sequence
  }

  ghost predicate AllSealed(f: Formats, db: Db) {
    forall i :: 0 <= i < |db.batches| ==> Sealed(f, db.batches[i])
  }

  /** Every batch records the roots of the ledger that the batches up to it replay to. */
  ghost predicate Rooted(f: Formats, batches: seq<StoredBatch>) {
    forall i :: 0 <= i < |batches| ==> RootedAt(f, batches, i)
  }

  ghost predicate RootedAt(f: Formats, batches: seq<StoredBatch>, i: nat)
    requires i < |batches|
  {
    && ReplayFrom(f, EMPTY, batches[..i + 1]).Some?
    && batches[i].roots == RootsOf(f.codec, ReplayFrom(f, EMPTY, batches[..i + 1]).value)
  }

  lemma NewBatchSealed(f: Formats, db: Db, entries: seq<Entry>, stored: StoredBatch)
    requires f.RoundTrips() && entries != []
    requires var b := NewBatch(f, db, entries);
             stored == b.(batchId := stored.batchId, roots := stored.roots)
    ensures Sealed(f, stored)
  {
    hide Encode, TipRoot;
  }

  lemma RootedSnoc(f: Formats, batches: seq<StoredBatch>, stored: StoredBatch)
    requires Rooted(f, batches) && ReplayFrom(f, EMPTY, batches + [stored]).Some?
    requires stored.roots == RootsOf(f.codec, ReplayFrom(f, EMPTY, batches + [stored]).value)
    ensures Rooted(f, batches + [stored])
  {
    hide ReplayFrom, RootsOf;
    var all := batches + [stored];
    forall i | 0 <= i < |all| ensures RootedAt(f, all, i) {
      if i < |batches| {
        assert RootedAt(f, batches, i);
        assert all[..i + 1] == batches[..i + 1];
      } else {
        assert all[..i + 1] == all;
      }
    }
  }

  ghost predicate Kept(f: Formats, w: World) {
    Inv(f, w) && AllSealed(f, w.db) && Rooted(f, w.db.batches)
  }

  lemma BuildKeepsTruth(f: Formats, w: World, process: nat, limit: int, id: Option<int64>)
    requires f.RoundTrips() && Faithful(f.codec) && CollisionFree(f.codec, w.hashed) && Kept(f, w)
    ensures Kept(f, Step(f, w, Build(process, limit, id)))
  {
    hide Extend, ReplayFrom, StateRoot, Preimages, CollisionFree, Inv, NextEntries, NewBatch, Compute, RootsOf,
         Rooted, Sealed;
    BuildKeeps(f, w, process, limit, id);
    var entries := NextEntries(w.db, limit);
    if entries != [] {
      var b := NewBatch(f, w.db, entries);
      ShortcutAgrees(f, w, process, entries);
      var computed := Compute(f, w.db, CacheOf(w, process), b);
      if computed.Some? && id.Some? {
        var t := computed.value;
        var stored := b.(batchId := id.value, roots := RootsOf(f.codec, t));
        NewBatchSealed(f, w.db, entries, stored);
        Reached(f, w);
        ReplaySnoc(f, EMPTY, w.db.batches, stored);
        ExtendIgnores(f, ReplayFrom(f, EMPTY, w.db.batches).value, b, stored);
        RootedSnoc(f, w.db.batches, stored);
      }
    }
  }

  lemma Reached(f: Formats, w: World)
    requires Inv(f, w)
    ensures ReplayFrom(f, EMPTY, w.db.batches).Some?
  {
    hide ReplayFrom, Linked, SoundCache;
  }

  /** In every run of appends, builds, failed inserts and restarts. */
  lemma {:induction false} EveryRunKept(f: Formats, events: seq<Event>)
    requires f.RoundTrips() && Faithful(f.codec) && CollisionFree(f.codec, RunWorld(f, Start(f), events).hashed)
    ensures Kept(f, RunWorld(f, Start(f), events))
  {
    hide Step, CollisionFree, Inv, Start, AllSealed, Rooted;
    if events == [] {
      StartInv(f);
      NothingStored(f);
    } else {
      var before, e := RunWorld(f, Start(f), events[..|events| - 1]), events[|events| - 1];
      HashedGrows(f, before, e);
      CollisionFreeBelow(f.codec, before.hashed, Step(f, before, e).hashed);
      EveryRunKept(f, events[..|events| - 1]);
      match e
      case Append(entries) =>
        AppendKeeps(f, before, entries);
        SameBatches(f, before, e);
      case Restart(process) =>
        RestartKeeps(f, before, process);
        SameBatches(f, before, e);
      case Build(process, limit, id) => BuildKeepsTruth(f, before, process, limit, id);
    }
  }

  lemma NothingStored(f: Formats)
    ensures AllSealed(f, Start(f).db) && Rooted(f, Start(f).db.batches)
  {
  }

  lemma SameBatches(f: Formats, w: World, e: Event)
    requires !e.Build? && AllSealed(f, w.db) && Rooted(f, w.db.batches)
    ensures AllSealed(f, Step(f, w, e).db) && Rooted(f, Step(f, w, e).db.batches)
  {
    hide Sealed, Rooted, Ordered;
  }

  // ---------------------------------------------------------------- what that gives

  /** The input of a stored batch cannot be altered unnoticed: with any other input of another hash the batch is
      refused, on every ledger. */
  lemma AlteredInputRefused(f: Formats, events: seq<Event>, i: nat, s: State, data: string)
    requires f.RoundTrips() && Faithful(f.codec) && CollisionFree(f.codec, RunWorld(f, Start(f), events).hashed)
    requires i < |RunWorld(f, Start(f), events).db.batches|
    requires var b := RunWorld(f, Start(f), events).db.batches[i];
             IsHexDigest(InputSeal(f, b.inputData)) && InputSeal(f, data) != InputSeal(f, b.inputData)
    ensures Extend(f, s, RunWorld(f, Start(f), events).db.batches[i].(inputData := data)).None?
  {
    hide RunWorld, Start, CollisionFree, Inv, Encode, Run, StateRoot, ExpectedPrev, Rooted;
    EveryRunKept(f, events);
  }

  /** A build that is made stores one batch more, under its row id, with the next entries of the journal. */
  lemma MadeStores(f: Formats, db: Db, cache: Cache, limit: int, id: Option<int64>)
    requires f.RoundTrips()
    ensures var (after, _, result) := Materialize(f, db, cache, limit, id);
            && after.journal == db.journal
            && (result.Made? <==> after.batches != db.batches)
            && (result.Made? ==>
                  && id == Some(result.batch.batchId) && after.batches == db.batches + [result.batch]
                  && result.batch.prevStateRoot == TipRoot(f.codec, db)
                  && f.decode(result.batch.inputData) == Some(NextEntries(db, limit)))
  {
    hide Compute, NextEntries, RootsOf, StateRoot, HashOf, TipRoot;
  }

  lemma {:induction false} RootedPasses(f: Formats, batches: seq<StoredBatch>, k: nat)
    requires Rooted(f, batches) && k <= |batches| && ReplayFrom(f, EMPTY, batches[..k]).Some?
    ensures var s := ReplayFrom(f, EMPTY, batches[..k]).value;
            Snapshot.CheckedFrom(f, s, batches[k..]).Some?
    decreases |batches| - k
  {
    hide Extend, ReplayFrom, RootsOf, StateRoot, TrimSpace;
    if k < |batches| {
      var s := ReplayFrom(f, EMPTY, batches[..k]).value;
      assert batches[..k + 1] == batches[..k] + [batches[k]];
      ReplaySnoc(f, EMPTY, batches[..k], batches[k]);
      assert RootedAt(f, batches, k);
      RootOfRoots(f.codec, ReplayFrom(f, EMPTY, batches[..k + 1]).value);
      RootedPasses(f, batches, k + 1);
      assert batches[k..][0] == batches[k] && batches[k..][1..] == batches[k + 1..];
    }
  }

  /** A batch records no root, or the root its replay reaches. */
  ghost predicate RootPasses(f: Formats, batches: seq<StoredBatch>, i: nat)
    requires i < |batches|
  {
    && ReplayFrom(f, EMPTY, batches[..i + 1]).Some?
    && (Blank(batches[i].roots.state)
        || batches[i].roots.state == StateRoot(f.codec, ReplayFrom(f, EMPTY, batches[..i + 1]).value))
  }

  lemma {:induction false} CheckedSnoc(f: Formats, s: State, batches: seq<StoredBatch>, b: StoredBatch)
    ensures Snapshot.CheckedFrom(f, s, batches + [b]) ==
            match Snapshot.CheckedFrom(f, s, batches)
            case None => None
            case Some(t) => Snapshot.CheckedFrom(f, t, [b])
    decreases batches
  {
    hide Extend, StateRoot, TrimSpace;
    if batches == [] {
      assert batches + [b] == [b];
    } else {
      assert (batches + [b])[1..] == batches[1..] + [b];
      match Extend(f, s, batches[0])
      case None =>
      case Some(t) => CheckedSnoc(f, t, batches[1..], b);
    }
  }

  lemma CheckedOne(f: Formats, s: State, b: StoredBatch)
    ensures Snapshot.CheckedFrom(f, s, [b]) ==
            match Extend(f, s, b)
            case None => None
            case Some(t) => if Blank(b.roots.state) || b.roots.state == StateRoot(f.codec, t) then Some(t) else None
  {
    hide Extend, StateRoot, TrimSpace, Blank;
    TrimsToNothing(b.roots.state);
    assert [b][1..] == [];
    assert forall t :: Snapshot.CheckedFrom(f, t, []) == Some(t);
  }

  /** The accepted replay succeeds iff the plain one does and every recorded root is blank or the one reached. */
  lemma {:induction false} CheckedIff(f: Formats, batches: seq<StoredBatch>)
    ensures Snapshot.CheckedFrom(f, EMPTY, batches).Some? <==>
            ReplayFrom(f, EMPTY, batches).Some? && AllPass(f, batches)
    ensures Snapshot.CheckedFrom(f, EMPTY, batches).Some? ==>
              Snapshot.CheckedFrom(f, EMPTY, batches) == ReplayFrom(f, EMPTY, batches)
  {
    if batches == [] {
      hide Extend, StateRoot, Blank, RootPasses;
    } else {
      hide Extend, StateRoot, Blank, ReplayFrom, Snapshot.CheckedFrom, AllPass;
      var before, b := batches[..|batches| - 1], batches[|batches| - 1];
      assert batches == before + [b];
      CheckedIff(f, before);
      CheckedSnoc(f, EMPTY, before, b);
      ReplaySnoc(f, EMPTY, before, b);
      AllPassSnoc(f, before, b);
      if ReplayFrom(f, EMPTY, before).Some? {
        CheckedOne(f, ReplayFrom(f, EMPTY, before).value, b);
      }
    }
  }

  ghost predicate AllPass(f: Formats, batches: seq<StoredBatch>) {
    forall i :: 0 <= i < |batches| ==> RootPasses(f, batches, i)
  }

  /** All pass if all but one do and that one does. */
  lemma AllPassIff(f: Formats, batches: seq<StoredBatch>, i: nat)
    requires i < |batches| && forall j :: 0 <= j < |batches| && j != i ==> RootPasses(f, batches, j)
    ensures AllPass(f, batches) <==> RootPasses(f, batches, i)
  {
    hide RootPasses;
  }

  lemma AllPassSnoc(f: Formats, batches: seq<StoredBatch>, b: StoredBatch)
    ensures AllPass(f, batches + [b]) <==>
            && AllPass(f, batches) && ReplayFrom(f, EMPTY, batches + [b]).Some?
            && (Blank(b.roots.state)
                || b.roots.state == StateRoot(f.codec, ReplayFrom(f, EMPTY, batches + [b]).value))
  {
    hide ReplayFrom, StateRoot, Blank;
    var all, n := batches + [b], |batches|;
    forall i | 0 <= i < n ensures RootPasses(f, all, i) <==> RootPasses(f, batches, i) {
      assert all[..i + 1] == batches[..i + 1];
    }
    assert all[..n + 1] == all;
    assert RootPasses(f, all, n) <==>
           && ReplayFrom(f, EMPTY, all).Some?
           && (Blank(b.roots.state) || b.roots.state == StateRoot(f.codec, ReplayFrom(f, EMPTY, all).value));
  }

  /** The batches with another state root recorded for one of them. */
  function Rerooted(batches: seq<StoredBatch>, i: nat, root: string): seq<StoredBatch>
    requires i < |batches|
  {
    batches[i := batches[i].(roots := batches[i].roots.(state := root))]
  }

  lemma {:induction false} ReplayIgnoresRoot(f: Formats, batches: seq<StoredBatch>, i: nat, root: string, k: nat)
    requires i < |batches| && k <= |batches|
    ensures ReplayFrom(f, EMPTY, Rerooted(batches, i, root)[..k]) == ReplayFrom(f, EMPTY, batches[..k])
    decreases k
  {
    hide Extend;
    if k > 0 {
      var others := Rerooted(batches, i, root);
      ReplayIgnoresRoot(f, batches, i, root, k - 1);
      assert others[..k] == others[..k - 1] + [others[k - 1]] && batches[..k] == batches[..k - 1] + [batches[k - 1]];
      ReplaySnoc(f, EMPTY, others[..k - 1], others[k - 1]);
      ReplaySnoc(f, EMPTY, batches[..k - 1], batches[k - 1]);
      hide ReplayFrom;
      if ReplayFrom(f, EMPTY, batches[..k - 1]).Some? {
        ExtendIgnores(f, ReplayFrom(f, EMPTY, batches[..k - 1]).value, batches[k - 1], others[k - 1]);
      }
    }
  }

  /** After every run: with another root recorded for one batch the accepted replay refuses the batches, unless
      that root is blank, which stands for none. */
  lemma AlteredRootRefusedIff(f: Formats, events: seq<Event>, i: nat, root: string)
    requires f.RoundTrips() && Faithful(f.codec) && CollisionFree(f.codec, RunWorld(f, Start(f), events).hashed)
    requires i < |RunWorld(f, Start(f), events).db.batches|
    ensures var batches := RunWorld(f, Start(f), events).db.batches;
            Snapshot.CheckedFrom(f, EMPTY, Rerooted(batches, i, root)).None? <==>
            !Blank(root) && root != batches[i].roots.state
  {
    hide RunWorld, Start, CollisionFree, Inv, AllSealed, Snapshot.CheckedFrom, ReplayFrom, Blank, StateRoot, RootsOf;
    EveryRunKept(f, events);
    var w := RunWorld(f, Start(f), events);
    Reached(f, w);
    var batches, others := w.db.batches, Rerooted(w.db.batches, i, root);
    CheckedIff(f, others);
    hide AllPass;
    ReplayIgnoresRoot(f, batches, i, root, |batches|);
    assert others[..|batches|] == others && batches[..|batches|] == batches;
    forall j | 0 <= j < |batches|
      ensures RootPasses(f, others, j) <==> (j != i || Blank(root) || root == batches[i].roots.state)
    {
      ReplayIgnoresRoot(f, batches, i, root, j + 1);
      assert RootedAt(f, batches, j);
      RootOfRoots(f.codec, ReplayFrom(f, EMPTY, batches[..j + 1]).value);
    }
    AllPassIff(f, others, i);
  }

  /** After every run the accepted replay passes: every recorded root is the recomputed one. */
  lemma AcceptedAfterEveryRun(f: Formats, events: seq<Event>)
    requires f.RoundTrips() && Faithful(f.codec) && CollisionFree(f.codec, RunWorld(f, Start(f), events).hashed)
    ensures Snapshot.CheckedFrom(f, EMPTY, RunWorld(f, Start(f), events).db.batches).Some?
  {
    hide RunWorld, Start, CollisionFree, Inv, AllSealed, Rooted, Snapshot.CheckedFrom;
    EveryRunKept(f, events);
    var batches := RunWorld(f, Start(f), events).db.batches;
    assert batches[..0] == [] && batches[0..] == batches;
    assert ReplayFrom(f, EMPTY, []) == Some(EMPTY);
    RootedPasses(f, batches, 0);
  }
}
