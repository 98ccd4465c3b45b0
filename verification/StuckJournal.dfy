/** A journal the ledger refuses. Batches are built from the journal in order, so an entry that cannot be
    applied stops the chain for good. */
module StuckJournal {
  import opened Int64
  import opened Ledger
  import opened Roots
  import opened Replay
  import opened BatchChain

  ghost function Waiting(db: Db): seq<Entry> {
    Pending(db.journal, LastSequence(db))
  }

  /** The ledger at the tip refuses one of the next n entries. */
  ghost predicate Blocked(f: Formats, w: World, n: nat) {
    && Inv(f, w) && ReplayFrom(f, EMPTY, w.db.batches).Some? && n <= |Waiting(w.db)|
    && !Run(ReplayFrom(f, EMPTY, w.db.batches).value, Waiting(w.db)[..n]).Ok()
  }

  /** Builds take at least n entries if there are that many. */
  ghost predicate TakesAtLeast(e: Event, n: nat) {
    e.Build? ==> n <= if e.limit <= 0 then 256 else e.limit
  }

  lemma {:induction false} PendingConcat(a: seq<Entry>, b: seq<Entry>, after: int64)
    ensures Pending(a + b, after) == Pending(a, after) + Pending(b, after)
    decreases a
  {
    if a == [] {
      assert a + b == b;
    } else {
      assert (a + b)[1..] == a[1..] + b;
      PendingConcat(a[1..], b, after);
    }
  }

  lemma RefusedPrefix(s: State, entries: seq<Entry>, n: nat)
    requires n <= |entries| && !Run(s, entries[..n]).Ok()
    ensures !Run(s, entries).Ok()
  {
    hide Run;
    assert entries == entries[..n] + entries[n..];
    RunConcat(s, entries[..n], entries[n..]);
  }

  /** A build of a blocked journal fails and changes nothing. */
  lemma BlockedBuild(f: Formats, w: World, n: nat, e: Event)
    requires f.RoundTrips() && Faithful(f.codec) && CollisionFree(f.codec, w.hashed) && Blocked(f, w, n)
    requires e.Build? && TakesAtLeast(e, n)
    ensures Materialize(f, w.db, CacheOf(w, e.process), e.limit, e.id) ==
            (w.db, CacheOf(w, e.process), ReplayFailed)
  {
    hide Run, ReplayFrom, StateRoot, Preimages, CollisionFree, Inv, RootsOf, NewBatch, Compute, Pending, LastSequence,
         HashOf;
    var s, waiting, entries := ReplayFrom(f, EMPTY, w.db.batches).value, Waiting(w.db), NextEntries(w.db, e.limit);
    EmptyPrefix(s, waiting, n);
    assert entries[..n] == waiting[..n];
    RefusedPrefix(s, entries, n);
    var b := NewBatch(f, w.db, entries);
    ShortcutAgrees(f, w, e.process, entries);
    Refused(f, w, s, entries);
  }

  lemma EmptyPrefix(s: State, entries: seq<Entry>, n: nat)
    requires n <= |entries| && !Run(s, entries[..n]).Ok()
    ensures n > 0
  {
  }

  lemma Refused(f: Formats, w: World, s: State, entries: seq<Entry>)
    requires f.RoundTrips() && entries != [] && !Run(s, entries).Ok()
    ensures Extend(f, s, NewBatch(f, w.db, entries)).None?
  {
    hide Run, StateRoot, InputIntact, ExpectedPrev, HashOf;
  }

  lemma BlockedStep(f: Formats, w: World, n: nat, e: Event)
    requires f.RoundTrips() && Faithful(f.codec) && CollisionFree(f.codec, w.hashed) && Blocked(f, w, n)
    requires TakesAtLeast(e, n)
    ensures Blocked(f, Step(f, w, e), n) && Step(f, w, e).db.batches == w.db.batches
  {
    hide Run, ReplayFrom, Preimages, CollisionFree, Inv, Materialize, Pending, Ordered;
    match e
    case Append(entries) =>
      AppendKeeps(f, w, entries);
      PendingConcat(w.db.journal, entries, LastSequence(w.db));
      var more := Pending(entries, LastSequence(w.db));
      assert (Waiting(w.db) + more)[..n] == Waiting(w.db)[..n];
    case Restart(process) => RestartKeeps(f, w, process);
    case Build(process, limit, id) =>
      BlockedBuild(f, w, n, e);
      BuildKeeps(f, w, process, limit, id);
  }

  /** Whatever is appended, whoever builds and restarts: once one of the next n entries is refused, builds that
      take at least n entries never store another batch. With n = 1 that is every build. */
  lemma {:induction false} BlockedForever(f: Formats, w: World, n: nat, events: seq<Event>)
    requires f.RoundTrips() && Faithful(f.codec) && Blocked(f, w, n)
    requires CollisionFree(f.codec, RunWorld(f, w, events).hashed)
    requires forall i :: 0 <= i < |events| ==> TakesAtLeast(events[i], n)
    ensures Blocked(f, RunWorld(f, w, events), n) && RunWorld(f, w, events).db.batches == w.db.batches
  {
    hide Step, CollisionFree, Blocked;
    if events != [] {
      var init, e := events[..|events| - 1], events[|events| - 1];
      var before := RunWorld(f, w, init);
      HashedGrows(f, before, e);
      CollisionFreeBelow(f.codec, before.hashed, Step(f, before, e).hashed);
      BlockedForever(f, w, n, init);
      BlockedStep(f, before, n, e);
    }
  }
}
