/** Replaying stored batches: all of them from the empty ledger, or one more on a ledger at hand. */
module Replay {
  import opened Int64
  import opened Text
  import opened Ledger
  import opened Roots
  import opened ShadowState

  /** The codec of the leaves together with the JSON of a batch's entries. */
  datatype Formats = Formats(codec: Codec, encode: seq<Entry> -> string, decode: string -> Option<seq<Entry>>) {
    /** What is encoded decodes to itself. */
    ghost predicate RoundTrips() {
      forall entries :: decode(encode(entries)) == Some(entries)
    }
  }

  datatype StoredBatch = StoredBatch(
    batchId: int64, firstSequence: int64, lastSequence: int64, entryCount: nat,
    inputData: string, inputHash: string, prevStateRoot: string, roots: RootSet)

  function InputParts(data: string): seq<string> {
    ["shadow", "batch_input", data]
  }

  function ExpectedPrev(c: Codec, b: StoredBatch): string {
    if TrimSpace(b.prevStateRoot) == "" then ZeroStateRoot(c) else TrimSpace(b.prevStateRoot)
  }

  predicate InputIntact(f: Formats, b: StoredBatch) {
    b.inputHash == "" || HashOf(f.codec, InputParts(b.inputData)) == b.inputHash
  }

  /** One batch on a ledger: refused if its input was altered, if it does not continue from this
      ledger's root, if it does not decode, or if any entry fails. */
  ghost function Extend(f: Formats, s: State, b: StoredBatch): Option<State> {
    if !InputIntact(f, b) || StateRoot(f.codec, s) != ExpectedPrev(f.codec, b) then None
    else
      match f.decode(b.inputData)
      case None => None
      case Some(entries) => if Run(s, entries).Ok() then Some(Run(s, entries).state) else None
  }

  ghost function ReplayFrom(f: Formats, s: State, batches: seq<StoredBatch>): Option<State>
    decreases batches
  {
    if batches == [] then Some(s)
    else
      match Extend(f, s, batches[0])
      case None => None
      case Some(t) => ReplayFrom(f, t, batches[1..])
  }

  lemma {:induction false} ReplaySnoc(f: Formats, s: State, batches: seq<StoredBatch>, b: StoredBatch)
    ensures ReplayFrom(f, s, batches + [b]) ==
            match ReplayFrom(f, s, batches) { case None => None case Some(t) => Extend(f, t, b) }
    decreases batches
  {
    hide Extend;
    if batches == [] {
      assert ([b])[1..] == [];
      assert batches + [b] == [b];
    } else {
      assert (batches + [b])[1..] == batches[1..] + [b];
      match Extend(f, s, batches[0])
      case None =>
      case Some(t) => ReplaySnoc(f, t, batches[1..], b);
    }
  }

  /** The journal entries held in the batches, in order. */
  ghost function Entries(f: Formats, batches: seq<StoredBatch>): seq<Entry> {
    if batches == [] then []
    else (match f.decode(batches[0].inputData) { case None => [] case Some(es) => es }) + Entries(f, batches[1..])
  }

  /** A successful replay is one run over all entries; where the batch boundaries fall does not matter. */
  lemma {:induction false} ReplayIsRun(f: Formats, s: State, batches: seq<StoredBatch>)
    requires ReplayFrom(f, s, batches).Some?
    ensures Run(s, Entries(f, batches)) == Outcome(ReplayFrom(f, s, batches).value, Nil)
    decreases batches
  {
    hide Run;
    if batches == [] {
      RunNothing(s);
    } else {
      var t := Extend(f, s, batches[0]).value;
      ReplayIsRun(f, t, batches[1..]);
      RunConcat(s, f.decode(batches[0].inputData).value, Entries(f, batches[1..]));
    }
  }

  lemma RunNothing(s: State)
    ensures Run(s, []) == Outcome(s, Nil)
  {
  }

  /** Two successful replays of the same journal end in the same roots, however it was split. */
  lemma BoundariesIrrelevant(f: Formats, a: seq<StoredBatch>, b: seq<StoredBatch>)
    requires ReplayFrom(f, EMPTY, a).Some? && ReplayFrom(f, EMPTY, b).Some? && Entries(f, a) == Entries(f, b)
    ensures ReplayFrom(f, EMPTY, a) == ReplayFrom(f, EMPTY, b)
    ensures RootsOf(f.codec, ReplayFrom(f, EMPTY, a).value) == RootsOf(f.codec, ReplayFrom(f, EMPTY, b).value)
  {
    hide Run, ReplayFrom;
    ReplayIsRun(f, EMPTY, a);
    ReplayIsRun(f, EMPTY, b);
  }

  /** A successful replay is a chain: the batches before any one of them replay to a ledger whose root is the
      one it names, and its input is what its hash says, if it has one. */
  lemma {:induction false} ReplayIsChain(f: Formats, s: State, batches: seq<StoredBatch>, i: nat)
    requires ReplayFrom(f, s, batches).Some? && i < |batches|
    ensures ReplayFrom(f, s, batches[..i]).Some?
    ensures var b := batches[i];
            && StateRoot(f.codec, ReplayFrom(f, s, batches[..i]).value) ==
               (if TrimSpace(b.prevStateRoot) == "" then StateRoot(f.codec, EMPTY) else TrimSpace(b.prevStateRoot))
            && (b.inputHash != "" ==> f.codec.hash(Encode(["shadow", "batch_input", b.inputData])) == b.inputHash)
            && f.decode(b.inputData).Some?
            && Run(ReplayFrom(f, s, batches[..i]).value, f.decode(b.inputData).value).Ok()
    decreases batches
  {
    hide Run, Encode, StateRoot, TrimSpace, ZeroStateRoot;
    ZeroRootIsEmptyRoot(f.codec);
    if i > 0 {
      ReplayIsChain(f, Extend(f, s, batches[0]).value, batches[1..], i - 1);
      assert batches[..i][1..] == batches[1..][..i - 1] && batches[..i][0] == batches[0];
    }
  }

  /** And it succeeds exactly then: every batch names the root reached before it, is intact and applies. */
  lemma ReplaySucceedsIff(f: Formats, s: State, batches: seq<StoredBatch>, b: StoredBatch)
    requires ReplayFrom(f, s, batches).Some?
    ensures var t := ReplayFrom(f, s, batches).value;
            ReplayFrom(f, s, batches + [b]).Some? <==>
            && (b.inputHash == "" || f.codec.hash(Encode(["shadow", "batch_input", b.inputData])) == b.inputHash)
            && StateRoot(f.codec, t) ==
               (if TrimSpace(b.prevStateRoot) == "" then StateRoot(f.codec, EMPTY) else TrimSpace(b.prevStateRoot))
            && f.decode(b.inputData).Some? && Run(t, f.decode(b.inputData).value).Ok()
  {
    hide Run, Encode, StateRoot, TrimSpace, ZeroStateRoot, ReplayFrom;
    ZeroRootIsEmptyRoot(f.codec);
    ReplaySnoc(f, s, batches, b);
  }

  // ---------------------------------------------------------------- the program's two ways

  method CheckInput(f: Formats, b: StoredBatch) returns (ok: bool)
    ensures ok == InputIntact(f, b)
  {
    hide Encode;
    if b.inputHash == "" {
      return true;
    }
    var digest := HashStrings(f.codec.hash, InputParts(b.inputData));
    return digest == b.inputHash;
  }

  method ReplayBatchOnState(f: Formats, state: Shadow, b: StoredBatch) returns (roots: Option<RootSet>)
    modifies state
    ensures roots.Some? <==> Extend(f, old(state.Contents()), b).Some?
    ensures roots.Some? ==> Extend(f, old(state.Contents()), b) == Some(state.Contents())
    ensures roots.Some? ==> roots.value == RootsOf(f.codec, state.Contents())
  {
    hide Encode, Run, RootsOf, InputIntact, ZeroStateRoot;
    var ok := CheckInput(f, b);
    if !ok {
      return None;
    }
    var current := state.ComputeRoots(f.codec);
    if current.state != ExpectedPrev(f.codec, b) {
      return None;
    }
    var input := f.decode(b.inputData);
    if input.None? {
      return None;
    }
    var err := state.ApplyAll(input.value);
    if err != Nil {
      return None;
    }
    var after := state.ComputeRoots(f.codec);
    return Some(after);
  }

  method ReplayStoredBatches(f: Formats, batches: seq<StoredBatch>) returns (result: Option<RootSet>)
    ensures result.Some? <==> ReplayFrom(f, EMPTY, batches).Some?
    ensures result.Some? ==> result.value == RootsOf(f.codec, ReplayFrom(f, EMPTY, batches).value)
  {
    hide Encode, Run, RootsOf, InputIntact, ZeroStateRoot;
    var state := new Shadow();
    var roots := state.ComputeRoots(f.codec);
    for i := 0 to |batches|
      invariant fresh(state)
      invariant ReplayFrom(f, EMPTY, batches) == ReplayFrom(f, state.Contents(), batches[i..])
      invariant roots == RootsOf(f.codec, state.Contents())
    {
      var b := batches[i];
      assert batches[i..][0] == b && batches[i..][1..] == batches[i + 1..];
      var ok := CheckInput(f, b);
      if !ok {
        return None;
      }
      if roots.state != ExpectedPrev(f.codec, b) {
        return None;
      }
      var input := f.decode(b.inputData);
      if input.None? {
        return None;
      }
      var err := state.ApplyAll(input.value);
      if err != Nil {
        return None;
      }
      roots := state.ComputeRoots(f.codec);
    }
    assert batches[|batches|..] == [];
    return Some(roots);
  }
}
