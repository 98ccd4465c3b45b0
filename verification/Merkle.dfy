/** The claim trees: pairwise hashing with the last node of an odd level doubled, one proof per leaf.
    The escape and the withdrawal tree are the same algorithm. Hashes are free terms: a leaf preimage is
    at least 101 bytes and a node preimage exactly 64, so the two kinds never meet. */
module Merkle {
  import opened Int64

  datatype Digest = Leaf(preimage: string) | Node(left: Digest, right: Digest)

  // ---------------------------------------------------------------- levels of the tree

  /** The partner of the left node at an even place: the next node, or the same one at an odd end. */
  function Partner(level: seq<Digest>, i: nat): Digest
    requires i < |level|
  {
    if i + 1 < |level| then level[i + 1] else level[i]
  }

  function Next(level: seq<Digest>): (next: seq<Digest>)
    ensures |next| == (|level| + 1) / 2
  {
    seq((|level| + 1) / 2, p requires 0 <= p < (|level| + 1) / 2 => Node(level[2 * p], Partner(level, 2 * p)))
  }

  function Width(n: nat, h: nat): nat {
    if h == 0 then n else (Width(n, h - 1) + 1) / 2
  }

  function Level(leaves: seq<Digest>, h: nat): (level: seq<Digest>)
    ensures |level| == Width(|leaves|, h)
  {
    if h == 0 then leaves else Next(Level(leaves, h - 1))
  }

  /** How often a level of n nodes is halved until one is left. */
  function Depth(n: nat): nat
    requires n > 0
  {
    if n == 1 then 0 else 1 + Depth((n + 1) / 2)
  }

  lemma {:induction false} WidthShift(n: nat, h: nat)
    ensures Width(n, h + 1) == Width((n + 1) / 2, h)
  {
    if h > 0 {
      WidthShift(n, h - 1);
    }
  }

  lemma {:induction false} WidthAtDepth(n: nat, h: nat)
    requires n > 0 && h <= Depth(n)
    ensures Width(n, h) >= 1 && (Width(n, h) == 1 <==> h == Depth(n))
    decreases n, h
  {
    if h == 0 {
    } else if n == 1 {
    } else {
      WidthShift(n, h - 1);
      WidthAtDepth((n + 1) / 2, h - 1);
    }
  }

  function Root(leaves: seq<Digest>): Digest
    requires leaves != []
  {
    WidthAtDepth(|leaves|, Depth(|leaves|));
    Level(leaves, Depth(|leaves|))[0]
  }

  // ---------------------------------------------------------------- places of a leaf and its siblings

  /** The node over leaf i at height h. */
  function Up(i: nat, h: nat): nat {
    if h == 0 then i else Up(i, h - 1) / 2
  }

  /** The first leaf under node j of height h. */
  function First(j: nat, h: nat): nat
    decreases h
  {
    if h == 0 then j else First(2 * j, h - 1)
  }

  lemma {:induction false} UpFirst(j: nat, h: nat)
    ensures Up(First(j, h), h) == j
    decreases h
  {
    if h > 0 {
      UpFirst(2 * j, h - 1);
    }
  }

  lemma {:induction false} UpBelow(i: nat, n: nat, h: nat)
    requires i < n
    ensures Up(i, h) < Width(n, h)
  {
    if h > 0 {
      UpBelow(i, n, h - 1);
    }
  }

  lemma {:induction false} FirstBelow(j: nat, n: nat, h: nat)
    requires j < Width(n, h)
    ensures First(j, h) < n
    decreases h
  {
    if h > 0 {
      FirstBelow(2 * j, n, h - 1);
    }
  }

  /** Leaf i stands for its node at height h: it is the first leaf under it. */
  predicate Stands(i: nat, h: nat) {
    First(Up(i, h), h) == i
  }

  /** A leaf that stands for a node stands for the node's left half too, which is at an even place. */
  lemma StandsBelow(i: nat, h: nat)
    ensures Stands(i, h + 1) <==> Stands(i, h) && Up(i, h) % 2 == 0
  {
    if Stands(i, h + 1) {
      UpFirst(2 * Up(i, h + 1), h);
    }
  }

  function Sibling(leaves: seq<Digest>, i: nat, h: nat): Digest
    requires i < |leaves|
  {
    UpBelow(i, |leaves|, h);
    var level, j := Level(leaves, h), Up(i, h);
    if j % 2 == 0 then Partner(level, j) else level[j - 1]
  }

  function Ancestor(leaves: seq<Digest>, i: nat, h: nat): Digest
    requires i < |leaves|
  {
    UpBelow(i, |leaves|, h);
    Level(leaves, h)[Up(i, h)]
  }

  /** The siblings on leaf i's way up, from a height and for a number of steps. */
  function Path(leaves: seq<Digest>, i: nat, h: nat, steps: nat): (path: seq<Digest>)
    requires i < |leaves|
    ensures |path| == steps
    decreases steps
  {
    if steps == 0 then [] else [Sibling(leaves, i, h)] + Path(leaves, i, h + 1, steps - 1)
  }

  lemma {:induction false} PathSnoc(leaves: seq<Digest>, i: nat, h: nat, steps: nat)
    requires i < |leaves|
    ensures Path(leaves, i, h, steps + 1) == Path(leaves, i, h, steps) + [Sibling(leaves, i, h + steps)]
    decreases steps
  {
    hide Sibling;
    if steps > 0 {
      PathSnoc(leaves, i, h + 1, steps - 1);
    }
  }

  // ---------------------------------------------------------------- verifying

  function Combine(current: Digest, sibling: Digest, index: int): Digest {
    if index % 2 == 0 then Node(current, sibling) else Node(sibling, current)
  }

  /** Halving as Go does it, towards zero. */
  function Half(index: int): int {
    if index < 0 then -(-index / 2) else index / 2
  }

  function Fold(current: Digest, proof: seq<Digest>, index: int): Digest
    decreases proof
  {
    if proof == [] then current else Fold(Combine(current, proof[0], index), proof[1..], Half(index))
  }

  lemma AncestorStep(leaves: seq<Digest>, i: nat, h: nat)
    requires i < |leaves|
    ensures Ancestor(leaves, i, h + 1) == Combine(Ancestor(leaves, i, h), Sibling(leaves, i, h), Up(i, h))
  {
    UpBelow(i, |leaves|, h);
    UpBelow(i, |leaves|, h + 1);
    var level, j := Level(leaves, h), Up(i, h);
    assert Up(i, h + 1) == j / 2 && Level(leaves, h + 1) == Next(level);
    hide Up, Level, Width;
    assert j == 2 * (j / 2) || j == 2 * (j / 2) + 1;
  }

  /** A leaf is its own ancestor at height 0, and the root is everyone's at the full depth. */
  lemma AncestorEnds(leaves: seq<Digest>, i: nat)
    requires i < |leaves|
    ensures Up(i, 0) == i && Ancestor(leaves, i, 0) == leaves[i]
    ensures Ancestor(leaves, i, Depth(|leaves|)) == Root(leaves)
  {
    UpOfRoot(i, |leaves|);
    hide Depth, Width;
  }

  /** Folding siblings climbs from one ancestor to another. */
  lemma {:induction false} PathClimbs(leaves: seq<Digest>, i: nat, h: nat, steps: nat)
    requires i < |leaves|
    ensures Fold(Ancestor(leaves, i, h), Path(leaves, i, h, steps), Up(i, h)) == Ancestor(leaves, i, h + steps)
    decreases steps
  {
    hide Ancestor, Sibling;
    if steps > 0 {
      AncestorStep(leaves, i, h);
      PathClimbs(leaves, i, h + 1, steps - 1);
      assert Path(leaves, i, h, steps)[1..] == Path(leaves, i, h + 1, steps - 1);
    }
  }

  // ---------------------------------------------------------------- building

  /** How many of the lowest d levels leaf i stands for. */
  function ProofLength(i: nat, d: nat): (l: nat)
    ensures l <= d
  {
    if d == 0 then 0 else if Stands(i, d - 1) then d else ProofLength(i, d - 1)
  }

  /** What the builder has given leaf i after h levels: the siblings of the nodes it stood for. */
  function Built(leaves: seq<Digest>, i: nat, h: nat): seq<Digest>
    requires i < |leaves|
  {
    Path(leaves, i, 0, ProofLength(i, h))
  }

  lemma BuiltStep(leaves: seq<Digest>, i: nat, h: nat)
    requires i < |leaves|
    ensures Built(leaves, i, h + 1) == if Stands(i, h) then Built(leaves, i, h) + [Sibling(leaves, i, h)]
            else Built(leaves, i, h)
  {
    hide Sibling;
    if Stands(i, h) {
      if h > 0 {
        StandsBelow(i, h - 1);
      }
      PathSnoc(leaves, i, 0, h);
    }
  }

  lemma {:induction false} FirstMonotone(j: nat, k: nat, h: nat)
    requires j < k
    ensures First(j, h) < First(k, h)
    decreases h
  {
    if h > 0 {
      FirstMonotone(2 * j, 2 * k, h - 1);
    }
  }

  ghost predicate AllBuilt(leaves: seq<Digest>, proofs: seq<seq<Digest>>, h: nat) {
    |proofs| == |leaves| && forall x :: 0 <= x < |leaves| ==> proofs[x] == Built(leaves, x, h)
  }

  /** Half way through a level: leaves under the first `done` nodes have what the level gives them. */
  ghost predicate PartlyBuilt(leaves: seq<Digest>, proofs: seq<seq<Digest>>, h: nat, done: nat) {
    |proofs| == |leaves|
    && forall x :: 0 <= x < |leaves| ==>
         proofs[x] == if Up(x, h) < done then Built(leaves, x, h + 1) else Built(leaves, x, h)
  }

  /** The proofs after one pair of nodes has been joined, as the loop body leaves them. */
  function Joined(proofs: seq<seq<Digest>>, left: Digest, right: Digest, leftIndex: nat,
                  rightIndex: nat): seq<seq<Digest>> {
    var once := if leftIndex < |proofs| then proofs[leftIndex := proofs[leftIndex] + [right]] else proofs;
    if rightIndex < |proofs| && rightIndex != leftIndex then once[rightIndex := once[rightIndex] + [left]] else once
  }

  lemma JoinedBuilds(leaves: seq<Digest>, proofs: seq<seq<Digest>>, h: nat, i: nat)
    requires i < Width(|leaves|, h) && i % 2 == 0 && PartlyBuilt(leaves, proofs, h, i)
    ensures var level := Level(leaves, h);
            var rightIndex := if i + 1 < |level| then First(i + 1, h) else First(i, h);
            PartlyBuilt(leaves, Joined(proofs, level[i], Partner(level, i), First(i, h), rightIndex), h, i + 2)
  {
    hide Level, Built, First, Up;
    var n, level := |leaves|, Level(leaves, h);
    var l := First(i, h);
    var r := if i + 1 < |level| then First(i + 1, h) else l;
    FirstBelow(i, n, h);
    UpFirst(i, h);
    if i + 1 < |level| {
      FirstBelow(i + 1, n, h);
      UpFirst(i + 1, h);
    }
    var after := Joined(proofs, level[i], Partner(level, i), l, r);
    forall x | 0 <= x < n
      ensures after[x] == if Up(x, h) < i + 2 then Built(leaves, x, h + 1) else Built(leaves, x, h)
    {
      BuiltStep(leaves, x, h);
      UpBelow(x, n, h);
    }
  }

  /** The builder as written: each level's nodes are joined in pairs, every joined node keeps only the
      smaller of the two leaf indexes, and only that leaf's proof grows further up. */
  method BuildTree(leaves: seq<Digest>, emptyTag: string) returns (root: Digest, proofs: seq<seq<Digest>>)
    ensures leaves == [] ==> root == Leaf(emptyTag) && proofs == []
    ensures leaves != [] ==> root == Root(leaves) && AllBuilt(leaves, proofs, Depth(|leaves|))
  {
    hide Level, Built, First, Up, Next, Width;
    if |leaves| == 0 {
      return Leaf(emptyTag), [];
    }
    var n := |leaves|;
    proofs := seq(n, _ => []);
    var level := leaves;
    var indexes: seq<nat> := seq(n, i => i);
    ghost var h := 0;
    LevelZero(leaves);
    WidthAtDepth(n, 0);
    while |level| > 1
      invariant h <= Depth(n) && level == Level(leaves, h) && |indexes| == |level| > 0
      invariant |level| == 1 <==> h == Depth(n)
      invariant forall j :: 0 <= j < |indexes| ==> indexes[j] == First(j, h)
      invariant AllBuilt(leaves, proofs, h)
      decreases |level|
    {
      level, indexes, proofs := JoinLevel(leaves, level, indexes, proofs, h);
      h := h + 1;
      WidthAtDepth(n, h);
      LevelWidth(leaves, h);
    }
    root := level[0];
  }

  lemma LevelZero(leaves: seq<Digest>)
    ensures Level(leaves, 0) == leaves
    ensures forall j: nat :: First(j, 0) == j
    ensures forall x :: 0 <= x < |leaves| ==> Built(leaves, x, 0) == []
    ensures Width(|leaves|, 0) == |leaves|
  {
  }

  lemma LevelWidth(leaves: seq<Digest>, h: nat)
    ensures |Level(leaves, h)| == Width(|leaves|, h)
  {
  }

  method JoinLevel(ghost leaves: seq<Digest>, level0: seq<Digest>, indexes0: seq<nat>, proofs0: seq<seq<Digest>>,
                   ghost h: nat)
    returns (nextLevel: seq<Digest>, nextIndexes: seq<nat>, proofs: seq<seq<Digest>>)
    requires level0 == Level(leaves, h) && |indexes0| == |level0| > 1
    requires forall j :: 0 <= j < |indexes0| ==> indexes0[j] == First(j, h)
    requires AllBuilt(leaves, proofs0, h)
    ensures nextLevel == Level(leaves, h + 1) && |nextIndexes| == |nextLevel| && 0 < |nextLevel| < |level0|
    ensures forall j :: 0 <= j < |nextIndexes| ==> nextIndexes[j] == First(j, h + 1)
    ensures AllBuilt(leaves, proofs, h + 1)
  {
    hide Level, First, Width, AllBuilt, PartlyBuilt, Joined;
    var level, indexes := level0, indexes0;
    proofs := proofs0;
    NothingJoined(leaves, proofs, h);
    LevelWidth(leaves, h);
    if |level| % 2 == 1 {
      level := level + [level[|level| - 1]];
      indexes := indexes + [indexes[|indexes| - 1]];
    }
    nextLevel, nextIndexes := [], [];
    var i := 0;
    while i < |level|
      invariant 0 <= i <= |level| && i % 2 == 0 && |nextLevel| == |nextIndexes| == i / 2
      invariant forall p :: 0 <= p < i / 2 ==> nextLevel[p] == Node(level0[2 * p], Partner(level0, 2 * p))
      invariant forall p :: 0 <= p < i / 2 ==> nextIndexes[p] == First(2 * p, h)
      invariant PartlyBuilt(leaves, proofs, h, i)
    {
      var left, right := level[i], level[i + 1];
      var leftIndex, rightIndex := indexes[i], indexes[i + 1];
      assert right == Partner(level0, i) && left == level0[i];
      assert rightIndex == if i + 1 < |level0| then First(i + 1, h) else First(i, h);
      JoinedBuilds(leaves, proofs, h, i);
      ghost var before := proofs;
      if leftIndex < |proofs| {
        proofs := proofs[leftIndex := proofs[leftIndex] + [right]];
      }
      if rightIndex < |proofs| && rightIndex != leftIndex {
        proofs := proofs[rightIndex := proofs[rightIndex] + [left]];
      }
      JoinedIs(before, proofs, left, right, leftIndex, rightIndex);
      FirstMonotone(i, i + 1, h);
      nextLevel := nextLevel + [Node(left, right)];
      nextIndexes := nextIndexes + [if leftIndex < rightIndex then leftIndex else rightIndex];
      i := i + 2;
    }
    LevelDone(leaves, level0, nextLevel, h);
    FullyBuilt(leaves, proofs, h, i);
    FirstUnfold(h);
  }

  lemma NothingJoined(leaves: seq<Digest>, proofs: seq<seq<Digest>>, h: nat)
    requires AllBuilt(leaves, proofs, h)
    ensures PartlyBuilt(leaves, proofs, h, 0)
  {
    hide Built, Up;
  }

  lemma JoinedIs(before: seq<seq<Digest>>, after: seq<seq<Digest>>, left: Digest, right: Digest, leftIndex: nat,
                 rightIndex: nat)
    requires var once := if leftIndex < |before| then before[leftIndex := before[leftIndex] + [right]] else before;
             after == if rightIndex < |once| && rightIndex != leftIndex
               then once[rightIndex := once[rightIndex] + [left]] else once
    ensures after == Joined(before, left, right, leftIndex, rightIndex)
  {
  }

  lemma FirstUnfold(h: nat)
    ensures forall j: nat :: First(j, h + 1) == First(2 * j, h)
  {
  }

  lemma LevelDone(leaves: seq<Digest>, level: seq<Digest>, next: seq<Digest>, h: nat)
    requires level == Level(leaves, h) && |next| == (|level| + 1) / 2
    requires forall p :: 0 <= p < |next| ==> next[p] == Node(level[2 * p], Partner(level, 2 * p))
    ensures next == Level(leaves, h + 1)
  {
    hide Width;
  }

  lemma FullyBuilt(leaves: seq<Digest>, proofs: seq<seq<Digest>>, h: nat, done: nat)
    requires PartlyBuilt(leaves, proofs, h, done) && done >= Width(|leaves|, h)
    ensures AllBuilt(leaves, proofs, h + 1)
  {
    hide Built, Up, Width;
    forall x | 0 <= x < |leaves| ensures proofs[x] == Built(leaves, x, h + 1) {
      UpBelow(x, |leaves|, h);
    }
  }

  // ---------------------------------------------------------------- which built proofs verify

  ghost predicate AllLeaves(leaves: seq<Digest>) {
    forall i :: 0 <= i < |leaves| ==> leaves[i].Leaf?
  }

  function Height(d: Digest): nat {
    match d
    case Leaf(_) => 0
    case Node(left, right) => 1 + if Height(left) > Height(right) then Height(left) else Height(right)
  }

  lemma {:induction false} LevelHeight(leaves: seq<Digest>, h: nat, j: nat)
    requires AllLeaves(leaves) && j < Width(|leaves|, h)
    ensures Height(Level(leaves, h)[j]) == h
    decreases h
  {
    if h > 0 {
      LevelHeight(leaves, h - 1, 2 * j);
      if 2 * j + 1 < Width(|leaves|, h - 1) {
        LevelHeight(leaves, h - 1, 2 * j + 1);
      }
    }
  }

  /** The built proof of leaf i folds to the ancestor of i at the height where i stopped standing. */
  lemma BuiltProofClimbs(leaves: seq<Digest>, i: nat)
    requires i < |leaves|
    ensures var d := Depth(|leaves|);
            Fold(leaves[i], Built(leaves, i, d), i) == Ancestor(leaves, i, ProofLength(i, d))
  {
    hide Fold, Path, Ancestor, Up, Depth, ProofLength;
    PathClimbs(leaves, i, 0, ProofLength(i, Depth(|leaves|)));
    AncestorEnds(leaves, i);
  }

  lemma UpOfRoot(i: nat, n: nat)
    requires i < n
    ensures Up(i, Depth(n)) == 0
  {
    WidthAtDepth(n, Depth(n));
    UpBelow(i, n, Depth(n));
  }

  /** A built proof verifies exactly when it has full length. */
  lemma VerifiesIffFullLength(leaves: seq<Digest>, i: nat)
    requires i < |leaves| && AllLeaves(leaves)
    ensures var d := Depth(|leaves|);
            Fold(leaves[i], Built(leaves, i, d), i) == Root(leaves) <==> ProofLength(i, d) == d
  {
    hide Level, Built, Up, Width, Depth;
    var d := Depth(|leaves|);
    var l := ProofLength(i, d);
    BuiltProofClimbs(leaves, i);
    UpOfRoot(i, |leaves|);
    WidthAtDepth(|leaves|, d);
    UpBelow(i, |leaves|, l);
    UpBelow(i, |leaves|, d);
    LevelHeight(leaves, l, Up(i, l));
    LevelHeight(leaves, d, 0);
  }

  /** The number of times two divides i. */
  function V2(i: nat): nat
    requires i > 0
  {
    if i % 2 == 1 then 0 else 1 + V2(i / 2)
  }

  lemma {:induction false} UpV2(i: nat, h: nat)
    requires i > 0 && h <= V2(i)
    ensures Up(i, h) > 0 && V2(Up(i, h)) == V2(i) - h
  {
    if h > 0 {
      UpV2(i, h - 1);
    }
  }

  lemma {:induction false} StandsIff(i: nat, h: nat)
    requires i > 0
    ensures Stands(i, h) <==> h <= V2(i)
  {
    hide V2, Stands;
    if h == 0 {
      StandsAtZero(i);
    } else {
      StandsIff(i, h - 1);
      StandsBelow(i, h - 1);
      if h - 1 <= V2(i) {
        UpV2(i, h - 1);
        V2Even(Up(i, h - 1));
      }
    }
  }

  lemma StandsAtZero(i: nat)
    ensures Stands(i, 0)
  {
  }

  lemma V2Even(i: nat)
    requires i > 0
    ensures i % 2 == 0 <==> V2(i) >= 1
  {
  }

  lemma {:induction false} ZeroStands(h: nat)
    ensures Stands(0, h) && Up(0, h) == 0
  {
    if h > 0 {
      ZeroStands(h - 1);
      StandsBelow(0, h - 1);
    }
  }

  /** Proof lengths: the whole depth for leaf 0, and one more than the twos in i otherwise. */
  lemma {:induction false} ProofLengthIs(i: nat, d: nat)
    ensures ProofLength(i, d) == if i == 0 || V2(i) + 1 > d then d else V2(i) + 1
  {
    hide Stands, V2;
    if d > 0 {
      ProofLengthIs(i, d - 1);
      if i == 0 {
        ZeroStands(d - 1);
      } else {
        StandsIff(i, d - 1);
      }
    }
  }

  lemma {:induction false} WithinDepth(n: nat)
    requires n > 0
    ensures n <= Pow2(Depth(n))
  {
    if n > 1 {
      WithinDepth((n + 1) / 2);
    }
  }

  lemma {:induction false} OneMultiple(i: nat, d: nat)
    requires 0 < i < Pow2(d + 1)
    ensures V2(i) >= d <==> i == Pow2(d)
    decreases d
  {
    if d > 0 {
      if i % 2 == 0 {
        OneMultiple(i / 2, d - 1);
      } else {
        assert Pow2(d) == 2 * Pow2(d - 1);
      }
    }
  }

  /** Of all leaves of a tree with at least two, exactly leaf 0 and leaf 2^(depth - 1) get a proof that
      verifies against the root. */
  lemma OnlyTwoProofsVerify(leaves: seq<Digest>, i: nat)
    requires i < |leaves| && |leaves| >= 2 && AllLeaves(leaves)
    ensures var d := Depth(|leaves|);
            d >= 1 && (Fold(leaves[i], Built(leaves, i, d), i) == Root(leaves) <==> i == 0 || i == Pow2(d - 1))
  {
    hide Root, Fold, V2, ProofLength, Built;
    var d := Depth(|leaves|);
    VerifiesIffFullLength(leaves, i);
    ProofLengthIs(i, d);
    WithinDepth(|leaves|);
    if i > 0 {
      OneMultiple(i, d - 1);
    }
  }

  /** So the builder does what it is for, a verifying proof for every leaf, only up to two leaves. */
  lemma EveryProofVerifiesIff(leaves: seq<Digest>)
    requires leaves != [] && AllLeaves(leaves)
    ensures (forall i :: 0 <= i < |leaves| ==>
             Fold(leaves[i], Built(leaves, i, Depth(|leaves|)), i) == Root(leaves)) <==> |leaves| <= 2
  {
    hide Root, Fold, Built, ProofLength;
    if |leaves| == 1 {
      VerifiesIffFullLength(leaves, 0);
      ProofLengthIs(0, 0);
    } else {
      forall i | 0 <= i < |leaves|
        ensures Fold(leaves[i], Built(leaves, i, Depth(|leaves|)), i) == Root(leaves) <==>
                i == 0 || i == Pow2(Depth(|leaves|) - 1)
      {
        OnlyTwoProofsVerify(leaves, i);
      }
      assert Depth(2) == 1 && Pow2(0) == 1;
      if |leaves| > 2 {
        var d := Depth(|leaves|);
        assert d == 1 + Depth((|leaves| + 1) / 2) && Depth((|leaves| + 1) / 2) >= 1;
        assert Pow2(d - 1) == 2 * Pow2(d - 2);
        assert Pow2(Depth(|leaves|) - 1) >= 2;
        assert Fold(leaves[1], Built(leaves, 1, Depth(|leaves|)), 1) != Root(leaves);
      }
    }
  }

  /** With three leaves the middle one is already refused. */
  lemma ThreeLeavesFail(a: string, b: string, c: string)
    ensures var leaves := [Leaf(a), Leaf(b), Leaf(c)];
            Fold(leaves[1], Built(leaves, 1, Depth(3)), 1) != Root(leaves)
  {
    var leaves := [Leaf(a), Leaf(b), Leaf(c)];
    assert Depth(3) == 2 by {
      assert Depth(2) == 1;
    }
    OnlyTwoProofsVerify(leaves, 1);
  }

  // ---------------------------------------------------------------- everything the verifier accepts

  /** The place at height h that index leads to, going down from the root by its bits. Where a level ends
      at an odd place, the padding stands for its last node. */
  function Spot(n: nat, h: nat, steps: nat, index: nat): nat
    decreases steps
  {
    if steps == 0 then 0
    else
      var left := 2 * Spot(n, h + 1, steps - 1, index / 2);
      if index % 2 == 1 && left + 1 < Width(n, h) then left + 1 else left
  }

  lemma {:induction false} SpotBelow(n: nat, h: nat, steps: nat, index: nat)
    requires n > 0 && h + steps == Depth(n)
    ensures Spot(n, h, steps, index) < Width(n, h)
    decreases steps
  {
    if steps == 0 {
      WidthAtDepth(n, h);
    } else {
      SpotBelow(n, h + 1, steps - 1, index / 2);
    }
  }

  /** The node that index leads to, that many steps below the root. */
  function NodeAt(leaves: seq<Digest>, h: nat, steps: nat, index: nat): Digest
    requires leaves != [] && h + steps == Depth(|leaves|)
  {
    SpotBelow(|leaves|, h, steps, index);
    Level(leaves, h)[Spot(|leaves|, h, steps, index)]
  }

  /** The node beside it. */
  function Beside(leaves: seq<Digest>, h: nat, steps: nat, index: nat): Digest
    requires leaves != [] && h + steps == Depth(|leaves|) && steps > 0
  {
    SpotBelow(|leaves|, h + 1, steps - 1, index / 2);
    var left := 2 * Spot(|leaves|, h + 1, steps - 1, index / 2);
    if index % 2 == 0 then Partner(Level(leaves, h), left) else Level(leaves, h)[left]
  }

  /** The nodes beside the way from there up to the root. */
  function WayUp(leaves: seq<Digest>, h: nat, steps: nat, index: nat): (path: seq<Digest>)
    requires leaves != [] && h + steps == Depth(|leaves|)
    ensures |path| == steps
    decreases steps
  {
    if steps == 0 then [] else [Beside(leaves, h, steps, index)] + WayUp(leaves, h + 1, steps - 1, index / 2)
  }

  lemma NodeIsCombined(leaves: seq<Digest>, h: nat, steps: nat, index: nat)
    requires leaves != [] && h + steps == Depth(|leaves|) && steps > 0
    ensures NodeAt(leaves, h + 1, steps - 1, index / 2) ==
            Combine(NodeAt(leaves, h, steps, index), Beside(leaves, h, steps, index), index)
  {
    SpotBelow(|leaves|, h + 1, steps - 1, index / 2);
    SpotBelow(|leaves|, h, steps, index);
    var up := Spot(|leaves|, h + 1, steps - 1, index / 2);
    assert Level(leaves, h + 1) == Next(Level(leaves, h));
    assert Spot(|leaves|, h, steps, index) == if index % 2 == 1 && 2 * up + 1 < Width(|leaves|, h) then 2 * up + 1
           else 2 * up;
    hide Level, Width, Depth, Spot;
    assert Next(Level(leaves, h))[up] == Node(Level(leaves, h)[2 * up], Partner(Level(leaves, h), 2 * up));
  }

  lemma NodeAtTop(leaves: seq<Digest>, h: nat, index: nat)
    requires leaves != [] && h == Depth(|leaves|)
    ensures NodeAt(leaves, h, 0, index) == Root(leaves)
  {
    hide Level, Width, Depth;
  }

  lemma CombineInjective(x: Digest, y: Digest, a: Digest, b: Digest, index: int)
    ensures Combine(x, a, index) == Combine(y, b, index) <==> x == y && a == b
  {
  }

  lemma {:induction false} FoldsToRootIff(leaves: seq<Digest>, h: nat, x: Digest, proof: seq<Digest>, index: nat)
    requires leaves != [] && h + |proof| == Depth(|leaves|)
    ensures Fold(x, proof, index) == Root(leaves) <==>
            x == NodeAt(leaves, h, |proof|, index) && proof == WayUp(leaves, h, |proof|, index)
    decreases proof
  {
    hide NodeAt, Beside, Root, Depth, Combine;
    if proof == [] {
      NodeAtTop(leaves, h, index);
    } else {
      var steps := |proof|;
      FoldsToRootIff(leaves, h + 1, Combine(x, proof[0], index), proof[1..], index / 2);
      NodeIsCombined(leaves, h, steps, index);
      CombineInjective(x, NodeAt(leaves, h, steps, index), proof[0], Beside(leaves, h, steps, index), index);
      assert proof == [proof[0]] + proof[1..];
    }
  }

  lemma {:induction false} FoldHeight(x: Digest, proof: seq<Digest>, index: int)
    ensures Height(Fold(x, proof, index)) >= |proof|
    ensures Height(Fold(x, proof, index)) >= |proof| + Height(x)
    decreases proof
  {
    if proof != [] {
      FoldHeight(Combine(x, proof[0], index), proof[1..], Half(index));
    }
  }

  lemma {:induction false} FoldSign(x: Digest, proof: seq<Digest>, index: int)
    requires index >= 0
    ensures Fold(x, proof, -index) == Fold(x, proof, index)
    decreases proof
  {
    if proof != [] {
      assert (-index) % 2 == index % 2 && Half(-index) == -(index / 2);
      FoldSign(Combine(x, proof[0], index), proof[1..], index / 2);
    }
  }

  /** Exactly what folds to the root, for any digest, any proof made of digests and any index: the node that
      the index's low bits lead to, as many steps below the root as the proof is long, with the nodes beside
      the way. Higher bits and the sign of the index do not matter. ProofBytes.dfy has the verifier itself,
      which takes any bytes. */
  lemma AcceptedIff(leaves: seq<Digest>, x: Digest, proof: seq<Digest>, index: int)
    requires leaves != [] && AllLeaves(leaves)
    ensures var d, i := Depth(|leaves|), if index < 0 then -index else index;
            Fold(x, proof, index) == Root(leaves) <==>
            && |proof| <= d
            && x == NodeAt(leaves, d - |proof|, |proof|, i)
            && proof == WayUp(leaves, d - |proof|, |proof|, i)
  {
    hide Fold, NodeAt, WayUp, Level, Width, Depth, Height;
    var d, i: nat := Depth(|leaves|), if index < 0 then -index else index;
    FoldSign(x, proof, i);
    FoldHeight(x, proof, index);
    WidthAtDepth(|leaves|, d);
    LevelHeight(leaves, d, 0);
    if |proof| <= d {
      FoldsToRootIff(leaves, d - |proof|, x, proof, i);
    }
  }

  // ---------------------------------------------------------------- full paths

  lemma {:induction false} SpotOfLeaf(n: nat, i: nat, h: nat, steps: nat)
    requires i < n && h + steps == Depth(n)
    ensures Spot(n, h, steps, Up(i, h)) == Up(i, h)
    decreases steps
  {
    hide Width, Depth;
    UpBelow(i, n, h);
    if steps == 0 {
      UpOfRoot(i, n);
    } else {
      var j := Up(i, h);
      assert Up(i, h + 1) == j / 2;
      SpotOfLeaf(n, i, h + 1, steps - 1);
      hide Up;
      Halves(j);
    }
  }

  lemma {:induction false} WayUpOfLeaf(leaves: seq<Digest>, i: nat, h: nat, steps: nat)
    requires i < |leaves| && h + steps == Depth(|leaves|)
    ensures WayUp(leaves, h, steps, Up(i, h)) == Path(leaves, i, h, steps)
    decreases steps
  {
    hide Width, Depth, Level, Beside, Sibling;
    if steps > 0 {
      assert Up(i, h + 1) == Up(i, h) / 2;
      WayUpOfLeaf(leaves, i, h + 1, steps - 1);
      BesideLeaf(leaves, i, h, steps);
    }
  }

  lemma BesideLeaf(leaves: seq<Digest>, i: nat, h: nat, steps: nat)
    requires i < |leaves| && h + steps == Depth(|leaves|) && steps > 0
    ensures Beside(leaves, h, steps, Up(i, h)) == Sibling(leaves, i, h)
  {
    var j := Up(i, h);
    assert Up(i, h + 1) == j / 2;
    hide Level, Up, Width, Depth, Spot;
    UpBelow(i, |leaves|, h);
    SpotOfLeaf(|leaves|, i, h + 1, steps - 1);
    assert Spot(|leaves|, h + 1, steps - 1, j / 2) == j / 2;
    Halves(j);
    hide Partner;
  }

  lemma Halves(j: nat)
    ensures 2 * (j / 2) == if j % 2 == 0 then j else j - 1
  {
  }

  /** A full-length proof verifies for the place of a leaf exactly when it is that leaf with the sibling
      at every level. */
  lemma FullProofsSound(leaves: seq<Digest>, i: nat, x: Digest, proof: seq<Digest>)
    requires i < |leaves| && |proof| == Depth(|leaves|)
    ensures Fold(x, proof, i) == Root(leaves) <==> x == leaves[i] && proof == Path(leaves, i, 0, |proof|)
  {
    hide Fold, WayUp, Path, Root, Depth, Up, Spot;
    FoldsToRootIff(leaves, 0, x, proof, i);
    SpotOfLeaf(|leaves|, i, 0, |proof|);
    WayUpOfLeaf(leaves, i, 0, |proof|);
    AncestorEnds(leaves, i);
    assert NodeAt(leaves, 0, |proof|, i) == leaves[i];
  }

  /** So had every leaf received the sibling at every level, every leaf would verify. */
  lemma FullPathVerifies(leaves: seq<Digest>, i: nat)
    requires i < |leaves|
    ensures Fold(leaves[i], Path(leaves, i, 0, Depth(|leaves|)), i) == Root(leaves)
  {
    hide Fold, Path, Root, Depth;
    FullProofsSound(leaves, i, leaves[i], Path(leaves, i, 0, Depth(|leaves|)));
  }

  /** So also what is no leaf at its place: the last of three leaves at the padded place
      beside it, and an inner node with a shorter proof. */
  lemma AcceptedBesidesLeaves(a: string, b: string, c: string)
    ensures var leaves := [Leaf(a), Leaf(b), Leaf(c)];
            var left, right := Node(leaves[0], leaves[1]), Node(leaves[2], leaves[2]);
            && Fold(leaves[2], [leaves[2], left], 3) == Root(leaves)
            && Fold(left, [right], 0) == Root(leaves)
  {
    var leaves := [Leaf(a), Leaf(b), Leaf(c)];
    var left, right := Node(leaves[0], leaves[1]), Node(leaves[2], leaves[2]);
    assert Depth(3) == 2 by {
      assert Depth(2) == 1;
    }
    assert Level(leaves, 1) == [left, right];
    assert Level(leaves, 2) == [Node(left, right)];
    assert [leaves[2], left][1..] == [left] && [left][1..] == [] && [right][1..] == [];
    assert Fold(right, [left], 1) == Fold(Node(left, right), [], 0);
    assert Fold(left, [right], 0) == Fold(Node(left, right), [], 0);
  }

  // ---------------------------------------------------------------- the root binds the leaves

  ghost predicate Distinct(level: seq<Digest>) {
    forall i, j :: 0 <= i < j < |level| ==> level[i] != level[j]
  }

  lemma NextDistinct(level: seq<Digest>)
    requires Distinct(level)
    ensures Distinct(Next(level))
  {
    var next := Next(level);
    forall i, j | 0 <= i < j < |next| ensures next[i] != next[j] {
      assert next[i].left == level[2 * i] && next[j].left == level[2 * j];
    }
  }

  /** Doubling the last node hides nothing as long as no level repeats a node. */
  lemma NextBinds(a: seq<Digest>, b: seq<Digest>)
    requires Distinct(a) && Distinct(b) && Next(a) == Next(b)
    ensures a == b
  {
    var m := |Next(a)|;
    forall p | 0 <= p < m ensures a[2 * p] == b[2 * p] && Partner(a, 2 * p) == Partner(b, 2 * p) {
      assert Next(a)[p] == Next(b)[p];
    }
    if m > 0 {
      var p := m - 1;
      assert Partner(a, 2 * p) == Partner(b, 2 * p) && a[2 * p] == b[2 * p];
    }
    assert |a| == |b|;
    forall i | 0 <= i < |a| ensures a[i] == b[i] {
      var p := i / 2;
      assert a[2 * p] == b[2 * p] && Partner(a, 2 * p) == Partner(b, 2 * p);
    }
  }

  lemma {:induction false} LevelDistinct(leaves: seq<Digest>, h: nat)
    requires Distinct(leaves)
    ensures Distinct(Level(leaves, h))
  {
    hide Next, Distinct;
    if h > 0 {
      LevelDistinct(leaves, h - 1);
      NextDistinct(Level(leaves, h - 1));
    }
  }

  lemma {:induction false} LevelBinds(a: seq<Digest>, b: seq<Digest>, h: nat)
    requires Distinct(a) && Distinct(b) && Level(a, h) == Level(b, h)
    ensures a == b
  {
    hide Next, Distinct;
    if h > 0 {
      LevelDistinct(a, h - 1);
      LevelDistinct(b, h - 1);
      NextBinds(Level(a, h - 1), Level(b, h - 1));
      LevelBinds(a, b, h - 1);
    }
  }

  /** Two lists of pairwise distinct leaves with the same root are the same list. */
  lemma RootBinds(a: seq<Digest>, b: seq<Digest>)
    requires a != [] && b != [] && AllLeaves(a) && AllLeaves(b) && Distinct(a) && Distinct(b)
    requires Root(a) == Root(b)
    ensures a == b
  {
    hide Level, Width, Depth, Distinct;
    var d, e := Depth(|a|), Depth(|b|);
    WidthAtDepth(|a|, d);
    WidthAtDepth(|b|, e);
    LevelHeight(a, d, 0);
    LevelHeight(b, e, 0);
    LevelWidth(a, d);
    LevelWidth(b, e);
    assert Level(a, d) == [Root(a)] && Level(b, e) == [Root(b)];
    LevelBinds(a, b, d);
  }
}
