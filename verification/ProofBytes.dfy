/** The proof verifier on bytes, with the hash a parameter. A leaf and the items of a proof are byte strings of
    any length; each step hashes the plain concatenation of two of them. */
module ProofBytes {
  import opened Bytes
  import opened Merkle
  import Claims

  type Hash = string -> string

  ghost predicate Hash32(hash: Hash) {
    forall s :: |hash(s)| == 32
  }

  // ---------------------------------------------------------------- trees as bytes

  /** What is hashed to make a digest. */
  function PreimageOf(hash: Hash, d: Digest): string {
    match d
    case Leaf(preimage) => preimage
    case Node(left, right) => BytesOf(hash, left) + BytesOf(hash, right)
  }

  function BytesOf(hash: Hash, d: Digest): string {
    match d
    case Leaf(preimage) => hash(preimage)
    case Node(left, right) => hash(BytesOf(hash, left) + BytesOf(hash, right))
  }

  lemma BytesHash(hash: Hash, d: Digest)
    ensures BytesOf(hash, d) == hash(PreimageOf(hash, d))
  {
  }

  function AllBytes(hash: Hash, ds: seq<Digest>): (bs: seq<string>)
    ensures |bs| == |ds|
  {
    seq(|ds|, i requires 0 <= i < |ds| => BytesOf(hash, ds[i]))
  }

  // ---------------------------------------------------------------- the verifier

  function Join(current: string, sibling: string, index: int): string {
    if index % 2 == 0 then current + sibling else sibling + current
  }

  function FoldBytes(hash: Hash, current: string, proof: seq<string>, index: int): string
    decreases proof
  {
    if proof == [] then current else FoldBytes(hash, hash(Join(current, proof[0], index)), proof[1..], Half(index))
  }

  method VerifyProof(hash: Hash, root: string, leaf: string, proof: seq<string>, leafIndex: int) returns (ok: bool)
    ensures ok <==> FoldBytes(hash, leaf, proof, leafIndex) == root
  {
    var current, index := leaf, leafIndex;
    for i := 0 to |proof|
      invariant FoldBytes(hash, leaf, proof, leafIndex) == FoldBytes(hash, current, proof[i..], index)
    {
      assert proof[i..][0] == proof[i] && proof[i..][1..] == proof[i + 1..];
      if index % 2 == 0 {
        current := hash(current + proof[i]);
      } else {
        current := hash(proof[i] + current);
      }
      index := Half(index);
    }
    assert proof[|proof|..] == [];
    return current == root;
  }

  /** On digests the verifier is the fold of the tree model. */
  lemma {:induction false} FoldOfDigests(hash: Hash, x: Digest, proof: seq<Digest>, index: int)
    ensures FoldBytes(hash, BytesOf(hash, x), AllBytes(hash, proof), index) == BytesOf(hash, Fold(x, proof, index))
    decreases proof
  {
    if proof != [] {
      var next := Combine(x, proof[0], index);
      assert BytesOf(hash, next) == hash(Join(BytesOf(hash, x), BytesOf(hash, proof[0]), index));
      assert AllBytes(hash, proof)[1..] == AllBytes(hash, proof[1..]);
      FoldOfDigests(hash, next, proof[1..], Half(index));
    }
  }

  // ---------------------------------------------------------------- strings hashed

  /** Everything hashed to build a tree. */
  ghost function TreeStrings(hash: Hash, d: Digest): set<string> {
    {PreimageOf(hash, d)} + (if d.Leaf? then {} else TreeStrings(hash, d.left) + TreeStrings(hash, d.right))
  }

  /** Everything hashed to verify a proof. */
  ghost function FoldStrings(hash: Hash, current: string, proof: seq<string>, index: int): set<string>
    decreases proof
  {
    if proof == [] then {}
    else
      var joined := Join(current, proof[0], index);
      {joined} + FoldStrings(hash, hash(joined), proof[1..], Half(index))
  }

  ghost predicate NoCollision(hash: Hash, strings: set<string>) {
    forall s, t :: s in strings && t in strings && hash(s) == hash(t) ==> s == t
  }

  /** No collision among what building the tree and verifying this proof hash. */
  ghost predicate Clean(hash: Hash, leaves: seq<Digest>, x: string, proof: seq<string>, index: int)
    requires leaves != []
  {
    Hash32(hash) && NoCollision(hash, TreeStrings(hash, Root(leaves)) + FoldStrings(hash, x, proof, index))
  }

  lemma {:induction false} NodeStrings(hash: Hash, leaves: seq<Digest>, h: nat, steps: nat, index: nat)
    requires leaves != [] && h + steps == Depth(|leaves|)
    ensures TreeStrings(hash, NodeAt(leaves, h, steps, index)) <= TreeStrings(hash, Root(leaves))
    ensures PreimageOf(hash, NodeAt(leaves, h, steps, index)) in TreeStrings(hash, Root(leaves))
    decreases steps
  {
    hide NodeAt, Beside, Root, Depth, PreimageOf;
    if steps == 0 {
      NodeAtTop(leaves, h, index);
    } else {
      NodeIsCombined(leaves, h, steps, index);
      NodeStrings(hash, leaves, h + 1, steps - 1, index / 2);
    }
  }

  // ---------------------------------------------------------------- exactly what is accepted

  lemma NodeJoin(hash: Hash, x: Digest, sibling: Digest, index: int)
    ensures PreimageOf(hash, Combine(x, sibling, index)) == Join(BytesOf(hash, x), BytesOf(hash, sibling), index)
  {
  }

  lemma JoinSplits(hash: Hash, y: string, r: string, a: Digest, b: Digest, index: int)
    requires Hash32(hash) && |y| == 32
    ensures Join(y, r, index) == Join(BytesOf(hash, a), BytesOf(hash, b), index) <==>
            y == BytesOf(hash, a) && r == BytesOf(hash, b)
  {
    hide BytesOf;
    BytesHash(hash, a);
    BytesHash(hash, b);
    var u, v := BytesOf(hash, a), BytesOf(hash, b);
    if Join(y, r, index) == Join(u, v, index) {
      if index % 2 == 0 {
        ConcatSplit(y, r, u, v);
      } else {
        assert |r| == |v|;
        ConcatSplit(r, y, v, u);
      }
    }
  }

  /** From a 32-byte string on, every item of an accepted proof is forced. */
  lemma {:induction false} ClimbIff(hash: Hash, leaves: seq<Digest>, h: nat, y: string, rest: seq<string>, index: nat)
    requires leaves != [] && h + |rest| == Depth(|leaves|) && |y| == 32 && Clean(hash, leaves, y, rest, index)
    ensures FoldBytes(hash, y, rest, index) == BytesOf(hash, Root(leaves)) <==>
            y == BytesOf(hash, NodeAt(leaves, h, |rest|, index))
              && rest == AllBytes(hash, WayUp(leaves, h, |rest|, index))
    decreases rest
  {
    hide NodeAt, Beside, Root, Depth, BytesOf, PreimageOf, TreeStrings, Join;
    var steps := |rest|;
    if steps == 0 {
      NodeAtTop(leaves, h, index);
    } else {
      var joined := Join(y, rest[0], index);
      var up := NodeAt(leaves, h + 1, steps - 1, index / 2);
      var node, beside := NodeAt(leaves, h, steps, index), Beside(leaves, h, steps, index);
      ClimbIff(hash, leaves, h + 1, hash(joined), rest[1..], index / 2);
      NodeIsCombined(leaves, h, steps, index);
      NodeStrings(hash, leaves, h + 1, steps - 1, index / 2);
      NodeJoin(hash, node, beside, index);
      BytesHash(hash, up);
      assert hash(joined) == BytesOf(hash, up) <==> joined == PreimageOf(hash, up);
      JoinSplits(hash, y, rest[0], node, beside, index);
      WayBytes(hash, leaves, h, steps, index);
      assert rest == [rest[0]] + rest[1..];
    }
  }

  lemma WayBytes(hash: Hash, leaves: seq<Digest>, h: nat, steps: nat, index: nat)
    requires leaves != [] && h + steps == Depth(|leaves|) && steps > 0
    ensures AllBytes(hash, WayUp(leaves, h, steps, index)) ==
            [BytesOf(hash, Beside(leaves, h, steps, index))]
              + AllBytes(hash, WayUp(leaves, h + 1, steps - 1, index / 2))
  {
    hide Beside, BytesOf, Depth;
  }

  /** An index with its n lowest bits dropped. */
  function Drop(index: nat, n: nat): nat
    decreases n
  {
    if n == 0 then index else Drop(index / 2, n - 1)
  }

  lemma {:induction false} FoldSplit(hash: Hash, x: string, proof: seq<string>, index: nat, n: nat)
    requires n <= |proof|
    ensures var y := FoldBytes(hash, x, proof[..n], index);
            && FoldBytes(hash, x, proof, index) == FoldBytes(hash, y, proof[n..], Drop(index, n))
            && FoldStrings(hash, y, proof[n..], Drop(index, n)) <= FoldStrings(hash, x, proof, index)
    decreases n
  {
    if n == 0 {
      assert proof[..0] == [] && proof[0..] == proof;
    } else {
      FoldSplit(hash, hash(Join(x, proof[0], index)), proof[1..], index / 2, n - 1);
      assert proof[..n][1..] == proof[1..][..n - 1] && proof[1..][n - 1..] == proof[n..];
      assert proof[..n][0] == proof[0];
    }
  }

  lemma {:induction false} FoldBytesSign(hash: Hash, x: string, proof: seq<string>, index: int)
    requires index >= 0
    ensures FoldBytes(hash, x, proof, -index) == FoldBytes(hash, x, proof, index)
    ensures FoldStrings(hash, x, proof, -index) == FoldStrings(hash, x, proof, index)
    decreases proof
  {
    if proof != [] {
      assert (-index) % 2 == index % 2 && Half(-index) == -(index / 2);
      FoldBytesSign(hash, hash(Join(x, proof[0], index)), proof[1..], index / 2);
    }
  }

  /** How many items of a proof are forced: all but the first, and at most the depth. */
  function Forced(proof: seq<string>, d: nat): (m: nat)
    requires proof != []
    ensures m < |proof| && m <= d
  {
    if |proof| - 1 <= d then |proof| - 1 else d
  }

  lemma AcceptedNat(hash: Hash, leaves: seq<Digest>, x: string, proof: seq<string>, index: nat)
    requires leaves != [] && proof != [] && Clean(hash, leaves, x, proof, index)
    ensures var d := Depth(|leaves|);
            var m := Forced(proof, d);
            var k := |proof| - m - 1;
            var w, j := FoldBytes(hash, x, proof[..k], index), Drop(index, k);
            FoldBytes(hash, x, proof, index) == BytesOf(hash, Root(leaves)) <==>
            && Join(w, proof[k], j) == PreimageOf(hash, NodeAt(leaves, d - m, m, j / 2))
            && proof[k + 1..] == AllBytes(hash, WayUp(leaves, d - m, m, j / 2))
  {
    hide NodeAt, WayUp, Root, Depth, BytesOf, PreimageOf, TreeStrings, Join, AllBytes, Drop;
    var d := Depth(|leaves|);
    var m := Forced(proof, d);
    var k := |proof| - m - 1;
    var w, j := FoldBytes(hash, x, proof[..k], index), Drop(index, k);
    FoldSplit(hash, x, proof, index, k);
    var joined := Join(w, proof[k], j);
    assert proof[k..][0] == proof[k] && proof[k..][1..] == proof[k + 1..];
    assert joined in FoldStrings(hash, x, proof, index);
    ClimbIff(hash, leaves, d - m, hash(joined), proof[k + 1..], j / 2);
    NodeStrings(hash, leaves, d - m, m, j / 2);
    BytesHash(hash, NodeAt(leaves, d - m, m, j / 2));
  }

  /** Exactly what the verifier accepts, for any leaf, proof and index, unless strings hashed on the way
      collide. The last items, as many as the tree is deep or all but the first, are the digests beside the
      way up from a node of the tree; what comes before them only has to join to that node's preimage, cut
      anywhere. The sign of the index does not matter. */
  lemma AcceptedBytesIff(hash: Hash, leaves: seq<Digest>, x: string, proof: seq<string>, index: int)
    requires leaves != [] && Clean(hash, leaves, x, proof, index)
    ensures proof == [] ==> (FoldBytes(hash, x, proof, index) == BytesOf(hash, Root(leaves)) <==>
                             x == BytesOf(hash, Root(leaves)))
    ensures proof != [] ==>
              var d, i := Depth(|leaves|), if index < 0 then -index else index;
              var m := Forced(proof, d);
              var k := |proof| - m - 1;
              var w, j := FoldBytes(hash, x, proof[..k], i), Drop(i, k);
              (FoldBytes(hash, x, proof, index) == BytesOf(hash, Root(leaves)) <==>
               && Join(w, proof[k], j) == PreimageOf(hash, NodeAt(leaves, d - m, m, j / 2))
               && proof[k + 1..] == AllBytes(hash, WayUp(leaves, d - m, m, j / 2)))
  {
    hide NodeAt, WayUp, Root, Depth, BytesOf, PreimageOf, TreeStrings, Join, AllBytes, Drop, Forced;
    if proof != [] {
      FoldBytesSign(hash, x, proof, if index < 0 then -index else index);
      AcceptedNat(hash, leaves, x, proof, if index < 0 then -index else index);
    }
  }

  /** Every item 32 bytes long, as digests are. */
  ghost predicate AllDigests(proof: seq<string>) {
    forall i :: 0 <= i < |proof| ==> |proof[i]| == 32
  }

  /** No leaf preimage is as long as two digests. */
  ghost predicate LongLeaves(leaves: seq<Digest>) {
    forall i :: 0 <= i < |leaves| ==> leaves[i].Leaf? && |leaves[i].preimage| != 64
  }

  /** If a caller makes sure that the leaf and every item are 32 bytes, which the verifier does not ask, then
      what is accepted are nodes of the tree with the digests beside their way up, and nothing else. */
  lemma DigestsAcceptedIff(hash: Hash, leaves: seq<Digest>, x: string, proof: seq<string>, index: nat)
    requires leaves != [] && LongLeaves(leaves) && Clean(hash, leaves, x, proof, index)
    requires |x| == 32 && AllDigests(proof)
    ensures var d := Depth(|leaves|);
            FoldBytes(hash, x, proof, index) == BytesOf(hash, Root(leaves)) <==>
            && |proof| <= d
            && x == BytesOf(hash, NodeAt(leaves, d - |proof|, |proof|, index))
            && proof == AllBytes(hash, WayUp(leaves, d - |proof|, |proof|, index))
  {
    hide Root, Depth, BytesOf, TreeStrings, AllBytes, WayUp, NodeAt, Clean;
    var d := Depth(|leaves|);
    if |proof| <= d {
      ClimbIff(hash, leaves, d - |proof|, x, proof, index);
    } else {
      AcceptedNat(hash, leaves, x, proof, index);
      var k := |proof| - d - 1;
      CleanHash(hash, leaves, x, proof, index);
      FoldLength(hash, x, proof[..k], index);
      LeafAt(leaves, d, Drop(index, k) / 2);
    }
  }

  /** The leaves of both claim trees are. */
  lemma ClaimLeavesLong(batchId: Claims.Int64.int64, escape: seq<Claims.EscapeClaim>,
                        withdrawal: seq<Claims.WithdrawalClaim>)
    requires Claims.Indexable(|escape|) && Claims.Indexable(|withdrawal|) && Claims.AllHashed32(withdrawal)
    ensures LongLeaves(Claims.EscapeLeaves(batchId, escape)) && LongLeaves(Claims.WithdrawalLeaves(batchId, withdrawal))
  {
    hide Claims.EscapePreimage, Claims.WithdrawalPreimage;
    forall i | 0 <= i < |withdrawal| ensures |Claims.WithdrawalPreimage(batchId, i, withdrawal[i])| >= 111 {
      Claims.WithdrawalLeafBinds(batchId, i, withdrawal[i], batchId, i, withdrawal[i]);
    }
  }

  lemma CleanHash(hash: Hash, leaves: seq<Digest>, x: string, proof: seq<string>, index: int)
    requires leaves != [] && Clean(hash, leaves, x, proof, index)
    ensures Hash32(hash)
  {
  }

  lemma {:induction false} FoldLength(hash: Hash, x: string, proof: seq<string>, index: int)
    requires Hash32(hash) && |x| == 32
    ensures |FoldBytes(hash, x, proof, index)| == 32
    decreases proof
  {
    if proof != [] {
      FoldLength(hash, hash(Join(x, proof[0], index)), proof[1..], Half(index));
    }
  }

  lemma LeafAt(leaves: seq<Digest>, steps: nat, index: nat)
    requires leaves != [] && steps == Depth(|leaves|) && LongLeaves(leaves)
    ensures var node := NodeAt(leaves, 0, steps, index);
            node.Leaf? && |node.preimage| != 64
  {
    hide Depth, Spot;
    SpotBelow(|leaves|, 0, steps, index);
  }

  // ---------------------------------------------------------------- proofs that are none

  /** Any node's preimage, cut in two at any place, is accepted as a leaf and a first item: the 64 bytes under
      an inner node, or a leaf's own preimage with a proof one longer than the tree is deep. */
  lemma AnyCutAccepted(hash: Hash, leaves: seq<Digest>, h: nat, steps: nat, index: nat, cut: nat)
    requires leaves != [] && h + steps == Depth(|leaves|)
    requires cut <= |PreimageOf(hash, NodeAt(leaves, h, steps, index))|
    ensures var preimage := PreimageOf(hash, NodeAt(leaves, h, steps, index));
            var proof := [preimage[cut..]] + AllBytes(hash, WayUp(leaves, h, steps, index));
            FoldBytes(hash, preimage[..cut], proof, 2 * index) == BytesOf(hash, Root(leaves))
  {
    hide NodeAt, WayUp, Root, Depth, BytesOf, PreimageOf, AllBytes, Fold;
    var node := NodeAt(leaves, h, steps, index);
    var preimage, way := PreimageOf(hash, node), WayUp(leaves, h, steps, index);
    var proof := [preimage[cut..]] + AllBytes(hash, way);
    FoldsToRootIff(leaves, h, node, way, index);
    FoldOfDigests(hash, node, way, index);
    BytesHash(hash, node);
    assert preimage[..cut] + preimage[cut..] == preimage;
    assert proof[1..] == AllBytes(hash, way);
  }
}
