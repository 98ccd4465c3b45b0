/** The claim tree builder as it would have to be written for every leaf's proof to verify. */
module FullTree {
  import opened Merkle

  ghost predicate NoRepeats(members: seq<nat>) {
    forall a, b :: 0 <= a < b < |members| ==> members[a] != members[b]
  }

  ghost predicate Within(members: seq<nat>, n: nat) {
    forall x :: x in members ==> x < n
  }

  /** The leaves under one node, each once. */
  ghost predicate Under(members: seq<nat>, n: nat, h: nat, j: nat) {
    NoRepeats(members) && forall x: nat :: x in members <==> x < n && Up(x, h) == j
  }

  ghost predicate UnderAll(groups: seq<seq<nat>>, n: nat, h: nat) {
    |groups| == Width(n, h) && forall j :: 0 <= j < |groups| ==> Under(groups[j], n, h, j)
  }

  /** Half way through a level: the leaves under the first `done` nodes have one sibling more. */
  ghost predicate PathsUpTo(leaves: seq<Digest>, proofs: seq<seq<Digest>>, h: nat, done: nat) {
    && |proofs| == |leaves|
    && forall x :: 0 <= x < |leaves| ==> proofs[x] == Path(leaves, x, 0, if Up(x, h) < done then h + 1 else h)
  }

  method AppendAll(proofs0: seq<seq<Digest>>, members: seq<nat>, sibling: Digest) returns (proofs: seq<seq<Digest>>)
    requires NoRepeats(members) && Within(members, |proofs0|)
    ensures |proofs| == |proofs0|
    ensures forall x :: 0 <= x < |proofs0| ==>
              proofs[x] == if x in members then proofs0[x] + [sibling] else proofs0[x]
  {
    proofs := proofs0;
    for k := 0 to |members|
      invariant |proofs| == |proofs0|
      invariant forall x :: 0 <= x < |proofs0| ==>
                  proofs[x] == if x in members[..k] then proofs0[x] + [sibling] else proofs0[x]
    {
      var x := members[k];
      assert x in members && x !in members[..k];
      assert members[..k + 1] == members[..k] + [x];
      proofs := proofs[x := proofs[x] + [sibling]];
    }
    assert members[..|members|] == members;
  }

  /** The builder as it would have to be: every joined node keeps all the leaves under it, and each of them
      receives the sibling. Every leaf's proof then verifies. */
  method BuildFullTree(leaves: seq<Digest>, emptyTag: string) returns (root: Digest, proofs: seq<seq<Digest>>)
    ensures root == if leaves == [] then Leaf(emptyTag) else Root(leaves)
    ensures |proofs| == |leaves|
    ensures forall x :: 0 <= x < |leaves| ==> proofs[x] == Path(leaves, x, 0, Depth(|leaves|))
    ensures forall x :: 0 <= x < |leaves| ==> Fold(leaves[x], proofs[x], x) == root
  {
    hide Level, Up, Next, Width, Path, Fold, UnderAll, PathsUpTo;
    if |leaves| == 0 {
      return Leaf(emptyTag), [];
    }
    var n := |leaves|;
    proofs := seq(n, _ => []);
    var level := leaves;
    var groups: seq<seq<nat>> := seq(n, i => [i]);
    ghost var h := 0;
    FullStart(leaves, proofs, groups);
    while |level| > 1
      invariant h <= Depth(n) && level == Level(leaves, h) && |level| > 0
      invariant |level| == 1 <==> h == Depth(n)
      invariant UnderAll(groups, n, h) && PathsUpTo(leaves, proofs, h, 0)
      decreases |level|
    {
      level, groups, proofs := JoinFullLevel(leaves, level, groups, proofs, h);
      h := h + 1;
      WidthAtDepth(n, h);
      LevelWidth(leaves, h);
    }
    root := level[0];
    PathsDone(leaves, proofs, h);
    forall x | 0 <= x < n ensures Fold(leaves[x], proofs[x], x) == root {
      FullPathVerifies(leaves, x);
    }
  }

  lemma FullStart(leaves: seq<Digest>, proofs: seq<seq<Digest>>, groups: seq<seq<nat>>)
    requires leaves != [] && |proofs| == |groups| == |leaves|
    requires forall i :: 0 <= i < |leaves| ==> proofs[i] == [] && groups[i] == [i]
    ensures Level(leaves, 0) == leaves && (|leaves| == 1 <==> Depth(|leaves|) == 0)
    ensures UnderAll(groups, |leaves|, 0) && PathsUpTo(leaves, proofs, 0, 0)
  {
  }

  lemma PathsDone(leaves: seq<Digest>, proofs: seq<seq<Digest>>, h: nat)
    requires PathsUpTo(leaves, proofs, h, 0)
    ensures |proofs| == |leaves| && forall x :: 0 <= x < |leaves| ==> proofs[x] == Path(leaves, x, 0, h)
  {
    hide Path, Up;
  }

  method JoinFullLevel(ghost leaves: seq<Digest>, level0: seq<Digest>, groups0: seq<seq<nat>>,
                       proofs0: seq<seq<Digest>>, ghost h: nat)
    returns (nextLevel: seq<Digest>, nextGroups: seq<seq<nat>>, proofs: seq<seq<Digest>>)
    requires level0 == Level(leaves, h) && |level0| > 1
    requires UnderAll(groups0, |leaves|, h) && PathsUpTo(leaves, proofs0, h, 0)
    ensures nextLevel == Level(leaves, h + 1) && 0 < |nextLevel| < |level0|
    ensures UnderAll(nextGroups, |leaves|, h + 1) && PathsUpTo(leaves, proofs, h + 1, 0)
  {
    hide Level, Width, Up, Under, UnderAll, PathsUpTo, Path;
    var level, groups := level0, groups0;
    proofs := proofs0;
    LevelWidth(leaves, h);
    GroupWidth(groups0, |leaves|, h);
    if |level| % 2 == 1 {
      level := level + [level[|level| - 1]];
      groups := groups + [[]];
    }
    nextLevel, nextGroups := [], [];
    var i := 0;
    while i < |level|
      invariant 0 <= i <= |level| && i % 2 == 0 && |nextLevel| == |nextGroups| == i / 2
      invariant forall p :: 0 <= p < i / 2 ==> nextLevel[p] == Node(level0[2 * p], Partner(level0, 2 * p))
      invariant forall p :: 0 <= p < i / 2 ==> nextGroups[p] == groups[2 * p] + groups[2 * p + 1]
      invariant PathsUpTo(leaves, proofs, h, i)
    {
      var left, right := level[i], level[i + 1];
      assert right == Partner(level0, i) && left == level0[i];
      PairUnder(groups0, groups, |leaves|, h, i);
      ghost var before := proofs;
      ProofCount(leaves, proofs, h, i);
      proofs := AppendAll(proofs, groups[i], right);
      ghost var between := proofs;
      proofs := AppendAll(proofs, groups[i + 1], left);
      PairPaths(leaves, groups[i], groups[i + 1], before, between, proofs, h, i);
      nextLevel := nextLevel + [Node(left, right)];
      nextGroups := nextGroups + [groups[i] + groups[i + 1]];
      i := i + 2;
    }
    LevelDone(leaves, level0, nextLevel, h);
    LevelWidth(leaves, h + 1);
    GroupsJoined(groups0, groups, nextGroups, |leaves|, h);
    PathsNext(leaves, proofs, h, i);
  }

  lemma GroupWidth(groups: seq<seq<nat>>, n: nat, h: nat)
    requires UnderAll(groups, n, h)
    ensures |groups| == Width(n, h)
  {
  }

  lemma ProofCount(leaves: seq<Digest>, proofs: seq<seq<Digest>>, h: nat, done: nat)
    requires PathsUpTo(leaves, proofs, h, done)
    ensures |proofs| == |leaves|
  {
  }

  /** The padded list of groups: an empty group stands beside the last node of an odd level. */
  ghost predicate PaddedGroups(groups0: seq<seq<nat>>, groups: seq<seq<nat>>) {
    groups == if |groups0| % 2 == 1 then groups0 + [[]] else groups0
  }

  lemma PairUnder(groups0: seq<seq<nat>>, groups: seq<seq<nat>>, n: nat, h: nat, i: nat)
    requires UnderAll(groups0, n, h) && PaddedGroups(groups0, groups) && i % 2 == 0 && i + 1 < |groups|
    ensures Under(groups[i], n, h, i) && Under(groups[i + 1], n, h, i + 1)
    ensures NoRepeats(groups[i]) && Within(groups[i], n)
    ensures NoRepeats(groups[i + 1]) && Within(groups[i + 1], n)
  {
    hide Up, Width;
    forall x: nat ensures x < n ==> Up(x, h) < |groups0| {
      if x < n {
        UpBelow(x, n, h);
      }
    }
  }

  lemma PairPaths(leaves: seq<Digest>, lefts: seq<nat>, rights: seq<nat>, before: seq<seq<Digest>>,
                  between: seq<seq<Digest>>, after: seq<seq<Digest>>, h: nat, i: nat)
    requires i < Width(|leaves|, h) && i % 2 == 0 && PathsUpTo(leaves, before, h, i)
    requires Under(lefts, |leaves|, h, i) && Under(rights, |leaves|, h, i + 1)
    requires |before| == |between| == |after|
    requires forall x :: 0 <= x < |before| ==>
               between[x] == if x in lefts then before[x] + [Partner(Level(leaves, h), i)] else before[x]
    requires forall x :: 0 <= x < |before| ==>
               after[x] == if x in rights then between[x] + [Level(leaves, h)[i]] else between[x]
    ensures PathsUpTo(leaves, after, h, i + 2)
  {
    hide Level, Up, Width, Path, NoRepeats;
    forall x | 0 <= x < |leaves| ensures after[x] == Path(leaves, x, 0, if Up(x, h) < i + 2 then h + 1 else h) {
      hide Partner;
      PairPath(leaves, before[x], h, i, x);
    }
  }

  /** What joining the nodes at places i and i + 1 does to the proof of one leaf. */
  lemma PairPath(leaves: seq<Digest>, was: seq<Digest>, h: nat, i: nat, x: nat)
    requires x < |leaves| && i < Width(|leaves|, h) && i % 2 == 0
    requires was == Path(leaves, x, 0, if Up(x, h) < i then h + 1 else h)
    ensures Path(leaves, x, 0, if Up(x, h) < i + 2 then h + 1 else h) ==
            if Up(x, h) == i then was + [Partner(Level(leaves, h), i)]
            else if Up(x, h) == i + 1 then was + [Level(leaves, h)[i]]
            else was
  {
    hide Level, Up, Width, Path, Sibling, Partner;
    PathSnoc(leaves, x, 0, h);
    SiblingInPair(leaves, x, h, i);
  }

  lemma SiblingInPair(leaves: seq<Digest>, x: nat, h: nat, i: nat)
    requires x < |leaves| && i < Width(|leaves|, h) && i % 2 == 0
    ensures Up(x, h) == i ==> Sibling(leaves, x, h) == Partner(Level(leaves, h), i)
    ensures Up(x, h) == i + 1 ==> Sibling(leaves, x, h) == Level(leaves, h)[i]
  {
    hide Level, Up, Width;
  }

  lemma GroupsJoined(groups0: seq<seq<nat>>, groups: seq<seq<nat>>, next: seq<seq<nat>>, n: nat, h: nat)
    requires UnderAll(groups0, n, h) && PaddedGroups(groups0, groups) && |next| == |groups| / 2
    requires forall p :: 0 <= p < |next| ==> next[p] == groups[2 * p] + groups[2 * p + 1]
    ensures UnderAll(next, n, h + 1)
  {
    hide Up, UnderAll;
    GroupWidth(groups0, n, h);
    forall p | 0 <= p < |next| ensures Under(next[p], n, h + 1, p) {
      PairUnder(groups0, groups, n, h, 2 * p);
      JoinUnder(groups[2 * p], groups[2 * p + 1], n, h, p);
    }
    AllUnder(next, n, h + 1);
  }

  lemma AllUnder(groups: seq<seq<nat>>, n: nat, h: nat)
    requires |groups| == Width(n, h) && forall j :: 0 <= j < |groups| ==> Under(groups[j], n, h, j)
    ensures UnderAll(groups, n, h)
  {
  }

  lemma JoinUnder(lefts: seq<nat>, rights: seq<nat>, n: nat, h: nat, p: nat)
    requires Under(lefts, n, h, 2 * p) && Under(rights, n, h, 2 * p + 1)
    ensures Under(lefts + rights, n, h + 1, p)
  {
    forall x: nat ensures Up(x, h + 1) == p <==> Up(x, h) == 2 * p || Up(x, h) == 2 * p + 1 {
    }
    hide Up;
    var both := lefts + rights;
    forall a, b | 0 <= a < b < |both| ensures both[a] != both[b] {
      if a < |lefts| <= b {
        assert both[a] in lefts && both[b] in rights;
      }
    }
  }

  lemma PathsNext(leaves: seq<Digest>, proofs: seq<seq<Digest>>, h: nat, done: nat)
    requires PathsUpTo(leaves, proofs, h, done) && done >= Width(|leaves|, h)
    ensures PathsUpTo(leaves, proofs, h + 1, 0)
  {
    hide Path, Up, Width;
    forall x | 0 <= x < |leaves| ensures proofs[x] == Path(leaves, x, 0, h + 1) {
      UpBelow(x, |leaves|, h);
    }
  }
}
