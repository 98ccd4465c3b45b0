/** What is hashed into the leaves of the two claim trees, and what their roots commit to. */
module Claims {
  import opened Int64
  import opened Bytes
  import opened Merkle

  const ESCAPE_TAG := "funny-rollup-escape-collateral-v1"
  const ESCAPE_EMPTY := "funny-rollup-empty-escape-collateral-root"
  const WITHDRAWAL_TAG := "funny-rollup-withdrawal-leaf-v1"
  const WITHDRAWAL_EMPTY := "funny-rollup-empty-withdrawal-root"

  /** An amount as 32 bytes, zero-filled on the left. */
  function AmountBytes(n: int64): (s: string)
    ensures |s| == 32
  {
    Repeat('\0', 24) + BigEndian(AsUint64(n), 8)
  }

  function Word(n: int64): (s: string)
    ensures |s| == 8
  {
    BigEndian(AsUint64(n), 8)
  }

  lemma WordInjective(m: int64, n: int64)
    requires Word(m) == Word(n)
    ensures m == n
  {
    hide BigEndian;
    BigEndian8Injective(AsUint64(m), AsUint64(n));
  }

  lemma AmountInjective(m: int64, n: int64)
    requires AmountBytes(m) == AmountBytes(n)
    ensures m == n
  {
    hide BigEndian;
    ConcatSplit(Repeat('\0', 24), Word(m), Repeat('\0', 24), Word(n));
    WordInjective(m, n);
  }

  /** Tag, batch and index, which every leaf preimage starts with. */
  function Header(tag: string, batchId: int64, index: int64): (s: string)
    ensures |s| == |tag| + 16
  {
    tag + Word(batchId) + Word(index)
  }

  lemma HeaderInjective(tag: string, a: int64, i: int64, b: int64, j: int64)
    requires Header(tag, a, i) == Header(tag, b, j)
    ensures a == b && i == j
  {
    hide Word;
    ConcatSplit(tag + Word(a), Word(i), tag + Word(b), Word(j));
    ConcatSplit(tag, Word(a), tag, Word(b));
    WordInjective(a, b);
    WordInjective(i, j);
  }

  // ---------------------------------------------------------------- escape claims

  type Address = s: string | |s| == 20 witness Repeat('\0', 20)

  datatype EscapeClaim = EscapeClaim(wallet: Address, amount: int64)

  function EscapePreimage(batchId: int64, index: int64, c: EscapeClaim): (s: string)
    ensures |s| == 101
  {
    Header(ESCAPE_TAG, batchId, index) + c.wallet + AmountBytes(c.amount)
  }

  lemma HeaderReads(tag: string, batchId: int64, index: int64)
    ensures var h := Header(tag, batchId, index);
            && h[..|tag|] == tag && FromBigEndian(h[|tag|..|tag| + 8]) == AsUint64(batchId)
            && FromBigEndian(h[|tag| + 8..]) == AsUint64(index)
  {
    hide BigEndian, FromBigEndian, Pow256;
    var h := Header(tag, batchId, index);
    Pow256Of8();
    BigEndianRoundTrip(AsUint64(batchId), 8);
    BigEndianRoundTrip(AsUint64(index), 8);
    assert h[|tag|..|tag| + 8] == Word(batchId) && h[|tag| + 8..] == Word(index);
  }

  lemma AmountReads(n: int64)
    ensures FromBigEndian(AmountBytes(n)) == AsUint64(n)
  {
    hide BigEndian, FromBigEndian, Pow256;
    Pow256Of8();
    BigEndianRoundTrip(AsUint64(n), 8);
    FromRepeat(24);
    FromBigEndianConcat(Repeat('\0', 24), BigEndian(AsUint64(n), 8));
  }

  /** What a reader of an escape leaf finds, place by place. */
  lemma EscapeReads(batchId: int64, index: int64, c: EscapeClaim)
    ensures var p := EscapePreimage(batchId, index, c);
            && p[..33] == "funny-rollup-escape-collateral-v1"
            && FromBigEndian(p[33..41]) == AsUint64(batchId) && FromBigEndian(p[41..49]) == AsUint64(index)
            && p[49..69] == c.wallet && FromBigEndian(p[69..]) == AsUint64(c.amount)
  {
    hide Header, AmountBytes, FromBigEndian;
    var p, h := EscapePreimage(batchId, index, c), Header(ESCAPE_TAG, batchId, index);
    HeaderReads(ESCAPE_TAG, batchId, index);
    AmountReads(c.amount);
    assert p[..33] == h[..33] && p[33..41] == h[33..41] && p[41..49] == h[41..] && p[69..] == AmountBytes(c.amount);
  }

  lemma EscapeLeafBinds(a: int64, i: int64, c: EscapeClaim, b: int64, j: int64, d: EscapeClaim)
    requires EscapePreimage(a, i, c) == EscapePreimage(b, j, d)
    ensures a == b && i == j && c == d
  {
    hide Header, AmountBytes;
    ConcatSplit(Header(ESCAPE_TAG, a, i) + c.wallet, AmountBytes(c.amount), Header(ESCAPE_TAG, b, j) + d.wallet,
                AmountBytes(d.amount));
    ConcatSplit(Header(ESCAPE_TAG, a, i), c.wallet, Header(ESCAPE_TAG, b, j), d.wallet);
    HeaderInjective(ESCAPE_TAG, a, i, b, j);
    AmountInjective(c.amount, d.amount);
  }

  ghost predicate Indexable(n: nat) {
    n <= MAX_INT64
  }

  function EscapeLeaves(batchId: int64, claims: seq<EscapeClaim>): (leaves: seq<Digest>)
    requires Indexable(|claims|)
    ensures |leaves| == |claims|
  {
    seq(|claims|, i requires 0 <= i < |claims| => Leaf(EscapePreimage(batchId, i, claims[i])))
  }

  /** The index inside each preimage keeps the leaves apart, even for equal claims. */
  lemma EscapeLeavesDistinct(batchId: int64, claims: seq<EscapeClaim>)
    requires Indexable(|claims|)
    ensures AllLeaves(EscapeLeaves(batchId, claims)) && Distinct(EscapeLeaves(batchId, claims))
  {
    hide EscapePreimage;
    var leaves := EscapeLeaves(batchId, claims);
    forall i, j | 0 <= i < j < |leaves| ensures leaves[i] != leaves[j] {
      if leaves[i] == leaves[j] {
        EscapeLeafBinds(batchId, i, claims[i], batchId, j, claims[j]);
      }
    }
  }

  function EscapeRoot(batchId: int64, claims: seq<EscapeClaim>): Digest
    requires Indexable(|claims|)
  {
    if claims == [] then Leaf(ESCAPE_EMPTY) else Root(EscapeLeaves(batchId, claims))
  }

  lemma EmptyRootApart(batchId: int64, claims: seq<EscapeClaim>)
    requires Indexable(|claims|) && claims != []
    ensures EscapeRoot(batchId, claims) != Leaf(ESCAPE_EMPTY)
  {
    hide EscapePreimage, Level;
    var leaves := EscapeLeaves(batchId, claims);
    if |leaves| == 1 {
      LevelZero(leaves);
      assert Root(leaves) == leaves[0];
    } else {
      EscapeLeavesDistinct(batchId, claims);
      WidthAtDepth(|leaves|, Depth(|leaves|));
      LevelHeight(leaves, Depth(|leaves|), 0);
    }
  }

  /** The anchored escape root commits to the exact list of wallets and amounts, and to the batch. */
  lemma EscapeRootBinds(a: int64, claims: seq<EscapeClaim>, b: int64, others: seq<EscapeClaim>)
    requires Indexable(|claims|) && Indexable(|others|) && EscapeRoot(a, claims) == EscapeRoot(b, others)
    ensures claims == others && (claims != [] ==> a == b)
  {
    hide EscapePreimage, Root, Distinct, AllLeaves;
    if claims == [] || others == [] {
      if claims != [] {
        EmptyRootApart(a, claims);
      }
      if others != [] {
        EmptyRootApart(b, others);
      }
    } else {
      EscapeLeavesDistinct(a, claims);
      EscapeLeavesDistinct(b, others);
      var x, y := EscapeLeaves(a, claims), EscapeLeaves(b, others);
      RootBinds(x, y);
      forall i | 0 <= i < |claims| ensures claims[i] == others[i] && a == b {
        assert x[i] == y[i];
        EscapeLeafBinds(a, i, claims[i], b, i, others[i]);
      }
      assert claims[0] == others[0];
    }
  }

  // ---------------------------------------------------------------- withdrawal claims

  /** Id hash, wallet and recipient text, amount. */
  datatype WithdrawalClaim = WithdrawalClaim(idHash: string, wallet: string, amount: int64, recipient: string)

  ghost predicate Hashed32(c: WithdrawalClaim) {
    |c.idHash| == 32
  }

  function WithdrawalPreimage(batchId: int64, index: int64, c: WithdrawalClaim): string {
    Header(WITHDRAWAL_TAG, batchId, index) + c.idHash + c.wallet + AmountBytes(c.amount) + c.recipient
  }

  /** What a reader of a withdrawal leaf finds, once told how long the wallet is. */
  lemma WithdrawalReads(batchId: int64, index: int64, c: WithdrawalClaim)
    requires Hashed32(c)
    ensures var p, n := WithdrawalPreimage(batchId, index, c), |c.wallet|;
            && |p| == 111 + n + |c.recipient| && p[..31] == "funny-rollup-withdrawal-leaf-v1"
            && FromBigEndian(p[31..39]) == AsUint64(batchId) && FromBigEndian(p[39..47]) == AsUint64(index)
            && p[47..79] == c.idHash && p[79..79 + n] == c.wallet
            && FromBigEndian(p[79 + n..111 + n]) == AsUint64(c.amount) && p[111 + n..] == c.recipient
  {
    hide Header, AmountBytes, FromBigEndian;
    var p, h, n := WithdrawalPreimage(batchId, index, c), Header(WITHDRAWAL_TAG, batchId, index), |c.wallet|;
    HeaderReads(WITHDRAWAL_TAG, batchId, index);
    AmountReads(c.amount);
    assert p[..31] == h[..31] && p[31..39] == h[31..39] && p[39..47] == h[39..];
    assert p[47..79] == c.idHash && p[79..79 + n] == c.wallet;
    assert p[79 + n..111 + n] == AmountBytes(c.amount) && p[111 + n..] == c.recipient;
  }

  /** The roots of no claims. */
  lemma EmptyRoots(batchId: int64)
    ensures EscapeRoot(batchId, []) == Leaf("funny-rollup-empty-escape-collateral-root")
    ensures WithdrawalRoot(batchId, []) == Leaf("funny-rollup-empty-withdrawal-root")
  {
  }

  /** A wallet text as any address is: without a zero byte. */
  predicate PlainWallet(c: WithdrawalClaim) {
    '\0' !in c.wallet
  }

  /** A withdrawal leaf binds its batch, index and id hash; and, among claims whose wallets hold no zero byte,
      every field, since the amount starts with one. Without that condition, which nothing in the hashing
      asks for, two claims with one preimage are the same exactly when their wallets are of one length. */
  lemma WithdrawalLeafBinds(a: int64, i: int64, c: WithdrawalClaim, b: int64, j: int64, d: WithdrawalClaim)
    requires Hashed32(c) && Hashed32(d) && WithdrawalPreimage(a, i, c) == WithdrawalPreimage(b, j, d)
    ensures a == b && i == j && c.idHash == d.idHash
    ensures PlainWallet(c) && PlainWallet(d) ==> c == d
    ensures c == d <==> |c.wallet| == |d.wallet|
    ensures |WithdrawalPreimage(a, i, c)| >= 111
  {
    hide Header, AmountBytes;
    var h, g := Header(WITHDRAWAL_TAG, a, i), Header(WITHDRAWAL_TAG, b, j);
    var x, y := AmountBytes(c.amount), AmountBytes(d.amount);
    assert WithdrawalPreimage(a, i, c) == h + (c.idHash + (c.wallet + (x + c.recipient)));
    assert WithdrawalPreimage(b, j, d) == g + (d.idHash + (d.wallet + (y + d.recipient)));
    ConcatSplit(h, c.idHash + (c.wallet + (x + c.recipient)), g, d.idHash + (d.wallet + (y + d.recipient)));
    ConcatSplit(c.idHash, c.wallet + (x + c.recipient), d.idHash, d.wallet + (y + d.recipient));
    HeaderInjective(WITHDRAWAL_TAG, a, i, b, j);
    if PlainWallet(c) && PlainWallet(d) {
      WalletEndsAlike(c.wallet, c.amount, c.recipient, d.wallet, d.amount, d.recipient);
      WalletEndsAlike(d.wallet, d.amount, d.recipient, c.wallet, c.amount, c.recipient);
    }
    if |c.wallet| == |d.wallet| {
      ConcatSplit(c.wallet, x + c.recipient, d.wallet, y + d.recipient);
      ConcatSplit(x, c.recipient, y, d.recipient);
      AmountInjective(c.amount, d.amount);
    }
  }

  /** The amount's leading zero byte marks where a wallet without one ends. */
  lemma WalletEndsAlike(v: string, m: int64, r: string, w: string, n: int64, q: string)
    requires v + (AmountBytes(m) + r) == w + (AmountBytes(n) + q) && '\0' !in w
    ensures |w| <= |v|
  {
    hide BigEndian;
    var whole := v + (AmountBytes(m) + r);
    assert whole[|v|] == AmountBytes(m)[0] == '\0';
    assert forall i :: 0 <= i < |w| ==> whole[i] == w[i];
  }

  /** Claims whose amount field can be read one byte further right. */
  predicate Shiftable(c: WithdrawalClaim) {
    0 <= c.amount < 0x80_0000_0000_0000 && c.recipient != "" && c.recipient[0] as int < 256
  }

  /** The same bytes with the first zero of the amount counted to the wallet, and the first byte of the
      recipient to the amount. */
  function Shifted(c: WithdrawalClaim): WithdrawalClaim
    requires Shiftable(c)
  {
    WithdrawalClaim(c.idHash, c.wallet + "\0", 256 * c.amount + c.recipient[0] as int, c.recipient[1..])
  }

  lemma AmountShifts(n: int64, r: string)
    requires 0 <= n < 0x80_0000_0000_0000 && r != "" && r[0] as int < 256
    ensures AmountBytes(n) + r == "\0" + AmountBytes(256 * n + r[0] as int) + r[1..]
  {
    hide BigEndian, Pow256;
    var m := 256 * n + r[0] as int;
    Pow256Of7();
    LeadingZero(n, 7);
    LastByte(n, r[0]);
    assert Repeat('\0', 24) + "\0" == "\0" + Repeat('\0', 24);
    assert r == [r[0]] + r[1..];
  }

  lemma LastByte(n: nat, c: char)
    requires c as int < 256
    ensures BigEndian(256 * n + c as int, 8) == BigEndian(n, 7) + [c]
  {
    var m := 256 * n + c as int;
    assert m / 256 == n && m % 256 == c as int;
  }

  /** A claim and its shifted form are different claims with one preimage. */
  lemma ShiftedCollides(batchId: int64, index: int64, c: WithdrawalClaim)
    requires Shiftable(c)
    ensures Shifted(c) != c
    ensures WithdrawalPreimage(batchId, index, Shifted(c)) == WithdrawalPreimage(batchId, index, c)
  {
    hide Header, AmountBytes;
    var h, d := Header(WITHDRAWAL_TAG, batchId, index), Shifted(c);
    AmountShifts(c.amount, c.recipient);
    assert WithdrawalPreimage(batchId, index, c) == h + c.idHash + c.wallet + (AmountBytes(c.amount) + c.recipient);
    assert WithdrawalPreimage(batchId, index, d) ==
           h + c.idHash + c.wallet + ("\0" + AmountBytes(d.amount) + d.recipient);
    assert |d.wallet| != |c.wallet|;
  }

  function WithdrawalLeaves(batchId: int64, claims: seq<WithdrawalClaim>): (leaves: seq<Digest>)
    requires Indexable(|claims|)
    ensures |leaves| == |claims|
  {
    seq(|claims|, i requires 0 <= i < |claims| => Leaf(WithdrawalPreimage(batchId, i, claims[i])))
  }

  ghost predicate AllHashed32(claims: seq<WithdrawalClaim>) {
    forall i :: 0 <= i < |claims| ==> Hashed32(claims[i])
  }

  lemma WithdrawalLeavesDistinct(batchId: int64, claims: seq<WithdrawalClaim>)
    requires Indexable(|claims|) && AllHashed32(claims)
    ensures AllLeaves(WithdrawalLeaves(batchId, claims)) && Distinct(WithdrawalLeaves(batchId, claims))
  {
    hide WithdrawalPreimage;
    var leaves := WithdrawalLeaves(batchId, claims);
    forall i, j | 0 <= i < j < |leaves| ensures leaves[i] != leaves[j] {
      if leaves[i] == leaves[j] {
        WithdrawalLeafBinds(batchId, i, claims[i], batchId, j, claims[j]);
      }
    }
  }

  function WithdrawalRoot(batchId: int64, claims: seq<WithdrawalClaim>): Digest
    requires Indexable(|claims|)
  {
    if claims == [] then Leaf(WITHDRAWAL_EMPTY) else Root(WithdrawalLeaves(batchId, claims))
  }

  lemma EmptyWithdrawalRootApart(batchId: int64, claims: seq<WithdrawalClaim>)
    requires Indexable(|claims|) && AllHashed32(claims) && claims != []
    ensures WithdrawalRoot(batchId, claims) != Leaf(WITHDRAWAL_EMPTY)
  {
    hide WithdrawalPreimage, Level;
    var leaves := WithdrawalLeaves(batchId, claims);
    if |leaves| == 1 {
      LevelZero(leaves);
      WithdrawalLeafBinds(batchId, 0, claims[0], batchId, 0, claims[0]);
      assert Root(leaves) == leaves[0];
    } else {
      WithdrawalLeavesDistinct(batchId, claims);
      WidthAtDepth(|leaves|, Depth(|leaves|));
      LevelHeight(leaves, Depth(|leaves|), 0);
    }
  }

  ghost predicate PlainWallets(claims: seq<WithdrawalClaim>) {
    forall i :: 0 <= i < |claims| ==> PlainWallet(claims[i])
  }

  ghost predicate WalletsAlign(claims: seq<WithdrawalClaim>, others: seq<WithdrawalClaim>) {
    |claims| == |others| && forall i :: 0 <= i < |claims| ==> |claims[i].wallet| == |others[i].wallet|
  }

  ghost predicate SameIds(claims: seq<WithdrawalClaim>, others: seq<WithdrawalClaim>) {
    |claims| == |others| && forall i :: 0 <= i < |claims| ==> claims[i].idHash == others[i].idHash
  }

  /** The withdrawal root commits to the batch and, in order, to every withdrawal id, empty list included; to
      the whole list if no wallet holds a zero byte; and otherwise exactly when the wallet texts are of the
      same lengths. */
  lemma WithdrawalRootBinds(a: int64, claims: seq<WithdrawalClaim>, b: int64, others: seq<WithdrawalClaim>)
    requires Indexable(|claims|) && Indexable(|others|) && AllHashed32(claims) && AllHashed32(others)
    requires WithdrawalRoot(a, claims) == WithdrawalRoot(b, others)
    ensures SameIds(claims, others) && (claims != [] ==> a == b)
    ensures PlainWallets(claims) && PlainWallets(others) ==> claims == others
    ensures claims == others <==> WalletsAlign(claims, others)
  {
    hide WithdrawalPreimage, Root, Distinct, AllLeaves;
    if claims == [] || others == [] {
      if claims != [] {
        EmptyWithdrawalRootApart(a, claims);
      }
      if others != [] {
        EmptyWithdrawalRootApart(b, others);
      }
    } else {
      WithdrawalLeavesDistinct(a, claims);
      WithdrawalLeavesDistinct(b, others);
      var x, y := WithdrawalLeaves(a, claims), WithdrawalLeaves(b, others);
      RootBinds(x, y);
      forall i | 0 <= i < |claims|
        ensures a == b && claims[i].idHash == others[i].idHash
        ensures |claims[i].wallet| == |others[i].wallet| ==> claims[i] == others[i]
        ensures PlainWallet(claims[i]) && PlainWallet(others[i]) ==> claims[i] == others[i]
      {
        assert x[i] == y[i];
        WithdrawalLeafBinds(a, i, claims[i], b, i, others[i]);
      }
      assert claims[0].idHash == others[0].idHash;
    }
  }

  /** So a list of claims shares its root with the list in which one claim is shifted. */
  lemma ShiftedListCollides(batchId: int64, claims: seq<WithdrawalClaim>, k: nat)
    requires Indexable(|claims|) && k < |claims| && Shiftable(claims[k])
    ensures var others := claims[k := Shifted(claims[k])];
            others != claims && WithdrawalRoot(batchId, others) == WithdrawalRoot(batchId, claims)
  {
    hide WithdrawalPreimage, Root;
    var others := claims[k := Shifted(claims[k])];
    ShiftedCollides(batchId, k, claims[k]);
    assert others[k] != claims[k];
    assert WithdrawalLeaves(batchId, others) == WithdrawalLeaves(batchId, claims);
  }
}
