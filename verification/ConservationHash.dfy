/** The byte string hashed into a conservation record. Keccak is any function with 32-byte results. */
module ConservationHash {
  import opened Int64
  import opened Bytes
  import opened Conservation

  const VERSION := "funny-rollup-conservation-v1"

  /** A signed net as 32 bytes, sign-extended. */
  function NetBytes(n: int64): (s: string)
    ensures |s| == 32
  {
    Repeat(if n >= 0 then '\0' else 255 as char, 24) + BigEndian(AsUint64(n), 8)
  }

  function Block(keccak: string -> string, d: AssetDelta): string {
    keccak(d.asset) + NetBytes(d.netDelta)
  }

  function Blocks(keccak: string -> string, ds: seq<AssetDelta>): string {
    if ds == [] then "" else Blocks(keccak, ds[..|ds| - 1]) + Block(keccak, ds[|ds| - 1])
  }

  function Preimage(keccak: string -> string, batchId: int64, ds: seq<AssetDelta>): string {
    VERSION + BigEndian(AsUint64(batchId), 8) + BigEndian(|ds| % 0x1_0000_0000, 4) + Blocks(keccak, ds)
  }

  method BuildPreimage(keccak: string -> string, batchId: int64, ds: seq<AssetDelta>) returns (preimage: string)
    ensures preimage == Preimage(keccak, batchId, ds)
  {
    hide NetBytes, BigEndian;
    preimage := VERSION;
    preimage := preimage + BigEndian(AsUint64(batchId), 8);
    preimage := preimage + BigEndian(|ds| % 0x1_0000_0000, 4);
    ghost var head := preimage;
    for i := 0 to |ds|
      invariant preimage == head + Blocks(keccak, ds[..i])
    {
      assert ds[..i + 1][..i] == ds[..i];
      preimage := preimage + keccak(ds[i].asset);
      preimage := preimage + NetBytes(ds[i].netDelta);
      assert preimage == head + (Blocks(keccak, ds[..i]) + Block(keccak, ds[i]));
    }
    assert ds[..|ds|] == ds;
  }

  // ---------------------------------------------------------------- reading it back

  /** Two's complement, big-endian. */
  ghost function SignedBigEndian(s: string): int {
    var u := FromBigEndian(s);
    if 2 * u >= Pow256(|s|) then u - Pow256(|s|) else u
  }

  /** The 32-byte field decodes to the net it was made from. */
  lemma NetBytesRoundTrip(n: int64)
    ensures SignedBigEndian(NetBytes(n)) == n
  {
    hide FromBigEndian, Pow256, BigEndian;
    var high := Repeat(if n >= 0 then '\0' else 255 as char, 24);
    var low := BigEndian(AsUint64(n), 8);
    Pow256Of8();
    FromRepeat(24);
    BigEndianRoundTrip(AsUint64(n), 8);
    FromBigEndianConcat(high, low);
    Pow256Add(24, 8);
    assert Pow256(24) >= 1;
    if n < 0 {
      assert FromBigEndian(high + low) == (Pow256(24) - 1) * Pow256(8) + (n + MODULUS);
      assert FromBigEndian(high + low) == Pow256(32) + n;
    }
    assert Pow256(32) == Pow256(24) * MODULUS >= MODULUS;
  }

  /** What a reader of the preimage finds, place by place: the version, the batch, the number of assets and for
      each asset its hash and its signed net. */
  lemma PreimageReads(keccak: string -> string, batchId: int64, ds: seq<AssetDelta>, i: nat)
    requires i < |ds| && forall s :: |keccak(s)| == 32
    ensures var p := Preimage(keccak, batchId, ds);
            && |p| == 40 + 64 * |ds|
            && p[..28] == "funny-rollup-conservation-v1"
            && FromBigEndian(p[28..36]) == AsUint64(batchId) && FromBigEndian(p[36..40]) == |ds| % 0x1_0000_0000
            && p[40 + 64 * i..72 + 64 * i] == keccak(ds[i].asset)
            && SignedBigEndian(p[72 + 64 * i..104 + 64 * i]) == ds[i].netDelta
  {
    hide Blocks, BigEndian, FromBigEndian, NetBytes, Pow256;
    var p := Preimage(keccak, batchId, ds);
    Pow256Of8();
    Pow256Of4();
    BigEndianRoundTrip(AsUint64(batchId), 8);
    BigEndianRoundTrip(|ds| % 0x1_0000_0000, 4);
    BlocksLength(keccak, ds);
    assert p[28..36] == BigEndian(AsUint64(batchId), 8);
    assert p[36..40] == BigEndian(|ds| % 0x1_0000_0000, 4);
    BlockAt(keccak, ds, i);
    NetBytesRoundTrip(ds[i].netDelta);
    var blocks := Blocks(keccak, ds);
    assert p[40..] == blocks;
    assert p[40 + 64 * i..72 + 64 * i] == blocks[64 * i..64 * i + 32];
    assert p[72 + 64 * i..104 + 64 * i] == blocks[64 * i + 32..64 * i + 64];
  }

  lemma {:induction false} BlockAt(keccak: string -> string, ds: seq<AssetDelta>, i: nat)
    requires i < |ds| && forall s :: |keccak(s)| == 32
    ensures |Blocks(keccak, ds)| == 64 * |ds|
    ensures Blocks(keccak, ds)[64 * i..64 * i + 32] == keccak(ds[i].asset)
    ensures Blocks(keccak, ds)[64 * i + 32..64 * i + 64] == NetBytes(ds[i].netDelta)
  {
    hide NetBytes;
    BlocksLength(keccak, ds);
    var before, last := ds[..|ds| - 1], ds[|ds| - 1];
    BlocksLength(keccak, before);
    if i < |before| {
      BlockAt(keccak, before, i);
      var b := Blocks(keccak, before);
      assert Blocks(keccak, ds) == b + Block(keccak, last);
      assert (b + Block(keccak, last))[64 * i..64 * i + 32] == b[64 * i..64 * i + 32];
      assert (b + Block(keccak, last))[64 * i + 32..64 * i + 64] == b[64 * i + 32..64 * i + 64];
    }
  }

  lemma {:induction false} BlocksBind(keccak: string -> string, a: seq<AssetDelta>, b: seq<AssetDelta>)
    requires forall s :: |keccak(s)| == 32
    requires Blocks(keccak, a) == Blocks(keccak, b)
    ensures |a| == |b|
    ensures forall i :: 0 <= i < |a| ==> keccak(a[i].asset) == keccak(b[i].asset) && a[i].netDelta == b[i].netDelta
  {
    hide NetBytes;
    BlocksLength(keccak, a);
    BlocksLength(keccak, b);
    if a != [] {
      var x, y := a[|a| - 1], b[|b| - 1];
      var u, v := Blocks(keccak, a[..|a| - 1]), Blocks(keccak, b[..|b| - 1]);
      BlocksLength(keccak, a[..|a| - 1]);
      BlocksLength(keccak, b[..|b| - 1]);
      ConcatSplit(u, Block(keccak, x), v, Block(keccak, y));
      ConcatSplit(keccak(x.asset), NetBytes(x.netDelta), keccak(y.asset), NetBytes(y.netDelta));
      NetBytesRoundTrip(x.netDelta);
      NetBytesRoundTrip(y.netDelta);
      BlocksBind(keccak, a[..|a| - 1], b[..|b| - 1]);
    }
  }

  lemma {:induction false} BlocksLength(keccak: string -> string, ds: seq<AssetDelta>)
    requires forall s :: |keccak(s)| == 32
    ensures |Blocks(keccak, ds)| == 64 * |ds|
  {
    hide NetBytes;
    if ds != [] {
      BlocksLength(keccak, ds[..|ds| - 1]);
    }
  }

  /** Equal preimages come from the same batch, the same number of assets and, in order, the same asset
      hashes and signed nets. */
  lemma PreimageBinds(keccak: string -> string, a: int64, ds: seq<AssetDelta>, b: int64, es: seq<AssetDelta>)
    requires forall s :: |keccak(s)| == 32
    requires Preimage(keccak, a, ds) == Preimage(keccak, b, es)
    ensures a == b && |ds| == |es|
    ensures forall i :: 0 <= i < |ds| ==> keccak(ds[i].asset) == keccak(es[i].asset) && ds[i].netDelta == es[i].netDelta
  {
    hide Blocks, BigEndian;
    var x, y := BigEndian(AsUint64(a), 8), BigEndian(AsUint64(b), 8);
    var m, n := BigEndian(|ds| % 0x1_0000_0000, 4), BigEndian(|es| % 0x1_0000_0000, 4);
    var u, v := Blocks(keccak, ds), Blocks(keccak, es);
    ConcatSplit(VERSION + x + m, u, VERSION + y + n, v);
    ConcatSplit(VERSION + x, m, VERSION + y, n);
    ConcatSplit(VERSION, x, VERSION, y);
    BigEndian8Injective(AsUint64(a), AsUint64(b));
    BlocksBind(keccak, ds, es);
  }

  /** The strings hashed for a record: its assets and its preimage. */
  ghost function HashedFor(keccak: string -> string, r: Record): set<string> {
    (set i | 0 <= i < |r.deltas| :: r.deltas[i].asset) + {Preimage(keccak, r.batchId, r.deltas)}
  }

  ghost predicate NoCollision(keccak: string -> string, strings: set<string>) {
    && (forall s :: |keccak(s)| == 32)
    && (forall s, t :: s in strings && t in strings && keccak(s) == keccak(t) ==> s == t)
  }

  /** Unless strings hashed for them collide, two records with one hash report the same nets for the same
      assets of the same batch, and agree on whether the batch is conserved. */
  lemma RecordHashBinds(keccak: string -> string, r: Record, q: Record, xs: seq<Ledger.Entry>, ys: seq<Ledger.Entry>)
    requires IsRecordOf(r, r.batchId, xs) && IsRecordOf(q, q.batchId, ys)
    requires NoCollision(keccak, HashedFor(keccak, r) + HashedFor(keccak, q))
    requires keccak(Preimage(keccak, r.batchId, r.deltas)) == keccak(Preimage(keccak, q.batchId, q.deltas))
    ensures r.batchId == q.batchId && |r.deltas| == |q.deltas| && r.conserved == q.conserved
    ensures forall i :: 0 <= i < |r.deltas| ==>
              r.deltas[i].asset == q.deltas[i].asset && r.deltas[i].netDelta == q.deltas[i].netDelta
  {
    hide Preimage, DeltaOf, Sorting.Sorted, Mentioned;
    PreimageBinds(keccak, r.batchId, r.deltas, q.batchId, q.deltas);
    forall i | 0 <= i < |r.deltas|
      ensures r.deltas[i].asset == q.deltas[i].asset && r.deltas[i].netDelta == q.deltas[i].netDelta
    {
      assert r.deltas[i].asset in HashedFor(keccak, r) && q.deltas[i].asset in HashedFor(keccak, q);
    }
  }
}
