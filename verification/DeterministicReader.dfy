/** The deterministic byte stream that stands in for randomness: SHA-256 of the seed and a running
    counter, block after block. How the stream is cut into reads does not show in its bytes. */
module DeterministicReader {
  import opened Bytes
  import opened Sums

  /** A count as the 64-bit counter holds it. */
  function Counter(k: nat): nat {
    k % 0x1_0000_0000_0000_0000
  }

  lemma CounterStep(k: nat)
    ensures Counter(k + 1) == Counter(Counter(k) + 1)
  {
  }

  /** Block k of the stream. */
  function Block(sha: string -> string, seed: string, k: nat): string {
    sha(seed + BigEndian(Counter(k), 8))
  }

  ghost predicate Blocks32(sha: string -> string) {
    forall s :: |sha(s)| == 32
  }

  ghost function ByteAt(sha: string -> string, seed: string, i: nat): char
    requires Blocks32(sha)
  {
    Block(sha, seed, i / 32)[i % 32]
  }

  /** The stretch of n bytes that starts at byte i. */
  ghost function Stretch(sha: string -> string, seed: string, i: nat, n: nat): (s: string)
    requires Blocks32(sha)
    ensures |s| == n
  {
    seq(n, j requires 0 <= j < n => ByteAt(sha, seed, i + j))
  }

  /** The bytes of the stream, place by place: block k is the hash of the seed followed by k as eight bytes. */
  lemma StreamReads(sha: string -> string, seed: string, k: nat, j: nat)
    requires Blocks32(sha) && k < 0x1_0000_0000_0000_0000 && j < 32
    ensures exists count: string ::
              |count| == 8 && FromBigEndian(count) == k && ByteAt(sha, seed, 32 * k + j) == sha(seed + count)[j]
  {
    hide BigEndian, FromBigEndian, Pow256;
    Pow256Of8();
    BigEndianRoundTrip(k, 8);
    assert (32 * k + j) / 32 == k && (32 * k + j) % 32 == j && Counter(k) == k;
    var count := BigEndian(k, 8);
    assert |count| == 8 && FromBigEndian(count) == k && ByteAt(sha, seed, 32 * k + j) == sha(seed + count)[j];
  }

  class Reader {
    const sha: string -> string
    const seed: string
    var counter: nat
    var buffer: string
    var offset: nat
    ghost var consumed: nat
    ghost var fetched: nat

    ghost predicate Valid()
      reads this
    {
      && Blocks32(sha)
      && offset <= |buffer|
      && counter == Counter(fetched)
      && (fetched == 0 ==> buffer == "" && consumed == 0)
      && (fetched > 0 ==> |buffer| == 32 && buffer == Block(sha, seed, fetched - 1))
      && (fetched > 0 ==> consumed == 32 * (fetched - 1) + offset)
    }

    constructor (sha: string -> string, seed: string)
      requires Blocks32(sha)
      ensures Valid() && consumed == 0 && this.sha == sha && this.seed == seed
    {
      this.sha, this.seed := sha, seed;
      counter, buffer, offset := 0, "", 0;
      consumed, fetched := 0, 0;
    }

    /** Fill the whole of p with the next bytes of the stream. */
    method Read(p: array<char>) returns (written: nat)
      requires Valid()
      modifies this, p
      ensures Valid() && written == p.Length && consumed == old(consumed) + p.Length
      ensures p[..] == Stretch(sha, seed, old(consumed), p.Length)
    {
      hide BigEndian, Counter, Block, ByteAt;
      written := 0;
      while written < p.Length
        invariant Valid() && written <= p.Length && consumed == old(consumed) + written
        invariant forall j :: 0 <= j < written ==> p[j] == ByteAt(sha, seed, old(consumed) + j)
      {
        if offset == |buffer| {
          Refill();
        }
        var n := if p.Length - written < |buffer| - offset then p.Length - written else |buffer| - offset;
        forall j | 0 <= j < n {
          p[written + j] := buffer[offset + j];
        }
        forall j | written <= j < written + n ensures p[j] == ByteAt(sha, seed, old(consumed) + j) {
          BlockByte(sha, seed, fetched - 1, offset + j - written);
        }
        written := written + n;
        offset := offset + n;
        consumed := consumed + n;
      }
    }

    method Refill()
      requires Valid() && offset == |buffer|
      modifies this
      ensures Valid() && consumed == old(consumed) && offset == 0 && |buffer| == 32
    {
      hide BigEndian, Counter;
      CounterStep(fetched);
      buffer := sha(seed + BigEndian(counter, 8));
      offset := 0;
      counter := Counter(counter + 1);
      fetched := fetched + 1;
    }
  }

  /** Bytes of a block are bytes of the stream. */
  lemma BlockByte(sha: string -> string, seed: string, k: nat, at: nat)
    requires Blocks32(sha) && at < 32
    ensures |Block(sha, seed, k)| == 32 && ByteAt(sha, seed, 32 * k + at) == Block(sha, seed, k)[at]
  {
    assert (32 * k + at) / 32 == k && (32 * k + at) % 32 == at;
  }

  lemma StretchConcat(sha: string -> string, seed: string, i: nat, m: nat, n: nat)
    requires Blocks32(sha)
    ensures Stretch(sha, seed, i, m) + Stretch(sha, seed, i + m, n) == Stretch(sha, seed, i, m + n)
  {
    hide ByteAt;
  }

  function ChunkSize(n: nat): int { n }

  lemma {:induction false} LengthNonNegative(sizes: seq<nat>)
    ensures SeqSum(sizes, ChunkSize) >= 0
  {
    if sizes != [] {
      LengthNonNegative(sizes[..|sizes| - 1]);
    }
  }

  ghost function Length(sizes: seq<nat>): nat {
    LengthNonNegative(sizes);
    SeqSum(sizes, ChunkSize)
  }

  /** Any sequence of reads from a new reader, put together, is the prefix of the stream of that length. */
  method ReadInChunks(sha: string -> string, seed: string, sizes: seq<nat>) returns (all: string)
    requires Blocks32(sha)
    ensures all == Stretch(sha, seed, 0, Length(sizes))
  {
    hide Stretch, Reader.Valid;
    var reader := new Reader(sha, seed);
    assert Stretch(sha, seed, 0, 0) == "";
    all := "";
    for i := 0 to |sizes|
      invariant fresh(reader) && reader.Valid() && reader.sha == sha && reader.seed == seed
      invariant reader.consumed == Length(sizes[..i])
      invariant all == Stretch(sha, seed, 0, Length(sizes[..i]))
    {
      var p := new char[sizes[i]](_ => '\0');
      var n := reader.Read(p);
      assert sizes[..i + 1][..i] == sizes[..i];
      StretchConcat(sha, seed, 0, Length(sizes[..i]), sizes[i]);
      all := all + p[..];
    }
    assert sizes[..|sizes|] == sizes;
  }
}
