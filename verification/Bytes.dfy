/** Byte strings. A Go string or byte slice is a Dafny string whose characters stand for bytes. */
module Bytes {

  function Pow256(k: nat): (r: int)
    ensures r >= 1
  {
    if k == 0 then 1 else 256 * Pow256(k - 1)
  }

  /** The k-byte big-endian form of n, dropping what does not fit. */
  function BigEndian(n: nat, k: nat): (s: string)
    ensures |s| == k
  {
    if k == 0 then "" else BigEndian(n / 256, k - 1) + [(n % 256) as char]
  }

  function FromBigEndian(s: string): (n: nat) {
    if s == "" then 0 else 256 * FromBigEndian(s[..|s| - 1]) + s[|s| - 1] as nat
  }

  lemma {:induction false} BigEndianRoundTrip(n: nat, k: nat)
    requires n < Pow256(k)
    ensures FromBigEndian(BigEndian(n, k)) == n
  {
    if k > 0 {
      BigEndianRoundTrip(n / 256, k - 1);
      assert BigEndian(n, k)[..k - 1] == BigEndian(n / 256, k - 1);
    }
  }

  /** A number that fits fewer bytes starts with a zero byte. */
  lemma {:induction false} LeadingZero(n: nat, k: nat)
    requires n < Pow256(k)
    ensures BigEndian(n, k + 1) == "\0" + BigEndian(n, k)
  {
    if k > 0 {
      LeadingZero(n / 256, k - 1);
    }
  }

  lemma Pow256Of4()
    ensures Pow256(4) == 0x1_0000_0000
  {
    assert Pow256(2) == 0x1_0000;
  }

  lemma Pow256Of7()
    ensures Pow256(7) == 0x100_0000_0000_0000
  {
    assert Pow256(4) == 0x1_0000_0000;
  }

  lemma Pow256Of8()
    ensures Pow256(8) == 0x1_0000_0000_0000_0000
  {
    assert Pow256(4) == 0x1_0000_0000;
  }

  /** Eight bytes hold a uint64 without loss. */
  lemma BigEndian8Injective(m: nat, n: nat)
    requires m < 0x1_0000_0000_0000_0000 && n < 0x1_0000_0000_0000_0000
    requires BigEndian(m, 8) == BigEndian(n, 8)
    ensures m == n
  {
    Pow256Of8();
    BigEndianRoundTrip(m, 8);
    BigEndianRoundTrip(n, 8);
  }

  lemma MulAssoc(x: int, y: int)
    ensures x * (256 * y) == 256 * (x * y) == (256 * y) * x == 256 * (y * x)
  {
  }

  lemma {:induction false} FromBigEndianConcat(a: string, b: string)
    ensures FromBigEndian(a + b) == FromBigEndian(a) * Pow256(|b|) + FromBigEndian(b)
  {
    if b == "" {
      assert a + b == a;
    } else {
      var init, last := b[..|b| - 1], b[|b| - 1];
      assert (a + b)[..|a + b| - 1] == a + init;
      FromBigEndianConcat(a, init);
      assert FromBigEndian(a + b) == 256 * FromBigEndian(a + init) + last as nat;
      assert FromBigEndian(b) == 256 * FromBigEndian(init) + last as nat;
      assert Pow256(|b|) == 256 * Pow256(|b| - 1);
      hide FromBigEndian, Pow256;
      MulAssoc(FromBigEndian(a), Pow256(|b| - 1));
    }
  }

  function Repeat(c: char, n: nat): (s: string)
    ensures |s| == n
  {
    seq(n, _ => c)
  }

  lemma {:induction false} FromRepeat(n: nat)
    ensures FromBigEndian(Repeat('\0', n)) == 0
    ensures FromBigEndian(Repeat(255 as char, n)) == Pow256(n) - 1
  {
    if n > 0 {
      FromRepeat(n - 1);
      assert Repeat('\0', n)[..n - 1] == Repeat('\0', n - 1);
      assert Repeat(255 as char, n)[..n - 1] == Repeat(255 as char, n - 1);
    }
  }

  lemma {:induction false} Pow256Add(a: nat, b: nat)
    ensures Pow256(a + b) == Pow256(a) * Pow256(b)
  {
    if a > 0 {
      Pow256Add(a - 1, b);
      MulAssoc(Pow256(b), Pow256(a - 1));
    }
  }

  /** Splitting equal concatenations at equal lengths. */
  lemma ConcatSplit(a: string, b: string, c: string, d: string)
    requires a + b == c + d && |a| == |c|
    ensures a == c && b == d
  {
    assert a == (a + b)[..|a|] && c == (c + d)[..|c|];
    assert b == (a + b)[|a|..] && d == (c + d)[|c|..];
  }
}
