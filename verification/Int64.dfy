/** Machine integers as Go's int64 behaves: every sum the program stores goes through Wrap. */
module Int64 {

  const MODULUS: int := 0x1_0000_0000_0000_0000
  const MAX_INT64: int := 0x7fff_ffff_ffff_ffff

  type int64 = x: int | -0x8000_0000_0000_0000 <= x < 0x8000_0000_0000_0000
  type uint64 = x: int | 0 <= x < 0x1_0000_0000_0000_0000

  predicate IsInt64(x: int) {
    -0x8000_0000_0000_0000 <= x < 0x8000_0000_0000_0000
  }

  /** The word a machine holds after an operation whose exact result is x. */
  function Wrap(x: int): int64 {
    if IsInt64(x) then x
    else (x + 0x8000_0000_0000_0000) % 0x1_0000_0000_0000_0000 - 0x8000_0000_0000_0000
  }

  /** Go's uint64(n). */
  function AsUint64(n: int64): uint64 {
    if n < 0 then n + 0x1_0000_0000_0000_0000 else n
  }

  /** Equality modulo 2^64: the two exact results are stored as the same word. */
  ghost predicate Cong(a: int, b: int) {
    Wrap(a) == Wrap(b)
  }

  function Add(a: int64, b: int64): int64 { Wrap(a + b) }
  function Sub(a: int64, b: int64): int64 { Wrap(a - b) }
  function Neg(a: int64): int64 { Wrap(0 - a) }

  /** Wrap picks the one word that differs from x by a multiple of 2^64. */
  lemma WrapCharacterised(x: int, r: int)
    ensures r == Wrap(x) <==> IsInt64(r) && (x - r) % 0x1_0000_0000_0000_0000 == 0
  {
    var w := (x + 0x8000_0000_0000_0000) % 0x1_0000_0000_0000_0000 - 0x8000_0000_0000_0000;
    assert Wrap(x) == w;
  }

  lemma WrapMultiple(x: int, k: int)
    ensures Wrap(x + k * 0x1_0000_0000_0000_0000) == Wrap(x)
  {
    hide Wrap;
    var r := Wrap(x);
    WrapCharacterised(x, r);
    WrapCharacterised(x + k * 0x1_0000_0000_0000_0000, r);
    var q := (x - r) / 0x1_0000_0000_0000_0000;
    assert x + k * 0x1_0000_0000_0000_0000 - r == (q + k) * 0x1_0000_0000_0000_0000;
  }

  /** Wrapping before an addition changes nothing once the sum is wrapped. */
  lemma WrapAdd(x: int, y: int)
    ensures Wrap(Wrap(x) + y) == Wrap(x + y)
    ensures Wrap(x + Wrap(y)) == Wrap(x + y)
    ensures Wrap(Wrap(x) - y) == Wrap(x - y)
    ensures Wrap(x - Wrap(y)) == Wrap(x - y)
  {
    hide Wrap;
    WrapCharacterised(x, Wrap(x));
    WrapCharacterised(y, Wrap(y));
    var k, l := (x - Wrap(x)) / 0x1_0000_0000_0000_0000, (y - Wrap(y)) / 0x1_0000_0000_0000_0000;
    WrapMultiple(x + y, -k);
    WrapMultiple(x + y, -l);
    WrapMultiple(x - y, -k);
    WrapMultiple(x - y, l);
  }

  lemma WrapInRange(x: int)
    requires IsInt64(x)
    ensures Wrap(x) == x
  {
  }

  function Pow2(d: nat): (p: nat)
    ensures p >= 1
  {
    if d == 0 then 1 else 2 * Pow2(d - 1)
  }
}
