/** Sums over the values of a map or the items of a list. */
module Sums {

  ghost function Sum<K, V>(m: map<K, V>, f: V -> int): int
    decreases |m.Keys|
  {
    if m == map[] then 0
    else
      var k :| k in m;
      assert (m - {k}).Keys == m.Keys - {k};
      f(m[k]) + Sum(m - {k}, f)
  }

  ghost function At<K, V>(m: map<K, V>, k: K, f: V -> int): int {
    if k in m then f(m[k]) else 0
  }

  lemma {:induction false} SumRemove<K, V>(m: map<K, V>, k: K, f: V -> int)
    ensures Sum(m - {k}, f) == Sum(m, f) - At(m, k, f)
    decreases |m.Keys|
  {
    if k !in m {
      assert m - {k} == m;
    } else {
      var j :| j in m && Sum(m, f) == f(m[j]) + Sum(m - {j}, f);
      if j != k {
        assert (m - {j}).Keys == m.Keys - {j};
        SumRemove(m - {j}, k, f);
        assert (m - {k}).Keys == m.Keys - {k};
        SumRemove(m - {k}, j, f);
        assert m - {j} - {k} == m - {k} - {j};
      }
    }
  }

  lemma SumPut<K, V>(m: map<K, V>, k: K, v: V, f: V -> int)
    ensures Sum(m[k := v], f) == Sum(m, f) - At(m, k, f) + f(v)
  {
    SumRemove(m, k, f);
    SumRemove(m[k := v], k, f);
    assert m[k := v] - {k} == m - {k};
  }

  lemma {:induction false} SumNonNegative<K, V>(m: map<K, V>, f: V -> int)
    requires forall k :: k in m ==> f(m[k]) >= 0
    ensures Sum(m, f) >= 0
    ensures forall k :: k in m ==> f(m[k]) <= Sum(m, f)
    decreases |m.Keys|
  {
    if m != map[] {
      var j :| j in m && Sum(m, f) == f(m[j]) + Sum(m - {j}, f);
      assert (m - {j}).Keys == m.Keys - {j};
      SumNonNegative(m - {j}, f);
      forall k | k in m ensures f(m[k]) <= Sum(m, f) {
        assert k == j || k in m - {j};
      }
    }
  }

  // ---------------------------------------------------------------- lists

  ghost function SeqSum<T>(xs: seq<T>, f: T -> int): int {
    if xs == [] then 0 else SeqSum(xs[..|xs| - 1], f) + f(xs[|xs| - 1])
  }

  lemma SeqSumSnoc<T>(xs: seq<T>, x: T, f: T -> int)
    ensures SeqSum(xs + [x], f) == SeqSum(xs, f) + f(x)
  {
    assert (xs + [x])[..|xs|] == xs;
  }

  lemma SeqSumCons<T>(x: T, xs: seq<T>, f: T -> int)
    ensures SeqSum([x] + xs, f) == f(x) + SeqSum(xs, f)
  {
    SeqSumRemoveAt([x] + xs, 0, f);
    assert ([x] + xs)[..0] + ([x] + xs)[1..] == xs;
  }

  lemma {:induction false} SeqSumRemoveAt<T>(xs: seq<T>, i: nat, f: T -> int)
    requires i < |xs|
    ensures SeqSum(xs, f) == f(xs[i]) + SeqSum(xs[..i] + xs[i + 1..], f)
  {
    var last := xs[|xs| - 1];
    if i == |xs| - 1 {
      assert xs[..i] + xs[i + 1..] == xs[..i];
    } else {
      var init := xs[..|xs| - 1];
      SeqSumRemoveAt(init, i, f);
      assert xs[..i] + xs[i + 1..] == (init[..i] + init[i + 1..]) + [last];
      SeqSumSnoc(init[..i] + init[i + 1..], last, f);
    }
  }

  lemma {:induction false} SeqSumConcat<T>(xs: seq<T>, ys: seq<T>, f: T -> int)
    ensures SeqSum(xs + ys, f) == SeqSum(xs, f) + SeqSum(ys, f)
  {
    if ys == [] {
      assert xs + ys == xs;
    } else {
      var init := ys[..|ys| - 1];
      SeqSumConcat(xs, init, f);
      assert xs + ys == (xs + init) + [ys[|ys| - 1]];
      SeqSumSnoc(xs + init, ys[|ys| - 1], f);
    }
  }

  lemma MultisetRemoveAt<T>(xs: seq<T>, i: nat)
    requires i < |xs|
    ensures multiset(xs[..i] + xs[i + 1..]) == multiset(xs) - multiset{xs[i]}
  {
    assert xs == xs[..i] + ([xs[i]] + xs[i + 1..]);
  }

  /** A sum does not depend on the order of its items. */
  lemma {:induction false} SeqSumPermutation<T>(xs: seq<T>, ys: seq<T>, f: T -> int)
    requires multiset(xs) == multiset(ys)
    ensures SeqSum(xs, f) == SeqSum(ys, f)
  {
    if xs == [] {
      assert |multiset(ys)| == 0;
    } else {
      var x, init := xs[|xs| - 1], xs[..|xs| - 1];
      assert x in multiset(xs);
      assert x in multiset(ys);
      var i :| 0 <= i < |ys| && ys[i] == x;
      var rest := ys[..i] + ys[i + 1..];
      MultisetRemoveAt(xs, |xs| - 1);
      MultisetRemoveAt(ys, i);
      assert init + xs[|xs|..] == init;
      SeqSumRemoveAt(ys, i, f);
      SeqSumPermutation(init, rest, f);
    }
  }
}
