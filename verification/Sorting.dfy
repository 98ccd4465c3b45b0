/** Keys in byte order. A Go map is ranged over in any order; sorting its keys afterwards gives one
    result, which is what makes the leaf roots and the exported records canonical. */
module Sorting {

  /** Byte order on strings, as Go compares them. */
  predicate Less(a: string, b: string) {
    b != "" && (a == "" || a[0] < b[0] || (a[0] == b[0] && Less(a[1..], b[1..])))
  }

  /** Byte order: a shorter string before what it is the start of, otherwise the smaller first difference. */
  lemma {:induction false} LessIs(a: string, b: string)
    ensures Less(a, b) <==>
            || a < b
            || exists i :: 0 <= i < |a| && i < |b| && a[..i] == b[..i] && a[i] < b[i]
  {
    if a != "" && b != "" && a[0] == b[0] {
      var c, d := a[1..], b[1..];
      LessIs(c, d);
      assert a == [a[0]] + c && b == [b[0]] + d;
      if i :| 0 <= i < |c| && i < |d| && c[..i] == d[..i] && c[i] < d[i] {
        assert a[..i + 1] == [a[0]] + c[..i] && b[..i + 1] == [b[0]] + d[..i];
        assert a[i + 1] < b[i + 1];
      }
      if i :| 0 <= i < |a| && i < |b| && a[..i] == b[..i] && a[i] < b[i] {
        assert i > 0 && c[..i - 1] == a[..i][1..] && d[..i - 1] == b[..i][1..];
        assert c[i - 1] < d[i - 1];
      }
    } else if a != "" && b != "" {
      assert a[..0] == b[..0];
      if i :| 0 <= i < |a| && i < |b| && a[..i] == b[..i] && a[i] < b[i] {
        assert i > 0 ==> a[..i][0] == b[..i][0];
      }
    }
  }

  lemma {:induction false} LessTrichotomy(a: string, b: string)
    ensures Less(a, b) || Less(b, a) || a == b
    ensures !(Less(a, b) && Less(b, a)) && (a == b ==> !Less(a, b))
  {
    if a != "" && b != "" && a[0] == b[0] {
      LessTrichotomy(a[1..], b[1..]);
      assert a == [a[0]] + a[1..] && b == [b[0]] + b[1..];
    }
  }

  lemma {:induction false} LessTransitive(a: string, b: string, c: string)
    requires Less(a, b) && Less(b, c)
    ensures Less(a, c)
  {
    if a != "" && a[0] == b[0] == c[0] {
      LessTransitive(a[1..], b[1..], c[1..]);
    }
  }

  ghost predicate StrictlySorted(ks: seq<string>) {
    forall i, j :: 0 <= i < j < |ks| ==> Less(ks[i], ks[j])
  }

  function Elements<T>(ks: seq<T>): set<T> {
    set k | k in ks
  }

  /** A set of keys has only one strictly sorted listing. */
  lemma {:induction false} SortedUnique(a: seq<string>, b: seq<string>)
    requires StrictlySorted(a) && StrictlySorted(b) && Elements(a) == Elements(b)
    ensures a == b
    decreases a
  {
    assert (a == [] || a[0] in Elements(a)) && (b == [] || b[0] in Elements(b));
    if a != [] && b != [] {
      assert a[0] in Elements(b) && b[0] in Elements(a);
      var i :| 0 <= i < |b| && b[i] == a[0];
      var j :| 0 <= j < |a| && a[j] == b[0];
      LessTrichotomy(a[0], b[0]);
      assert a[0] == b[0];
      forall k ensures k in Elements(a[1..]) <==> k in Elements(b[1..]) {
        LessTrichotomy(a[0], a[0]);
        assert k in Elements(a) <==> k == a[0] || k in a[1..];
        assert k in Elements(b) <==> k == b[0] || k in b[1..];
        assert a[0] !in a[1..] && b[0] !in b[1..];
      }
      SortedUnique(a[1..], b[1..]);
      assert a == [a[0]] + a[1..] && b == [b[0]] + b[1..];
    }
  }

  function Insert(ks: seq<string>, k: string): seq<string> {
    if ks == [] || Less(k, ks[0]) then [k] + ks else [ks[0]] + Insert(ks[1..], k)
  }

  lemma {:induction false} InsertSorted(ks: seq<string>, k: string)
    requires StrictlySorted(ks) && k !in ks
    ensures StrictlySorted(Insert(ks, k))
    ensures Elements(Insert(ks, k)) == Elements(ks) + {k}
  {
    if ks == [] {
    } else if Less(k, ks[0]) {
      forall j | 0 <= j < |ks| ensures Less(k, ks[j]) {
        if j > 0 {
          LessTransitive(k, ks[0], ks[j]);
        }
      }
    } else {
      InsertSorted(ks[1..], k);
      LessTrichotomy(k, ks[0]);
      var rest := Insert(ks[1..], k);
      forall j | 0 <= j < |rest| ensures Less(ks[0], rest[j]) {
        assert rest[j] in Elements(rest);
        assert rest[j] == k || rest[j] in ks[1..];
      }
      forall x ensures x in Elements(Insert(ks, k)) <==> x in Elements(ks) + {k} {
        assert x in Insert(ks, k) <==> x == ks[0] || x in Elements(rest);
        assert x in ks <==> x == ks[0] || x in Elements(ks[1..]);
      }
    }
  }

  /** The sorted listing of a set of keys. */
  ghost function Sorted(keys: set<string>): seq<string> {
    if keys == {} then []
    else
      var k :| k in keys;
      Insert(Sorted(keys - {k}), k)
  }

  lemma {:induction false} SortedSpec(keys: set<string>)
    ensures StrictlySorted(Sorted(keys)) && Elements(Sorted(keys)) == keys
  {
    if keys != {} {
      var k :| k in keys && Sorted(keys) == Insert(Sorted(keys - {k}), k);
      SortedSpec(keys - {k});
      assert k !in Elements(Sorted(keys - {k}));
      InsertSorted(Sorted(keys - {k}), k);
    }
  }

  /** Collect the keys in whatever order the map yields them and sort. */
  method SortKeys(keys: set<string>) returns (ks: seq<string>)
    ensures ks == Sorted(keys)
  {
    ks := [];
    var rest := keys;
    while rest != {}
      invariant rest <= keys && StrictlySorted(ks) && Elements(ks) == keys - rest
      decreases rest
    {
      var k :| k in rest;
      assert k !in Elements(ks);
      InsertSorted(ks, k);
      ks, rest := Insert(ks, k), rest - {k};
    }
    SortedSpec(keys);
    SortedUnique(ks, Sorted(keys));
  }
}
