/** State roots: length-prefixed hashing of sorted leaves. The hash and the leaf encodings are
    parameters; what they must satisfy is said only about the strings a computation really hashes. */
module Roots {
  import opened Bytes
  import opened Sorting
  import opened Text
  import opened Ledger

  // ---------------------------------------------------------------- length-prefixed parts

  function Size(part: string): (s: string)
    ensures |s| == 8
  {
    BigEndian(|part| % 0x1_0000_0000_0000_0000, 8)
  }

  lemma SizeInjective(a: string, b: string)
    requires |a| < 0x1_0000_0000_0000_0000 && |b| < 0x1_0000_0000_0000_0000 && Size(a) == Size(b)
    ensures |a| == |b|
  {
    hide BigEndian;
    assert |a| % 0x1_0000_0000_0000_0000 == |a| && |b| % 0x1_0000_0000_0000_0000 == |b|;
    BigEndian8Injective(|a|, |b|);
  }

  /** Each part preceded by its length in eight bytes. */
  function Encode(parts: seq<string>): string {
    if parts == [] then "" else Size(parts[0]) + (parts[0] + Encode(parts[1..]))
  }

  /** No two lists of parts have the same encoding, as long as the encoding fits memory. */
  lemma {:induction false} EncodeInjective(a: seq<string>, b: seq<string>)
    requires Encode(a) == Encode(b) && |Encode(a)| < 0x1_0000_0000_0000_0000
    ensures a == b
    decreases a
  {
    hide Size;
    if a != [] && b != [] {
      ConcatSplit(Size(a[0]), a[0] + Encode(a[1..]), Size(b[0]), b[0] + Encode(b[1..]));
      SizeInjective(a[0], b[0]);
      ConcatSplit(a[0], Encode(a[1..]), b[0], Encode(b[1..]));
      EncodeInjective(a[1..], b[1..]);
      assert a == [a[0]] + a[1..] && b == [b[0]] + b[1..];
    }
  }

  /** A list of parts is written part by part, each as eight bytes that read as its length, and then itself. */
  lemma {:induction false} EncodeReads(a: seq<string>, b: seq<string>, part: string)
    requires |part| < 0x1_0000_0000_0000_0000
    ensures Encode(a + b) == Encode(a) + Encode(b)
    ensures |Encode([part])| == 8 + |part| && Encode([part])[8..] == part
    ensures FromBigEndian(Encode([part])[..8]) == |part|
    decreases a
  {
    hide BigEndian, Pow256, FromBigEndian;
    assert [part][1..] == [] && Encode([part]) == Size(part) + part;
    assert Encode([part])[..8] == Size(part);
    assert |part| % 0x1_0000_0000_0000_0000 == |part|;
    Pow256Of8();
    BigEndianRoundTrip(|part|, 8);
    if a == [] {
      assert a + b == b;
    } else {
      assert (a + b)[1..] == a[1..] + b;
      EncodeReads(a[1..], b, part);
    }
  }

  method HashStrings(hash: string -> string, parts: seq<string>) returns (digest: string)
    ensures digest == hash(Encode(parts))
  {
    hide Size;
    var written := "";
    for i := 0 to |parts|
      invariant written + Encode(parts[i..]) == Encode(parts)
    {
      assert parts[i..][1..] == parts[i + 1..];
      assert written + Encode(parts[i..]) == (written + Size(parts[i]) + parts[i]) + Encode(parts[i + 1..]);
      written := written + Size(parts[i]);
      written := written + parts[i];
    }
    assert written == Encode(parts);
    digest := hash(written);
  }

  // ---------------------------------------------------------------- the hash and the leaf encodings

  /** SHA-256 in hex, and the JSON of each kind of leaf. */
  datatype Codec = Codec(
    hash: string -> string,
    balance: BalanceLeaf -> string,
    nonce: NonceLeaf -> string,
    order: OrderLeaf -> string,
    position: PositionLeaf -> string,
    funding: MarketFundingLeaf -> string,
    withdrawal: WithdrawalLeaf -> string)

  function HashOf(c: Codec, parts: seq<string>): string {
    c.hash(Encode(parts))
  }

  ghost predicate Injective<V(!new)>(enc: V -> string) {
    forall a, b :: enc(a) == enc(b) ==> a == b
  }

  /** Different leaves have different JSON. */
  ghost predicate Faithful(c: Codec) {
    && Injective(c.balance) && Injective(c.nonce) && Injective(c.order)
    && Injective(c.position) && Injective(c.funding) && Injective(c.withdrawal)
  }

  predicate IsHexDigest(s: string) {
    |s| == 64 && forall i :: 0 <= i < |s| ==> '0' <= s[i] <= '9' || 'a' <= s[i] <= 'f'
  }

  /** On these strings the hash gives hex digests without collision, and each string fits memory. */
  ghost predicate CollisionFree(c: Codec, strings: set<string>) {
    && (forall p :: p in strings ==> |p| < 0x1_0000_0000_0000_0000 && IsHexDigest(c.hash(p)))
    && (forall p, q :: p in strings && q in strings && c.hash(p) == c.hash(q) ==> p == q)
  }

  lemma DigestBinds(c: Codec, strings: set<string>, a: seq<string>, b: seq<string>)
    requires CollisionFree(c, strings) && Encode(a) in strings && Encode(b) in strings
    requires HashOf(c, a) == HashOf(c, b)
    ensures a == b
  {
    hide Encode;
    EncodeInjective(a, b);
  }

  lemma TrimDigest(s: string)
    requires IsHexDigest(s)
    ensures TrimSpace(s) == s
  {
  }

  // ---------------------------------------------------------------- one namespace

  /** How one leaf map is hashed: the parts before the leaf hashes, the tag on each leaf, and the parts
      hashed for an empty map. */
  datatype Namespace = Namespace(prefix: seq<string>, tag: string, zero: seq<string>)

  const BALANCES := Namespace(["shadow", "balances"], "balances", ["shadow", "balances", "empty"])
  const NONCES := Namespace(["shadow", "orders", "nonce"], "orders_nonce", ["shadow", "orders", "nonce", "empty"])
  const OPEN_ORDERS := Namespace(["shadow", "open_orders"], "open_orders", ["shadow", "orders", "open", "empty"])
  const POSITIONS := Namespace(["shadow", "positions"], "positions", ["shadow", "positions", "leafs", "empty"])
  const MARKET_FUNDING :=
    Namespace(["shadow", "market_funding"], "market_funding", ["shadow", "positions", "funding", "empty"])
  const WITHDRAWALS := Namespace(["shadow", "withdrawals"], "withdrawals", ["shadow", "withdrawals", "empty"])
  const INSURANCE_ZERO := ["shadow", "positions", "insurance", "empty"]

  function LeafParts<V>(ns: Namespace, m: map<string, V>, enc: V -> string, key: string): seq<string>
    requires key in m
  {
    [ns.tag, key, enc(m[key])]
  }

  ghost function Keys<V>(m: map<string, V>): (ks: seq<string>)
    ensures StrictlySorted(ks) && Elements(ks) == m.Keys && forall i :: 0 <= i < |ks| ==> ks[i] in m
  {
    SortedSpec(m.Keys);
    var ks := Sorted(m.Keys);
    assert forall i :: 0 <= i < |ks| ==> ks[i] in Elements(ks);
    ks
  }

  ghost function LeafHashes<V>(c: Codec, ns: Namespace, m: map<string, V>, enc: V -> string): seq<string> {
    var ks := Keys(m);
    seq(|ks|, i requires 0 <= i < |ks| => HashOf(c, LeafParts(ns, m, enc, ks[i])))
  }

  ghost function RootParts<V>(c: Codec, ns: Namespace, m: map<string, V>, enc: V -> string): seq<string> {
    if m == map[] then ns.zero else ns.prefix + LeafHashes(c, ns, m, enc)
  }

  ghost function LeafRoot<V>(c: Codec, ns: Namespace, m: map<string, V>, enc: V -> string): string {
    HashOf(c, RootParts(c, ns, m, enc))
  }

  /** Every string hashed on the way to the root. */
  ghost function Hashed<V>(c: Codec, ns: Namespace, m: map<string, V>, enc: V -> string): set<string> {
    {Encode(RootParts(c, ns, m, enc))} + set key | key in m :: Encode(LeafParts(ns, m, enc, key))
  }

  /** An empty map is never hashed like a non-empty one: leaf hashes are 64 characters long. */
  ghost predicate Separated(ns: Namespace) {
    forall hashes: seq<string> ::
      |hashes| > 0 && (forall i :: 0 <= i < |hashes| ==> |hashes[i]| == 64) ==> ns.prefix + hashes != ns.zero
  }

  lemma AllSeparated()
    ensures Separated(BALANCES) && Separated(NONCES) && Separated(OPEN_ORDERS)
    ensures Separated(POSITIONS) && Separated(MARKET_FUNDING) && Separated(WITHDRAWALS)
  {
    forall hashes: seq<string> | |hashes| > 0 && (forall i :: 0 <= i < |hashes| ==> |hashes[i]| == 64)
      ensures BALANCES.prefix + hashes != BALANCES.zero && NONCES.prefix + hashes != NONCES.zero
      ensures OPEN_ORDERS.prefix + hashes != OPEN_ORDERS.zero && POSITIONS.prefix + hashes != POSITIONS.zero
      ensures MARKET_FUNDING.prefix + hashes != MARKET_FUNDING.zero && WITHDRAWALS.prefix + hashes != WITHDRAWALS.zero
    {
      assert (BALANCES.prefix + hashes)[2] == hashes[0] && |BALANCES.zero[2]| == 5;
      assert (NONCES.prefix + hashes)[3] == hashes[0] && |NONCES.zero[3]| == 5;
      assert |(OPEN_ORDERS.prefix + hashes)[1]| == 11 && |OPEN_ORDERS.zero[1]| == 6;
      assert (POSITIONS.prefix + hashes)[2] == hashes[0] && |POSITIONS.zero[2]| == 5;
      assert |(MARKET_FUNDING.prefix + hashes)[1]| == 14 && |MARKET_FUNDING.zero[1]| == 9;
      assert (WITHDRAWALS.prefix + hashes)[2] == hashes[0] && |WITHDRAWALS.zero[2]| == 5;
    }
  }

  /** Equal leaf hashes come from equal maps. */
  lemma LeafHashesBind<V(!new)>(c: Codec, ns: Namespace, m: map<string, V>, n: map<string, V>, enc: V -> string,
                                strings: set<string>)
    requires Injective(enc) && CollisionFree(c, strings)
    requires Hashed(c, ns, m, enc) <= strings && Hashed(c, ns, n, enc) <= strings
    requires LeafHashes(c, ns, m, enc) == LeafHashes(c, ns, n, enc)
    ensures m == n
  {
    hide Encode, StrictlySorted, RootParts, CollisionFree, HashOf;
    var a, b := LeafHashes(c, ns, m, enc), LeafHashes(c, ns, n, enc);
    var ks, ls := Keys(m), Keys(n);
    forall i | 0 <= i < |ks| ensures ks[i] == ls[i] && m[ks[i]] == n[ks[i]] {
      assert a[i] == b[i];
      var x, y := LeafParts(ns, m, enc, ks[i]), LeafParts(ns, n, enc, ls[i]);
      DigestBinds(c, strings, x, y);
      assert x[1] == y[1] && x[2] == y[2];
    }
    assert ks == ls;
    SameMap(m, n, ks);
  }

  lemma SameMap<V>(m: map<string, V>, n: map<string, V>, ks: seq<string>)
    requires Elements(ks) == m.Keys == n.Keys
    requires forall i :: 0 <= i < |ks| ==> ks[i] in m && ks[i] in n && m[ks[i]] == n[ks[i]]
    ensures m == n
  {
    forall k | k in m ensures m[k] == n[k] {
      assert k in Elements(ks);
    }
  }

  /** Equal roots of one namespace come from equal maps. */
  lemma LeafRootBinds<V(!new)>(c: Codec, ns: Namespace, m: map<string, V>, n: map<string, V>, enc: V -> string,
                               strings: set<string>)
    requires Injective(enc) && Separated(ns) && CollisionFree(c, strings)
    requires Hashed(c, ns, m, enc) <= strings && Hashed(c, ns, n, enc) <= strings
    requires LeafRoot(c, ns, m, enc) == LeafRoot(c, ns, n, enc)
    ensures m == n
  {
    hide Encode, CollisionFree, HashOf, LeafHashes, Injective;
    DigestBinds(c, strings, RootParts(c, ns, m, enc), RootParts(c, ns, n, enc));
    HashesAre64(c, ns, m, enc, strings);
    HashesAre64(c, ns, n, enc, strings);
    if m != map[] && n != map[] {
      var a, b := LeafHashes(c, ns, m, enc), LeafHashes(c, ns, n, enc);
      assert a == (ns.prefix + a)[|ns.prefix|..] && b == (ns.prefix + b)[|ns.prefix|..];
      LeafHashesBind(c, ns, m, n, enc, strings);
    }
  }

  lemma HashesAre64<V>(c: Codec, ns: Namespace, m: map<string, V>, enc: V -> string, strings: set<string>)
    requires CollisionFree(c, strings) && Hashed(c, ns, m, enc) <= strings
    ensures var hs := LeafHashes(c, ns, m, enc);
            (m != map[] ==> |hs| > 0) && forall i :: 0 <= i < |hs| ==> |hs[i]| == 64
  {
    hide Encode, StrictlySorted;
    var ks := Keys(m);
    if m != map[] {
      var k :| k in m;
      assert k in Elements(ks);
    }
    forall i | 0 <= i < |ks| ensures |HashOf(c, LeafParts(ns, m, enc, ks[i]))| == 64 {
      assert Encode(LeafParts(ns, m, enc, ks[i])) in Hashed(c, ns, m, enc);
    }
  }

  /** The loop over the sorted keys. Whatever order the map yields its keys in, the result is one. */
  method ComputeLeafRoot<V>(c: Codec, ns: Namespace, m: map<string, V>, enc: V -> string) returns (root: string)
    ensures root == LeafRoot(c, ns, m, enc)
  {
    hide Encode, Sorted, StrictlySorted;
    if |m| == 0 {
      root := HashStrings(c.hash, ns.zero);
      return;
    }
    var keys := SortKeys(m.Keys);
    ghost var ks := Keys(m);
    assert keys == ks;
    var hashes := [];
    for i := 0 to |keys|
      invariant |hashes| == i
      invariant forall j :: 0 <= j < i ==> hashes[j] == HashOf(c, LeafParts(ns, m, enc, ks[j]))
    {
      var sum := HashStrings(c.hash, [ns.tag, keys[i], enc(m[keys[i]])]);
      hashes := hashes + [sum];
    }
    assert hashes == LeafHashes(c, ns, m, enc);
    root := HashStrings(c.hash, ns.prefix + hashes);
  }

  // ---------------------------------------------------------------- the state root

  datatype RootSet = RootSet(balances: string, orders: string, positionsFunding: string, withdrawals: string,
                             state: string)

  function OrdersParts(nonceRoot: string, openOrdersRoot: string): seq<string> {
    ["shadow", "orders", nonceRoot, openOrdersRoot]
  }

  function PositionsFundingParts(positionRoot: string, fundingRoot: string, insuranceRoot: string): seq<string> {
    ["shadow", "positions_funding", positionRoot, fundingRoot, insuranceRoot]
  }

  function StateParts(balances: string, orders: string, positionsFunding: string, withdrawals: string): seq<string> {
    ["shadow", "state", "v1", balances, orders, positionsFunding, withdrawals]
  }

  ghost function RootsOf(c: Codec, s: State): RootSet {
    var balances := LeafRoot(c, BALANCES, s.balances, c.balance);
    var orders := HashOf(c, OrdersPartsOf(c, s));
    var positionsFunding := HashOf(c, PositionsPartsOf(c, s));
    var withdrawals := LeafRoot(c, WITHDRAWALS, s.withdrawals, c.withdrawal);
    RootSet(balances, orders, positionsFunding, withdrawals,
            HashOf(c, StateParts(balances, orders, positionsFunding, withdrawals)))
  }

  ghost function OrdersPartsOf(c: Codec, s: State): seq<string> {
    OrdersParts(LeafRoot(c, NONCES, s.nonces, c.nonce), LeafRoot(c, OPEN_ORDERS, s.openOrders, c.order))
  }

  ghost function PositionsPartsOf(c: Codec, s: State): seq<string> {
    PositionsFundingParts(LeafRoot(c, POSITIONS, s.positions, c.position),
                          LeafRoot(c, MARKET_FUNDING, s.marketFunding, c.funding), HashOf(c, INSURANCE_ZERO))
  }

  ghost function StatePartsOf(c: Codec, s: State): seq<string> {
    var r := RootsOf(c, s);
    StateParts(r.balances, r.orders, r.positionsFunding, r.withdrawals)
  }

  ghost function StateRoot(c: Codec, s: State): string {
    RootsOf(c, s).state
  }

  /** The root the program writes down for an empty ledger without computing any leaf map. */
  function ZeroStateRoot(c: Codec): string {
    HashOf(c, StateParts(
      HashOf(c, ["shadow", "balances", "empty"]),
      HashOf(c, OrdersParts(HashOf(c, ["shadow", "orders", "nonce", "empty"]),
                            HashOf(c, ["shadow", "orders", "open", "empty"]))),
      HashOf(c, PositionsFundingParts(HashOf(c, ["shadow", "positions", "leafs", "empty"]),
                                      HashOf(c, ["shadow", "positions", "funding", "empty"]),
                                      HashOf(c, ["shadow", "positions", "insurance", "empty"]))),
      HashOf(c, ["shadow", "withdrawals", "empty"])))
  }

  lemma ZeroRootIsEmptyRoot(c: Codec)
    ensures ZeroStateRoot(c) == StateRoot(c, EMPTY)
  {
    hide Encode;
  }

  /** Every string hashed on the way to the state root. */
  ghost function Preimages(c: Codec, s: State): set<string> {
    Hashed(c, BALANCES, s.balances, c.balance) + Hashed(c, NONCES, s.nonces, c.nonce)
    + Hashed(c, OPEN_ORDERS, s.openOrders, c.order) + Hashed(c, POSITIONS, s.positions, c.position)
    + Hashed(c, MARKET_FUNDING, s.marketFunding, c.funding) + Hashed(c, WITHDRAWALS, s.withdrawals, c.withdrawal)
    + {Encode(OrdersPartsOf(c, s)), Encode(PositionsPartsOf(c, s)), Encode(StatePartsOf(c, s))}
  }

  /** The state root stands for the whole state: two states with one root agree in all six maps, or
      two different strings they hash collide. */
  lemma StateRootBinds(c: Codec, s: State, t: State, strings: set<string>)
    requires Faithful(c) && CollisionFree(c, strings)
    requires Preimages(c, s) <= strings && Preimages(c, t) <= strings
    requires StateRoot(c, s) == StateRoot(c, t)
    ensures s == t
  {
    hide Encode, LeafRoot, Hashed, CollisionFree, HashOf, Separated, Injective;
    var x, y := StatePartsOf(c, s), StatePartsOf(c, t);
    DigestBinds(c, strings, x, y);
    assert x[3] == y[3] && x[4] == y[4] && x[5] == y[5] && x[6] == y[6];
    var a, b := OrdersPartsOf(c, s), OrdersPartsOf(c, t);
    DigestBinds(c, strings, a, b);
    assert a[2] == b[2] && a[3] == b[3];
    var u, v := PositionsPartsOf(c, s), PositionsPartsOf(c, t);
    DigestBinds(c, strings, u, v);
    assert u[2] == v[2] && u[3] == v[3];
    AllSeparated();
    LeafRootBinds(c, BALANCES, s.balances, t.balances, c.balance, strings);
    LeafRootBinds(c, NONCES, s.nonces, t.nonces, c.nonce, strings);
    LeafRootBinds(c, OPEN_ORDERS, s.openOrders, t.openOrders, c.order, strings);
    LeafRootBinds(c, POSITIONS, s.positions, t.positions, c.position, strings);
    LeafRootBinds(c, MARKET_FUNDING, s.marketFunding, t.marketFunding, c.funding, strings);
    LeafRootBinds(c, WITHDRAWALS, s.withdrawals, t.withdrawals, c.withdrawal, strings);
  }

  // ---------------------------------------------------------------- the format, written out

  /** The root of a map with one leaf, and of an empty one, for these parts. */
  ghost predicate LeafFormat<V(!new)>(c: Codec, ns: Namespace, enc: V -> string, prefix: seq<string>, tag: string,
                                      zero: seq<string>) {
    && LeafRoot(c, ns, map[], enc) == c.hash(Encode(zero))
    && forall k, v :: LeafRoot(c, ns, map[k := v], enc) == c.hash(Encode(prefix + [c.hash(Encode([tag, k, enc(v)]))]))
  }

  lemma OneLeafFormat<V(!new)>(c: Codec, ns: Namespace, enc: V -> string)
    ensures LeafFormat(c, ns, enc, ns.prefix, ns.tag, ns.zero)
  {
    hide Encode, StrictlySorted;
    forall k, v ensures LeafHashes(c, ns, map[k := v], enc) == [c.hash(Encode([ns.tag, k, enc(v)]))] {
      var m := map[k := v];
      var ks := Keys(m);
      assert Elements(ks) == {k};
      OneKey(ks, k);
    }
  }

  lemma OneKey(ks: seq<string>, k: string)
    requires StrictlySorted(ks) && Elements(ks) == {k}
    ensures ks == [k]
  {
    assert k in Elements(ks);
    assert |ks| > 1 ==> Less(ks[0], ks[1]);
    forall i | 0 <= i < |ks| ensures ks[i] == k {
      assert ks[i] in Elements(ks);
    }
    LessTrichotomy(k, k);
  }

  /** The parts hashed at every place, from the leaves to the state root. */
  lemma RootFormat(c: Codec, s: State)
    ensures var h := (parts: seq<string>) => c.hash(Encode(parts));
            var orders := h(["shadow", "orders", LeafRoot(c, NONCES, s.nonces, c.nonce),
                             LeafRoot(c, OPEN_ORDERS, s.openOrders, c.order)]);
            var positions := h(["shadow", "positions_funding", LeafRoot(c, POSITIONS, s.positions, c.position),
                                LeafRoot(c, MARKET_FUNDING, s.marketFunding, c.funding),
                                h(["shadow", "positions", "insurance", "empty"])]);
            var balances := LeafRoot(c, BALANCES, s.balances, c.balance);
            var withdrawals := LeafRoot(c, WITHDRAWALS, s.withdrawals, c.withdrawal);
            RootsOf(c, s) == RootSet(balances, orders, positions, withdrawals,
                                     h(["shadow", "state", "v1", balances, orders, positions, withdrawals]))
    ensures LeafFormat(c, BALANCES, c.balance, ["shadow", "balances"], "balances", ["shadow", "balances", "empty"])
    ensures LeafFormat(c, NONCES, c.nonce, ["shadow", "orders", "nonce"], "orders_nonce",
                       ["shadow", "orders", "nonce", "empty"])
    ensures LeafFormat(c, OPEN_ORDERS, c.order, ["shadow", "open_orders"], "open_orders",
                       ["shadow", "orders", "open", "empty"])
    ensures LeafFormat(c, POSITIONS, c.position, ["shadow", "positions"], "positions",
                       ["shadow", "positions", "leafs", "empty"])
    ensures LeafFormat(c, MARKET_FUNDING, c.funding, ["shadow", "market_funding"], "market_funding",
                       ["shadow", "positions", "funding", "empty"])
    ensures LeafFormat(c, WITHDRAWALS, c.withdrawal, ["shadow", "withdrawals"], "withdrawals",
                       ["shadow", "withdrawals", "empty"])
  {
    hide Encode, LeafRoot;
    OneLeafFormat(c, BALANCES, c.balance);
    OneLeafFormat(c, NONCES, c.nonce);
    OneLeafFormat(c, OPEN_ORDERS, c.order);
    OneLeafFormat(c, POSITIONS, c.position);
    OneLeafFormat(c, MARKET_FUNDING, c.funding);
    OneLeafFormat(c, WITHDRAWALS, c.withdrawal);
  }
}
