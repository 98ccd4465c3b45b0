/** Replay protection: the nonces a successful replay accepts for one trading key. */
module Nonces {
  import opened Int64
  import opened Text
  import opened Ledger
  import opened Accounts

  /** Whether an entry advances the nonce of this account and (trimmed) key. */
  predicate Advances(e: Entry, account: int64, key: string) {
    e.payload.NonceAdvanced? && e.payload.nonceAccount == account && TrimSpace(e.payload.authKey) == TrimSpace(key)
  }

  /** The nonces the entries use for one key, in order. */
  function Used(entries: seq<Entry>, account: int64, key: string): seq<uint64>
    decreases entries
  {
    if entries == [] then []
    else
      var rest := Used(entries[1..], account, key);
      if Advances(entries[0], account, key) then [entries[0].payload.accepted] + rest else rest
  }

  /** The smallest nonce the ledger will still take from this key. */
  function Floor(s: State, account: int64, key: string): uint64 {
    var k := NonceKey(account, key);
    if k in s.nonces then s.nonces[k].nextNonce else 1
  }

  /** Exactly which advances are taken. The largest uint64 never is: its successor wraps to 0. */
  lemma AdvanceTakenIff(s: State, e: Entry)
    requires e.payload.NonceAdvanced?
    ensures var p := e.payload;
            Apply(s, e).Ok() <==> p.nonceAccount > 0 && TrimSpace(p.authKey) != "" && 1 <= p.accepted < MODULUS - 1
                                  && p.next == p.accepted + 1
                                  && (NonceKey(p.nonceAccount, p.authKey) in s.nonces ==>
                                      p.accepted >= Floor(s, p.nonceAccount, p.authKey))
  {
    hide NonceKey, TrimSpace, Normalize;
  }

  lemma AdvanceStored(s: State, e: Entry)
    requires e.payload.NonceAdvanced? && Apply(s, e).Ok()
    ensures var k, t := NonceKey(e.payload.nonceAccount, e.payload.authKey), Apply(s, e).state;
            k in t.nonces && t.nonces == s.nonces[k := t.nonces[k]] && t.nonces[k].nextNonce == e.payload.next
  {
    hide NonceKey, TrimSpace, Normalize;
  }

  lemma FloorStep(s: State, e: Entry, account: int64, key: string)
    requires Apply(s, e).Ok()
    ensures Floor(Apply(s, e).state, account, key) == if Advances(e, account, key) then e.payload.accepted + 1
            else Floor(s, account, key)
    ensures Advances(e, account, key) && NonceKey(account, key) in s.nonces ==>
            e.payload.accepted >= Floor(s, account, key)
    ensures NonceKey(account, key) in s.nonces ==> NonceKey(account, key) in Apply(s, e).state.nonces
    ensures Advances(e, account, key) ==> NonceKey(account, key) in Apply(s, e).state.nonces && e.payload.accepted >= 1
  {
    hide Apply, NonceKey, TrimSpace;
    if e.payload.NonceAdvanced? {
      AdvanceTakenIff(s, e);
      AdvanceStored(s, e);
      NonceKeyInjective(e.payload.nonceAccount, e.payload.authKey, account, key);
    } else {
      SideMapsFrame(s, e);
    }
  }

  ghost predicate Increasing(ns: seq<uint64>) {
    forall i, j :: 0 <= i < j < |ns| ==> ns[i] < ns[j]
  }

  ghost predicate AtLeast(ns: seq<uint64>, floor: int) {
    forall i :: 0 <= i < |ns| ==> ns[i] >= floor
  }

  lemma IncreasingCons(n: uint64, ns: seq<uint64>)
    requires Increasing(ns) && AtLeast(ns, n as int + 1)
    ensures Increasing([n] + ns) && AtLeast([n] + ns, n)
  {
  }

  lemma AtLeastWeaken(ns: seq<uint64>, low: int, high: int)
    requires low <= high && AtLeast(ns, high)
    ensures AtLeast(ns, low)
  {
  }

  ghost function Last(ns: seq<uint64>, floor: int): int {
    if ns == [] then floor else ns[|ns| - 1] as int + 1
  }

  lemma {:induction false} UsedFrom(s: State, entries: seq<Entry>, account: int64, key: string)
    requires Run(s, entries).Ok()
    ensures var ns := Used(entries, account, key);
            && Increasing(ns)
            && (NonceKey(account, key) in s.nonces ==> AtLeast(ns, Floor(s, account, key)))
            && Floor(Run(s, entries).state, account, key) == Last(ns, Floor(s, account, key))
    decreases entries
  {
    hide Apply, Floor, NonceKey, Increasing, AtLeast, Advances;
    if entries == [] {
      assert Increasing([]) && AtLeast([], Floor(s, account, key)) by {
        NoneUsed(Floor(s, account, key));
      }
    } else {
      var e := entries[0];
      var t := Apply(s, e).state;
      FloorStep(s, e, account, key);
      var ns := Used(entries[1..], account, key);
      UsedFrom(t, entries[1..], account, key);
      if Advances(e, account, key) {
        IsAdvance(e, account, key);
        var n := e.payload.accepted;
        IncreasingCons(n, ns);
        if NonceKey(account, key) in s.nonces {
          AtLeastWeaken([n] + ns, Floor(s, account, key), n);
        }
      } else {
        assert Used(entries, account, key) == ns;
      }
    }
  }

  lemma NoneUsed(floor: int)
    ensures Increasing([]) && AtLeast([], floor)
  {
  }

  lemma IsAdvance(e: Entry, account: int64, key: string)
    requires Advances(e, account, key)
    ensures e.payload.NonceAdvanced?
  {
  }

  /** In every successful replay, whatever else it holds, the nonces of one key strictly increase, so
      none is accepted twice; the ledger ends one past the last. */
  lemma NoncesNeverRepeat(entries: seq<Entry>, account: int64, key: string)
    requires Run(EMPTY, entries).Ok()
    ensures var ns := Used(entries, account, key);
            && Increasing(ns)
            && (forall i, j :: 0 <= i < j < |ns| ==> ns[i] != ns[j])
            && (ns != [] ==> Floor(Run(EMPTY, entries).state, account, key) == ns[|ns| - 1] as int + 1 < MODULUS)
  {
    hide Run, Used, Floor;
    UsedFrom(EMPTY, entries, account, key);
  }
}
