/** Text handling of the shadow ledger: trimming and upper-casing, decimal printing, the printed
    keys of the leaf maps and the names of position assets. */
module Text {

  const DEFAULT_COLLATERAL := "USDT"

  predicate IsSpace(c: char) {
    c == ' ' || '\t' <= c <= '\r'
  }

  function TrimLeft(s: string): string {
    if s != "" && IsSpace(s[0]) then TrimLeft(s[1..]) else s
  }

  function TrimRight(s: string): string {
    if s != "" && IsSpace(s[|s| - 1]) then TrimRight(s[..|s| - 1]) else s
  }

  function TrimSpace(s: string): string {
    TrimRight(TrimLeft(s))
  }

  function UpperChar(c: char): char {
    if 'a' <= c <= 'z' then c - 'a' + 'A' else c
  }

  function ToUpper(s: string): (r: string)
    ensures |r| == |s|
  {
    seq(|s|, i requires 0 <= i < |s| => UpperChar(s[i]))
  }

  /** The one normal form used for assets, outcomes and sides. */
  function Normalize(s: string): string {
    ToUpper(TrimSpace(s))
  }

  ghost predicate Trimmed(s: string) {
    s != "" ==> !IsSpace(s[0]) && !IsSpace(s[|s| - 1])
  }

  lemma {:induction false} TrimLeftTrims(s: string)
    ensures TrimLeft(s) != "" ==> !IsSpace(TrimLeft(s)[0])
  {
    if s != "" && IsSpace(s[0]) {
      TrimLeftTrims(s[1..]);
    }
  }

  lemma {:induction false} TrimRightTrims(s: string)
    ensures var r := TrimRight(s); r <= s && (r != "" ==> !IsSpace(r[|r| - 1]))
  {
    if s != "" && IsSpace(s[|s| - 1]) {
      TrimRightTrims(s[..|s| - 1]);
    }
  }

  lemma TrimSpaceTrims(s: string)
    ensures Trimmed(TrimSpace(s))
  {
    TrimLeftTrims(s);
    TrimRightTrims(TrimLeft(s));
  }

  /** Nothing but space: blank, tab, line feed, vertical tab, form feed, carriage return. */
  ghost predicate Blank(s: string) {
    forall i :: 0 <= i < |s| ==> s[i] in {' ', '\t', '\n', 11 as char, 12 as char, '\r'}
  }

  lemma {:induction false} TrimLeftCuts(s: string)
    ensures exists a :: Blank(a) && s == a + TrimLeft(s)
  {
    if s != "" && IsSpace(s[0]) {
      TrimLeftCuts(s[1..]);
      var a :| Blank(a) && s[1..] == a + TrimLeft(s[1..]);
      assert Blank([s[0]] + a) && s == ([s[0]] + a) + TrimLeft(s);
    } else {
      assert Blank("") && s == "" + TrimLeft(s);
    }
  }

  lemma {:induction false} TrimRightCuts(s: string)
    ensures exists b :: Blank(b) && s == TrimRight(s) + b
  {
    if s != "" && IsSpace(s[|s| - 1]) {
      var init, last := s[..|s| - 1], s[|s| - 1];
      TrimRightCuts(init);
      var b :| Blank(b) && init == TrimRight(init) + b;
      assert Blank(b + [last]) && s == TrimRight(s) + (b + [last]);
    } else {
      assert Blank("") && s == TrimRight(s) + "";
    }
  }

  /** Trimming cuts off space at both ends, all of it and nothing else. */
  lemma TrimSpaceCuts(s: string)
    ensures Trimmed(TrimSpace(s))
    ensures exists a, b :: Blank(a) && Blank(b) && s == a + TrimSpace(s) + b
  {
    TrimSpaceTrims(s);
    TrimLeftCuts(s);
    var a :| Blank(a) && s == a + TrimLeft(s);
    TrimRightCuts(TrimLeft(s));
    var b :| Blank(b) && TrimLeft(s) == TrimSpace(s) + b;
    assert s == a + TrimSpace(s) + b;
  }

  /** So nothing is left exactly of a text that is blank. */
  lemma TrimsToNothing(s: string)
    ensures TrimSpace(s) == "" <==> Blank(s)
  {
    TrimSpaceCuts(s);
    var a, b :| Blank(a) && Blank(b) && s == a + TrimSpace(s) + b;
    if TrimSpace(s) != "" {
      assert s[|a|] == TrimSpace(s)[0];
    }
  }

  const SMALL := "abcdefghijklmnopqrstuvwxyz"
  const CAPITAL := "ABCDEFGHIJKLMNOPQRSTUVWXYZ"

  /** Small letters become their capitals, and every other character stays. */
  lemma CapitalsAre()
    ensures ToUpper(SMALL) == CAPITAL
    ensures forall c: char :: c < 'a' || 'z' < c ==> UpperChar(c) == c
  {
    assert forall i :: 0 <= i < 26 ==> UpperChar(SMALL[i]) == CAPITAL[i];
  }

  /** A string is its own normal form exactly when it has no outer space and no small letter. */
  lemma NormalFixed(s: string)
    ensures Normalize(s) == s <==> Trimmed(s) && (forall i :: 0 <= i < |s| ==> !('a' <= s[i] <= 'z'))
  {
    TrimSpaceTrims(s);
    var t := TrimSpace(s);
    if Normalize(s) == s {
      assert forall i :: 0 <= i < |s| ==> s[i] == UpperChar(t[i]);
    }
    assert Trimmed(s) ==> t == s;
    assert (forall i :: 0 <= i < |s| ==> !('a' <= s[i] <= 'z')) ==> ToUpper(s) == s;
  }

  lemma NormalizeFacts(x: string)
    ensures Trimmed(Normalize(x))
    ensures forall i :: 0 <= i < |Normalize(x)| ==> !('a' <= Normalize(x)[i] <= 'z')
  {
    TrimSpaceTrims(x);
  }

  lemma NormalizeIdempotent(s: string)
    ensures Normalize(Normalize(s)) == Normalize(s)
  {
    NormalizeFacts(s);
    NormalFixed(Normalize(s));
  }

  // ---------------------------------------------------------------- decimal printing

  function Digit(d: nat): (c: char)
    requires d < 10
    ensures '0' <= c <= '9'
  {
    (d + '0' as int) as char
  }

  function Digits(n: nat): (s: string)
    ensures s != "" && forall i :: 0 <= i < |s| ==> '0' <= s[i] <= '9'
  {
    if n < 10 then [Digit(n)] else Digits(n / 10) + [Digit(n % 10)]
  }

  /** Go's %d. */
  function Decimal(n: int): (s: string)
    ensures s != "" && forall i :: 0 <= i < |s| ==> s[i] == '-' || '0' <= s[i] <= '9'
  {
    if n < 0 then "-" + Digits(-n) else Digits(n)
  }

  function Parse(s: string): int {
    if s == "" then 0 else 10 * Parse(s[..|s| - 1]) + (s[|s| - 1] as int - '0' as int)
  }

  lemma {:induction false} ParseDigits(n: nat)
    ensures Parse(Digits(n)) == n
  {
    if n < 10 {
      assert Digits(n)[..0] == "";
      assert Parse("") == 0;
    } else {
      ParseDigits(n / 10);
      assert Digits(n)[..|Digits(n)| - 1] == Digits(n / 10);
    }
  }

  /** Reads back what Decimal prints. */
  function ReadDecimal(s: string): int {
    if s != "" && s[0] == '-' then -Parse(s[1..]) else Parse(s)
  }

  lemma ReadDecimalOf(n: int)
    ensures ReadDecimal(Decimal(n)) == n
  {
    ParseDigits(if n < 0 then -n else n);
    if n < 0 {
      assert Decimal(n)[1..] == Digits(-n);
    }
  }

  lemma DecimalInjective(m: int, n: int)
    requires Decimal(m) == Decimal(n)
    ensures m == n
  {
    ReadDecimalOf(m);
    ReadDecimalOf(n);
  }

  // ---------------------------------------------------------------- printed keys

  function BalanceKey(account: int, asset: string): string {
    Decimal(account) + ":" + Normalize(asset)
  }

  function NonceKey(account: int, authKey: string): string {
    Decimal(account) + ":" + TrimSpace(authKey)
  }

  function PositionKey(account: int, market: int, outcome: string): string {
    Decimal(account) + ":" + Decimal(market) + ":" + Normalize(outcome)
  }

  function PositionAsset(market: int, outcome: string): string {
    "POSITION:" + Decimal(market) + ":" + Normalize(outcome)
  }

  /** The first colon splits "n:rest", whatever rest holds. */
  lemma ColonSplit(m: int, x: string, n: int, y: string)
    requires Decimal(m) + ":" + x == Decimal(n) + ":" + y
    ensures m == n && x == y
  {
    var a, b := Decimal(m), Decimal(n);
    var whole := a + ":" + x;
    assert whole[|a|] == ':' && whole[|b|] == ':';
    assert forall i :: 0 <= i < |a| ==> whole[i] == a[i] != ':';
    assert forall i :: 0 <= i < |b| ==> whole[i] == b[i] != ':';
    assert a == whole[..|a|] && b == whole[..|b|];
    assert x == whole[|a| + 1..] && y == whole[|b| + 1..];
    DecimalInjective(m, n);
  }

  /** No two (account, normalised asset) pairs share a balance leaf. */
  lemma BalanceKeyInjective(a: int, x: string, b: int, y: string)
    ensures BalanceKey(a, x) == BalanceKey(b, y) <==> a == b && Normalize(x) == Normalize(y)
  {
    if BalanceKey(a, x) == BalanceKey(b, y) {
      ColonSplit(a, Normalize(x), b, Normalize(y));
    }
  }

  /** No two (account, trimmed key) pairs share a nonce leaf. */
  lemma NonceKeyInjective(a: int, x: string, b: int, y: string)
    ensures NonceKey(a, x) == NonceKey(b, y) <==> a == b && TrimSpace(x) == TrimSpace(y)
  {
    if NonceKey(a, x) == NonceKey(b, y) {
      ColonSplit(a, TrimSpace(x), b, TrimSpace(y));
    }
  }

  /** No two (account, market, normalised outcome) triples share a position leaf. */
  lemma PositionKeyInjective(a: int, m: int, x: string, b: int, n: int, y: string)
    ensures PositionKey(a, m, x) == PositionKey(b, n, y) <==> a == b && m == n && Normalize(x) == Normalize(y)
  {
    hide Normalize, Decimal;
    var p, q := Decimal(m) + ":" + Normalize(x), Decimal(n) + ":" + Normalize(y);
    assert PositionKey(a, m, x) == Decimal(a) + ":" + p;
    assert PositionKey(b, n, y) == Decimal(b) + ":" + q;
    if PositionKey(a, m, x) == PositionKey(b, n, y) {
      ColonSplit(a, p, b, q);
      ColonSplit(m, Normalize(x), n, Normalize(y));
    }
  }

  lemma PositionAssetInjective(m: int, x: string, n: int, y: string)
    ensures PositionAsset(m, x) == PositionAsset(n, y) <==> m == n && Normalize(x) == Normalize(y)
  {
    hide Normalize, Decimal;
    var p, q := Decimal(m) + ":" + Normalize(x), Decimal(n) + ":" + Normalize(y);
    assert PositionAsset(m, x) == "POSITION:" + p && PositionAsset(n, y) == "POSITION:" + q;
    if PositionAsset(m, x) == PositionAsset(n, y) {
      assert p == PositionAsset(m, x)[9..] && q == PositionAsset(n, y)[9..];
      ColonSplit(m, Normalize(x), n, Normalize(y));
    }
  }

  /** A position asset is already in normal form, so printing it into a balance key changes nothing. */
  lemma PositionAssetNormal(m: int, x: string)
    ensures Normalize(PositionAsset(m, x)) == PositionAsset(m, x)
    ensures PositionAsset(m, x) != DEFAULT_COLLATERAL
  {
    hide Normalize, Decimal;
    var n, d, s := Normalize(x), Decimal(m), PositionAsset(m, x);
    NormalizeFacts(x);
    assert s[0] == 'P';
    assert s[|s| - 1] == if n == "" then ':' else n[|n| - 1];
    forall i | 0 <= i < |s| ensures !('a' <= s[i] <= 'z') {
      assert s[i] == if i < 9 then "POSITION:"[i] else if i < 9 + |d| then d[i - 9] else if i == 9 + |d| then ':'
             else n[i - 10 - |d|];
    }
    NormalFixed(s);
  }

  function FirstColon(s: string): (c: nat)
    ensures c <= |s| && (c < |s| ==> s[c] == ':')
  {
    if s == "" || s[0] == ':' then 0 else 1 + FirstColon(s[1..])
  }

  lemma {:induction false} FirstColonIs(a: string, b: string)
    requires ':' !in a
    ensures FirstColon(a + ":" + b) == |a|
  {
    if a == "" {
      assert a + ":" + b == ":" + b;
    } else {
      assert a[0] != ':' && (a + ":" + b)[1..] == a[1..] + ":" + b;
      FirstColonIs(a[1..], b);
    }
  }

  /** The market and outcome an asset in normal form names, if it is the name of a position. */
  function PositionParts(x: string): (int, string) {
    if !("POSITION:" <= x) then (0, "")
    else
      var rest := x[9..];
      var c := FirstColon(rest);
      (ReadDecimal(rest[..c]), if c < |rest| then rest[c + 1..] else "")
  }

  lemma PositionPartsOf(m: int, o: string)
    ensures PositionParts(PositionAsset(m, o)) == (m, Normalize(o))
  {
    hide Normalize, Decimal, ReadDecimal, FirstColon;
    var x, d, n := PositionAsset(m, o), Decimal(m), Normalize(o);
    assert x[9..] == d + ":" + n;
    assert ':' !in d;
    FirstColonIs(d, n);
    assert (d + ":" + n)[..|d|] == d && (d + ":" + n)[|d| + 1..] == n;
    ReadDecimalOf(m);
  }

  lemma CollateralNormal()
    ensures Normalize(DEFAULT_COLLATERAL) == DEFAULT_COLLATERAL
  {
    NormalFixed(DEFAULT_COLLATERAL);
  }
}
