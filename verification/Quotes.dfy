/** The market maker's quotes: sell offers on both outcomes of a market, stepped out from the middle and
    skewed by inventory. Prices are whole numbers, the skew is computed over the reals. */
module Quotes {
  import opened Int64

  datatype Side = Yes | No

  datatype Quote = Quote(outcome: Side, price: int, quantity: int)

  datatype Strategy = Strategy(defaultMid: int, defaultSpread: int, levels: int, levelSpacing: int, baseQuantity: int,
                               inventorySkew: real)

  function Truncate(x: real): int {
    if x >= 0.0 then x.Floor else -(-x).Floor
  }

  function Times(a: real, b: real): real {
    a * b
  }

  /** How far the holdings lean to YES: 1 for nothing but YES, -1 for nothing but NO. */
  function Imbalance(yes: int, no: int): real
    requires yes + no != 0
  {
    (yes as real / (yes + no) as real - 0.5) * 2.0
  }

  /** The largest shift: the configured fraction of the spread. */
  function Reach(s: Strategy): real {
    s.inventorySkew * s.defaultSpread as real
  }

  /** The skew before it is cut to a whole number. */
  function Lean(s: Strategy, yes: int, no: int): real
    requires yes + no != 0
  {
    Times(Imbalance(yes, no), Reach(s))
  }

  /** The shift added to the YES side's ask; the NO side gets its negative. */
  function Skew(s: Strategy, yes: int, no: int): int {
    if s.inventorySkew <= 0.0 || yes + no == 0 then 0
    else -Truncate(Lean(s, yes, no))
  }

  function Clamp(price: int): int {
    if price < 1 then 1 else if price > 99 then 99 else price
  }

  function Halved(quantity: int, level: nat): int {
    if level == 0 then quantity else Halved(quantity, level - 1) / 2
  }

  /** Halving level times divides by 2 to the level, rounding down once. */
  lemma {:induction false} HalvedIs(quantity: int, level: nat)
    ensures Halved(quantity, level) * Pow2(level) <= quantity < (Halved(quantity, level) + 1) * Pow2(level)
    decreases level
  {
    if level > 0 {
      HalvedIs(quantity, level - 1);
      HalfOfMultiple(quantity, Halved(quantity, level - 1), Pow2(level - 1));
    }
  }

  lemma HalfOfMultiple(n: int, h: int, p: nat)
    requires h * p <= n < (h + 1) * p
    ensures (h / 2) * (2 * p) <= n < (h / 2 + 1) * (2 * p)
  {
    var g := h / 2;
    if h == 2 * g {
      assert g * (2 * p) == h * p && (g + 1) * (2 * p) == (h + 1) * p + p;
    } else {
      assert h == 2 * g + 1 && g * (2 * p) == h * p - p && (g + 1) * (2 * p) == (h + 1) * p;
    }
  }

  /** A level offers the base quantity over 2 to the level, rounded down, and never less than one. */
  lemma LevelQuantityIs(s: Strategy, level: nat)
    ensures var q := LevelQuantity(s, level);
            if s.baseQuantity < Pow2(level) then q == 1
            else q * Pow2(level) <= s.baseQuantity < (q + 1) * Pow2(level)
  {
    hide Halved, Pow2;
    HalvedIs(s.baseQuantity, level);
    BelowOne(s.baseQuantity, Halved(s.baseQuantity, level), Pow2(level));
  }

  lemma BelowOne(n: int, h: int, p: nat)
    requires p >= 1 && h * p <= n < (h + 1) * p
    ensures h < 1 <==> n < p
  {
    assert (h + 1) * p == h * p + p;
    if h < 1 {
      assert h * p <= 0;
    } else {
      assert h * p == p + (h - 1) * p && (h - 1) * p >= 0;
    }
  }

  function LevelQuantity(s: Strategy, level: nat): int {
    var quantity := Halved(s.baseQuantity, level);
    if quantity < 1 then 1 else quantity
  }

  function HalfSpread(s: Strategy): int {
    if s.defaultSpread < 2 then 1 else s.defaultSpread / 2
  }

  function Mid(s: Strategy, mid: int): int {
    if mid <= 0 || mid >= 100 then s.defaultMid else mid
  }

  /** The price a side asks at a level. */
  function Ask(s: Strategy, side: Side, mid: int, skew: int, level: nat): int {
    var offset := HalfSpread(s) + level * s.levelSpacing;
    Clamp(match side
          case Yes => Mid(s, mid) + offset + skew
          case No => 100 - Mid(s, mid) + offset - skew)
  }

  /** Whatever the middle, the inventory and the skew, and whichever levels: buying one share of each
      outcome from this maker costs at least the 100 that the pair pays out, even after clamping. */
  lemma PairCostsAtLeastPayout(s: Strategy, mid: int, skew: int, i: nat, j: nat)
    requires s.levelSpacing >= 0
    ensures Ask(s, Yes, mid, skew, i) + Ask(s, No, mid, skew, j) >= 100
  {
    SpacingOut(i, s.levelSpacing);
    SpacingOut(j, s.levelSpacing);
  }

  /** The half spread is half the spread, rounded down, and never less than one. */
  lemma HalfSpreadIs(s: Strategy)
    ensures s.defaultSpread >= 2 ==> s.defaultSpread - 1 <= 2 * HalfSpread(s) <= s.defaultSpread
    ensures s.defaultSpread < 2 ==> HalfSpread(s) == 1
  {
  }

  /** A price that the clamp leaves alone. */
  predicate Inside(price: int) {
    1 < price < 99
  }

  /** Exactly what a pair costs inside the grid: the payout, the spread, and the steps out, whatever the middle
      and the skew; and how each ask moves with the middle, the skew and the level. */
  lemma PairCostExact(s: Strategy, mid: int, skew: int, i: nat, j: nat)
    ensures var yes, no := Ask(s, Yes, mid, skew, i), Ask(s, No, mid, skew, j);
            var middle := if 0 < mid < 100 then mid else s.defaultMid;
            && (Inside(yes) && Inside(no) ==>
                  yes + no == 100 + 2 * HalfSpread(s) + i * s.levelSpacing + j * s.levelSpacing)
            && (Inside(yes) ==> yes - middle - skew == HalfSpread(s) + i * s.levelSpacing)
            && (Inside(no) ==> no - (100 - middle) + skew == HalfSpread(s) + j * s.levelSpacing)
  {
  }

  lemma SpacingOut(level: nat, spacing: int)
    requires spacing >= 0
    ensures level * spacing >= 0
  {
  }

  /** A strategy as it is configured; the spacing between levels follows from the spread. */
  function NewStrategy(mid: int, spread: int, levels: int, quantity: int, skew: real): (s: Strategy)
    ensures s.levelSpacing >= 1
    ensures spread > 4 ==> s.levelSpacing <= HalfSpread(s)
  {
    Strategy(mid, spread, levels, if spread > 4 then spread / 3 else 2, quantity, skew)
  }

  /** Levels lie a third of the spread apart, rounded down, and two for spreads up to four. */
  lemma SpacingIs(mid: int, spread: int, levels: int, quantity: int, skew: real)
    ensures var s := NewStrategy(mid, spread, levels, quantity, skew);
            && (spread <= 4 ==> s.levelSpacing == 2)
            && (spread > 4 ==> 3 * s.levelSpacing <= spread < 3 * s.levelSpacing + 3)
            && s == s.(defaultMid := mid, defaultSpread := spread, levels := levels, baseQuantity := quantity,
                       inventorySkew := skew)
  {
  }

  /** Every quote is on the price grid, no larger than the holding it sells from, and comes from its
      side's ask at some level. */
  ghost predicate Backed(s: Strategy, q: Quote, mid: int, skew: int, yes: int, no: int) {
    && 1 <= q.price <= 99
    && 1 <= q.quantity <= (if q.outcome == Yes then yes else no)
    && exists level: nat ::
         level < s.levels && q.price == Ask(s, q.outcome, mid, skew, level) && q.quantity == LevelQuantity(s, level)
  }

  /** The quotes of one level, YES before NO, each only if the holding covers it. */
  function Rung(s: Strategy, mid: int, skew: int, yes: int, no: int, level: nat): seq<Quote> {
    var quantity := LevelQuantity(s, level);
    (if quantity <= yes then [Quote(Yes, Ask(s, Yes, mid, skew, level), quantity)] else [])
    + (if quantity <= no then [Quote(No, Ask(s, No, mid, skew, level), quantity)] else [])
  }

  function Ladder(s: Strategy, mid: int, skew: int, yes: int, no: int, levels: int): seq<Quote> {
    if levels <= 0 then [] else Ladder(s, mid, skew, yes, no, levels - 1) + Rung(s, mid, skew, yes, no, levels - 1)
  }

  /** Quotes come level by level: those of the first levels are the first quotes, whatever levels follow. */
  lemma {:induction false} LadderInOrder(s: Strategy, mid: int, skew: int, yes: int, no: int, few: nat, many: nat)
    requires few <= many
    ensures Ladder(s, mid, skew, yes, no, few) <= Ladder(s, mid, skew, yes, no, many)
    decreases many
  {
    hide Rung;
    if few < many {
      LadderInOrder(s, mid, skew, yes, no, few, many - 1);
    }
  }

  lemma {:induction false} LadderBacked(s: Strategy, mid: int, skew: int, yes: int, no: int, levels: int, q: Quote)
    requires levels <= s.levels && q in Ladder(s, mid, skew, yes, no, levels)
    ensures Backed(s, q, mid, skew, yes, no)
    decreases levels
  {
    hide Ask, LevelQuantity;
    if levels > 0 {
      var level: nat := levels - 1;
      if q in Rung(s, mid, skew, yes, no, level) {
        AskRange(s, q.outcome, mid, skew, level);
        assert q.price == Ask(s, q.outcome, mid, skew, level) && q.quantity == LevelQuantity(s, level);
      } else {
        LadderBacked(s, mid, skew, yes, no, levels - 1, q);
      }
    }
  }

  /** Every covered level of a side is on the ladder. */
  lemma {:induction false} LadderComplete(s: Strategy, mid: int, skew: int, yes: int, no: int, levels: int,
                                          side: Side, level: nat)
    requires level < levels && LevelQuantity(s, level) <= (if side == Yes then yes else no)
    ensures Quote(side, Ask(s, side, mid, skew, level), LevelQuantity(s, level)) in
              Ladder(s, mid, skew, yes, no, levels)
    decreases levels
  {
    hide Ask, LevelQuantity;
    if level < levels - 1 {
      LadderComplete(s, mid, skew, yes, no, levels - 1, side, level);
    } else {
      assert Quote(side, Ask(s, side, mid, skew, level), LevelQuantity(s, level)) in Rung(s, mid, skew, yes, no, level);
    }
  }

  lemma LadderFacts(s: Strategy, mid: int, skew: int, yes: int, no: int, quotes: seq<Quote>)
    requires s.levelSpacing >= 0 && quotes == Ladder(s, mid, skew, yes, no, s.levels)
    ensures forall k :: 0 <= k < |quotes| ==> Backed(s, quotes[k], mid, skew, yes, no)
    ensures forall k, l ::
              0 <= k < |quotes| && 0 <= l < |quotes| && quotes[k].outcome == Yes && quotes[l].outcome == No ==>
              quotes[k].price + quotes[l].price >= 100
    ensures forall level: nat :: level < s.levels && LevelQuantity(s, level) <= yes ==>
              Quote(Yes, Ask(s, Yes, mid, skew, level), LevelQuantity(s, level)) in quotes
    ensures forall level: nat :: level < s.levels && LevelQuantity(s, level) <= no ==>
              Quote(No, Ask(s, No, mid, skew, level), LevelQuantity(s, level)) in quotes
  {
    hide Ask, LevelQuantity, Backed, Ladder;
    forall k | 0 <= k < |quotes| ensures Backed(s, quotes[k], mid, skew, yes, no) {
      LadderBacked(s, mid, skew, yes, no, s.levels, quotes[k]);
    }
    forall k, l | 0 <= k < |quotes| && 0 <= l < |quotes| && quotes[k].outcome == Yes && quotes[l].outcome == No
      ensures quotes[k].price + quotes[l].price >= 100
    {
      BackedPairCosts(s, quotes[k], quotes[l], mid, skew, yes, no);
    }
    forall level: nat | level < s.levels && LevelQuantity(s, level) <= yes
      ensures Quote(Yes, Ask(s, Yes, mid, skew, level), LevelQuantity(s, level)) in quotes
    {
      LadderComplete(s, mid, skew, yes, no, s.levels, Yes, level);
    }
    forall level: nat | level < s.levels && LevelQuantity(s, level) <= no
      ensures Quote(No, Ask(s, No, mid, skew, level), LevelQuantity(s, level)) in quotes
    {
      LadderComplete(s, mid, skew, yes, no, s.levels, No, level);
    }
  }

  method ComputeQuotes(s: Strategy, mid: int, yes: int, no: int) returns (quotes: seq<Quote>)
    requires s.levelSpacing >= 0 && s.levels <= 64
    ensures quotes == Ladder(s, mid, Skew(s, yes, no), yes, no, s.levels)
    ensures forall k :: 0 <= k < |quotes| ==> Backed(s, quotes[k], mid, Skew(s, yes, no), yes, no)
    ensures forall k, l ::
              0 <= k < |quotes| && 0 <= l < |quotes| && quotes[k].outcome == Yes && quotes[l].outcome == No ==>
              quotes[k].price + quotes[l].price >= 100
    ensures forall level: nat :: level < s.levels && LevelQuantity(s, level) <= yes ==>
              Quote(Yes, Ask(s, Yes, mid, Skew(s, yes, no), level), LevelQuantity(s, level)) in quotes
    ensures forall level: nat :: level < s.levels && LevelQuantity(s, level) <= no ==>
              Quote(No, Ask(s, No, mid, Skew(s, yes, no), level), LevelQuantity(s, level)) in quotes
  {
    hide Ask, LevelQuantity, Skew, Backed;
    var skew := Skew(s, yes, no);
    quotes := [];
    var i := 0;
    while i < s.levels
      invariant 0 <= i && (i <= s.levels || i == 0)
      invariant quotes == Ladder(s, mid, skew, yes, no, i)
    {
      var quantity := LevelQuantity(s, i);
      var yesAsk, noAsk := Ask(s, Yes, mid, skew, i), Ask(s, No, mid, skew, i);
      AskRange(s, Yes, mid, skew, i);
      AskRange(s, No, mid, skew, i);
      var rung := [];
      if yesAsk > 0 && quantity > 0 && quantity <= yes {
        rung := [Quote(Yes, yesAsk, quantity)];
      }
      if noAsk > 0 && quantity > 0 && quantity <= no {
        rung := rung + [Quote(No, noAsk, quantity)];
      }
      assert rung == Rung(s, mid, skew, yes, no, i);
      quotes := quotes + rung;
      i := i + 1;
    }
    LadderFacts(s, mid, skew, yes, no, quotes);
  }

  lemma BackedPairCosts(s: Strategy, q: Quote, r: Quote, mid: int, skew: int, yes: int, no: int)
    requires s.levelSpacing >= 0 && q.outcome == Yes && r.outcome == No
    requires Backed(s, q, mid, skew, yes, no) && Backed(s, r, mid, skew, yes, no)
    ensures q.price + r.price >= 100
  {
    hide Ask, LevelQuantity;
    var a: nat :| a < s.levels && q.price == Ask(s, Yes, mid, skew, a) && q.quantity == LevelQuantity(s, a);
    var b: nat :| b < s.levels && r.price == Ask(s, No, mid, skew, b) && r.quantity == LevelQuantity(s, b);
    PairCostsAtLeastPayout(s, mid, skew, a, b);
  }

  lemma AskRange(s: Strategy, side: Side, mid: int, skew: int, level: nat)
    ensures 1 <= Ask(s, side, mid, skew, level) <= 99 && LevelQuantity(s, level) >= 1
  {
    hide Halved;
  }

  /** The skew leans against inventory: the side the maker holds more of is offered cheaper, by no more
      than the configured fraction of the spread. */
  lemma SkewLeansAgainstInventory(s: Strategy, yes: int, no: int)
    requires yes >= 0 && no >= 0 && s.defaultSpread >= 0
    ensures yes > no ==> Skew(s, yes, no) <= 0
    ensures yes < no ==> Skew(s, yes, no) >= 0
    ensures yes == no ==> Skew(s, yes, no) == 0
    ensures s.inventorySkew > 0.0 ==> -Reach(s) <= Skew(s, yes, no) as real <= Reach(s)
  {
    hide Truncate, Lean, Reach;
    if s.inventorySkew > 0.0 {
      ReachNonNegative(s);
      if yes + no != 0 {
        LeanBounds(s, yes, no);
        TruncateShrinks(Lean(s, yes, no));
      }
    }
  }

  lemma ReachNonNegative(s: Strategy)
    requires s.defaultSpread >= 0 && s.inventorySkew > 0.0
    ensures Reach(s) >= 0.0
  {
    NonNegativeProduct(s.inventorySkew, s.defaultSpread as real);
  }

  lemma LeanBounds(s: Strategy, yes: int, no: int)
    requires yes >= 0 && no >= 0 && yes + no != 0 && s.defaultSpread >= 0 && s.inventorySkew > 0.0
    ensures -Reach(s) <= Lean(s, yes, no) <= Reach(s)
    ensures (yes >= no ==> Lean(s, yes, no) >= 0.0) && (yes <= no ==> Lean(s, yes, no) <= 0.0)
  {
    hide Imbalance, Reach, Times;
    ReachNonNegative(s);
    ImbalanceLeans(yes, no);
    Scaled(Imbalance(yes, no), Reach(s));
  }

  lemma ImbalanceLeans(yes: int, no: int)
    requires yes >= 0 && no >= 0 && yes + no != 0
    ensures -1.0 <= Imbalance(yes, no) <= 1.0
    ensures (yes > no ==> Imbalance(yes, no) > 0.0) && (yes < no ==> Imbalance(yes, no) < 0.0)
    ensures yes == no ==> Imbalance(yes, no) == 0.0
  {
    var part, total := yes as real, (yes + no) as real;
    assert total == part + no as real;
    Fraction(part, total);
  }

  lemma NonNegativeProduct(a: real, b: real)
    requires a >= 0.0 && b >= 0.0
    ensures a * b >= 0.0
  {
  }

  lemma Fraction(part: real, total: real)
    requires 0.0 <= part <= total && total > 0.0
    ensures 0.0 <= part / total <= 1.0
    ensures part * 2.0 > total ==> part / total > 0.5
    ensures part * 2.0 < total ==> part / total < 0.5
    ensures part * 2.0 == total ==> part / total == 0.5
  {
    var f := part / total;
    assert f * total == part;
    if f < 0.0 {
      NonNegativeProduct(-f, total);
    }
    if f > 1.0 {
      Below(1.0, f, total);
    }
    if f > 0.5 {
      Below(0.5, f, total);
    } else if f < 0.5 {
      Below(f, 0.5, total);
    }
  }

  lemma Below(a: real, b: real, c: real)
    requires a < b && c > 0.0
    ensures a * c < b * c
  {
    assert (b - a) * c > 0.0;
    assert (b - a) * c == b * c - a * c;
  }

  lemma Scaled(x: real, scale: real)
    requires -1.0 <= x <= 1.0 && scale >= 0.0
    ensures -scale <= Times(x, scale) <= scale
    ensures (x >= 0.0 ==> Times(x, scale) >= 0.0) && (x <= 0.0 ==> Times(x, scale) <= 0.0)
  {
    NonNegativeProduct(1.0 - x, scale);
    assert (1.0 - x) * scale == scale - x * scale;
    NonNegativeProduct(1.0 + x, scale);
    assert (1.0 + x) * scale == scale + x * scale;
    if x >= 0.0 {
      NonNegativeProduct(x, scale);
    } else {
      NonNegativeProduct(-x, scale);
      assert -x * scale == -(x * scale);
    }
  }

  lemma TruncateShrinks(x: real)
    ensures x >= 0.0 ==> 0.0 <= Truncate(x) as real <= x
    ensures x <= 0.0 ==> x <= Truncate(x) as real <= 0.0
  {
  }
}
