/**
 Base quantities to contracts and back, and prices to the tick grid, in exact arithmetic.
 A contract is worth contractSize base units; orders come in whole multiples of volUnit.
 */
module Conversion {
  import opened Common

  /** The nearest integer, halves away from zero. */
  function Round(x: real): int {
    if x >= 0.0 then (x + 0.5).Floor else -((0.5 - x).Floor)
  }

  lemma RoundNear(x: real)
    ensures -0.5 <= Round(x) as real - x <= 0.5
  {
  }

  /** Halves go away from zero. */
  lemma RoundHalf(n: int)
    requires n >= 0
    ensures Round(n as real + 0.5) == n + 1 && Round(-(n as real) - 0.5) == -n - 1
  {
  }

  lemma RoundWhole(n: int)
    ensures Round(n as real) == n
  {
  }

  // ---- volumes ----

  const SLACK: real := 0.000000001

  function WholeUnits(vol: int, volUnit: int): int
    requires volUnit >= 1
  {
    (vol as real / volUnit as real + SLACK).Floor
  }

  /** The submitted volume, in contracts. */
  function Contracts(qty: real, cs: real, volUnit: int): int
    requires cs > 0.0 && volUnit >= 1
  {
    var vol := Round(qty / cs);
    if volUnit > 1 then WholeUnits(vol, volUnit) * volUnit else vol
  }

  /** k steps: a volume in base units when step is the contract size, a price when it is the tick. */
  function Multiple(k: int, step: real): real { k as real * step }

  /** So little is missing to the next whole unit that the slack makes it up. */
  predicate SlackTips(vol: int, volUnit: int)
    requires volUnit >= 1
  {
    (volUnit - vol % volUnit) * 1_000_000_000 <= volUnit
  }

  lemma Quotient(q: int, r: int, u: int)
    requires u >= 1
    ensures (q * u + r) as real / u as real == q as real + r as real / u as real
  {
    assert (q * u + r) as real == q as real * u as real + r as real;
  }

  lemma FractionTips(r: int, u: int)
    requires 0 <= r < u
    ensures 0.0 <= r as real / u as real < 1.0
    ensures r as real / u as real + SLACK >= 1.0 <==> (u - r) * 1_000_000_000 <= u
  {
    var x, v := r as real / u as real, u as real;
    assert x * v == r as real;
    Reaches(x, v, r as real);
  }

  /** x is w / v; what is missing to 1 is at most the slack exactly when v - w is at most v / 10^9. */
  lemma Reaches(x: real, v: real, w: real)
    requires v > 0.0 && x * v == w && 0.0 <= w < v
    ensures 0.0 <= x < 1.0
    ensures x + SLACK >= 1.0 <==> (v - w) * 1000000000.0 <= v
  {
    MulMonotone(0.0, x, v);
    MulMonotone(1.0, x, v);
    MulMonotone(1.0 - SLACK, x, v);
  }

  /** The whole units are those of exact division, plus one exactly where the slack tips. */
  lemma UnitsExact(vol: int, volUnit: int)
    requires volUnit >= 1
    ensures WholeUnits(vol, volUnit) == vol / volUnit + (if SlackTips(vol, volUnit) then 1 else 0)
  {
    var q, r := vol / volUnit, vol % volUnit;
    assert vol == q * volUnit + r;
    Quotient(q, r, volUnit);
    FractionTips(vol % volUnit, volUnit);
  }

  lemma NeverTips(vol: int, volUnit: int)
    requires 1 <= volUnit < 1_000_000_000
    ensures !SlackTips(vol, volUnit)
  {
  }

  /** The slack never tips a volume over, whatever the volume, if and only if volUnit < 10^9. */
  lemma SlackHarmlessIff(volUnit: int)
    requires volUnit >= 1
    ensures (forall vol :: !SlackTips(vol, volUnit)) <==> volUnit < 1_000_000_000
  {
    if volUnit < 1_000_000_000 {
      forall vol ensures !SlackTips(vol, volUnit) { NeverTips(vol, volUnit); }
    } else {
      assert (volUnit - 1) % volUnit == volUnit - 1;
      assert SlackTips(volUnit - 1, volUnit);
    }
  }

  /**
   The submitted volume is a multiple of volUnit and less than one volUnit below the
   rounded quantity; it stays at or below that quantity exactly when the slack does not tip.
   */
  lemma VolumeOnGrid(qty: real, cs: real, volUnit: int)
    requires cs > 0.0 && volUnit >= 1
    ensures var vol, rounded := Contracts(qty, cs, volUnit), Round(qty / cs);
      vol % volUnit == 0 && rounded - vol < volUnit && (vol <= rounded <==> !SlackTips(rounded, volUnit))
  {
    var rounded := Round(qty / cs);
    if volUnit > 1 {
      UnitsExact(rounded, volUnit);
      var n := WholeUnits(rounded, volUnit);
      OnGrid(n, volUnit);
      Below(rounded, volUnit, n);
    }
    hide Round;
  }

  lemma OnGrid(n: int, u: int)
    requires u >= 1
    ensures (n * u) % u == 0
  {
    var m := n * u;
    assert m == u * (m / u) + m % u;
    assert u * (n - m / u) == m % u;
    OnlyZero(n - m / u, u);
  }

  lemma OnlyZero(k: int, u: int)
    requires -u < u * k < u
    ensures k == 0
  {
    if k >= 1 {
      AtLeastOne(k, u);
    } else if k <= -1 {
      AtLeastOne(-k, u);
    }
  }

  lemma AtLeastOne(k: int, u: int)
    requires k >= 1 && u >= 1
    ensures u * k >= u
  {
    assert u * (k - 1) >= 0;
  }

  lemma Below(rounded: int, u: int, n: int)
    requires u >= 1 && n == rounded / u + (if SlackTips(rounded, u) then 1 else 0)
    ensures rounded - n * u < u && (n * u <= rounded <==> !SlackTips(rounded, u))
  {
    assert rounded == u * (rounded / u) + rounded % u;
    assert n * u == u * (rounded / u) + (if SlackTips(rounded, u) then u else 0);
  }

  /**
   An order is worth more than the quantity asked for exactly when the slack tips, or when
   rounding to whole contracts went up and hit a whole number of units. Below 10^9 contracts
   a unit the slack never tips, and the order grows by at most half a contract.
   */
  lemma GrowsIff(qty: real, cs: real, volUnit: int)
    requires cs > 0.0 && volUnit >= 1
    ensures var vol, rounded := Contracts(qty, cs, volUnit), Round(qty / cs);
      && (Multiple(vol, cs) > qty <==> SlackTips(rounded, volUnit) || (Multiple(rounded, cs) > qty && rounded % volUnit == 0))
      && (volUnit < 1_000_000_000 ==> Multiple(vol, cs) <= qty + 0.5 * cs)
  {
    hide *;
    var vol, rounded := Contracts(qty, cs, volUnit), Round(qty / cs);
    WholeIffKept(qty, cs, volUnit);
    RoundedWorth(qty, cs);
    if vol < rounded {
      OneLess(vol, rounded, cs);
    } else if vol > rounded {
      OneLess(rounded, vol, cs);
    }
    if volUnit < 1_000_000_000 {
      NeverTips(rounded, volUnit);
    }
  }

  lemma WholeIffKept(qty: real, cs: real, volUnit: int)
    requires cs > 0.0 && volUnit >= 1
    ensures var vol, rounded := Contracts(qty, cs, volUnit), Round(qty / cs);
      if SlackTips(rounded, volUnit) then vol > rounded
      else if rounded % volUnit == 0 then vol == rounded
      else vol < rounded
  {
    hide *;
    var vol, rounded := Contracts(qty, cs, volUnit), Round(qty / cs);
    VolumeOnGrid(qty, cs, volUnit);
    if !SlackTips(rounded, volUnit) && rounded % volUnit == 0 {
      SameMultiple(vol, rounded, volUnit);
    }
  }

  /** The input: six tenths of a contract are sent as a whole one. */
  lemma SixTenthsGrow()
    ensures Contracts(0.6, 1.0, 1) == 1 && Multiple(Contracts(0.6, 1.0, 1), 1.0) > 0.6
  {
    assert 0.6 / 1.0 == 0.6;
    assert Round(0.6) == 1;
  }

  lemma OneLess(a: int, b: int, cs: real)
    requires a < b && cs > 0.0
    ensures Multiple(a, cs) <= Multiple(b, cs) - cs
  {
    MulMonotone(a as real, b as real - 1.0, cs);
    assert (b as real - 1.0) * cs == b as real * cs - cs;
  }

  lemma RoundedWorth(qty: real, cs: real)
    requires cs > 0.0
    ensures -0.5 * cs <= Multiple(Round(qty / cs), cs) - qty <= 0.5 * cs
  {
    hide Round;
    var x := qty / cs;
    RoundNear(x);
    assert Times(x, cs) == qty;
    Stretch(Round(x) as real, x, cs);
    Halves(cs);
    assert Multiple(Round(x), cs) == Times(Round(x) as real, cs);
    hide Times;
  }

  lemma Stretch(n: real, x: real, cs: real)
    requires cs > 0.0 && x - 0.5 <= n <= x + 0.5
    ensures Times(x, cs) + Times(-0.5, cs) <= Times(n, cs) <= Times(x, cs) + Times(0.5, cs)
  {
    hide Times;
    TimesMonotone(n, x + 0.5, cs);
    TimesMonotone(x + -0.5, n, cs);
    TimesSum(x, 0.5, cs);
    TimesSum(x, -0.5, cs);
  }

  lemma Halves(cs: real)
    ensures Times(0.5, cs) == 0.5 * cs && Times(-0.5, cs) == -0.5 * cs
  {
  }

  lemma SameMultiple(a: int, b: int, u: int)
    requires u >= 1 && a % u == 0 && b % u == 0 && 0 <= b - a < u
    ensures a == b
  {
    assert a == u * (a / u) && b == u * (b / u);
    assert b - a == u * (b / u - a / u);
    OnlyZero(b / u - a / u, u);
  }

  /** The quantity step of a symbol: one volUnit of contracts. */
  function QtyStep(cs: real, volUnit: int): real { volUnit as real * cs }

  /** A multiple of the quantity step converts to exactly its contracts, the slack notwithstanding. */
  lemma StepsConvert(k: int, cs: real, volUnit: int)
    requires cs > 0.0 && volUnit >= 1
    ensures Contracts(Multiple(k, QtyStep(cs, volUnit)), cs, volUnit) == k * volUnit
  {
    var n := k * volUnit;
    var qty := Multiple(k, QtyStep(cs, volUnit));
    assert qty == n as real * cs by {
      assert n as real == k as real * volUnit as real;
    }
    assert qty / cs == n as real;
    RoundWhole(n);
    if volUnit > 1 {
      Quotient(k, 0, volUnit);
    }
  }

  /**
   The round trip: the contracts submitted are worth exactly the quantity asked for, if
   and only if that quantity is a whole number of steps. A full fill is then credited as
   that quantity (contracts times contractSize).
   */
  lemma RoundTripIff(qty: real, cs: real, volUnit: int)
    requires cs > 0.0 && volUnit >= 1
    ensures Multiple(Contracts(qty, cs, volUnit), cs) == qty
       <==> exists k :: qty == Multiple(k, QtyStep(cs, volUnit))
  {
    var vol := Contracts(qty, cs, volUnit);
    if Multiple(vol, cs) == qty {
      VolumeOnGrid(qty, cs, volUnit);
      var k := vol / volUnit;
      assert vol == k * volUnit;
      StepValue(k, cs, volUnit);
      assert qty == Multiple(k, QtyStep(cs, volUnit));
    }
    if k :| qty == Multiple(k, QtyStep(cs, volUnit)) {
      StepsConvert(k, cs, volUnit);
      StepValue(k, cs, volUnit);
    }
  }

  lemma StepValue(k: int, cs: real, volUnit: int)
    ensures Multiple(k * volUnit, cs) == Multiple(k, QtyStep(cs, volUnit))
  {
    assert (k * volUnit) as real == k as real * volUnit as real;
  }
}
