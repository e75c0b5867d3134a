/** Prices on the tick grid, in exact decimal arithmetic. */
module PriceGrid {
  import opened Common
  import opened Conversion

  /** Ticks are counted in units of 10^-8. */
  const UNITS: real := 100000000.0
  const NEAR: real := 0.000000001
  const MAX_DECIMALS: nat := 12

  function Tick(n: int): real { n as real / 100000000.0 }

  function Pow10(d: nat): (r: int)
    ensures r > 0
  {
    if d == 0 then 1 else 10 * Pow10(d - 1)
  }

  /** x multiplied by ten d times. */
  function Scaled(x: real, d: nat): real {
    if d == 0 then x else Scaled(x, d - 1) * 10.0
  }

  predicate Whole(x: real) { x.Floor as real == x }

  predicate NearWhole(t: real) {
    -NEAR <= t - Round(t) as real <= NEAR
  }

  /** Some integer is within 10^-9. */
  ghost predicate Near(t: real) {
    exists n: int :: Within(t, n)
  }

  predicate Within(t: real, n: int) {
    t - 0.000000001 <= n as real <= t + 0.000000001
  }

  lemma NearIs()
    ensures forall t: real :: NearWhole(t) <==> Near(t)
  {
    forall t: real
      ensures NearWhole(t) <==> Near(t)
    {
      if n: int :| Within(t, n) {
        NearestIs(t, n);
      }
      assert NearWhole(t) ==> Within(t, Round(t));
    }
  }

  lemma NearestIs(t: real, n: int)
    requires Within(t, n)
    ensures Round(t) == n
  {
    RoundNear(t);
    hide Round;
  }

  function FirstNear(step: real, d: nat): (r: nat)
    requires d <= MAX_DECIMALS
    ensures d <= r <= MAX_DECIMALS
    ensures r < MAX_DECIMALS ==> NearWhole(Scaled(step, r))
    ensures forall i :: d <= i < r ==> !NearWhole(Scaled(step, i))
    decreases MAX_DECIMALS - d
  {
    if d < MAX_DECIMALS && !NearWhole(Scaled(step, d)) then FirstNear(step, d + 1) else d
  }

  /** The decimal places implied by a tick. */
  function Decimals(step: real): nat {
    if step <= 0.0 then 8 else FirstNear(step, 0)
  }

  method DecimalsOf(step: real) returns (d: nat)
    ensures d == Decimals(step)
    ensures step <= 0.0 ==> d == 8
    ensures step > 0.0 ==> d <= 12 && (d < 12 ==> Near(Scaled(step, d))) && forall i :: 0 <= i < d ==> !Near(Scaled(step, i))
  {
    NearIs();
    hide NearWhole, Near;
    if step <= 0.0 {
      return 8;
    }
    d := 0;
    var t := step;
    while d < MAX_DECIMALS && !NearWhole(t)
      invariant d <= MAX_DECIMALS && t == Scaled(step, d)
      invariant FirstNear(step, 0) == FirstNear(step, d)
      decreases MAX_DECIMALS - d
    {
      t := t * 10.0;
      d := d + 1;
    }
  }

  /** Up to eight decimals a tick is nearly whole only when it is whole. */
  lemma NearIffWhole(t: real, m: int)
    requires t * UNITS == m as real
    ensures NearWhole(t) <==> Whole(t)
  {
    var k := Round(t);
    RoundNear(t);
    if NearWhole(t) {
      assert m as real - k as real * UNITS == (t - k as real) * UNITS;
      assert m == k * 100000000;
      assert t == k as real;
    }
    if Whole(t) {
      RoundWhole(t.Floor);
    }
  }

  lemma {:induction false} ScaledUnits(n: int, d: nat)
    ensures Scaled(Tick(n), d) * UNITS == (n * Pow10(d)) as real
  {
    if d > 0 {
      ScaledUnits(n, d - 1);
      assert n * Pow10(d) == n * Pow10(d - 1) * 10;
    }
  }

  /** For a tick that is a multiple of 10^-8: the least d for which tick * 10^d is whole, at most eight. */
  lemma TickDecimals(n: int)
    requires n > 0
    ensures var d := Decimals(Tick(n));
      && d <= 8 && Whole(Scaled(Tick(n), d))
      && forall i :: 0 <= i < d ==> !Whole(Scaled(Tick(n), i))
  {
    hide Scaled, NearWhole, Whole, Pow10, Round, FirstNear, Tick;
    var tick := Tick(n);
    TickPositive(n);
    EightEnough(n);
    forall i | 0 <= i <= Decimals(tick)
      ensures NearWhole(Scaled(tick, i)) <==> Whole(Scaled(tick, i))
    {
      ScaledUnits(n, i);
      NearIffWhole(Scaled(tick, i), n * Pow10(i));
    }
  }

  lemma TickPositive(n: int)
    requires n > 0
    ensures Tick(n) > 0.0
  {
  }

  lemma EightEnough(n: int)
    requires n > 0
    ensures NearWhole(Scaled(Tick(n), 8))
  {
    ScaledUnits(n, 8);
    PowEight();
    var t := Scaled(Tick(n), 8);
    hide Scaled, Pow10;
    assert t == n as real;
    RoundWhole(n);
  }

  lemma PowEight()
    ensures Pow10(8) == 100000000
  {
    assert Pow10(2) == 100;
    assert Pow10(4) == 10000;
    assert Pow10(6) == 1000000;
  }

  // ---- rounding to decimals ----

  /** The nearest integer, halves to even. */
  function HalfEven(x: real): int {
    var f := x.Floor;
    var rest := x - f as real;
    if rest < 0.5 || (rest == 0.5 && f % 2 == 0) then f else f + 1
  }

  function RoundToDecimals(v: real, decimals: nat): real {
    HalfEven(Scaled(v, decimals)) as real / Pow10(decimals) as real
  }

  lemma {:induction false} ScaledIs(x: real, d: nat)
    ensures Scaled(x, d) == x * Pow10(d) as real
  {
    if d > 0 {
      ScaledIs(x, d - 1);
      var p := Pow10(d - 1) as real;
      assert Pow10(d) as real == 10.0 * p;
      assert x * (10.0 * p) == x * p * 10.0;
    }
  }

  lemma HalfEvenKeeps(x: real)
    ensures HalfEven(x) as real == x <==> Whole(x)
  {
  }

  /** The nearest integer, and of two equally near ones the even one. */
  lemma HalfEvenNearest(x: real)
    ensures -0.5 <= HalfEven(x) as real - x <= 0.5
    ensures HalfEven(x) as real - x in {-0.5, 0.5} ==> HalfEven(x) % 2 == 0
  {
  }

  /** Rounding to decimals moves a value by at most half a unit of the last place, onto that place. */
  lemma RoundedNear(v: real, decimals: nat)
    ensures var px, unit := RoundToDecimals(v, decimals), 1.0 / Pow10(decimals) as real;
      && -0.5 * unit <= px - v <= 0.5 * unit
      && px == Multiple(HalfEven(Scaled(v, decimals)), unit)
  {
    hide *;
    var p := Pow10(decimals) as real;
    var n := HalfEven(Scaled(v, decimals));
    ScaledIs(v, decimals);
    HalfEvenNearest(Scaled(v, decimals));
    RoundedIs(v, decimals);
    PlacesNear(v, p, Scaled(v, decimals), n as real);
    UnitsOf(n, 1.0 / p);
  }

  lemma RoundedIs(v: real, decimals: nat)
    ensures RoundToDecimals(v, decimals) == HalfEven(Scaled(v, decimals)) as real / Pow10(decimals) as real
  {
  }

  lemma UnitsOf(n: int, unit: real)
    ensures Multiple(n, unit) == Times(n as real, unit)
  {
  }

  lemma PlacesNear(v: real, p: real, scaled: real, m: real)
    requires p > 0.0 && scaled == v * p && -0.5 <= m - scaled <= 0.5
    ensures var unit := 1.0 / p; -0.5 * unit <= m / p - v <= 0.5 * unit && m / p == Times(m, unit)
  {
    var unit := 1.0 / p;
    assert unit > 0.0;
    Unfold(m, p, unit);
    Unfold(scaled, p, unit);
    assert scaled / p == v;
    hide Times;
    Times3(m, unit);
    TimesMonotone(m - scaled, 0.5, unit);
    TimesMonotone(-0.5, m - scaled, unit);
    TimesSum(scaled, m - scaled, unit);
  }

  lemma Unfold(a: real, p: real, unit: real)
    requires p > 0.0 && unit == 1.0 / p
    ensures a / p == Times(a, unit)
  {
    assert a / p * p == a;
    assert unit * p == 1.0;
    assert Times(a, unit) * p == a * (unit * p);
    MulMonotone(a / p, Times(a, unit), p);
  }

  lemma Times3(a: real, unit: real)
    ensures Times(0.5, unit) == 0.5 * unit && Times(-0.5, unit) == -0.5 * unit
  {
  }

  /** Rounding to decimals leaves a value alone exactly when it has no more decimals. */
  lemma KeptIff(v: real, decimals: nat)
    ensures RoundToDecimals(v, decimals) == v <==> Whole(Scaled(v, decimals))
  {
    hide Whole, HalfEven, Scaled, Pow10;
    var p := Pow10(decimals) as real;
    var x := Scaled(v, decimals);
    var r := RoundToDecimals(v, decimals);
    ScaledIs(v, decimals);
    HalfEvenKeeps(x);
    assert r * p == HalfEven(x) as real;
    MulMonotone(r, v, p);
  }

  lemma {:induction false} ScaledMultiple(k: int, x: real, d: nat)
    ensures Scaled(Multiple(k, x), d) == Multiple(k, Scaled(x, d))
  {
    if d > 0 {
      ScaledMultiple(k, x, d - 1);
    }
  }

  lemma WholeMultiple(k: int, x: real)
    requires Whole(x)
    ensures Whole(Multiple(k, x))
  {
    WholeProduct(k, x.Floor);
  }

  lemma WholeProduct(k: int, m: int)
    ensures Multiple(k, m as real) == (k * m) as real
  {
  }

  lemma {:induction false} MoreDecimals(x: real, d: nat, e: nat)
    requires Whole(Scaled(x, d)) && d <= e
    ensures Whole(Scaled(x, e))
    decreases e - d
  {
    if d < e {
      MoreDecimals(x, d, e - 1);
      var y := Scaled(x, e - 1);
      assert Scaled(x, e) == (10 * y.Floor) as real;
    }
  }

  /** The decimal rounding keeps every price on the grid if and only if at least Decimals(tick) places are kept. */
  lemma GridKeptIff(n: int, decimals: nat)
    requires n > 0
    ensures (forall k: int :: RoundToDecimals(Multiple(k, Tick(n)), decimals) == Multiple(k, Tick(n)))
       <==> decimals >= Decimals(Tick(n))
  {
    hide *;
    var tick := Tick(n);
    if decimals >= Decimals(tick) {
      forall k: int
        ensures RoundToDecimals(Multiple(k, tick), decimals) == Multiple(k, tick)
      {
        GridKept(n, decimals, k);
      }
    } else {
      TickDecimals(n);
      KeptIff(tick, decimals);
      OneStep(tick);
    }
  }

  lemma OneStep(tick: real)
    ensures Multiple(1, tick) == tick
  {
  }

  lemma GridKept(n: int, decimals: nat, k: int)
    requires n > 0 && decimals >= Decimals(Tick(n))
    ensures RoundToDecimals(Multiple(k, Tick(n)), decimals) == Multiple(k, Tick(n))
  {
    hide *;
    var tick := Tick(n);
    TickDecimals(n);
    MoreDecimals(tick, Decimals(tick), decimals);
    WholeMultiple(k, Scaled(tick, decimals));
    ScaledMultiple(k, tick, decimals);
    KeptIff(Multiple(k, tick), decimals);
  }

  /** The price that goes into the request. */
  function SubmittedPrice(price: real, tick: real, decimals: nat): real {
    var px := if tick > 0.0 then Multiple(Round(price / tick), tick) else price;
    RoundToDecimals(px, decimals)
  }

  /**
   When enough decimals are kept, the submitted price is on the grid, at most half a tick
   from the price asked for, and submitting it again changes nothing.
   */
  lemma SnappedPrice(price: real, n: int, decimals: nat)
    requires n > 0 && decimals >= Decimals(Tick(n))
    ensures var tick := Tick(n); var px := SubmittedPrice(price, tick, decimals);
      && px == Multiple(Round(price / tick), tick)
      && -0.5 * tick <= px - price <= 0.5 * tick
      && SubmittedPrice(px, tick, decimals) == px
  {
    hide Tick, Multiple, Round, RoundToDecimals, Decimals;
    var tick := Tick(n);
    TickPositive(n);
    var k := Round(price / tick);
    GridKept(n, decimals, k);
    RoundedWorth(price, tick);
    StepsBack(k, tick);
    RoundWhole(k);
  }

  /** Without a tick the price only goes to the decimals kept, at most half a unit of the last place away. */
  lemma UntickedPrice(price: real, tick: real, decimals: nat)
    requires tick <= 0.0
    ensures var px, unit := SubmittedPrice(price, tick, decimals), 1.0 / Pow10(decimals) as real;
      -0.5 * unit <= px - price <= 0.5 * unit && exists k: int :: px == Multiple(k, unit)
  {
    hide RoundToDecimals, Multiple, Pow10;
    RoundedNear(price, decimals);
  }

  lemma StepsBack(k: int, tick: real)
    requires tick > 0.0
    ensures Multiple(k, tick) / tick == k as real
  {
  }
}
