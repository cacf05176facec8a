/**
  PAYE (Pay-As-You-Earn) income tax: a progressive walk over an ordered
  list of tax bands.  Each band taxes the part of the income that lies above
  the previous band's limit and at or below its own limit; the walk stops as
  soon as the income is covered.  The last band of the schedule has no upper
  limit.
 */
module Paye {
  import Money

  /** The upper limit of a band; `Unbounded` plays the part of `Infinity`. */
  datatype Limit = Finite(value: real) | Unbounded

  datatype Band = Band(limit: Limit, rate: real)

  /** Uganda's monthly PAYE schedule (2023 rates). */
  const TaxBands: seq<Band> := [
    Band(Finite(235000.0), 0.0),
    Band(Finite(335000.0), 0.1),
    Band(Finite(410000.0), 0.2),
    Band(Finite(10000000.0), 0.3),
    Band(Unbounded, 0.4)
  ]

  /** The highest rate of the schedule. */
  const TopRate: real := 0.4

  /** `income > previousLimit`, where nothing exceeds an unbounded limit. */
  predicate Exceeds(income: real, previous: Limit) {
    previous.Finite? && income > previous.value
  }

  /** `Math.min(income, limit)`. */
  function Cap(income: real, limit: Limit): real {
    match limit
    case Finite(l) => Money.Min(income, l)
    case Unbounded => income
  }

  /**
    The band walk: while the income exceeds the previous limit, tax the slice
    up to the current band's limit at its rate and move on; otherwise stop.
   */
  function Walk(income: real, bands: seq<Band>, previous: Limit): real
    decreases |bands|
  {
    if |bands| == 0 || !Exceeds(income, previous) then 0.0
    else
      (Cap(income, bands[0].limit) - previous.value) * bands[0].rate
      + Walk(income, bands[1..], bands[0].limit)
  }

  /** The tax the schedule levies on a monthly taxable income. */
  function Tax(income: real): real {
    Walk(income, TaxBands, Finite(0.0))
  }

  // ---------------------------------------------------------------------
  // Well-formed band lists and a reference definition without early exit
  // ---------------------------------------------------------------------

  /**
    Limits strictly increase from `lower`, rates are non-negative, and an
    unbounded band can only come last.
   */
  predicate Ascending(bands: seq<Band>, lower: real)
    decreases |bands|
  {
    |bands| == 0 ||
    (0.0 <= bands[0].rate &&
     match bands[0].limit
     case Finite(l) => lower < l && Ascending(bands[1..], l)
     case Unbounded => |bands| == 1)
  }

  predicate RatesAtMost(bands: seq<Band>, m: real) {
    forall i :: 0 <= i < |bands| ==> bands[i].rate <= m
  }

  /** What one band with lower edge `lower` contributes: nothing unless the income lies above the edge. */
  function Slice(income: real, band: Band, lower: real): real {
    if income > lower then (Cap(income, band.limit) - lower) * band.rate else 0.0
  }

  /** The sum of every band's slice, with no early exit. */
  function BandSum(income: real, bands: seq<Band>, lower: real): real
    decreases |bands|
  {
    if |bands| == 0 then 0.0
    else
      Slice(income, bands[0], lower)
      + match bands[0].limit
        case Finite(l) => BandSum(income, bands[1..], l)
        case Unbounded => 0.0
  }

  /** A piecewise-linear closed form of `Tax`, one piece per band. */
  function ClosedForm(income: real): real {
    if income <= 235000.0 then 0.0
    else if income <= 335000.0 then 0.1 * (income - 235000.0)
    else if income <= 410000.0 then 10000.0 + 0.2 * (income - 335000.0)
    else if income <= 10000000.0 then 25000.0 + 0.3 * (income - 410000.0)
    else 2902000.0 + 0.4 * (income - 10000000.0)
  }

  // ---------------------------------------------------------------------
  // The loop as written
  // ---------------------------------------------------------------------

  /**
    The `for … break` loop of `calculatePAYE` over a band table: while the
    income exceeds the previous limit, add the current band's slice and move
    the previous limit up; otherwise stop.  It computes the band walk.
   */
  method WalkBands(taxableIncome: real, bands: seq<Band>) returns (tax: real)
    ensures tax == Walk(taxableIncome, bands, Finite(0.0))
  {
    tax := 0.0;
    var previousLimit := Finite(0.0);
    var i := 0;
    while i < |bands|
      invariant 0 <= i <= |bands|
      invariant tax + Walk(taxableIncome, bands[i..], previousLimit) == Walk(taxableIncome, bands, Finite(0.0))
    {
      var band := bands[i];
      if Exceeds(taxableIncome, previousLimit) {
        var taxableAmount := Cap(taxableIncome, band.limit) - previousLimit.value;
        assert bands[i..][1..] == bands[i + 1..];
        tax := tax + taxableAmount * band.rate;
        previousLimit := band.limit;
        i := i + 1;
      } else {
        break;
      }
    }
  }

  /**
    `calculatePAYE`: the loop over the Uganda schedule.  Its result is the
    band-walk tax, equals the piecewise-linear closed form and is never
    negative.
   */
  method CalculatePaye(taxableIncome: real) returns (tax: real)
    ensures tax == Tax(taxableIncome)
    ensures tax == ClosedForm(taxableIncome)
    ensures 0.0 <= tax
  {
    tax := WalkBands(taxableIncome, TaxBands);
    TaxMatchesClosedForm(taxableIncome);
    TaxBounds(taxableIncome);
  }

  // ---------------------------------------------------------------------
  // Lemmas about any ascending band list
  // ---------------------------------------------------------------------

  lemma RatesAtMostTail(bands: seq<Band>, m: real)
    requires |bands| > 0 && RatesAtMost(bands, m)
    ensures bands[0].rate <= m && RatesAtMost(bands[1..], m)
  {
    assert bands[0].rate <= m;
    forall i | 0 <= i < |bands[1..]|
      ensures bands[1..][i].rate <= m
    {
      assert bands[1..][i] == bands[i + 1];
    }
  }

  /** Nothing is taxed at or below the lower edge of the first band. */
  lemma WalkZeroAtOrBelow(income: real, bands: seq<Band>, lower: real)
    requires income <= lower
    ensures Walk(income, bands, Finite(lower)) == 0.0
  {
  }

  /** Above the lower edge, the walk always takes the first band's slice, even when it is empty. */
  lemma WalkStep(income: real, bands: seq<Band>, lower: real)
    requires |bands| > 0 && Ascending(bands, lower) && lower <= income
    ensures Walk(income, bands, Finite(lower))
         == (Cap(income, bands[0].limit) - lower) * bands[0].rate + Walk(income, bands[1..], bands[0].limit)
  {
    if income == lower {
      assert Cap(income, bands[0].limit) == lower;
      match bands[0].limit
      case Finite(l) =>
        WalkZeroAtOrBelow(income, bands[1..], l);
      case Unbounded =>
    }
  }

  /**
    One step of the walk: when the first band's slice grows by `cy - cx` and
    the tail grows by at most `m` times `e`, the walk grows by at most `m`
    times the whole increase `d`.
   */
  lemma StepBound(r: real, m: real, lower: real, cx: real, cy: real, tx: real, ty: real, e: real, d: real)
    requires 0.0 <= r <= m && cx <= cy && 0.0 <= e && (cy - cx) + e <= d
    requires 0.0 <= ty - tx <= m * e
    ensures 0.0 <= ((cy - lower) * r + ty) - ((cx - lower) * r + tx) <= m * d
  {
    var a := cy - cx;
    assert ((cy - lower) * r + ty) - ((cx - lower) * r + tx) == r * a + (ty - tx);
    assert r * a <= m * a;
    assert m * a + m * e == m * (a + e);
    assert m * (a + e) <= m * d;
  }

  /** The product of two non-negative reals is non-negative. */
  lemma ProductNonNegative(a: real, b: real)
    requires 0.0 <= a && 0.0 <= b
    ensures 0.0 <= a * b
  {
  }

  /**
    Above the lower edge the walk is non-decreasing and grows no faster than
    the highest rate: raising the income by `d` raises the tax by between 0
    and `m * d`.  In particular it has no jump at any band limit.
   */
  lemma {:induction false} WalkLipschitz(x: real, y: real, bands: seq<Band>, lower: real, m: real)
    requires Ascending(bands, lower) && RatesAtMost(bands, m) && 0.0 <= m
    requires lower <= x <= y
    ensures 0.0 <= Walk(y, bands, Finite(lower)) - Walk(x, bands, Finite(lower)) <= m * (y - x)
    decreases |bands|, 1
  {
    if |bands| > 0 {
      RatesAtMostTail(bands, m);
      WalkStep(x, bands, lower);
      WalkStep(y, bands, lower);
      if bands[0].limit.Finite? {
        TailLipschitz(x, y, bands, lower, m);
      } else {
        StepBound(bands[0].rate, m, lower, x, y, 0.0, 0.0, 0.0, y - x);
      }
    } else {
      ProductNonNegative(m, y - x);
    }
  }

  /** The inductive step of `WalkLipschitz` for a band with a finite limit `l`. */
  lemma {:induction false} TailLipschitz(x: real, y: real, bands: seq<Band>, lower: real, m: real)
    requires |bands| > 0 && bands[0].limit.Finite?
    requires Ascending(bands, lower) && RatesAtMost(bands, m) && 0.0 <= m
    requires lower <= x <= y
    ensures 0.0 <= ((Cap(y, bands[0].limit) - lower) * bands[0].rate + Walk(y, bands[1..], bands[0].limit))
                 - ((Cap(x, bands[0].limit) - lower) * bands[0].rate + Walk(x, bands[1..], bands[0].limit))
                 <= m * (y - x)
    decreases |bands|, 0
  {
    var rest, l := bands[1..], bands[0].limit.value;
    RatesAtMostTail(bands, m);
    if x <= l {
      WalkZeroAtOrBelow(x, rest, l);
    }
    if y <= l {
      WalkZeroAtOrBelow(y, rest, l);
    } else if x <= l {
      WalkZeroAtOrBelow(l, rest, l);
      WalkLipschitz(l, y, rest, l, m);
    } else {
      WalkLipschitz(x, y, rest, l, m);
    }
    var r, tx, ty := bands[0].rate, Walk(x, rest, Finite(l)), Walk(y, rest, Finite(l));
    FiniteStep(x, y, lower, l, r, m, tx, ty);
    assert Cap(x, bands[0].limit) == Cap(x, Finite(l)) && Cap(y, bands[0].limit) == Cap(y, Finite(l));
    assert Walk(x, bands[1..], bands[0].limit) == tx && Walk(y, bands[1..], bands[0].limit) == ty;
  }

  /** The arithmetic of `TailLipschitz`, split on where the two incomes fall relative to `l`. */
  lemma FiniteStep(x: real, y: real, lower: real, l: real, r: real, m: real, tx: real, ty: real)
    requires lower <= x <= y && lower < l && 0.0 <= r <= m
    requires y <= l ==> tx == 0.0 && ty == 0.0
    requires x <= l < y ==> tx == 0.0 && 0.0 <= ty <= m * (y - l)
    requires l < x ==> 0.0 <= ty - tx <= m * (y - x)
    ensures 0.0 <= ((Cap(y, Finite(l)) - lower) * r + ty) - ((Cap(x, Finite(l)) - lower) * r + tx) <= m * (y - x)
  {
    if y <= l {
      StepBound(r, m, lower, x, y, tx, ty, 0.0, y - x);
    } else if x <= l {
      StepBound(r, m, lower, x, l, tx, ty, y - l, y - x);
    } else {
      StepBound(r, m, lower, l, l, tx, ty, y - x, y - x);
    }
  }

  /** Between the lower edge and the income, the walk never exceeds the highest rate applied to the whole amount. */
  lemma WalkBounds(income: real, bands: seq<Band>, lower: real, m: real)
    requires Ascending(bands, lower) && RatesAtMost(bands, m) && 0.0 <= m
    ensures 0.0 <= Walk(income, bands, Finite(lower))
    ensures lower <= income ==> Walk(income, bands, Finite(lower)) <= m * (income - lower)
  {
    if lower <= income {
      WalkZeroAtOrBelow(lower, bands, lower);
      WalkLipschitz(lower, income, bands, lower, m);
    }
  }

  lemma {:induction false} BandSumZeroAtOrBelow(income: real, bands: seq<Band>, lower: real)
    requires Ascending(bands, lower) && income <= lower
    ensures BandSum(income, bands, lower) == 0.0
    decreases |bands|
  {
    if |bands| > 0 {
      match bands[0].limit
      case Finite(l) =>
        BandSumZeroAtOrBelow(income, bands[1..], l);
      case Unbounded =>
    }
  }

  /**
    The early exit is only an optimisation: on an ascending list the walk
    equals the sum of every band's slice, the bands whose lower edge is at or
    above the income contributing nothing.
   */
  lemma {:induction false} WalkIsBandSum(income: real, bands: seq<Band>, lower: real)
    requires Ascending(bands, lower)
    ensures Walk(income, bands, Finite(lower)) == BandSum(income, bands, lower)
    decreases |bands|
  {
    if |bands| > 0 {
      match bands[0].limit
      case Finite(l) =>
        if income > lower {
          WalkIsBandSum(income, bands[1..], l);
        } else {
          BandSumZeroAtOrBelow(income, bands[1..], l);
        }
      case Unbounded =>
    }
  }

  /**
    An income at or below the limit of band `i` is taxed by bands `0..i`
    alone: at a band limit the walk stops before the next band's rate is
    ever applied.
   */
  lemma {:induction false} WalkUpToBand(income: real, bands: seq<Band>, lower: real, i: nat)
    requires Ascending(bands, lower) && i < |bands|
    requires bands[i].limit.Finite? && income <= bands[i].limit.value
    ensures Walk(income, bands, Finite(lower)) == Walk(income, bands[..i + 1], Finite(lower))
    decreases i
  {
    var prefix := bands[..i + 1];
    assert prefix[0] == bands[0];
    if income > lower {
      match bands[0].limit
      case Finite(l) =>
        if i == 0 {
          WalkZeroAtOrBelow(income, bands[1..], l);
          assert prefix[1..] == [];
        } else {
          assert bands[1..][i - 1] == bands[i];
          WalkUpToBand(income, bands[1..], l, i - 1);
          assert prefix[1..] == bands[1..][..i];
        }
      case Unbounded =>
    }
  }

  // ---------------------------------------------------------------------
  // Lemmas about the Uganda schedule
  // ---------------------------------------------------------------------

  /** The schedule is well formed and progressive: limits rise from 0 and rates never fall. */
  lemma TaxBandsAscending()
    ensures Ascending(TaxBands, 0.0) && RatesAtMost(TaxBands, TopRate)
    ensures forall i, j :: 0 <= i < j < |TaxBands| ==> TaxBands[i].rate <= TaxBands[j].rate
  {
  }

  /** The band walk over the schedule is the piecewise-linear closed form. */
  lemma TaxMatchesClosedForm(income: real)
    ensures Tax(income) == ClosedForm(income)
  {
  }

  /** No tax is due on any income up to the first limit, the first band's rate being 0. */
  lemma TaxZeroUpToFirstLimit(income: real)
    requires income <= 235000.0
    ensures Tax(income) == 0.0
  {
    TaxMatchesClosedForm(income);
  }

  /** The tax is never negative and, on a non-negative income, never more than 40% of it. */
  lemma TaxBounds(income: real)
    ensures 0.0 <= Tax(income)
    ensures 0.0 <= income ==> Tax(income) <= TopRate * income
  {
    TaxBandsAscending();
    WalkBounds(income, TaxBands, 0.0, TopRate);
  }

  /**
    The tax is non-decreasing and continuous: raising the income by `d`
    raises the tax by at least 0 and at most 40% of `d`.
   */
  lemma TaxMonotoneContinuous(x: real, y: real)
    requires x <= y
    ensures 0.0 <= Tax(y) - Tax(x) <= TopRate * (y - x)
  {
    TaxBandsAscending();
    if 0.0 <= x {
      WalkLipschitz(x, y, TaxBands, 0.0, TopRate);
    } else {
      WalkZeroAtOrBelow(x, TaxBands, 0.0);
      WalkBounds(y, TaxBands, 0.0, TopRate);
    }
  }

  /** The tax is the sum over the bands of `rate * (min(income, limit) - previousLimit)` for every band whose lower edge is below the income. */
  lemma TaxIsBandSum(income: real)
    ensures Tax(income) == BandSum(income, TaxBands, 0.0)
  {
    TaxBandsAscending();
    WalkIsBandSum(income, TaxBands, 0.0);
  }

  /** An income of exactly a band limit is taxed by that band and the ones before it only. */
  lemma TaxStopsAtBandLimit(i: nat)
    requires i < 4
    ensures Tax(TaxBands[i].limit.value) == Walk(TaxBands[i].limit.value, TaxBands[..i + 1], Finite(0.0))
  {
    TaxBandsAscending();
    WalkUpToBand(TaxBands[i].limit.value, TaxBands, 0.0, i);
  }

  /** Within one band the tax grows at exactly that band's rate. */
  lemma TaxIsPiecewiseLinear(i: nat, x: real, y: real)
    requires i < |TaxBands|
    requires (if i == 0 then 0.0 else TaxBands[i - 1].limit.value) <= x <= y
    requires TaxBands[i].limit.Finite? ==> y <= TaxBands[i].limit.value
    ensures Tax(y) - Tax(x) == TaxBands[i].rate * (y - x)
  {
    TaxMatchesClosedForm(x);
    TaxMatchesClosedForm(y);
  }

  /** The worked example: 1,000,000 is taxed 0 + 10,000 + 15,000 + 177,000. */
  lemma TaxOfOneMillion()
    ensures Tax(1000000.0) == 202000.0
  {
    TaxMatchesClosedForm(1000000.0);
  }

  /** The tax accumulated at each finite limit. */
  lemma TaxAtLimits()
    ensures Tax(0.0) == 0.0
    ensures Tax(235000.0) == 0.0
    ensures Tax(335000.0) == 10000.0
    ensures Tax(410000.0) == 25000.0
    ensures Tax(10000000.0) == 2902000.0
  {
    TaxMatchesClosedForm(0.0);
    TaxMatchesClosedForm(235000.0);
    TaxMatchesClosedForm(335000.0);
    TaxMatchesClosedForm(410000.0);
    TaxMatchesClosedForm(10000000.0);
  }
}
