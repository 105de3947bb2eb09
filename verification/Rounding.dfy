/**
 * Two-decimal rounding and tonnages held to two decimal places (decimal-utils.js, rounded-tonnage.js). Decimals are
 * exact reals: decimal.js carries 34 significant digits, more than any tonnage uses.
 */
module Rounding {
  import opened Wrappers

  /** The nearest whole number of hundredths, halves away from zero (ROUND_HALF_UP). */
  function Hundredths(v: real): int {
    if 0.0 <= v then (v * 100.0 + 0.5).Floor else -((-v * 100.0 + 0.5).Floor)
  }

  function OfHundredths(h: int): real {
    h as real / 100.0
  }

  function RoundToTwoDecimalPlaces(v: real): real {
    OfHundredths(Hundredths(v))
  }

  /** A value with at most two decimal places. */
  ghost predicate TwoPlaces(v: real) {
    exists h: int :: v == OfHundredths(h)
  }

  function Abs(v: real): real {
    if v < 0.0 then -v else v
  }

  lemma RoundingIsOdd(v: real)
    ensures RoundToTwoDecimalPlaces(-v) == -RoundToTwoDecimalPlaces(v)
  {
    if v == 0.0 {
      assert Hundredths(-v) == 0;
    }
  }

  lemma FloorIsMonotone(x: real, y: real)
    requires x <= y
    ensures x.Floor <= y.Floor
  {}

  lemma {:induction false} RoundingIsMonotone(u: real, v: real)
    requires u <= v
    ensures RoundToTwoDecimalPlaces(u) <= RoundToTwoDecimalPlaces(v)
  {
    if 0.0 <= u {
      FloorIsMonotone(u * 100.0 + 0.5, v * 100.0 + 0.5);
    } else if v < 0.0 {
      FloorIsMonotone(-v * 100.0 + 0.5, -u * 100.0 + 0.5);
    } else {
      FloorIsMonotone(0.5, v * 100.0 + 0.5);
      FloorIsMonotone(0.5, -u * 100.0 + 0.5);
    }
  }

  /** Rounding moves a value by at most half a hundredth, and a half always away from zero. */
  lemma RoundingIsNearest(v: real)
    ensures Abs(RoundToTwoDecimalPlaces(v) - v) <= 0.005
    ensures Abs(RoundToTwoDecimalPlaces(v) - v) == 0.005 ==> Abs(v) < Abs(RoundToTwoDecimalPlaces(v))
    ensures TwoPlaces(RoundToTwoDecimalPlaces(v))
  {
    assert RoundToTwoDecimalPlaces(v) == OfHundredths(Hundredths(v));
  }

  /** The fixed points of rounding are exactly the values with at most two decimal places; so rounding is idempotent. */
  lemma {:induction false} FixedPointsAreTwoPlaces(v: real)
    ensures RoundToTwoDecimalPlaces(v) == v <==> TwoPlaces(v)
    ensures RoundToTwoDecimalPlaces(RoundToTwoDecimalPlaces(v)) == RoundToTwoDecimalPlaces(v)
  {
    RoundingIsNearest(v);
    TwoPlacesAreFixed(RoundToTwoDecimalPlaces(v));
    if TwoPlaces(v) {
      TwoPlacesAreFixed(v);
    }
  }

  lemma {:induction false} TwoPlacesAreFixed(v: real)
    requires TwoPlaces(v)
    ensures RoundToTwoDecimalPlaces(v) == v
  {
    var h: int :| v == OfHundredths(h);
    assert v * 100.0 == h as real;
    assert (h as real + 0.5).Floor == h && ((-h) as real + 0.5).Floor == -h;
    assert -v * 100.0 == (-h) as real;
    assert Hundredths(v) == h;
  }

  lemma TwoPlacesAreClosed(a: real, b: real)
    requires TwoPlaces(a) && TwoPlaces(b)
    ensures TwoPlaces(a + b) && TwoPlaces(a - b) && TwoPlaces(-a)
  {
    var h: int :| a == OfHundredths(h);
    var k: int :| b == OfHundredths(k);
    assert a + b == OfHundredths(h + k);
    assert a - b == OfHundredths(h - k);
    assert -a == OfHundredths(-h);
  }

  // ----- sums -----

  function Sum(vs: seq<real>): real {
    if vs == [] then 0.0 else Sum(vs[..|vs| - 1]) + vs[|vs| - 1]
  }

  /** Round-each-then-sum, as reduce over addRounded computes it. */
  function RoundedSum(vs: seq<real>): real {
    if vs == [] then 0.0 else RoundedSum(vs[..|vs| - 1]) + RoundToTwoDecimalPlaces(vs[|vs| - 1])
  }

  lemma {:induction false} RoundedSumError(vs: seq<real>)
    ensures Abs(RoundedSum(vs) - Sum(vs)) <= 0.005 * |vs| as real
    ensures TwoPlaces(RoundedSum(vs))
    ensures (forall i | 0 <= i < |vs| :: TwoPlaces(vs[i])) ==> RoundedSum(vs) == Sum(vs)
  {
    if vs == [] {
      assert 0.0 == OfHundredths(0);
    } else {
      var front, last := vs[..|vs| - 1], vs[|vs| - 1];
      RoundedSumError(front);
      RoundingIsNearest(last);
      TwoPlacesAreClosed(RoundedSum(front), RoundToTwoDecimalPlaces(last));
      if TwoPlaces(last) {
        TwoPlacesAreFixed(last);
      }
    }
  }

  /** A row's two legs merged into one period differ from the legs kept apart by at most a hundredth; by nothing on two places. */
  lemma {:induction false} MergedLegDiffersByAHundredth(removed: real, added: real)
    ensures Abs(RoundToTwoDecimalPlaces(added - removed)
                - (RoundToTwoDecimalPlaces(-removed) + RoundToTwoDecimalPlaces(added))) <= 0.01
    ensures TwoPlaces(removed) && TwoPlaces(added) ==>
      RoundToTwoDecimalPlaces(added - removed) == RoundToTwoDecimalPlaces(-removed) + RoundToTwoDecimalPlaces(added)
  {
    RoundingIsNearest(added - removed);
    RoundingIsNearest(-removed);
    RoundingIsNearest(added);
    var a, b, c := Hundredths(added - removed), Hundredths(-removed), Hundredths(added);
    assert Abs(OfHundredths(a - b - c)) <= 0.015;
    assert Abs((a - b - c) as real) <= 1.5;
    assert -1 <= a - b - c <= 1;
    if TwoPlaces(removed) && TwoPlaces(added) {
      TwoPlacesAreClosed(added, removed);
      TwoPlacesAreClosed(removed, added);
      TwoPlacesAreFixed(added - removed);
      TwoPlacesAreFixed(-removed);
      TwoPlacesAreFixed(added);
    }
  }

  // ----- rounded tonnages -----

  datatype TonnageError = NotTwoDecimalPlaces

  /** An absent value reads as zero; a value with more places is rejected, never rounded. */
  function ToRoundedTonnage(value: Option<real>): (r: Result<real, TonnageError>) {
    var candidate := value.GetOr(0.0);
    if RoundToTwoDecimalPlaces(candidate) == candidate then Success(candidate) else Failure(NotTwoDecimalPlaces)
  }

  function AddTonnage(a: real, b: real): real {
    a + b
  }

  function SubtractTonnage(a: real, b: real): real {
    a - b
  }

  /** Accepted exactly when it has at most two places, and then unchanged; absent exactly as zero. */
  lemma {:induction false} AcceptsExactlyTwoPlaces(value: Option<real>)
    ensures ToRoundedTonnage(value).Success? <==> value.None? || TwoPlaces(value.value)
    ensures ToRoundedTonnage(value).Success? ==> ToRoundedTonnage(value).value == value.GetOr(0.0)
  {
    FixedPointsAreTwoPlaces(value.GetOr(0.0));
    assert 0.0 == OfHundredths(0);
  }

  /** Tonnages once accepted stay acceptable through addition and subtraction, so no total needs rounding again. */
  lemma {:induction false} TonnagesAreClosed(a: real, b: real)
    requires ToRoundedTonnage(Some(a)).Success? && ToRoundedTonnage(Some(b)).Success?
    ensures ToRoundedTonnage(Some(AddTonnage(a, b))) == Success(a + b)
    ensures ToRoundedTonnage(Some(SubtractTonnage(a, b))) == Success(a - b)
  {
    AcceptsExactlyTwoPlaces(Some(a));
    AcceptsExactlyTwoPlaces(Some(b));
    TwoPlacesAreClosed(a, b);
    AcceptsExactlyTwoPlaces(Some(a + b));
    AcceptsExactlyTwoPlaces(Some(a - b));
  }
}
