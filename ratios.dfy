/** The quotient of two integral sums as the host's floating-point division
    delivers it: a zero divisor is not an error but yields one of two
    sentinels, not-a-number for 0/0 and infinity for a positive numerator.
    Quotients are exact reals; rounding to double precision is not modelled. */
module Ratios {

  datatype Factor = Undefined | Infinite | Ratio(value: real)

  /** numerator / denominator, both non-negative. */
  function Divide(numerator: nat, denominator: nat): (f: Factor)
    ensures f == Undefined <==> numerator == 0 && denominator == 0
    ensures f == Infinite <==> numerator > 0 && denominator == 0
    ensures f.Ratio? <==> denominator > 0
    ensures f.Ratio? ==> f.value * denominator as real == numerator as real
  {
    if denominator == 0 then
      if numerator == 0 then Undefined else Infinite
    else
      Ratio(numerator as real / denominator as real)
  }

  /** A part over its whole is never infinite, and when it is a number it
      lies in [0, 1]; it is a number exactly when the whole is positive. */
  lemma PartOfWhole(part: nat, whole: nat)
    requires part <= whole
    ensures Divide(part, whole) != Infinite
    ensures Divide(part, whole).Ratio? <==> whole > 0
    ensures Divide(part, whole).Ratio? ==> 0.0 <= Divide(part, whole).value <= 1.0
  {
    if whole > 0 {
      var v := Divide(part, whole).value;
      assert v * whole as real == part as real;
      assert (v - 1.0) * whole as real == part as real - whole as real;
    }
  }
}
