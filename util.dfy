/** The savings arithmetic shared by the text pipeline and the mail audits. */
module Util {

  /**
   * `calculate_savings`: by how many percent `endSize` is smaller than `startSize`.
   * A zero `startSize` gives 0 whatever `endSize` is; otherwise the result `r`
   * is the unique real with `r * startSize == (startSize - endSize) * 100`.
   * Sizes are exact; floating-point rounding is not modelled.
   */
  function CalculateSavings(startSize: int, endSize: int): (r: real)
    ensures startSize == 0 ==> r == 0.0
    ensures startSize != 0 ==> r * (startSize as real) == ((startSize - endSize) as real) * 100.0
  {
    if startSize == 0 then 0.0
    else ((startSize - endSize) as real) / (startSize as real) * 100.0
  }

  /** Equal sizes save nothing. */
  lemma SavingsOfEqualSizes(n: int)
    ensures CalculateSavings(n, n) == 0.0
  {
  }

  /** Shrinking all the way to nothing saves exactly 100 percent. */
  lemma SavingsOfEmptyResult(startSize: int)
    requires startSize > 0
    ensures CalculateSavings(startSize, 0) == 100.0
  {
    var s := startSize as real;
    assert s / s == 1.0;
    assert CalculateSavings(startSize, 0) == s / s * 100.0;
  }

  /** A result no larger than the input saves between 0 and 100 percent. */
  lemma SavingsBounds(startSize: int, endSize: int)
    requires 0 < startSize && 0 <= endSize <= startSize
    ensures 0.0 <= CalculateSavings(startSize, endSize) <= 100.0
  {
    var r := CalculateSavings(startSize, endSize);
    var s := startSize as real;
    assert r * s == ((startSize - endSize) as real) * 100.0;
    assert r * s <= s * 100.0;
    assert r * s >= 0.0;
  }

  /** With a positive start size the savings are non-negative exactly when the result did not grow; there is no clamping. */
  lemma SavingsSign(startSize: int, endSize: int)
    requires startSize > 0
    ensures CalculateSavings(startSize, endSize) >= 0.0 <==> endSize <= startSize
    ensures CalculateSavings(startSize, endSize) < 0.0 <==> endSize > startSize
  {
    var r := CalculateSavings(startSize, endSize);
    var s := startSize as real;
    assert r * s == ((startSize - endSize) as real) * 100.0;
    if r >= 0.0 {
      assert r * s >= 0.0;
    } else {
      assert r * s < 0.0;
    }
  }
}
