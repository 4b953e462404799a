/**
 * A Java `double` as the learners use it. Every impurity, split score and
 * error rate they compute is either a finite value or NaN, which Java
 * produces for `0.0 / 0.0`. Values are modelled as exact reals; rounding
 * is not modelled.
 */
module Scores {

  datatype Score = NaN | Num(value: real)

  /** Java's `a < b` on doubles: false as soon as either operand is NaN. */
  predicate Less(a: Score, b: Score)
  {
    a.Num? && b.Num? && a.value < b.value
  }

  /** Java's `a + b`: NaN is absorbing. */
  function Plus(a: Score, b: Score): (r: Score)
    ensures r.Num? <==> a.Num? && b.Num?
    ensures r.Num? ==> r.value == a.value + b.value
  {
    if a.Num? && b.Num? then Num(a.value + b.value) else NaN
  }

  /** Java's `a - b`: NaN is absorbing. */
  function Minus(a: Score, b: Score): (r: Score)
    ensures r.Num? <==> a.Num? && b.Num?
    ensures r.Num? ==> r.value == a.value - b.value
  {
    if a.Num? && b.Num? then Num(a.value - b.value) else NaN
  }

  /** Java's `a * b`: NaN is absorbing. */
  function Times(a: Score, b: Score): (r: Score)
    ensures r.Num? <==> a.Num? && b.Num?
    ensures r.Num? ==> r.value == a.value * b.value
  {
    if a.Num? && b.Num? then Num(a.value * b.value) else NaN
  }

  /**
   * Java's `a / n` for a list size `n`, where a zero `n` only ever meets a
   * zero count: `0.0 / 0` is NaN.
   */
  function Divide(a: Score, n: nat): (r: Score)
    requires n == 0 && a.Num? ==> a.value == 0.0
    ensures r.Num? <==> a.Num? && n > 0
    ensures r.Num? ==> r.value * n as real == a.value
  {
    if a.Num? && n > 0 then Num(a.value / n as real) else NaN
  }

  /**
   * Java's `s * k / n` with `k` and `n` list sizes and `k <= n`: when `n`
   * is 0 so is `k`, and `x * 0 / 0` is NaN.
   */
  function Scale(s: Score, k: nat, n: nat): (r: Score)
    requires k <= n
    ensures r.Num? <==> s.Num? && n > 0
    ensures r.Num? && 0.0 <= s.value ==> 0.0 <= r.value <= s.value
    ensures r.Num? && k == 0 ==> r.value == 0.0
    ensures r.Num? && k == n ==> r.value == s.value
  {
    if s.Num? && n > 0 then Num(s.value * k as real / n as real) else NaN
  }

  /** The error rate `100.0 * errors / n` printed by every validation routine. */
  function Rate(errors: nat, n: nat): (r: Score)
    requires errors <= n
    ensures r.NaN? <==> n == 0
    ensures r.Num? ==> 0.0 <= r.value <= 100.0
    ensures r.Num? ==> (r.value == 0.0 <==> errors == 0)
    ensures r.Num? ==> (r.value == 100.0 <==> errors == n)
  {
    if n == 0 then NaN else Num(100.0 * errors as real / n as real)
  }
}
