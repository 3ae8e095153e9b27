/** Small facts about the order of real numbers under multiplication and division. */
module Order {

  lemma MulLeft(c: real, a: real, b: real)
    requires c >= 0.0 && a <= b
    ensures c * a <= c * b
  {
  }

  lemma MulLeftStrict(c: real, a: real, b: real)
    requires c > 0.0 && a < b
    ensures c * a < c * b
  {
  }

  lemma QuotientPositive(a: real, b: real)
    requires a > 0.0 && b > 0.0
    ensures a / b > 0.0
  {
  }

  /** Division undoes multiplication. */
  lemma DivideBack(x: real, v: real, t: real)
    requires v != 0.0 && x == v * t
    ensures t == x / v
  {
  }

  lemma MultiplyBack(x: real, v: real)
    requires v != 0.0
    ensures v * (x / v) == x
  {
  }
}
