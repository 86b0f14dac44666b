/**
 * The parts of IEEE double behaviour that the chart logic depends on.
 * A cell of a numeric column is an `Option<real>`: `None` stands for NaN,
 * `Some(x)` for the finite number `x`. Rounding of arithmetic is not modelled.
 */
module FloatModel {
  import opened Wrappers

  /** One cell of a numeric column; `None` is NaN. */
  type Value = Option<real>

  /** `np.isnan(v)` */
  predicate IsNaN(v: Value) {
    v.None?
  }

  /** `v != c`: NaN compares unequal to every number. */
  predicate NotEqual(v: Value, c: real) {
    v.None? || v.value != c
  }

  /** `a < b`: false as soon as either operand is NaN. */
  predicate Less(a: Value, b: Value) {
    a.Some? && b.Some? && a.value < b.value
  }

  /** `a > b`: false as soon as either operand is NaN. */
  predicate Greater(a: Value, b: Value) {
    a.Some? && b.Some? && a.value > b.value
  }

  /**
   * Python's `int(x)` on a float: truncation toward zero. The two ensures
   * clauses determine the result uniquely: it is the integer of largest
   * magnitude that does not overshoot `x`, on the same side of zero.
   */
  function Truncate(x: real): (n: int)
    ensures 0.0 <= x ==> 0 <= n && n as real <= x < n as real + 1.0
    ensures x < 0.0 ==> n <= 0 && n as real - 1.0 < x <= n as real
  {
    if x >= 0.0 then x.Floor else -((-x).Floor)
  }

  /** Truncation never rounds away from zero: 4.9 gives 4, -3.7 gives -3, -0.5 gives 0. */
  lemma TruncateExamples()
    ensures Truncate(4.9) == 4
    ensures Truncate(-3.7) == -3
    ensures Truncate(-0.5) == 0
    ensures Truncate(20.0) == 20
  {
  }
}
