/**
 * The JavaScript number arithmetic the wheel uses, on exact reals: `Math.floor`
 * and the remainder `x % 360` that every angle computation of the wheel takes.
 * JavaScript's `%` truncates the quotient toward zero, so its result takes the
 * sign of the dividend and can be negative; Dafny's own `%` on `int` is
 * Euclidean and is not used for it.
 */
module JsNumber {

  /** `Math.floor(x)`: the greatest integer not above `x`. */
  function Floor(x: real): (k: int)
    ensures k as real <= x < k as real + 1.0
  {
    x.Floor
  }

  /** The integer part of `x`, rounding toward zero (the quotient JavaScript's `%` uses). */
  function Trunc(x: real): (k: int)
    ensures 0.0 <= x ==> 0 <= k && k as real <= x < k as real + 1.0
    ensures x < 0.0 ==> k <= 0 && k as real - 1.0 < x <= k as real
  {
    if x >= 0.0 then x.Floor else -((-x).Floor)
  }

  /**
   * The floored residue of `a` modulo a full turn: the unique angle in [0, 360)
   * that differs from `a` by a whole number of turns.  It is the reference the
   * JavaScript remainder is measured against: two angles point the same way
   * exactly when their residues agree.
   */
  function Residue(a: real): (r: real)
    ensures 0.0 <= r < 360.0
  {
    a - 360.0 * (a / 360.0).Floor as real
  }

  /** `a % 360` in JavaScript. */
  function Rem(a: real): (r: real)
    ensures 0.0 <= a ==> 0.0 <= r < 360.0
    ensures a < 0.0 ==> -360.0 < r <= 0.0
    ensures Residue(r) == Residue(a)
  {
    var t := Trunc(a / 360.0);
    ResidueShift(a - 360.0 * t as real, t);
    a - 360.0 * t as real
  }

  /** Adding `k` whole turns leaves the residue unchanged. */
  lemma ResidueShift(a: real, k: int)
    ensures Residue(a + 360.0 * k as real) == Residue(a)
  {
    var q := a / 360.0;
    var b := a + 360.0 * k as real;
    assert b / 360.0 == q + k as real;
    assert (q + k as real).Floor == q.Floor + k;
  }

  /** Every angle is its residue plus a whole number of turns; this names the number of turns. */
  lemma ResidueSplit(a: real) returns (k: int)
    ensures a == Residue(a) + 360.0 * k as real
  {
    k := (a / 360.0).Floor;
  }

  /** An angle already in [0, 360) is its own residue. */
  lemma ResidueOfTurnAngle(a: real)
    requires 0.0 <= a < 360.0
    ensures Residue(a) == a
  {
  }

  /**
   * The double remainder `((a % 360) + 360) % 360` computes the floored residue of
   * `a`, whatever the sign of `a`: the first remainder lies in (-360, 360), adding
   * a turn makes it non-negative without changing the residue, and the remainder
   * of a non-negative angle is its residue.
   */
  lemma DoubleRemIsResidue(a: real)
    ensures Rem(Rem(a) + 360.0) == Residue(a)
  {
    var r := Rem(a);
    var s := Rem(r + 360.0);
    ResidueShift(r, 1);
    ResidueOfTurnAngle(s);
  }

  /** A single remainder is not enough: a negative angle keeps its sign. */
  lemma SingleRemCanBeNegative()
    ensures Rem(-10.0) == -10.0
  {
  }
}
