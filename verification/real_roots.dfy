/** The reciprocal square root `invSqrt(x) = 1 / Math.sqrt(x)` over the reals.

    Dafny's reals have no square-root operation, so the root is supplied from outside as a
    function `isq` that is only assumed to satisfy the defining law of 1/√x on the positive
    reals (IsInvSqrt). On a non-positive argument the JavaScript function returns Infinity
    or NaN; the model makes that case explicit by returning None. */
module RealRoots {
  import opened Wrappers
  import opened Quaternion

  /** isq(x) is the positive reciprocal square root of every positive x. */
  ghost predicate IsInvSqrt(isq: real -> real) {
    forall x :: x > 0.0 ==> isq(x) > 0.0 && Sq(isq(x)) * x == 1.0
  }

  /** invSqrt as a partial function: defined exactly on the positive reals. */
  function InvSqrt(isq: real -> real, x: real): (r: Option<real>)
    requires IsInvSqrt(isq)
    ensures r.Some? <==> x > 0.0
    ensures r.Some? ==> r.value > 0.0 && Sq(r.value) * x == 1.0
  {
    if x > 0.0 then Some(isq(x)) else None
  }

  /** The reciprocal square root is unique, so every admissible isq agrees on every argument. */
  lemma InvSqrtUnique(x: real, r: real, s: real)
    requires x > 0.0 && r > 0.0 && s > 0.0
    requires Sq(r) * x == 1.0 && Sq(s) * x == 1.0
    ensures r == s
  {
    assert (Sq(r) - Sq(s)) * x == 0.0;
    assert Sq(r) == Sq(s);
    assert (r - s) * (r + s) == 0.0;
  }

  /** The value of isq at the square of a positive rational known in closed form. */
  lemma InvSqrtAt(isq: real -> real, x: real, r: real)
    requires IsInvSqrt(isq)
    requires x > 0.0 && r > 0.0 && Sq(r) * x == 1.0
    ensures isq(x) == r
  {
    InvSqrtUnique(x, isq(x), r);
  }

  /** The square root of a non-negative real, as x · invSqrt(x) (and 0 at 0). */
  function Sqrt(isq: real -> real, x: real): (r: real)
    requires IsInvSqrt(isq)
    requires x >= 0.0
    ensures r >= 0.0 && Sq(r) == x
  {
    if x == 0.0 then 0.0
    else
      var k := isq(x);
      assert Sq(x * k) == x * (Sq(k) * x);
      x * k
  }
}
