/** Distances on the canvas. The game measures them with Math.sqrt and
    Math.hypot; here the square root is a parameter `root`, and IsSqrt says
    what is assumed of it. The lemmas turn every distance test of the game
    into a comparison of squared distances, which needs no root at all. */
module Geometry {

  /** `root` returns the non-negative square root of every non-negative real. */
  ghost predicate IsSqrt(root: real -> real) {
    forall v :: 0.0 <= v ==> 0.0 <= root(v) && root(v) * root(v) == v
  }

  /** dx² + dy², the squared length of the vector (dx, dy). */
  function SqNorm(dx: real, dy: real): (q: real)
    ensures 0.0 <= q
  {
    dx * dx + dy * dy
  }

  /** Math.hypot(dx, dy), equal to Math.sqrt(dx * dx + dy * dy). */
  function Hypot(root: real -> real, dx: real, dy: real): real {
    root(SqNorm(dx, dy))
  }

  lemma {:induction false} SquareLess(a: real, b: real)
    requires 0.0 <= a && 0.0 <= b
    ensures a < b <==> a * a < b * b
  {
    assert b * b - a * a == (b - a) * (b + a);
    if a < b {
      assert 0.0 < b + a;
      assert 0.0 < (b - a) * (b + a);
    } else {
      assert (a - b) * (b + a) >= 0.0;
    }
  }

  lemma {:induction false} HypotIsRoot(root: real -> real, dx: real, dy: real)
    requires IsSqrt(root)
    ensures 0.0 <= Hypot(root, dx, dy)
    ensures Hypot(root, dx, dy) * Hypot(root, dx, dy) == SqNorm(dx, dy)
  {
    assert 0.0 <= SqNorm(dx, dy);
  }

  /** hypot(dx, dy) < r exactly when r is positive and dx² + dy² < r². */
  lemma {:induction false} HypotBelow(root: real -> real, dx: real, dy: real, r: real)
    requires IsSqrt(root)
    ensures Hypot(root, dx, dy) < r <==> 0.0 < r && SqNorm(dx, dy) < r * r
  {
    var d := Hypot(root, dx, dy);
    HypotIsRoot(root, dx, dy);
    if 0.0 <= r {
      SquareLess(d, r);
    }
  }

  /** hypot(dx, dy) > s exactly when s is negative or dx² + dy² > s². */
  lemma {:induction false} HypotAbove(root: real -> real, dx: real, dy: real, s: real)
    requires IsSqrt(root)
    ensures Hypot(root, dx, dy) > s <==> s < 0.0 || SqNorm(dx, dy) > s * s
  {
    var d := Hypot(root, dx, dy);
    HypotIsRoot(root, dx, dy);
    if 0.0 <= s {
      SquareLess(s, d);
    }
  }
}
