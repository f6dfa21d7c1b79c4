/** Vectors of reals of any length: what a model or a gradient is to the averaging code. */
module Vectors {
  type Vec = seq<real>

  function Zero(n: nat): (z: Vec)
    ensures |z| == n
  {
    seq(n, _ => 0.0)
  }

  /** a + w*x, element by element. */
  function Axpy(a: Vec, w: real, x: Vec): (s: Vec)
    requires |a| == |x|
    ensures |s| == |a|
  {
    seq(|a|, i requires 0 <= i < |a| => a[i] + w * x[i])
  }

  function Plus(a: Vec, b: Vec): (s: Vec)
    requires |a| == |b|
    ensures |s| == |a|
  {
    seq(|a|, i requires 0 <= i < |a| => a[i] + b[i])
  }

  function Scale(k: real, x: Vec): (s: Vec)
    ensures |s| == |x|
  {
    seq(|x|, i requires 0 <= i < |x| => k * x[i])
  }

  function Dot(a: Vec, b: Vec): real
    requires |a| == |b|
  {
    if |a| == 0 then 0.0
    else Dot(a[..|a| - 1], b[..|a| - 1]) + a[|a| - 1] * b[|a| - 1]
  }

  function Norm2(a: Vec): real {
    Dot(a, a)
  }

  /** ||x - m||^2 */
  function Dist2(x: Vec, m: Vec): real
    requires |x| == |m|
  {
    Norm2(Axpy(x, -1.0, m))
  }

  lemma AxpyPrefix(a: Vec, w: real, x: Vec, n: nat)
    requires |a| == |x| && n <= |a|
    ensures Axpy(a, w, x)[..n] == Axpy(a[..n], w, x[..n])
  {
    forall i | 0 <= i < n
      ensures Axpy(a, w, x)[..n][i] == Axpy(a[..n], w, x[..n])[i]
    {
      assert x[..n][i] == x[i];
    }
  }

  /** The product is linear in its left argument. */
  lemma {:induction false} DotAxpy(a: Vec, w: real, x: Vec, b: Vec)
    requires |a| == |x| == |b|
    ensures Dot(Axpy(a, w, x), b) == Dot(a, b) + w * Dot(x, b)
  {
    if |a| > 0 {
      var n := |a| - 1;
      DotAxpy(a[..n], w, x[..n], b[..n]);
      AxpyPrefix(a, w, x, n);
      var d := Dot(x[..n], b[..n]);
      assert w * (d + x[n] * b[n]) == w * d + w * x[n] * b[n];
      assert (a[n] + w * x[n]) * b[n] == a[n] * b[n] + w * x[n] * b[n];
    }
  }

  lemma {:induction false} DotSymmetric(a: Vec, b: Vec)
    requires |a| == |b|
    ensures Dot(a, b) == Dot(b, a)
  {
    if |a| > 0 {
      DotSymmetric(a[..|a| - 1], b[..|a| - 1]);
    }
  }

  lemma {:induction false} DotZero(b: Vec)
    ensures Dot(Zero(|b|), b) == 0.0
  {
    if |b| > 0 {
      DotZero(b[..|b| - 1]);
      assert Zero(|b|)[..|b| - 1] == Zero(|b| - 1);
    }
  }

  lemma DotScale(k: real, x: Vec, b: Vec)
    requires |x| == |b|
    ensures Dot(Scale(k, x), b) == k * Dot(x, b)
  {
    assert Scale(k, x) == Axpy(Zero(|x|), k, x);
    DotAxpy(Zero(|x|), k, x, b);
    DotZero(b);
  }

  /** ||x - m||^2 == ||x||^2 - 2<x,m> + ||m||^2 */
  lemma DistExpands(x: Vec, m: Vec)
    requires |x| == |m|
    ensures Dist2(x, m) == Norm2(x) - 2.0 * Dot(x, m) + Norm2(m)
  {
    var d := Axpy(x, -1.0, m);
    assert Dist2(x, m) == Dot(d, d) && Norm2(x) == Dot(x, x) && Norm2(m) == Dot(m, m);
    hide *;
    DotSymmetric(x, d);
    DotSymmetric(m, d);
    DotSymmetric(m, x);
    DotAxpy(x, -1.0, m, d);
    DotAxpy(x, -1.0, m, x);
    DotAxpy(x, -1.0, m, m);
    Expanded(Dot(d, d), Dot(x, d), Dot(m, d), Dot(x, x), Dot(x, m), Dot(m, m));
  }

  lemma Expanded(dd: real, xd: real, md: real, xx: real, xm: real, mm: real)
    requires dd == xd + -1.0 * md && xd == xx + -1.0 * xm && md == xm + -1.0 * mm
    ensures dd == xx - 2.0 * xm + mm
  {
  }

  lemma PositiveProduct(a: real, b: real, c: real)
    requires a > 0.0 && b > 0.0 && c == a * b
    ensures c > 0.0
  {
  }

  function Square(r: real): (s: real)
    ensures s >= 0.0
    ensures s == 0.0 <==> r == 0.0
  {
    var s := r * r;
    assert r > 0.0 ==> s > 0.0 by {
      if r > 0.0 {
        PositiveProduct(r, r, s);
      }
    }
    assert r < 0.0 ==> s > 0.0 by {
      if r < 0.0 {
        PositiveProduct(-r, -r, s);
      }
    }
    s
  }

  lemma {:induction false} Norm2NotNegative(a: Vec)
    ensures Norm2(a) >= 0.0
    ensures Norm2(a) == 0.0 <==> a == Zero(|a|)
  {
    if |a| > 0 {
      var n := |a| - 1;
      var p, r := a[..n], a[n];
      Norm2NotNegative(p);
      assert Norm2(a) == Norm2(p) + Square(r);
      assert a == p + [r];
      assert Zero(|a|) == Zero(n) + [0.0];
      if r == 0.0 {
        assert p == Zero(n) <==> a == Zero(|a|);
      } else {
        assert a[n] != Zero(|a|)[n];
      }
    }
  }

  lemma Dist2NotNegative(x: Vec, m: Vec)
    requires |x| == |m|
    ensures Dist2(x, m) >= 0.0
    ensures Dist2(x, m) == 0.0 <==> x == m
  {
    var d := Axpy(x, -1.0, m);
    Norm2NotNegative(d);
    if x == m {
      assert d == Zero(|x|);
    } else {
      var i :| 0 <= i < |x| && x[i] != m[i];
      assert d[i] != Zero(|x|)[i];
    }
  }
}
