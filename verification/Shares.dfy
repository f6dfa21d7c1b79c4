/** How the ring's data is shared out: what each rank's share becomes when a rank goes down or joins. */
module Shares {
  import opened Vectors

  function Sum(v: Vec): real {
    if v == [] then 0.0 else Sum(v[..|v| - 1]) + v[|v| - 1]
  }

  function Ones(n: nat): (v: Vec)
    ensures |v| == n
  {
    seq(n, _ => 1.0)
  }

  function Zeroed(weights: Vec, dropped: set<nat>): (v: Vec)
    ensures |v| == |weights|
  {
    seq(|weights|, i requires 0 <= i < |weights| => if i !in dropped && weights[i] > 0.0 then weights[i] else 0.0)
  }

  /** The dropped ranks' shares zeroed and the rest renormalised. */
  function SharesWithout(weights: Vec, dropped: set<nat>): (v: Vec)
    ensures |v| == |weights|
  {
    var kept := Zeroed(weights, dropped);
    if Sum(kept) <= 0.0 then kept else Divided(kept, Sum(kept))
  }

  function Fraction(x: real, total: real): (r: real)
    requires total > 0.0
    ensures x >= 0.0 ==> r >= 0.0
    ensures r == 0.0 <==> x == 0.0
    ensures x == total ==> r == 1.0
  {
    QuotientSigns(x, total, x / total);
    x / total
  }

  lemma QuotientSigns(x: real, total: real, r: real)
    requires total > 0.0 && r * total == x
    ensures x >= 0.0 ==> r >= 0.0
    ensures r == 0.0 <==> x == 0.0
    ensures x == total ==> r == 1.0
  {
    if r < 0.0 {
      PositiveProduct(-r, total, -x);
    } else if r > 0.0 {
      PositiveProduct(r, total, x);
    }
    if x == total && r != 1.0 {
      var d := if r > 1.0 then r - 1.0 else 1.0 - r;
      PositiveProduct(d, total, d * total);
    }
  }

  function Divided(v: Vec, k: real): (d: Vec)
    requires k > 0.0
    ensures |d| == |v|
  {
    seq(|v|, i requires 0 <= i < |v| => Fraction(v[i], k))
  }

  /** The live entries of a share vector. */
  function Live(base: Vec, dropped: set<nat>): (n: nat)
    ensures n <= |base|
  {
    if base == [] then 0
    else
      var k := |base| - 1;
      Live(base[..k], dropped) + if base[k] > 0.0 && k !in dropped then 1 else 0
  }

  /** Room made for one more rank, at the average live share; ranks between the old ring and the new one are holes. */
  function SharesWith(weights: Vec, size: nat, dropped: set<nat>, world: nat): (v: Vec)
    requires size < world
    ensures |v| == world
  {
    var base := SharesWithout(if |weights| == size then weights else Ones(size), dropped);
    var live := Live(base, dropped);
    if live == 0 then Zero(world)[world - 1 := 1.0]
    else (Scale(KeepFactor(live), base) + Zero(world - size))[world - 1 := NewcomerShare(live)]
  }

  /** What a newcomer takes from a ring of this many live ranks, and what is left of everybody else's share. */
  function NewcomerShare(live: nat): (x: real)
    ensures x > 0.0 && x * (live + 1) as real == 1.0
  {
    var n := (live + 1) as real;
    var x := 1.0 / n;
    assert x * n == 1.0;
    x
  }

  function KeepFactor(live: nat): (k: real)
    ensures live > 0 ==> k > 0.0
    ensures k + NewcomerShare(live) == 1.0
  {
    var n, d := live as real, (live + 1) as real;
    var k := n / d;
    assert k + 1.0 / d == (n + 1.0) / d == 1.0;
    assert k * d == n;
    k
  }

  /** Shares a ring may run on: none negative, none for a dropped rank, and all of the data or, when no surviving
      rank holds a positive share, none of it. */
  ghost predicate Proper(v: Vec, dropped: set<nat>) {
    && (forall i | 0 <= i < |v| :: v[i] >= 0.0)
    && (forall i | 0 <= i < |v| && i in dropped :: v[i] == 0.0)
    && (Sum(v) == 1.0 || v == Zero(|v|))
  }

  lemma {:induction false} SumNotNegative(v: Vec)
    requires forall i | 0 <= i < |v| :: v[i] >= 0.0
    ensures Sum(v) >= 0.0
    ensures Sum(v) == 0.0 <==> v == Zero(|v|)
    ensures forall i | 0 <= i < |v| :: v[i] <= Sum(v)
  {
    if v != [] {
      var k := |v| - 1;
      SumNotNegative(v[..k]);
      assert v == v[..k] + [v[k]] && Zero(|v|) == Zero(k) + [0.0];
    }
  }

  lemma FractionAdds(a: real, b: real, k: real)
    requires k > 0.0
    ensures Fraction(a + b, k) == Fraction(a, k) + Fraction(b, k)
  {
    assert (a + b) / k == a / k + b / k;
  }

  lemma {:induction false} SumDivided(v: Vec, k: real)
    requires k > 0.0
    ensures Sum(Divided(v, k)) == Fraction(Sum(v), k)
  {
    if v != [] {
      var n := |v| - 1;
      SumDivided(v[..n], k);
      assert Divided(v, k)[..n] == Divided(v[..n], k);
      assert Divided(v, k)[n] == Fraction(v[n], k);
      FractionAdds(Sum(v[..n]), v[n], k);
      hide Fraction, Divided;
    }
  }

  lemma {:induction false} SumScaled(k: real, v: Vec)
    ensures Sum(Scale(k, v)) == k * Sum(v)
  {
    if v != [] {
      var n := |v| - 1;
      SumScaled(k, v[..n]);
      ScalePrefix(k, v, n);
      assert k * (Sum(v[..n]) + v[n]) == k * Sum(v[..n]) + k * v[n];
    }
  }

  lemma ScalePrefix(k: real, v: Vec, n: nat)
    requires n <= |v|
    ensures Scale(k, v)[..n] == Scale(k, v[..n])
  {
    forall i | 0 <= i < n
      ensures Scale(k, v)[..n][i] == Scale(k, v[..n])[i]
    {
      assert v[..n][i] == v[i];
    }
  }

  /** A down leaves proper shares over any shares at all; it empties them only when no survivor held a positive one. */
  lemma WithoutProper(weights: Vec, dropped: set<nat>)
    ensures Proper(SharesWithout(weights, dropped), dropped)
    ensures Sum(SharesWithout(weights, dropped)) == 1.0
      <==> exists i | 0 <= i < |weights| :: i !in dropped && weights[i] > 0.0
  {
    var kept := Zeroed(weights, dropped);
    var s := Sum(kept);
    SumNotNegative(kept);
    if s > 0.0 {
      hide Fraction;
      SumDivided(kept, s);
      assert exists i | 0 <= i < |kept| :: kept[i] != Zero(|kept|)[i];
    } else {
      forall i | 0 <= i < |weights|
        ensures i in dropped || weights[i] <= 0.0
      {
        assert kept[i] <= s;
      }
    }
  }

  /** The survivors' shares keep their proportions. */
  lemma WithoutKeepsRatios(weights: Vec, dropped: set<nat>, i: nat, j: nat)
    requires i < |weights| && j < |weights| && i !in dropped && j !in dropped
    requires weights[i] >= 0.0 && weights[j] >= 0.0
    ensures SharesWithout(weights, dropped)[i] * weights[j] == SharesWithout(weights, dropped)[j] * weights[i]
  {
    var s := Sum(Zeroed(weights, dropped));
    if s > 0.0 {
      assert weights[i] / s * weights[j] == weights[j] / s * weights[i];
    }
  }

  lemma {:induction false} LiveZero(base: Vec, dropped: set<nat>)
    requires forall i | 0 <= i < |base| :: base[i] >= 0.0
    requires forall i | 0 <= i < |base| && i in dropped :: base[i] == 0.0
    ensures Live(base, dropped) == 0 <==> base == Zero(|base|)
  {
    if base != [] {
      var k := |base| - 1;
      LiveZero(base[..k], dropped);
      assert base == base[..k] + [base[k]] && Zero(|base|) == Zero(k) + [0.0];
    }
  }

  lemma {:induction false} SumConcat(a: Vec, b: Vec)
    ensures Sum(a + b) == Sum(a) + Sum(b)
  {
    if b == [] {
      assert a + b == a;
    } else {
      SumConcat(a, b[..|b| - 1]);
      assert (a + b)[..|a + b| - 1] == a + b[..|b| - 1];
    }
  }

  lemma {:induction false} SumZero(n: nat)
    ensures Sum(Zero(n)) == 0.0
  {
    if n > 0 {
      SumZero(n - 1);
      assert Zero(n)[..n - 1] == Zero(n - 1);
    }
  }

  lemma SumLast(v: Vec, x: real)
    requires v != []
    ensures Sum(v[|v| - 1 := x]) == Sum(v) - v[|v| - 1] + x
  {
    assert v[|v| - 1 := x][..|v| - 1] == v[..|v| - 1];
  }

  /** The joining shares before the newcomer's is set. */
  lemma MadeRoom(base: Vec, size: nat, world: nat, k: real, x: real)
    requires |base| == size < world
    ensures var v := (Scale(k, base) + Zero(world - size))[world - 1 := x];
      Sum(v) == k * Sum(base) + x
  {
    var u := Scale(k, base) + Zero(world - size);
    SumConcat(Scale(k, base), Zero(world - size));
    SumScaled(k, base);
    SumZero(world - size);
    SumLast(u, x);
  }

  lemma RoomSum(base: Vec, size: nat, world: nat, n: nat)
    requires |base| == size < world && Sum(base) == 1.0
    ensures Sum((Scale(KeepFactor(n), base) + Zero(world - size))[world - 1 := NewcomerShare(n)]) == 1.0
  {
    MadeRoom(base, size, world, KeepFactor(n), NewcomerShare(n));
    hide Sum, Scale, Zero;
  }

  /** A join leaves the shares summing to one. They are proper exactly when the newcomer's index has not been
      dropped: admission does not look, and a dropped newcomer is given a share all the same. */
  lemma WithProperIff(weights: Vec, size: nat, dropped: set<nat>, world: nat)
    requires size < world
    ensures Sum(SharesWith(weights, size, dropped, world)) == 1.0
    ensures Proper(SharesWith(weights, size, dropped, world), dropped) <==> world - 1 !in dropped
  {
    var w := if |weights| == size then weights else Ones(size);
    var base := SharesWithout(w, dropped);
    var v := SharesWith(weights, size, dropped, world);
    WithoutProper(w, dropped);
    LiveZero(base, dropped);
    var n := Live(base, dropped);
    hide KeepFactor, NewcomerShare, SharesWithout, Live;
    if n == 0 {
      SumZero(world);
      SumLast(Zero(world), 1.0);
    } else {
      RoomSum(base, size, world, n);
      SumZero(size);
      hide Sum;
      RoomProper(base, size, dropped, world, KeepFactor(n), NewcomerShare(n));
    }
  }

  lemma RoomProper(base: Vec, size: nat, dropped: set<nat>, world: nat, k: real, x: real)
    requires |base| == size < world && k > 0.0 && x > 0.0
    requires forall i | 0 <= i < size :: base[i] >= 0.0 && (i in dropped ==> base[i] == 0.0)
    ensures var v := (Scale(k, base) + Zero(world - size))[world - 1 := x];
      && (forall i | 0 <= i < world :: v[i] >= 0.0)
      && (forall i | 0 <= i < world - 1 && i in dropped :: v[i] == 0.0)
  {
    forall i | 0 <= i < size
      ensures k * base[i] >= 0.0 && (i in dropped ==> k * base[i] == 0.0)
    {
      ProductNotNegative(k, base[i]);
    }
  }

  lemma ProductNotNegative(a: real, b: real)
    requires a >= 0.0 && b >= 0.0
    ensures a * b >= 0.0 && (b == 0.0 ==> a * b == 0.0)
  {
    if a > 0.0 && b > 0.0 {
      PositiveProduct(a, b, a * b);
    }
  }

  /** A join scales every survivor by the same factor and gives the newcomer the average live share. */
  lemma WithKeepsRatios(weights: Vec, size: nat, dropped: set<nat>, world: nat, i: nat, j: nat)
    requires |weights| == size < world && i < size && j < size && i !in dropped && j !in dropped
    requires weights[i] >= 0.0 && weights[j] >= 0.0
    ensures SharesWith(weights, size, dropped, world)[i] * weights[j] == SharesWith(weights, size, dropped, world)[j] * weights[i]
  {
    hide *;
    var base := SharesWithout(weights, dropped);
    WithoutKeepsRatios(weights, dropped, i, j);
    SurvivorShare(weights, size, dropped, world, i);
    SurvivorShare(weights, size, dropped, world, j);
    if Live(base, dropped) > 0 {
      Regrouped(KeepFactor(Live(base, dropped)), base[i], weights[j], base[j], weights[i]);
    }
  }

  lemma SurvivorShare(weights: Vec, size: nat, dropped: set<nat>, world: nat, i: nat)
    requires |weights| == size < world && i < size
    ensures var base := SharesWithout(weights, dropped);
      var live := Live(base, dropped);
      SharesWith(weights, size, dropped, world)[i] == if live == 0 then 0.0 else KeepFactor(live) * base[i]
  {
    hide KeepFactor, SharesWithout, Live, NewcomerShare;
  }

  lemma Regrouped(k: real, a: real, b: real, c: real, d: real)
    requires a * b == c * d
    ensures k * a * b == k * c * d
  {
    assert k * a * b == k * (a * b) && k * c * d == k * (c * d);
  }

  lemma NewcomerTakesAverage(weights: Vec, size: nat, dropped: set<nat>, world: nat)
    requires size < world
    ensures var base := SharesWithout(if |weights| == size then weights else Ones(size), dropped);
      var v := SharesWith(weights, size, dropped, world);
      && v[world - 1] * (Live(base, dropped) + 1) as real == 1.0
      && forall i | size <= i < world - 1 :: v[i] == 0.0
  {
    var base := SharesWithout(if |weights| == size then weights else Ones(size), dropped);
    hide NewcomerShare, KeepFactor, SharesWithout, Scale;
    if Live(base, dropped) > 0 {
      assert SharesWith(weights, size, dropped, world)[world - 1] == NewcomerShare(Live(base, dropped));
    }
  }

  // ---- the loops that compute them ----

  method ComputeWithout(weights: Vec, dropped: set<nat>) returns (shares: Vec)
    ensures shares == SharesWithout(weights, dropped)
  {
    var out := new real[|weights|](_ => 0.0);
    var sum := 0.0;
    ghost var kept := Zeroed(weights, dropped);
    for i := 0 to |weights|
      invariant out[..i] == kept[..i]
      invariant forall j | i <= j < out.Length :: out[j] == 0.0
      invariant sum == Sum(kept[..i])
    {
      assert kept[..i + 1][..i] == kept[..i];
      if i !in dropped && weights[i] > 0.0 {
        out[i] := weights[i];
        sum := sum + weights[i];
      }
    }
    assert kept[..|weights|] == kept && out[..] == kept;
    if sum <= 0.0 {
      return out[..];
    }
    for i := 0 to out.Length
      invariant forall j | 0 <= j < i :: out[j] == Fraction(kept[j], sum)
      invariant forall j | i <= j < out.Length :: out[j] == kept[j]
    {
      out[i] := Fraction(out[i], sum);
    }
    assert out[..] == Divided(kept, sum);
    return out[..];
  }

  method ComputeWith(weights: Vec, size: nat, dropped: set<nat>, world: nat) returns (shares: Vec)
    requires size < world
    ensures shares == SharesWith(weights, size, dropped, world)
  {
    var start := weights;
    if |weights| != size {
      start := Ones(size);
    }
    var base := ComputeWithout(start, dropped);
    var live := 0;
    for i := 0 to |base|
      invariant live == Live(base[..i], dropped)
    {
      assert base[..i + 1][..i] == base[..i];
      if base[i] > 0.0 && i !in dropped {
        live := live + 1;
      }
    }
    assert base[..|base|] == base;
    var out := new real[world](_ => 0.0);
    assert out[..] == Zero(world);
    if live == 0 {
      out[world - 1] := 1.0;
      assert out[..] == Zero(world)[world - 1 := 1.0];
      return out[..];
    }
    FillRoom(out, base, KeepFactor(live), NewcomerShare(live));
    return out[..];
  }

  method FillRoom(out: array<real>, base: Vec, scale: real, x: real)
    requires |base| < out.Length && out[..] == Zero(out.Length)
    modifies out
    ensures out[..] == (Scale(scale, base) + Zero(out.Length - |base|))[out.Length - 1 := x]
  {
    ghost var scaled := Scale(scale, base);
    for i := 0 to |base|
      invariant forall j | 0 <= j < i :: out[j] == scaled[j]
      invariant forall j | i <= j < out.Length :: out[j] == 0.0
    {
      out[i] := base[i] * scale;
      assert scaled[i] == out[i];
    }
    hide Scale;
    out[out.Length - 1] := x;
    assert out[..] == (scaled + Zero(out.Length - |base|))[out.Length - 1 := x];
  }
}
