/** The accumulator as the lead keeps it: one buffer that contributions are added to in place. */
module Accumulating {
  import opened Wrappers
  import opened Vectors
  import opened Reduce

  /** s is was with w*x added to its leading elements. */
  ghost predicate Added(s: Vec, was: Vec, w: real, x: Vec) {
    && |s| == |was| && |x| <= |s|
    && (forall j | 0 <= j < |x| :: s[j] == was[j] + w * x[j])
    && (forall j | |x| <= j < |s| :: s[j] == was[j])
  }

  lemma AddedGrows(before: Vec, s: Vec, was: Vec, w: real, x: Vec, v: real)
    requires Added(before, was, w, x) && |x| < |before|
    requires s == before[|x| := before[|x|] + w * v]
    ensures Added(s, was, w, x + [v])
  {
    var y := x + [v];
    forall j | 0 <= j < |y|
      ensures s[j] == was[j] + w * y[j]
    {
    }
  }

  lemma NormGrows(x: Vec, v: real)
    ensures Norm2(x + [v]) == Norm2(x) + v * v
  {
    var y := x + [v];
    assert y[..|y| - 1] == x;
  }

  lemma NextDequantised(q: seq<int>, segments: seq<nat>, scales: seq<real>, i: nat)
    requires i < |segments| == |scales| && |q| == Total(segments)
    ensures Total(segments[..i + 1]) == Total(segments[..i]) + segments[i] <= |q|
    ensures var off := Total(segments[..i]);
      Dequantise(q[..off + segments[i]], Expand(segments[..i + 1], scales[..i + 1]))
      == Dequantise(q[..off], Expand(segments[..i], scales[..i]))
         + Dequantise(q[off..off + segments[i]], Repeat(scales[i], segments[i]))
  {
    NextSegment(segments, i);
    assert segments[..i + 1][..i] == segments[..i] && scales[..i + 1][..i] == scales[..i];
    hide Value;
  }

  lemma {:induction false} FirstBadIs(scales: seq<real>, i: nat)
    requires i <= |scales|
    requires forall k | 0 <= k < i :: scales[k] > 0.0
    requires i < |scales| ==> scales[i] <= 0.0
    ensures FirstBad(scales) == i
  {
  }

  /** The first i segments of q are in s, and sq is their squared norm. */
  ghost predicate SegmentsAdded(q: seq<int>, segments: seq<nat>, scales: seq<real>, i: nat, s: Vec, was: Vec, w: real,
                                sq: real)
    requires i <= |segments| == |scales|
  {
    && Total(segments[..i]) <= |q|
    && var x := Dequantise(q[..Total(segments[..i])], Expand(segments[..i], scales[..i]));
      Added(s, was, w, x) && sq == Norm2(x)
  }

  class Accumulator {
    const dtype: DType
    var segments: seq<nat>
    const sum: array<real>
    var count: nat
    var weight: real
    var sumSq: real

    ghost function View(): Acc
      reads this, sum
    {
      Acc(dtype, segments, sum[..], count, weight, sumSq)
    }

    constructor (dtype: DType, n: nat)
      ensures View() == NewAcc(dtype, n, []) && fresh(sum)
    {
      this.dtype := dtype;
      sum := new real[n](_ => 0.0);
      segments, count, weight, sumSq := [], 0, 0.0, 0.0;
      new;
      assert sum[..] == Zero(n);
    }

    /** Records the tensor boundaries, or refuses them. */
    method DeclareSegments(counts: seq<int>) returns (ok: bool)
      modifies this`segments
      ensures ok <==> WithSegments(sum.Length, counts).Some?
      ensures segments == if ok then WithSegments(sum.Length, counts).value else old(segments)
    {
      var total := 0;
      for i := 0 to |counts|
        invariant forall k | 0 <= k < i :: counts[k] > 0
        invariant total == IntTotal(counts[..i])
      {
        if counts[i] <= 0 {
          return false;
        }
        assert counts[..i + 1][..i] == counts[..i];
        total := total + counts[i];
      }
      assert counts[..|counts|] == counts;
      if total != sum.Length {
        return false;
      }
      segments := counts;
      return true;
    }

    /** Folds one payload in; a refused one may leave its leading segments in the sum. */
    method AddSegmented(p: Payload, scales: seq<real>, samples: int) returns (ok: bool)
      requires WellFormed(View()) && |scales| > 0
      modifies this`count, this`weight, this`sumSq, sum
      ensures (View(), ok) == Add(old(View()), p, scales, samples)
    {
      if dtype != I8 || |segments| <= 1 {
        ok := AddFlat(p, scales[0], samples, scales);
        return;
      }
      var w := SampleWeight(samples);
      if |scales| != |segments| || !p.Bytes? || |p.q| != sum.Length {
        return false;
      }
      ghost var was := View();
      var i, sq := AddSegments(p.q, scales, w);
      if i < |segments| {
        SpoiledBy(was, p, scales, w, sum[..]);
        return false;
      }
      assert segments[..i] == segments && scales[..i] == scales && p.q[..Total(segments)] == p.q;
      ghost var x := Dequantise(p.q, Expand(segments, scales));
      assert Decode(was, p, scales) == Some(x);
      AddedAll(sum[..], was.sum, w, x);
      count, weight, sumSq := count + 1, weight + w, sumSq + Weighed(w, sq);
      return true;
    }

    /** Adds segment after segment until one has a scale that is not positive. */
    method AddSegments(q: seq<int>, scales: seq<real>, w: real) returns (i: nat, sq: real)
      requires |scales| == |segments| && |q| == sum.Length == Total(segments)
      modifies sum
      ensures i == FirstBad(scales)
      ensures SegmentsAdded(q, segments, scales, i, sum[..], old(sum[..]), w, sq)
    {
      var off := 0;
      sq, i := 0.0, 0;
      while i < |segments| && scales[i] > 0.0
        invariant i <= |segments| && off == Total(segments[..i])
        invariant forall k | 0 <= k < i :: scales[k] > 0.0
        invariant SegmentsAdded(q, segments, scales, i, sum[..], old(sum[..]), w, sq)
        modifies sum
      {
        off, sq := AddSegment(q, scales, i, off, w, sq, old(sum[..]));
        i := i + 1;
      }
      FirstBadIs(scales, i);
    }

    /** One segment's values added at their own scale. */
    method AddSegment(q: seq<int>, scales: seq<real>, i: nat, off: nat, w: real, sq0: real, ghost was: Vec)
      returns (end: nat, sq: real)
      requires i < |scales| == |segments| && |q| == sum.Length == Total(segments) && off == Total(segments[..i])
      requires SegmentsAdded(q, segments, scales, i, sum[..], was, w, sq0)
      modifies sum
      ensures end == Total(segments[..i + 1])
      ensures SegmentsAdded(q, segments, scales, i + 1, sum[..], was, w, sq)
    {
      NextDequantised(q, segments, scales, i);
      hide Dequantise, Expand, Norm2, Added, Repeat;
      ghost var x := Dequantise(q[..off], Expand(segments[..i], scales[..i]));
      end := off + segments[i];
      sq := AddRun(q[off..end], scales[i], off, w, sq0, was, x);
    }

    method AddRun(q: seq<int>, scale: real, off: nat, w: real, sq0: real, ghost was: Vec, ghost x: Vec)
      returns (sq: real)
      requires off + |q| <= sum.Length == |was| && |x| == off && sq0 == Norm2(x)
      requires Added(sum[..], was, w, x)
      modifies sum
      ensures Added(sum[..], was, w, x + Dequantise(q, Repeat(scale, |q|)))
      ensures sq == Norm2(x + Dequantise(q, Repeat(scale, |q|)))
    {
      ghost var part := Dequantise(q, Repeat(scale, |q|));
      sq := sq0;
      assert x + part[..0] == x;
      for j := 0 to |q|
        invariant Added(sum[..], was, w, x + part[..j])
        invariant sq == Norm2(x + part[..j])
      {
        var v := Value(q[j], scale);
        sq := AddOne(off + j, v, w, sq, was, x + part[..j]);
        assert x + part[..j + 1] == x + part[..j] + [v];
      }
      assert part[..|q|] == part;
    }

    /** The inner step of every width: element i gains w*v and the squared norm gains v*v. */
    method AddOne(i: nat, v: real, w: real, sq0: real, ghost was: Vec, ghost x: Vec) returns (sq: real)
      requires i == |x| < sum.Length == |was| && sq0 == Norm2(x) && Added(sum[..], was, w, x)
      modifies sum
      ensures Added(sum[..], was, w, x + [v]) && sq == Norm2(x + [v])
    {
      ghost var before := sum[..];
      sum[i] := sum[i] + w * v;
      sq := sq0 + v * v;
      NormGrows(x, v);
      assert sum[..] == before[i := before[i] + w * v];
      AddedGrows(before, sum[..], was, w, x, v);
    }

    /** A payload without segments, at its one scale. */
    method AddFlat(p: Payload, scale: real, samples: int, ghost scales: seq<real>) returns (ok: bool)
      requires WellFormed(View()) && |scales| > 0 && scale == scales[0] && (dtype != I8 || |segments| <= 1)
      modifies this`count, this`weight, this`sumSq, sum
      ensures (View(), ok) == Add(old(View()), p, scales, samples)
    {
      var w := SampleWeight(samples);
      var n := if p.Numbers? then |p.vals| else |p.q|;
      FlatDecodes(View(), p, scales);
      if n != sum.Length || p.Numbers? == (dtype == I8) || (dtype == I8 && scale <= 0.0) {
        return false;
      }
      ghost var was, x := sum[..], Decode(View(), p, scales).value;
      var sq := 0.0;
      hide Value, Decode, SampleWeight, Norm2, Added;
      NoneAdded(was, w, x[..0]);
      for i := 0 to n
        invariant Added(sum[..], was, w, x[..i])
        invariant sq == Norm2(x[..i])
        modifies sum
      {
        var v := if p.Numbers? then p.vals[i] else Value(p.q[i], scale);
        sq := AddOne(i, v, w, sq, was, x[..i]);
        assert x[..i + 1] == x[..i] + [v];
      }
      assert x[..n] == x;
      AddedAll(sum[..], was, w, x);
      assert Decode(old(View()), p, scales) == Some(x);
      count, weight, sumSq := count + 1, weight + w, sumSq + Weighed(w, sq);
      return true;
    }

    /** How far the contributions disagree, from the running sums alone. */
    method Drift() returns (d: Option<real>)
      ensures d == DriftSquared(View())
    {
      if count < 2 || weight <= 0.0 {
        return None;
      }
      assert DriftSquared(View()) == Some(DriftOf(Streamed(View()), Norm2(Mean(View()))));
      var m2 := MeanNorm();
      var inv := Inverse(weight);
      var spread := sumSq * inv - m2;
      assert spread == Streamed(View());
      hide *;
      return Some(DriftOf(spread, m2));
    }

    method MeanNorm() returns (m2: real)
      ensures m2 == Norm2(Mean(View()))
    {
      var inv := Inverse(weight);
      ghost var m := Mean(View());
      m2 := 0.0;
      for i := 0 to sum.Length
        invariant m2 == Norm2(m[..i])
      {
        var v := inv * sum[i];
        assert m[i] == v;
        assert m[..i + 1] == m[..i] + [v];
        NormGrows(m[..i], v);
        m2 := m2 + v * v;
      }
      assert m[..sum.Length] == m;
    }

    /** Encodes the mean; at int8 the residual is added first and left holding what the rounding dropped. */
    method TakeMean(res: array<real>) returns (reply: Reply)
      requires Closable(View()) && res.Length == sum.Length && res != sum
      modifies res
      ensures View() == old(View()) && (reply, res[..]) == MeanResidual(View(), old(res[..]))
    {
      if dtype == I8 {
        reply := QuantiseMean(res);
        return;
      }
      var inv, vals := Inverse(weight), [];
      for i := 0 to sum.Length
        invariant vals == Mean(View())[..i]
        modifies {}
      {
        assert Mean(View())[i] == inv * sum[i];
        vals := vals + [inv * sum[i]];
      }
      assert Mean(View())[..sum.Length] == Mean(View());
      return Exact(vals);
    }

    method QuantiseMean(res: array<real>) returns (reply: Reply)
      requires Closable(View()) && dtype == I8 && res.Length == sum.Length && res != sum
      modifies res
      ensures (reply, res[..]) == MeanResidual(View(), old(res[..]))
    {
      var inv := Inverse(weight);
      var segs := if |segments| == 0 then [sum.Length] else segments;
      ghost var t := Target(View(), res[..]);
      CorrectedIsTarget(View(), res[..]);
      assert Total([sum.Length]) == sum.Length;
      var q, scales, off: nat := [], [], 0;
      assert Sent(t, segs, 0, 0, [], [], res[..]);
      hide Corrected, Level, Rest, StepOf, Peak, Target, Mean, Sent;
      for i := 0 to |segs|
        invariant off == Total(segs[..i])
        invariant Sent(t, segs, i, off, q, scales, res[..])
        invariant forall j | off <= j < |t| :: Corrected(inv, sum[j], res[j]) == t[j]
      {
        var run, step := QuantiseSegment(off, segs[i], inv, res, t, segs, i, q, scales);
        q, scales, off := q + run, scales + [step], off + segs[i];
      }
      SentAll(t, segs, off, q, scales, res[..]);
      return Quantised(q, scales);
    }

    method QuantiseSegment(off: nat, n: nat, inv: real, res: array<real>, ghost t: Vec, ghost segs: seq<nat>, ghost i: nat,
                           ghost q: seq<int>, ghost scales: seq<real>)
      returns (run: seq<int>, step: real)
      requires i < |segs| && n == segs[i] && |t| == Total(segs) == sum.Length == res.Length && res != sum
      requires off == Total(segs[..i]) && Sent(t, segs, i, off, q, scales, res[..])
      requires forall j | off <= j < |t| :: Corrected(inv, sum[j], res[j]) == t[j]
      modifies res
      ensures off + n == Total(segs[..i + 1])
      ensures Sent(t, segs, i + 1, off + n, q + run, scales + [step], res[..])
      ensures forall j | off + n <= j < |t| :: Corrected(inv, sum[j], res[j]) == t[j]
    {
      hide Corrected, Level, Rest, Sent, Peak;
      NextSegment(segs, i);
      hide Total;
      var peak := PeakOf(off, off + n, inv, res, t);
      step := if peak > 0.0 then peak / 127.0 else 1.0;
      assert step == StepOf(t[off..off + n]);
      hide StepOf;
      ghost var before := res[..];
      run := QuantiseRun(off, off + n, step, inv, res, t);
      SentGrows(t, segs, i, off, n, step, q, scales, before, run, res[..]);
    }

    method PeakOf(lo: nat, hi: nat, inv: real, res: array<real>, ghost t: Vec) returns (peak: real)
      requires lo <= hi <= sum.Length == res.Length == |t|
      requires forall j | lo <= j < hi :: Corrected(inv, sum[j], res[j]) == t[j]
      ensures peak == Peak(t[lo..hi])
    {
      hide Corrected, Peak;
      peak := 0.0;
      PeakNone(t[lo..lo]);
      for j := lo to hi
        invariant peak == Peak(t[lo..j])
      {
        var m := Abs(Corrected(inv, sum[j], res[j]));
        PeakNext(t, lo, j);
        if m > peak {
          peak := m;
        }
      }
    }

    static lemma PeakNone(v: Vec)
      requires v == []
      ensures Peak(v) == 0.0
    {
    }

    static lemma PeakNext(t: Vec, lo: nat, j: nat)
      requires lo <= j < |t|
      ensures Peak(t[lo..j + 1]) == if Abs(t[j]) > Peak(t[lo..j]) then Abs(t[j]) else Peak(t[lo..j])
    {
      assert t[lo..j + 1][..j - lo] == t[lo..j];
    }

    method QuantiseRun(lo: nat, hi: nat, step: real, inv: real, res: array<real>, ghost t: Vec) returns (run: seq<int>)
      requires lo <= hi <= sum.Length == res.Length == |t| && res != sum && step > 0.0
      requires forall j | lo <= j < hi :: Corrected(inv, sum[j], res[j]) == t[j]
      modifies res
      ensures |run| == hi - lo
      ensures forall j | lo <= j < hi :: run[j - lo] == Level(t[j], step) && res[j] == Rest(t[j], Level(t[j], step), step)
      ensures forall j | 0 <= j < res.Length && !(lo <= j < hi) :: res[j] == old(res[j])
    {
      hide Corrected, Level, Rest;
      run := [];
      for j := lo to hi
        invariant |run| == j - lo
        invariant forall k | lo <= k < j :: run[k - lo] == Level(t[k], step) && res[k] == Rest(t[k], Level(t[k], step), step)
        invariant forall k | 0 <= k < res.Length && !(lo <= k < j) :: res[k] == old(res[k])
      {
        var v := Corrected(inv, sum[j], res[j]);
        var level := Level(v, step);
        run := run + [level];
        res[j] := Rest(v, level, step);
      }
    }
  }

  /** One element of the mean, plus what the last reply's rounding dropped. */
  function Corrected(inv: real, s: real, r: real): real {
    inv * s + r
  }

  lemma CorrectedIsTarget(a: Acc, res: Vec)
    requires |res| == |a.sum|
    ensures forall j | 0 <= j < |res| :: Corrected(Inverse(a.weight), a.sum[j], res[j]) == Target(a, res)[j]
  {
  }

  /** The first i segments have been quantised: their bytes and steps are out and their residuals are in place. */
  ghost predicate Sent(t: Vec, segs: seq<nat>, i: nat, off: nat, q: seq<int>, scales: seq<real>, res: Vec)
    requires i <= |segs| && |t| == Total(segs)
  {
    && off == Total(segs[..i]) <= |t| == |res| && |q| == off
    && scales == Steps(t, segs)[..i]
    && var e := ElementSteps(t, segs);
      forall j | 0 <= j < off :: q[j] == Level(t[j], e[j]) && res[j] == Rest(t[j], Level(t[j], e[j]), e[j])
  }

  lemma NoneAdded(was: Vec, w: real, x: Vec)
    requires x == []
    ensures Norm2(x) == 0.0 && Added(was, was, w, x)
  {
  }

  /** What a payload without segments stands for, element by element. */
  lemma FlatDecodes(a: Acc, p: Payload, scales: seq<real>)
    requires WellFormed(a) && |scales| > 0 && (a.dtype != I8 || |a.segments| <= 1)
    ensures var n := if p.Numbers? then |p.vals| else |p.q|;
      var x := Decode(a, p, scales);
      && (x.Some? <==> !(n != |a.sum| || p.Numbers? == (a.dtype == I8) || (a.dtype == I8 && scales[0] <= 0.0)))
      && (x.Some? ==> |x.value| == n && forall i | 0 <= i < n ::
            x.value[i] == if p.Numbers? then p.vals[i] else Value(p.q[i], scales[0]))
  {
    hide Value;
  }

  /** One segment's bytes and residuals, quantised at this step, and nothing else changed. */
  ghost predicate RunOf(t: Vec, off: nat, n: nat, step: real, run: seq<int>, before: Vec, res: Vec) {
    && off + n <= |t| == |res| == |before| && |run| == n && step > 0.0
    && (forall j | off <= j < off + n :: run[j - off] == Level(t[j], step) && res[j] == Rest(t[j], Level(t[j], step), step))
    && (forall j | 0 <= j < |res| && !(off <= j < off + n) :: res[j] == before[j])
  }

  lemma SentGrows(t: Vec, segs: seq<nat>, i: nat, off: nat, n: nat, step: real, q: seq<int>, scales: seq<real>, before: Vec,
                  run: seq<int>, res: Vec)
    requires i < |segs| && n == segs[i] && |t| == Total(segs) && Sent(t, segs, i, off, q, scales, before)
    requires off + n <= |t| && step == StepOf(t[off..off + n]) && RunOf(t, off, n, step, run, before, res)
    ensures Sent(t, segs, i + 1, off + n, q + run, scales + [step], res)
  {
    hide *;
    var e, steps := ElementSteps(t, segs), Steps(t, segs);
    SentHas(t, segs, i, off, q, scales, before);
    assert |q| == off == Total(segs[..i]) && scales == steps[..i] && |before| == |t|;
    SegmentStep(t, segs, i);
    assert steps[..i + 1] == steps[..i] + [steps[i]];
    RunJoins(t, e, off, n, step, q, before, run, res);
    SentIs(t, segs, i + 1, off + n, q + run, scales + [step], res);
  }

  lemma SentHas(t: Vec, segs: seq<nat>, i: nat, off: nat, q: seq<int>, scales: seq<real>, res: Vec)
    requires i <= |segs| && |t| == Total(segs) && Sent(t, segs, i, off, q, scales, res)
    ensures off == Total(segs[..i]) <= |t| == |res| && |q| == off && scales == Steps(t, segs)[..i]
    ensures var e := ElementSteps(t, segs);
      forall j | 0 <= j < off :: q[j] == Level(t[j], e[j]) && res[j] == Rest(t[j], Level(t[j], e[j]), e[j])
  {
    hide Level, Rest, Steps, ElementSteps, Total;
  }

  lemma SentIs(t: Vec, segs: seq<nat>, i: nat, off: nat, q: seq<int>, scales: seq<real>, res: Vec)
    requires i <= |segs| && |t| == Total(segs)
    requires off == Total(segs[..i]) <= |t| == |res| && |q| == off && scales == Steps(t, segs)[..i]
    requires var e := ElementSteps(t, segs);
      forall j | 0 <= j < off :: q[j] == Level(t[j], e[j]) && res[j] == Rest(t[j], Level(t[j], e[j]), e[j])
    ensures Sent(t, segs, i, off, q, scales, res)
  {
    hide Level, Rest, Steps, ElementSteps, Total;
  }

  lemma RunJoins(t: Vec, e: Vec, off: nat, n: nat, step: real, q: seq<int>, before: Vec, run: seq<int>, res: Vec)
    requires RunOf(t, off, n, step, run, before, res) && |t| == |e| && |q| == off
    requires forall j | 0 <= j < |e| :: e[j] > 0.0
    requires forall j | off <= j < off + n :: e[j] == step
    requires forall j | 0 <= j < off :: q[j] == Level(t[j], e[j]) && before[j] == Rest(t[j], Level(t[j], e[j]), e[j])
    ensures |res| == |t| && |run| == n
    ensures forall j | 0 <= j < off + n :: (q + run)[j] == Level(t[j], e[j]) && res[j] == Rest(t[j], Level(t[j], e[j]), e[j])
  {
    hide Level, Rest;
    forall j | 0 <= j < off + n
      ensures (q + run)[j] == Level(t[j], e[j]) && res[j] == Rest(t[j], Level(t[j], e[j]), e[j])
    {
      if j < off {
        assert (q + run)[j] == q[j];
      } else {
        assert (q + run)[j] == run[j - off];
      }
    }
  }

  lemma SentAll(t: Vec, segs: seq<nat>, off: nat, q: seq<int>, scales: seq<real>, res: Vec)
    requires |t| == Total(segs) && Sent(t, segs, |segs|, off, q, scales, res)
    ensures q == Levels(t, segs) && scales == Steps(t, segs)
    ensures res == Leftover(t, q, ElementSteps(t, segs))
  {
    assert segs[..|segs|] == segs;
    hide Level, Rest, StepOf, Peak;
  }

  lemma AddedAll(s: Vec, was: Vec, w: real, x: Vec)
    requires Added(s, was, w, x) && |x| == |s|
    ensures s == Axpy(was, w, x)
  {
    forall j | 0 <= j < |s|
      ensures s[j] == Axpy(was, w, x)[j]
    {
      assert s[j] == was[j] + w * x[j];
    }
  }

  lemma SpoiledBy(a: Acc, p: Payload, scales: seq<real>, w: real, s: Vec)
    requires WellFormed(a) && Segmented(a) && p.Bytes? && |p.q| == |a.sum| && |scales| == |a.segments|
    requires FirstBad(scales) < |scales|
    requires var f := FirstBad(scales);
      Total(a.segments[..f]) <= |p.q|
      && Added(s, a.sum, w, Dequantise(p.q[..Total(a.segments[..f])], Expand(a.segments[..f], scales[..f])))
    ensures s == Spoil(a, p, scales, w)
  {
    hide Value, Expand, FirstBad, Total;
    var f := FirstBad(scales);
    var n := Total(a.segments[..f]);
    var e := Expand(a.segments[..f], scales[..f]);
    if n == 0 {
      assert s == a.sum;
    } else {
      forall j | 0 <= j < |s|
        ensures s[j] == Spoil(a, p, scales, w)[j]
      {
        assert j < n ==> Dequantise(p.q[..n], e)[j] == Value(p.q[j], e[j]);
      }
    }
  }
}
