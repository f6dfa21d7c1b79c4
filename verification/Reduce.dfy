/** The arithmetic of the sync board: a running weighted sum of contributions, its mean, the int8 reply with
    error feedback, and the drift statistic. float64 sums are exact reals here. */
module Reduce {
  import opened Wrappers
  import opened Vectors

  datatype DType = F16 | F32 | F64 | I8

  /** A payload as its accumulator reads it: numbers for a float width, signed bytes for int8. */
  datatype Payload = Numbers(vals: Vec) | Bytes(q: seq<int>)

  /** What one contribution adds to a round: the ranks it stands for, its vector and its weight. */
  datatype Part = Part(who: set<nat>, x: Vec, w: real)

  datatype Acc = Acc(dtype: DType, segments: seq<nat>, sum: Vec, count: nat, weight: real, sumSq: real)

  /** A reply: the mean itself, or int8 values with one step per segment. */
  datatype Reply = Exact(vals: Vec) | Quantised(q: seq<int>, scales: seq<real>)

  /** How much a contribution counts: an unreported sample count is 1, a pad step is nothing. */
  function SampleWeight(samples: int): (w: real)
    ensures w >= 0.0
    ensures w == 0.0 <==> samples < 0
  {
    if samples < 0 then 0.0 else if samples == 0 then 1.0 else samples as real
  }

  // ---- sums over contributions ----

  ghost predicate Uniform(parts: seq<Part>, n: nat) {
    forall i | 0 <= i < |parts| :: |parts[i].x| == n && parts[i].w >= 0.0
  }

  ghost function SumX(parts: seq<Part>, n: nat): (s: Vec)
    requires Uniform(parts, n)
    ensures |s| == n
  {
    if parts == [] then Zero(n)
    else
      var p := parts[|parts| - 1];
      Axpy(SumX(parts[..|parts| - 1], n), p.w, p.x)
  }

  ghost function SumW(parts: seq<Part>): real {
    if parts == [] then 0.0 else SumW(parts[..|parts| - 1]) + parts[|parts| - 1].w
  }

  /** A term of a weighted sum. */
  function Weighed(w: real, v: real): real {
    w * v
  }

  ghost function SumSq(parts: seq<Part>): real {
    if parts == [] then 0.0
    else SumSq(parts[..|parts| - 1]) + Weighed(parts[|parts| - 1].w, Norm2(parts[|parts| - 1].x))
  }

  /** sum(w_i * ||x_i - m||^2) */
  ghost function Spread(parts: seq<Part>, m: Vec): real
    requires Uniform(parts, |m|)
  {
    if parts == [] then 0.0
    else Spread(parts[..|parts| - 1], m) + Weighed(parts[|parts| - 1].w, Dist2(parts[|parts| - 1].x, m))
  }

  function Inverse(weight: real): real {
    if weight > 0.0 then 1.0 / weight else 0.0
  }

  /** sum(w_i * x_i) / sum(w_i), and zeros when nothing weighs anything. */
  ghost function WeightedMean(parts: seq<Part>, n: nat): (m: Vec)
    requires Uniform(parts, n)
    ensures |m| == n
  {
    Scale(Inverse(SumW(parts)), SumX(parts, n))
  }

  /** The accumulator holds exactly these contributions. */
  ghost predicate Holds(a: Acc, parts: seq<Part>) {
    && Uniform(parts, |a.sum|)
    && a.sum == SumX(parts, |a.sum|)
    && a.count == |parts|
    && a.weight == SumW(parts)
    && a.sumSq == SumSq(parts)
  }

  lemma {:induction false} SumWNotNegative(parts: seq<Part>)
    requires forall i | 0 <= i < |parts| :: parts[i].w >= 0.0
    ensures SumW(parts) >= 0.0
    ensures SumW(parts) == 0.0 <==> forall i | 0 <= i < |parts| :: parts[i].w == 0.0
  {
    if parts != [] {
      var front := parts[..|parts| - 1];
      SumWNotNegative(front);
      assert parts == front + [parts[|parts| - 1]];
    }
  }

  // ---- segments ----

  function Total(segments: seq<nat>): nat {
    if segments == [] then 0 else Total(segments[..|segments| - 1]) + segments[|segments| - 1]
  }

  function Repeat(s: real, n: nat): (r: Vec)
    ensures |r| == n
  {
    seq(n, _ => s)
  }

  /** One value per element: each segment's own scale, repeated over the segment. */
  function Expand(segments: seq<nat>, scales: seq<real>): (e: Vec)
    requires |segments| == |scales|
    ensures |e| == Total(segments)
  {
    if segments == [] then []
    else
      var k := |segments| - 1;
      Expand(segments[..k], scales[..k]) + Repeat(scales[k], segments[k])
  }

  function FirstBad(scales: seq<real>): (i: nat)
    ensures i <= |scales|
    ensures i < |scales| ==> scales[i] <= 0.0
    ensures forall j | 0 <= j < i :: scales[j] > 0.0
  {
    if scales == [] then 0
    else if scales[0] <= 0.0 then 0
    else 1 + FirstBad(scales[1..])
  }

  /** What a byte stands for at a scale. */
  function Value(q: int, scale: real): real {
    q as real * scale
  }

  function Dequantise(q: seq<int>, e: Vec): (x: Vec)
    requires |q| == |e|
    ensures |x| == |q|
  {
    seq(|q|, j requires 0 <= j < |q| => Value(q[j], e[j]))
  }

  // ---- folding a contribution in ----

  predicate WellFormed(a: Acc) {
    |a.segments| > 1 ==> Total(a.segments) == |a.sum|
  }

  function NewAcc(dtype: DType, n: nat, segments: seq<nat>): Acc {
    Acc(dtype, segments, Zero(n), 0, 0.0, 0.0)
  }

  /** The segment lengths a request may declare: positive, adding up to the payload. */
  function WithSegments(n: nat, counts: seq<int>): (r: Option<seq<nat>>)
    ensures r.Some? ==> r.value == counts && Total(r.value) == n
    ensures r.Some? <==> (forall i | 0 <= i < |counts| :: counts[i] > 0) && IntTotal(counts) == n
  {
    if forall i | 0 <= i < |counts| :: counts[i] > 0 then
      var segments: seq<nat> := counts;
      TotalOfCounts(counts, segments);
      if Total(segments) == n then Some(segments) else None
    else None
  }

  ghost function IntTotal(counts: seq<int>): int {
    if counts == [] then 0 else IntTotal(counts[..|counts| - 1]) + counts[|counts| - 1]
  }

  lemma {:induction false} TotalOfCounts(counts: seq<int>, segments: seq<nat>)
    requires counts == segments
    ensures IntTotal(counts) == Total(segments)
  {
    if counts != [] {
      TotalOfCounts(counts[..|counts| - 1], segments[..|segments| - 1]);
    }
  }

  predicate Segmented(a: Acc) {
    a.dtype.I8? && |a.segments| > 1
  }

  /** The vector a payload stands for, or nothing when it does not fit the round. */
  function Decode(a: Acc, p: Payload, scales: seq<real>): (r: Option<Vec>)
    requires WellFormed(a) && |scales| > 0
    ensures r.Some? ==> |r.value| == |a.sum|
  {
    if !a.dtype.I8? then
      if p.Numbers? && |p.vals| == |a.sum| then Some(p.vals) else None
    else if !p.Bytes? || |p.q| != |a.sum| then None
    else if |a.segments| <= 1 then
      if scales[0] > 0.0 then Some(Dequantise(p.q, Repeat(scales[0], |a.sum|))) else None
    else if |scales| != |a.segments| || FirstBad(scales) < |scales| then None
    else Some(Dequantise(p.q, Expand(a.segments, scales)))
  }

  /** Contributions weigh by their samples: two machines' by the sum of theirs, and one that reports none like one of one sample. */
  lemma SamplesAdd(a: int, b: int)
    requires a > 0 && b > 0
    ensures SampleWeight(a + b) == SampleWeight(a) + SampleWeight(b)
    ensures SampleWeight(0) == SampleWeight(1) == 1.0
  {
  }

  /** A payload fits as many numbers as the round has, for a float width; or as many bytes, with a positive scale for each segment. */
  lemma FitsIff(a: Acc, p: Payload, scales: seq<real>)
    requires WellFormed(a) && |scales| > 0
    ensures Decode(a, p, scales).Some? <==>
      if a.dtype != I8 then p.Numbers? && |p.vals| == |a.sum|
      else
        && p.Bytes? && |p.q| == |a.sum|
        && if |a.segments| > 1 then |scales| == |a.segments| && forall i | 0 <= i < |scales| :: scales[i] > 0.0 else scales[0] > 0.0
  {
  }

  /** How many leading elements a refused contribution has already added when the refusal is found. */
  function SpoiledPrefix(a: Acc, p: Payload, scales: seq<real>): (n: nat)
    requires WellFormed(a) && |scales| > 0
    ensures n > 0 ==> Segmented(a) && p.Bytes? && |p.q| == |a.sum| && |scales| == |a.segments| && n <= |a.sum|
  {
    if Segmented(a) && p.Bytes? && |p.q| == |a.sum| && |scales| == |a.segments| && FirstBad(scales) < |scales| then
      TotalPrefix(a.segments, FirstBad(scales));
      Total(a.segments[..FirstBad(scales)])
    else 0
  }

  lemma {:induction false} TotalPrefix(segments: seq<nat>, k: nat)
    requires k <= |segments|
    ensures Total(segments[..k]) <= Total(segments)
  {
    if k < |segments| {
      var n := |segments| - 1;
      TotalPrefix(segments[..n], k);
      assert segments[..n][..k] == segments[..k];
    } else {
      assert segments[..k] == segments;
    }
  }

  /** What the sum becomes when segments before the first bad scale were added and the rest refused. */
  function Spoil(a: Acc, p: Payload, scales: seq<real>, w: real): (s: Vec)
    requires WellFormed(a) && |scales| > 0
    ensures |s| == |a.sum|
  {
    var n := SpoiledPrefix(a, p, scales);
    if n == 0 then a.sum
    else
      var f := FirstBad(scales);
      var e := Expand(a.segments[..f], scales[..f]);
      seq(|a.sum|, j requires 0 <= j < |a.sum| => if j < n then a.sum[j] + w * Value(p.q[j], e[j]) else a.sum[j])
  }

  /** One contribution folded in: the new accumulator and whether it was accepted. */
  function Add(a: Acc, p: Payload, scales: seq<real>, samples: int): (r: (Acc, bool))
    requires WellFormed(a) && |scales| > 0
    ensures WellFormed(r.0) && r.0.dtype == a.dtype && r.0.segments == a.segments && |r.0.sum| == |a.sum|
    ensures r.1 <==> Decode(a, p, scales).Some?
  {
    var w := SampleWeight(samples);
    match Decode(a, p, scales)
    case Some(x) =>
      (a.(sum := Axpy(a.sum, w, x), count := a.count + 1, weight := a.weight + w, sumSq := a.sumSq + Weighed(w, Norm2(x))), true)
    case None =>
      (a.(sum := Spoil(a, p, scales, w)), false)
  }

  /** An accepted contribution joins the weighted sum as one more part. */
  lemma AddHolds(a: Acc, parts: seq<Part>, p: Payload, scales: seq<real>, samples: int, who: set<nat>)
    requires WellFormed(a) && |scales| > 0 && Holds(a, parts)
    requires Decode(a, p, scales).Some?
    ensures Holds(Add(a, p, scales, samples).0, parts + [Part(who, Decode(a, p, scales).value, SampleWeight(samples))])
  {
    var q := Part(who, Decode(a, p, scales).value, SampleWeight(samples));
    assert (parts + [q])[..|parts|] == parts;
  }

  lemma NewHolds(dtype: DType, n: nat, segments: seq<nat>)
    ensures Holds(NewAcc(dtype, n, segments), [])
  {
  }

  /** A refused contribution leaves the accumulator as it was exactly when the first scale is the bad one, the
      contribution weighs nothing, or every value before the first bad scale is zero. */
  lemma RefusedLeavesSumIff(a: Acc, p: Payload, scales: seq<real>, samples: int)
    requires WellFormed(a) && |scales| > 0 && Decode(a, p, scales).None?
    ensures Add(a, p, scales, samples).0 == a
      <==> samples < 0 || forall j | 0 <= j < SpoiledPrefix(a, p, scales) :: p.q[j] == 0
  {
    var w := SampleWeight(samples);
    var n := SpoiledPrefix(a, p, scales);
    var s := Spoil(a, p, scales, w);
    if n > 0 {
      var f := FirstBad(scales);
      var e := Expand(a.segments[..f], scales[..f]);
      ExpandPositive(a.segments[..f], scales[..f]);
      forall j | 0 <= j < n
        ensures s[j] == a.sum[j] <==> w == 0.0 || p.q[j] == 0
      {
        ProductZero(w, Value(p.q[j], e[j]));
        ProductZero(p.q[j] as real, e[j]);
      }
      if samples < 0 || forall j | 0 <= j < n :: p.q[j] == 0 {
        assert s == a.sum;
      }
    }
  }

  lemma ProductZero(a: real, b: real)
    ensures a * b == 0.0 <==> a == 0.0 || b == 0.0
  {
    var c := a * b;
    if a != 0.0 && b != 0.0 {
      var x, y := if a > 0.0 then a else -a, if b > 0.0 then b else -b;
      PositiveProduct(x, y, x * y);
      assert x * y == c || x * y == -c;
    }
  }

  lemma {:induction false} ExpandPositive(segments: seq<nat>, scales: seq<real>)
    requires |segments| == |scales|
    requires forall i | 0 <= i < |scales| :: scales[i] > 0.0
    ensures forall j | 0 <= j < Total(segments) :: Expand(segments, scales)[j] > 0.0
  {
    if segments != [] {
      ExpandPositive(segments[..|segments| - 1], scales[..|scales| - 1]);
    }
  }

  // ---- the mean and the int8 reply with error feedback ----

  function Abs(r: real): (a: real)
    ensures a >= 0.0 && (a == r || a == -r)
  {
    if r < 0.0 then -r else r
  }

  /** Rounding to the nearest integer, halves away from zero. */
  function Round(r: real): (n: int)
    ensures Abs(r - n as real) <= 0.5
  {
    if r >= 0.0 then (r + 0.5).Floor else -((-r + 0.5).Floor)
  }

  function Clamp(n: int): int {
    if n > 127 then 127 else if n < -127 then -127 else n
  }

  function Peak(v: Vec): (p: real)
    ensures p >= 0.0
    ensures forall i | 0 <= i < |v| :: Abs(v[i]) <= p
    ensures p > 0.0 ==> exists i | 0 <= i < |v| :: Abs(v[i]) == p
  {
    if v == [] then 0.0
    else
      var p, m := Peak(v[..|v| - 1]), Abs(v[|v| - 1]);
      if m > p then m
      else
        assert p > 0.0 ==> exists i | 0 <= i < |v| - 1 :: Abs(v[i]) == p by {
          if p > 0.0 {
            var i :| 0 <= i < |v| - 1 && Abs(v[..|v| - 1][i]) == p;
            assert Abs(v[i]) == p;
          }
        }
        p
  }

  /** The int8 step of one segment: its peak maps to 127, and a segment of zeros takes step 1. */
  function StepOf(v: Vec): (s: real)
    ensures s > 0.0
  {
    if Peak(v) > 0.0 then Peak(v) / 127.0 else 1.0
  }

  /** One step per segment. */
  function Steps(v: Vec, segments: seq<nat>): (s: seq<real>)
    requires |v| == Total(segments)
    ensures |s| == |segments|
    decreases |segments|
  {
    if segments == [] then []
    else
      var k := |segments| - 1;
      var off := Total(segments[..k]);
      Steps(v[..off], segments[..k]) + [StepOf(v[off..])]
  }

  function Level(v: real, step: real): int
    requires step > 0.0
  {
    Clamp(Round(v / step))
  }

  /** The elements' steps, and from them the bytes sent and the rounding error kept. */
  function ElementSteps(v: Vec, segments: seq<nat>): (e: Vec)
    requires |v| == Total(segments)
    ensures |e| == |v|
    ensures forall j | 0 <= j < |e| :: e[j] > 0.0
  {
    StepsPositive(v, segments);
    ExpandPositive(segments, Steps(v, segments));
    Expand(segments, Steps(v, segments))
  }

  function Levels(v: Vec, segments: seq<nat>): (q: seq<int>)
    requires |v| == Total(segments)
    ensures |q| == |v|
  {
    var e := ElementSteps(v, segments);
    seq(|v|, j requires 0 <= j < |v| => Level(v[j], e[j]))
  }

  function Rest(v: real, q: int, step: real): real {
    v - Value(q, step)
  }

  /** What rounding v to the levels q at steps e leaves over. */
  function Leftover(v: Vec, q: seq<int>, e: Vec): (r: Vec)
    requires |v| == |q| == |e|
    ensures |r| == |v|
  {
    seq(|v|, j requires 0 <= j < |v| => Rest(v[j], q[j], e[j]))
  }

  lemma {:induction false} StepsPositive(v: Vec, segments: seq<nat>)
    requires |v| == Total(segments)
    ensures forall i | 0 <= i < |segments| :: Steps(v, segments)[i] > 0.0
    decreases |segments|
  {
    if segments != [] {
      var k := |segments| - 1;
      StepsPositive(v[..Total(segments[..k])], segments[..k]);
    }
  }

  /** The boundaries the mean is quantised by: the declared ones, or the whole payload as one. */
  function Cuts(a: Acc): (c: seq<nat>)
    requires Closable(a)
    ensures Total(c) == |a.sum|
  {
    if |a.segments| == 0 then [|a.sum|] else a.segments
  }

  predicate Closable(a: Acc) {
    (a.segments != [] ==> Total(a.segments) == |a.sum|)
  }

  function Mean(a: Acc): (m: Vec)
    ensures |m| == |a.sum|
  {
    Scale(Inverse(a.weight), a.sum)
  }

  /** The vector to send: the mean, plus what the last reply's rounding dropped. */
  function Target(a: Acc, res: Vec): (t: Vec)
    requires |res| == |a.sum|
    ensures |t| == |res|
  {
    Plus(Mean(a), res)
  }

  /** The reply and the rounding error it leaves. Widths other than int8 send the mean and ignore the residual. */
  function MeanResidual(a: Acc, res: Vec): (r: (Reply, Vec))
    requires Closable(a) && |res| == |a.sum|
    ensures |r.1| == |res|
  {
    if !a.dtype.I8? then (Exact(Mean(a)), res)
    else
      var t := Target(a, res);
      var q := Levels(t, Cuts(a));
      (Quantised(q, Steps(t, Cuts(a))), Leftover(t, q, ElementSteps(t, Cuts(a))))
  }

  /** What a rank decodes from a reply. */
  function Decoded(a: Acc, r: Reply): (x: Vec)
    requires Closable(a)
    requires match r case Exact(v) => |v| == |a.sum| case Quantised(q, s) => |q| == |a.sum| && |s| == |Cuts(a)|
    ensures |x| == |a.sum|
  {
    match r
    case Exact(v) => v
    case Quantised(q, s) => Dequantise(q, Expand(Cuts(a), s))
  }

  /** No clamping happens and each element's rounding error is at most half its own segment's step. */
  lemma LevelIsNearest(v: real, peak: real, step: real)
    requires peak > 0.0 && step == peak / 127.0 && Abs(v) <= peak
    ensures -127 <= Round(v / step) <= 127
    ensures Level(v, step) == Round(v / step)
    ensures Abs(v - Level(v, step) as real * step) <= peak / 254.0
  {
    var x := v / step;
    assert x * step == v && step * 127.0 == peak;
    QuotientBound(v, step, 127.0);
    RoundIsNear(x);
    var n := Round(x);
    ScaledBound(x - n as real, step);
    hide Round, Abs;
    Difference(x, n as real, step);
  }

  lemma RoundIsNear(x: real)
    requires -127.0 <= x <= 127.0
    ensures -127 <= Round(x) <= 127 && Clamp(Round(x)) == Round(x) && Abs(x - Round(x) as real) <= 0.5
  {
  }

  lemma Difference(x: real, n: real, step: real)
    ensures (x - n) * step == x * step - n * step
  {
  }

  lemma QuotientBound(v: real, step: real, k: real)
    requires step > 0.0 && -k * step <= v <= k * step
    ensures -k <= v / step <= k
  {
    var x := v / step;
    assert x * step == v;
    if x > k {
      PositiveProduct(x - k, step, (x - k) * step);
    } else if x < -k {
      PositiveProduct(-k - x, step, (-k - x) * step);
    }
  }

  lemma ScaledBound(d: real, step: real)
    requires step > 0.0 && Abs(d) <= 0.5
    ensures Abs(d * step) <= step / 2.0
  {
    var lo, hi := (0.5 - d) * step, (d + 0.5) * step;
    if d < 0.5 {
      PositiveProduct(0.5 - d, step, lo);
    }
    if d > -0.5 {
      PositiveProduct(d + 0.5, step, hi);
    }
    assert lo == step / 2.0 - d * step && hi == d * step + step / 2.0;
  }

  lemma NextSegment(segments: seq<nat>, i: nat)
    requires i < |segments|
    ensures Total(segments[..i + 1]) == Total(segments[..i]) + segments[i] <= Total(segments)
  {
    assert segments[..i + 1][..i] == segments[..i];
    TotalPrefix(segments, i + 1);
  }

  lemma ExpandLast(segs: seq<nat>, scales: seq<real>)
    requires |segs| == |scales| > 0
    ensures var k := |segs| - 1;
      && Total(segs) == Total(segs[..k]) + segs[k]
      && forall j | 0 <= j < Total(segs) ::
        Expand(segs, scales)[j] == if j < Total(segs[..k]) then Expand(segs[..k], scales[..k])[j] else scales[k]
  {
  }

  lemma {:induction false} ExpandAt(segs: seq<nat>, scales: seq<real>, i: nat, j: nat)
    requires i < |segs| == |scales| && Total(segs[..i]) <= j < Total(segs[..i + 1]) <= Total(segs)
    ensures Expand(segs, scales)[j] == scales[i]
    decreases |segs|
  {
    hide *;
    var k := |segs| - 1;
    ExpandLast(segs, scales);
    if i < k {
      TotalPrefix(segs[..k], i + 1);
      assert segs[..k][..i] == segs[..i] && segs[..k][..i + 1] == segs[..i + 1];
      ExpandAt(segs[..k], scales[..k], i, j);
    }
  }

  lemma {:induction false} StepsAt(t: Vec, segs: seq<nat>, i: nat)
    requires i < |segs| && |t| == Total(segs)
    requires Total(segs[..i]) <= Total(segs[..i + 1]) <= |t|
    ensures Steps(t, segs)[i] == StepOf(t[Total(segs[..i])..Total(segs[..i + 1])])
    decreases |segs|
  {
    hide StepOf;
    var k := |segs| - 1;
    var cut := Total(segs[..k]);
    if i == k {
      assert segs[..i + 1] == segs && t[cut..] == t[cut..|t|];
    } else {
      TotalPrefix(segs[..k], i + 1);
      assert segs[..k][..i] == segs[..i] && segs[..k][..i + 1] == segs[..i + 1];
      StepsAt(t[..cut], segs[..k], i);
      assert t[..cut][Total(segs[..i])..Total(segs[..i + 1])] == t[Total(segs[..i])..Total(segs[..i + 1])];
    }
  }

  lemma SegmentStep(t: Vec, segs: seq<nat>, i: nat)
    requires i < |segs| && |t| == Total(segs)
    ensures Total(segs[..i + 1]) == Total(segs[..i]) + segs[i] <= |t|
    ensures var lo, hi := Total(segs[..i]), Total(segs[..i + 1]);
      && Steps(t, segs)[i] == StepOf(t[lo..hi])
      && forall j | lo <= j < hi :: ElementSteps(t, segs)[j] == StepOf(t[lo..hi])
  {
    hide StepOf, Steps, Expand, Total;
    NextSegment(segs, i);
    StepsAt(t, segs, i);
    forall j | Total(segs[..i]) <= j < Total(segs[..i + 1])
      ensures ElementSteps(t, segs)[j] == Steps(t, segs)[i]
    {
      ExpandAt(segs, Steps(t, segs), i, j);
    }
  }

  lemma {:induction false} FindSegment(segments: seq<nat>, j: nat) returns (i: nat)
    requires j < Total(segments)
    ensures i < |segments| && Total(segments[..i]) <= j < Total(segments[..i + 1]) <= Total(segments)
    decreases |segments|
  {
    var k := |segments| - 1;
    assert segments[..k + 1] == segments;
    if j >= Total(segments[..k]) {
      i := k;
    } else {
      i := FindSegment(segments[..k], j);
      assert segments[..k][..i] == segments[..i] && segments[..k][..i + 1] == segments[..i + 1];
    }
  }

  /** Each element belongs to one segment, whose slice of v sets its step and contains it. */
  lemma SegmentOf(v: Vec, segments: seq<nat>, j: nat) returns (lo: nat, hi: nat)
    requires |v| == Total(segments) && j < |v|
    ensures lo <= j < hi <= |v|
    ensures ElementSteps(v, segments)[j] == StepOf(v[lo..hi])
    ensures exists i | 0 <= i < |segments| :: lo == Total(segments[..i]) && hi == Total(segments[..i + 1])
  {
    hide *;
    var i := FindSegment(segments, j);
    lo, hi := Total(segments[..i]), Total(segments[..i + 1]);
    SegmentStep(v, segments, i);
  }

  /** An accepted number stands for itself, and a byte for itself times the scale of its own segment. */
  lemma ValueAt(a: Acc, p: Payload, scales: seq<real>, j: nat) returns (i: nat)
    requires WellFormed(a) && |scales| > 0 && Decode(a, p, scales).Some? && j < |a.sum|
    ensures i < |scales|
    ensures Decode(a, p, scales).value[j] == if a.dtype != I8 then p.vals[j] else p.q[j] as real * scales[i]
    ensures a.dtype == I8 ==>
      if |a.segments| > 1 then i < |a.segments| && Total(a.segments[..i]) <= j < Total(a.segments[..i + 1]) else i == 0
  {
    i := 0;
    if a.dtype == I8 && |a.segments| > 1 {
      hide Total, Expand;
      i := FindSegment(a.segments, j);
      ExpandAt(a.segments, scales, i, j);
    }
  }

  /** Error feedback, one round: what was sent plus what is kept is the mean plus what was kept before, the clamp
      never acts, and what is kept is at most 1/254 of the peak of the element's own segment. */
  lemma FeedbackRound(a: Acc, res: Vec)
    requires a.dtype.I8? && Closable(a) && |res| == |a.sum|
    ensures var (reply, left) := MeanResidual(a, res);
      && Plus(Decoded(a, reply), left) == Plus(Mean(a), res)
      && (forall j | 0 <= j < |res| :: -127 <= reply.q[j] <= 127)
  {
    var t := Target(a, res);
    var e := ElementSteps(t, Cuts(a));
    var q := Levels(t, Cuts(a));
    Restores(t, q, e);
  }

  lemma Restores(t: Vec, q: seq<int>, e: Vec)
    requires |t| == |q| == |e|
    ensures Plus(Dequantise(q, e), Leftover(t, q, e)) == t
  {
  }

  /** The clamp leaves the level as rounding gave it, and the rounding error is at most peak/254. */
  ghost predicate RoundedWithin(v: real, step: real, peak: real)
    requires step > 0.0
  {
    && Level(v, step) == Round(v / step)
    && Abs(Rest(v, Level(v, step), step)) <= peak / 254.0
  }

  /** A residual of at most 1/254 of the peak. */
  ghost predicate KeptWithin(r: real, peak: real) {
    Abs(r) <= peak / 254.0
  }

  /** r is what rounding v to its level leaves over. */
  ghost predicate Keeps(r: real, v: real, step: real)
    requires step > 0.0
  {
    r == Rest(v, Level(v, step), step)
  }

  lemma KeptOf(v: real, step: real, r: real, peak: real)
    requires step > 0.0 && RoundedWithin(v, step, peak) && Keeps(r, v, step)
    ensures KeptWithin(r, peak)
  {
  }

  lemma ScalarBound(v: real, step: real, peak: real)
    requires peak >= 0.0 && Abs(v) <= peak && step > 0.0
    requires step == if peak > 0.0 then peak / 127.0 else 1.0
    ensures RoundedWithin(v, step, peak)
  {
    if peak > 0.0 {
      LevelIsNearest(v, peak, step);
    } else {
      AtZero(v, step);
    }
  }

  lemma AtZero(v: real, step: real)
    requires v == 0.0 && step == 1.0
    ensures RoundedWithin(v, step, 0.0)
  {
    assert v / step == 0.0;
    assert Round(0.0) == 0;
  }

  lemma PeakCovers(t: Vec, lo: nat, hi: nat, j: nat)
    requires lo <= j < hi <= |t|
    ensures Abs(t[j]) <= Peak(t[lo..hi])
  {
    assert t[lo..hi][j - lo] == t[j];
  }

  lemma SliceBound(t: Vec, step: real, lo: nat, hi: nat, j: nat)
    requires lo <= j < hi <= |t| && step == StepOf(t[lo..hi])
    ensures RoundedWithin(t[j], step, Peak(t[lo..hi]))
  {
    PeakCovers(t, lo, hi, j);
    ScalarBound(t[j], step, Peak(t[lo..hi]));
  }

  /** Every element of an int8 reply is rounded, never clamped, within 1/254 of the peak of its own segment. */
  lemma FeedbackBound(a: Acc, res: Vec, j: nat) returns (lo: nat, hi: nat)
    requires a.dtype.I8? && Closable(a) && |res| == |a.sum| && j < |res|
    ensures lo <= j < hi <= |res|
    ensures exists i | 0 <= i < |Cuts(a)| :: lo == Total(Cuts(a)[..i]) && hi == Total(Cuts(a)[..i + 1])
    ensures RoundedWithin(Target(a, res)[j], ElementSteps(Target(a, res), Cuts(a))[j], Peak(Target(a, res)[lo..hi]))
    ensures KeptWithin(MeanResidual(a, res).1[j], Peak(Target(a, res)[lo..hi]))
  {
    var t, c := Target(a, res), Cuts(a);
    var e, r := ElementSteps(t, c), MeanResidual(a, res).1;
    lo, hi := SegmentOf(t, c, j);
    KeepsAt(a, res, j);
    hide *;
    SliceBound(t, e[j], lo, hi, j);
    KeptOf(t[j], e[j], r[j], Peak(t[lo..hi]));
  }

  lemma KeepsAt(a: Acc, res: Vec, j: nat)
    requires a.dtype.I8? && Closable(a) && |res| == |a.sum| && j < |res|
    ensures Keeps(MeanResidual(a, res).1[j], Target(a, res)[j], ElementSteps(Target(a, res), Cuts(a))[j])
  {
    hide Rest, Level, Peak, StepOf, Steps, Expand, Target, Mean;
  }

  // ---- many rounds on one residual ----

  ghost predicate OneKey(accs: seq<Acc>, n: nat) {
    forall i | 0 <= i < |accs| :: accs[i].dtype.I8? && Closable(accs[i]) && |accs[i].sum| == n
  }

  /** The residual after these rounds, starting from res. */
  ghost function ResidualAfter(accs: seq<Acc>, res: Vec): (r: Vec)
    requires OneKey(accs, |res|)
    ensures |r| == |res|
  {
    if accs == [] then res
    else MeanResidual(accs[|accs| - 1], ResidualAfter(accs[..|accs| - 1], res)).1
  }

  /** The sum of what the ranks decoded over these rounds. */
  ghost function SentTotal(accs: seq<Acc>, res: Vec): (s: Vec)
    requires OneKey(accs, |res|)
    ensures |s| == |res|
  {
    if accs == [] then Zero(|res|)
    else
      var a, front := accs[|accs| - 1], accs[..|accs| - 1];
      Plus(SentTotal(front, res), Decoded(a, MeanResidual(a, ResidualAfter(front, res)).0))
  }

  ghost function MeanTotal(accs: seq<Acc>, n: nat): (s: Vec)
    requires OneKey(accs, n)
    ensures |s| == n
  {
    if accs == [] then Zero(n)
    else Plus(MeanTotal(accs[..|accs| - 1], n), Mean(accs[|accs| - 1]))
  }

  /** Over any number of rounds nothing is lost: everything sent plus the last residual is everything meant plus
      the first residual. */
  lemma {:induction false} FeedbackTelescopes(accs: seq<Acc>, res: Vec)
    requires OneKey(accs, |res|)
    ensures Plus(SentTotal(accs, res), ResidualAfter(accs, res)) == Plus(MeanTotal(accs, |res|), res)
  {
    if accs != [] {
      var a, front := accs[|accs| - 1], accs[..|accs| - 1];
      FeedbackTelescopes(front, res);
      var before := ResidualAfter(front, res);
      var (reply, left) := MeanResidual(a, before);
      FeedbackRound(a, before);
      assert ResidualAfter(accs, res) == left;
      assert SentTotal(accs, res) == Plus(SentTotal(front, res), Decoded(a, reply));
      assert MeanTotal(accs, |res|) == Plus(MeanTotal(front, |res|), Mean(a));
      hide *;
      Ledger(SentTotal(front, res), Decoded(a, reply), left, Mean(a), before, MeanTotal(front, |res|), res);
    }
  }

  lemma Ledger(sent: Vec, reply: Vec, left: Vec, mean: Vec, before: Vec, meant: Vec, first: Vec)
    requires |sent| == |reply| == |left| == |mean| == |before| == |meant| == |first|
    requires Plus(sent, before) == Plus(meant, first) && Plus(reply, left) == Plus(mean, before)
    ensures Plus(Plus(sent, reply), left) == Plus(Plus(meant, mean), first)
  {
    forall j | 0 <= j < |sent|
      ensures Plus(Plus(sent, reply), left)[j] == Plus(Plus(meant, mean), first)[j]
    {
      assert Plus(sent, before)[j] == Plus(meant, first)[j] && Plus(reply, left)[j] == Plus(mean, before)[j];
    }
  }

  /** What separates what was meant from what was sent is the residual kept, the first one apart. */
  lemma KeptIsOwed(sent: Vec, left: Vec, meant: Vec, first: Vec, j: nat)
    requires |sent| == |left| == |meant| == |first| && j < |sent|
    requires Plus(sent, left) == Plus(meant, first)
    ensures meant[j] + first[j] - sent[j] == left[j]
  {
    assert Plus(sent, left)[j] == Plus(meant, first)[j];
  }

  /** What the last round aimed to send: its mean, and what the round before it left over. */
  ghost function LastTarget(accs: seq<Acc>, res: Vec): (t: Vec)
    requires OneKey(accs, |res|) && accs != []
    ensures |t| == |res|
  {
    Target(accs[|accs| - 1], ResidualAfter(accs[..|accs| - 1], res))
  }

  /** How far an element of all that was sent is from all that was meant. */
  ghost function Missing(accs: seq<Acc>, res: Vec, j: nat): real
    requires OneKey(accs, |res|) && j < |res|
  {
    MeanTotal(accs, |res|)[j] + res[j] - SentTotal(accs, res)[j]
  }

  /** The j-th element's segment among those the accumulator quantises by. */
  ghost predicate IsSegment(a: Acc, lo: nat, hi: nat, j: nat)
    requires Closable(a)
  {
    lo <= j < hi <= |a.sum| && exists i | 0 <= i < |Cuts(a)| :: lo == Total(Cuts(a)[..i]) && hi == Total(Cuts(a)[..i + 1])
  }

  lemma MissingIsKept(accs: seq<Acc>, res: Vec, j: nat)
    requires OneKey(accs, |res|) && j < |res|
    ensures Missing(accs, res, j) == ResidualAfter(accs, res)[j]
  {
    hide *;
    FeedbackTelescopes(accs, res);
    assert Missing(accs, res, j) == MeanTotal(accs, |res|)[j] + res[j] - SentTotal(accs, res)[j] by { MissingIs(accs, res, j); }
    KeptIsOwed(SentTotal(accs, res), ResidualAfter(accs, res), MeanTotal(accs, |res|), res, j);
  }

  lemma MissingIs(accs: seq<Acc>, res: Vec, j: nat)
    requires OneKey(accs, |res|) && j < |res|
    ensures Missing(accs, res, j) == MeanTotal(accs, |res|)[j] + res[j] - SentTotal(accs, res)[j]
  {
  }

  /** However many rounds have gone by, what the ranks decoded differs from what was meant, in every element, by at most one
      round's rounding: 1/254 of the peak of the element's own segment in the last round's target. */
  lemma FeedbackErrorBound(accs: seq<Acc>, res: Vec, j: nat) returns (lo: nat, hi: nat)
    requires OneKey(accs, |res|) && accs != [] && j < |res|
    ensures IsSegment(accs[|accs| - 1], lo, hi, j)
    ensures KeptWithin(Missing(accs, res, j), Peak(LastTarget(accs, res)[lo..hi]))
  {
    var a, before := accs[|accs| - 1], ResidualAfter(accs[..|accs| - 1], res);
    assert ResidualAfter(accs, res) == MeanResidual(a, before).1;
    assert LastTarget(accs, res) == Target(a, before) && a.dtype.I8? && Closable(a) && |a.sum| == |res| == |before|;
    hide *;
    MissingIsKept(accs, res, j);
    lo, hi := FeedbackBound(a, before, j);
    Segments(a, lo, hi, j);
  }

  lemma Segments(a: Acc, lo: nat, hi: nat, j: nat)
    requires Closable(a) && lo <= j < hi <= |a.sum|
    requires exists i | 0 <= i < |Cuts(a)| :: lo == Total(Cuts(a)[..i]) && hi == Total(Cuts(a)[..i + 1])
    ensures IsSegment(a, lo, hi, j)
  {
    hide Cuts, Total;
  }

  // ---- drift ----

  const DRIFT_CAP: real := 1000000000.0

  /** The spread over the squared mean, both clamped to what a reply can carry. */
  function DriftOf(streamed: real, m2: real): real {
    var spread := if streamed > 0.0 then streamed else 0.0;
    var cap := DRIFT_CAP * DRIFT_CAP;
    if m2 <= 0.0 then (if spread > 0.0 then cap else 0.0)
    else if spread / m2 < cap then spread / m2
    else cap
  }

  /** The square of the drift statistic; nothing for fewer than two contributions or when none weighs anything. */
  function DriftSquared(a: Acc): Option<real> {
    if a.count < 2 || a.weight <= 0.0 then None else Some(DriftOf(Streamed(a), Norm2(Mean(a))))
  }

  /** The last contribution's terms in the four running sums. */
  lemma LastTerms(parts: seq<Part>, m: Vec)
    requires Uniform(parts, |m|) && parts != []
    ensures var front, p := parts[..|parts| - 1], parts[|parts| - 1];
      && Spread(parts, m) == Spread(front, m) + Weighed(p.w, Dist2(p.x, m))
      && SumSq(parts) == SumSq(front) + Weighed(p.w, Norm2(p.x))
      && SumW(parts) == SumW(front) + p.w
  {
  }

  lemma LastDot(parts: seq<Part>, m: Vec)
    requires Uniform(parts, |m|) && parts != []
    ensures var front, p := parts[..|parts| - 1], parts[|parts| - 1];
      Dot(SumX(parts, |m|), m) == Dot(SumX(front, |m|), m) + Weighed(p.w, Dot(p.x, m))
  {
    DotAxpy(SumX(parts[..|parts| - 1], |m|), parts[|parts| - 1].w, parts[|parts| - 1].x, m);
  }

  /** spread == sumSq - 2 <sum, m> + weight ||m||^2, the identity behind the streamed drift. */
  ghost predicate Balances(spread: real, sumSq: real, dot: real, weight: real, m2: real) {
    spread == sumSq - 2.0 * dot + weight * m2
  }

  lemma {:induction false} SpreadExpands(parts: seq<Part>, m: Vec)
    requires Uniform(parts, |m|)
    ensures Balances(Spread(parts, m), SumSq(parts), Dot(SumX(parts, |m|), m), SumW(parts), Norm2(m))
  {
    if parts == [] {
      DotZero(m);
    } else {
      SpreadExpands(parts[..|parts| - 1], m);
      SpreadExtends(parts, m);
    }
  }

  lemma SpreadExtends(parts: seq<Part>, m: Vec)
    requires Uniform(parts, |m|) && parts != []
    requires var front := parts[..|parts| - 1];
      Balances(Spread(front, m), SumSq(front), Dot(SumX(front, |m|), m), SumW(front), Norm2(m))
    ensures Balances(Spread(parts, m), SumSq(parts), Dot(SumX(parts, |m|), m), SumW(parts), Norm2(m))
  {
    var front, p := parts[..|parts| - 1], parts[|parts| - 1];
    assert Uniform(front, |m|) && |p.x| == |m|;
    hide *;
    LastTerms(parts, m);
    LastDot(parts, m);
    DistExpands(p.x, m);
    SpreadStep(Spread(front, m), SumSq(front), Dot(SumX(front, |m|), m), SumW(front), p.w,
               Norm2(p.x), Dot(p.x, m), Norm2(m), Dist2(p.x, m),
               Spread(parts, m), SumSq(parts), Dot(SumX(parts, |m|), m), SumW(parts));
  }

  lemma SpreadStep(s: real, sq: real, d: real, v: real, w: real, a: real, b: real, c: real, dist: real,
                   s': real, sq': real, d': real, v': real)
    requires Balances(s, sq, d, v, c) && dist == a - 2.0 * b + c
    requires s' == s + Weighed(w, dist) && sq' == sq + Weighed(w, a) && d' == d + Weighed(w, b) && v' == v + w
    ensures Balances(s', sq', d', v', c)
  {
    assert w * dist == w * a - 2.0 * (w * b) + w * c;
    assert (v + w) * c == v * c + w * c;
  }

  /** The spread as the accumulator streams it. */
  function Streamed(a: Acc): real {
    a.sumSq * Inverse(a.weight) - Norm2(Mean(a))
  }

  /** sum(w_i ||x_i - m||^2) / sum(w_i) */
  ghost function MeanSpread(parts: seq<Part>, m: Vec): real
    requires Uniform(parts, |m|) && SumW(parts) > 0.0
  {
    Spread(parts, m) / SumW(parts)
  }

  ghost predicate MeanDot(m2: real, weight: real, dot: real)
    requires weight > 0.0
  {
    m2 == 1.0 / weight * dot
  }

  /** The streamed spread is the weighted squared distance of the contributions from their mean. */
  lemma StreamedSpread(a: Acc, parts: seq<Part>)
    requires Holds(a, parts) && a.weight > 0.0
    ensures Streamed(a) == MeanSpread(parts, Mean(a))
  {
    var m := Mean(a);
    assert Uniform(parts, |m|) && a.sum == SumX(parts, |m|);
    assert a.weight == SumW(parts) && a.sumSq == SumSq(parts);
    MeanDotOfSum(a);
    hide *;
    SpreadExpands(parts, m);
    StreamArithmetic(a, parts, m, Dot(a.sum, m));
  }

  lemma MeanDotOfSum(a: Acc)
    requires a.weight > 0.0
    ensures MeanDot(Norm2(Mean(a)), a.weight, Dot(a.sum, Mean(a)))
  {
    DotScale(Inverse(a.weight), a.sum, Mean(a));
  }

  lemma StreamArithmetic(a: Acc, parts: seq<Part>, m: Vec, dot: real)
    requires Uniform(parts, |m|) && m == Mean(a)
    requires a.weight > 0.0 && a.weight == SumW(parts) && MeanDot(Norm2(m), a.weight, dot)
    requires Balances(Spread(parts, m), a.sumSq, dot, a.weight, Norm2(m))
    ensures Streamed(a) == MeanSpread(parts, m)
  {
    hide Dot, SumW, SumX, SumSq, Spread, Norm2, Mean;
    StreamQuotient(a.sumSq, a.weight, 1.0 / a.weight, Norm2(m), dot, Spread(parts, m));
  }

  lemma StreamQuotient(sq: real, w: real, i: real, n: real, d: real, spread: real)
    requires w > 0.0 && i == 1.0 / w && n == i * d && spread == sq - 2.0 * d + w * n
    ensures sq * i - n == spread / w
  {
    assert i * w == 1.0;
    assert w * n == w * i * d == d;
    assert spread == sq - d;
    assert spread / w == spread * i;
  }

  lemma {:induction false} SpreadNotNegative(parts: seq<Part>, m: Vec)
    requires Uniform(parts, |m|)
    ensures Spread(parts, m) >= 0.0
    ensures Spread(parts, m) == 0.0 <==> forall i | 0 <= i < |parts| :: parts[i].w > 0.0 ==> parts[i].x == m
  {
    if parts != [] {
      var front, p := parts[..|parts| - 1], parts[|parts| - 1];
      assert Spread(parts, m) == Spread(front, m) + Weighed(p.w, Dist2(p.x, m)) && Weighed(p.w, Dist2(p.x, m)) == p.w * Dist2(p.x, m);
      assert p.w >= 0.0 && |p.x| == |m| && Uniform(front, |m|);
      hide *;
      SpreadNotNegative(front, m);
      Dist2NotNegative(p.x, m);
      WeightedTerm(p.w, Dist2(p.x, m));
      assert parts == front + [p];
    }
  }

  lemma WeightedTerm(w: real, d: real)
    requires w >= 0.0 && d >= 0.0
    ensures w * d >= 0.0
    ensures w * d == 0.0 <==> w == 0.0 || d == 0.0
  {
    ProductZero(w, d);
    if w > 0.0 && d > 0.0 {
      PositiveProduct(w, d, w * d);
    }
  }

  /** Drift is a true spread: in exact arithmetic the clamp at zero never acts, and drift is zero exactly when every
      contribution that weighs anything sent the same vector. */
  lemma DriftSound(a: Acc, parts: seq<Part>)
    requires Holds(a, parts) && DriftSquared(a).Some?
    ensures Streamed(a) >= 0.0
    ensures DriftSquared(a).value >= 0.0
    ensures DriftSquared(a) == Some(0.0)
      <==> forall i, j | 0 <= i < |parts| && 0 <= j < |parts| && parts[i].w > 0.0 && parts[j].w > 0.0
            :: parts[i].x == parts[j].x
  {
    var m := Mean(a);
    StreamedSpread(a, parts);
    SpreadNotNegative(parts, m);
    QuotientSign(Spread(parts, m), a.weight);
    Norm2NotNegative(m);
    var spread := Spread(parts, m) / a.weight;
    if Norm2(m) > 0.0 {
      QuotientSign(spread, Norm2(m));
    }
    if forall i, j | 0 <= i < |parts| && 0 <= j < |parts| && parts[i].w > 0.0 && parts[j].w > 0.0 :: parts[i].x == parts[j].x {
      AgreementIsTheMean(a, parts);
    }
  }

  lemma QuotientSign(a: real, b: real)
    requires a >= 0.0 && b > 0.0
    ensures a / b >= 0.0
    ensures a / b == 0.0 <==> a == 0.0
  {
    var q := a / b;
    assert q * b == a;
    if q < 0.0 {
      PositiveProduct(-q, b, -q * b);
    }
    if a > 0.0 {
      assert q != 0.0;
    }
  }

  lemma AgreementIsTheMean(a: Acc, parts: seq<Part>)
    requires Holds(a, parts) && a.weight > 0.0
    requires forall i, j | 0 <= i < |parts| && 0 <= j < |parts| && parts[i].w > 0.0 && parts[j].w > 0.0 :: parts[i].x == parts[j].x
    ensures forall i | 0 <= i < |parts| && parts[i].w > 0.0 :: parts[i].x == Mean(a)
  {
    forall i | 0 <= i < |parts| && parts[i].w > 0.0
      ensures parts[i].x == Mean(a)
    {
      var x := parts[i].x;
      AgreedSum(parts, x);
      MeanOfScaled(a, x);
    }
  }

  lemma MeanOfScaled(a: Acc, x: Vec)
    requires a.weight > 0.0 && a.sum == Scale(a.weight, x)
    ensures Mean(a) == x
  {
    forall k | 0 <= k < |x|
      ensures x[k] == Mean(a)[k]
    {
      Cancel(a.weight, x[k]);
    }
  }

  lemma Cancel(w: real, v: real)
    requires w > 0.0
    ensures 1.0 / w * (w * v) == v
  {
    var i := 1.0 / w;
    assert i * w == 1.0;
    assert i * (w * v) == i * w * v;
  }

  lemma AgreedTerms(sum: real, w: real, x: Vec, y: Vec)
    requires |x| == |y| && (w == 0.0 || x == y)
    ensures Axpy(Scale(sum, x), w, y) == Scale(sum + w, x)
  {
    forall k | 0 <= k < |x|
      ensures Axpy(Scale(sum, x), w, y)[k] == Scale(sum + w, x)[k]
    {
      AgreedTerm(sum, w, x[k], y[k]);
    }
  }

  lemma AgreedTerm(sum: real, w: real, x: real, y: real)
    requires w == 0.0 || x == y
    ensures sum * x + w * y == (sum + w) * x
  {
  }

  lemma {:induction false} AgreedSum(parts: seq<Part>, x: Vec)
    requires Uniform(parts, |x|)
    requires forall i | 0 <= i < |parts| && parts[i].w > 0.0 :: parts[i].x == x
    ensures SumX(parts, |x|) == Scale(SumW(parts), x)
  {
    if parts != [] {
      var front, p := parts[..|parts| - 1], parts[|parts| - 1];
      assert Uniform(front, |x|) && forall i | 0 <= i < |front| :: front[i] == parts[i];
      AgreedSum(front, x);
      assert SumX(parts, |x|) == Axpy(Scale(SumW(front), x), p.w, p.x);
      assert p.w > 0.0 ==> p.x == x;
      assert p.w >= 0.0 && |p.x| == |x| && SumW(parts) == SumW(front) + p.w;
      hide *;
      AgreedTerms(SumW(front), p.w, x, p.x);
    }
  }
}
