/** Ranks that share a machine average there first; the machine's daemon forwards one contribution for all of them. */
module Local {
  import opened Wrappers
  import opened Vectors
  import opened Reduce
  import opened Accumulating
  import opened Messages

  // ---- one contribution standing for several ----

  /** A contribution that weighs and sums to the same as the parts it stands for. */
  ghost predicate Stands(c: Part, parts: seq<Part>) {
    && Uniform(parts, |c.x|)
    && c.w == SumW(parts)
    && Scale(c.w, c.x) == SumX(parts, |c.x|)
  }

  lemma DirectStands(p: Part)
    requires p.w >= 0.0
    ensures Stands(p, [p])
  {
    var n := |p.x|;
    assert [p][..0] == [];
    assert SumX([p], n) == Axpy(Zero(n), p.w, p.x);
    forall i | 0 <= i < n
      ensures Scale(p.w, p.x)[i] == SumX([p], n)[i]
    {
    }
  }

  /** A machine's mean weighted by its ranks' total stands for all of its ranks, pads included. */
  lemma MeanStands(who: set<nat>, parts: seq<Part>, n: nat)
    requires Uniform(parts, n)
    ensures Stands(Part(who, WeightedMean(parts, n), SumW(parts)), parts)
  {
    var w, s := SumW(parts), SumX(parts, n);
    SumWNotNegative(parts);
    if w == 0.0 {
      WeightlessSum(parts, n);
    }
    forall i | 0 <= i < n
      ensures Scale(w, Scale(Inverse(w), s))[i] == s[i]
    {
      if w > 0.0 {
        InverseIs(w);
        hide Inverse;
        Cancels(w, Inverse(w), s[i]);
      }
    }
  }

  lemma InverseIs(w: real)
    requires w > 0.0
    ensures w * Inverse(w) == 1.0
  {
  }

  lemma Cancels(a: real, b: real, c: real)
    requires a * b == 1.0
    ensures a * (b * c) == c
  {
    assert a * (b * c) == (a * b) * c;
  }

  lemma {:induction false} WeightlessSum(parts: seq<Part>, n: nat)
    requires Uniform(parts, n) && SumW(parts) == 0.0
    ensures SumX(parts, n) == Zero(n)
  {
    if parts != [] {
      SumWNotNegative(parts);
      SumWNotNegative(parts[..|parts| - 1]);
      WeightlessSum(parts[..|parts| - 1], n);
    }
  }

  /** The ranks of a ring, machine by machine. */
  ghost function Flat(groups: seq<seq<Part>>): seq<Part> {
    if groups == [] then [] else Flat(groups[..|groups| - 1]) + groups[|groups| - 1]
  }

  ghost predicate Forwarded(posts: seq<Part>, groups: seq<seq<Part>>, n: nat) {
    && |posts| == |groups|
    && forall i | 0 <= i < |posts| :: |posts[i].x| == n && Stands(posts[i], groups[i])
  }

  lemma AxpyPlus(a: Vec, b: Vec, w: real, x: Vec)
    requires |a| == |b| == |x|
    ensures Axpy(Plus(a, b), w, x) == Plus(a, Axpy(b, w, x))
  {
    forall i | 0 <= i < |a|
      ensures Axpy(Plus(a, b), w, x)[i] == Plus(a, Axpy(b, w, x))[i]
    {
    }
  }

  lemma {:induction false} SumsConcat(a: seq<Part>, b: seq<Part>, n: nat)
    requires Uniform(a, n) && Uniform(b, n)
    ensures Uniform(a + b, n)
    ensures SumX(a + b, n) == Plus(SumX(a, n), SumX(b, n)) && SumW(a + b) == SumW(a) + SumW(b)
  {
    if b == [] {
      assert a + b == a;
    } else {
      var front := b[..|b| - 1];
      SumsConcat(a, front, n);
      assert (a + b)[..|a + b| - 1] == a + front;
      var p := b[|b| - 1];
      assert SumX(a + b, n) == Axpy(SumX(a + front, n), p.w, p.x) && SumX(b, n) == Axpy(SumX(front, n), p.w, p.x);
      AxpyPlus(SumX(a, n), SumX(front, n), p.w, p.x);
      hide Plus, Axpy;
    }
  }

  lemma FlatUniform(posts: seq<Part>, groups: seq<seq<Part>>, n: nat)
    requires Forwarded(posts, groups, n)
    ensures Uniform(posts, n) && Uniform(Flat(groups), n)
    decreases |posts|
  {
    forall i | 0 <= i < |posts|
      ensures posts[i].w >= 0.0
    {
      SumWNotNegative(groups[i]);
    }
    if posts != [] {
      var k := |posts| - 1;
      FlatUniform(posts[..k], groups[..k], n);
    }
  }

  lemma {:induction false} TwoLevelSums(posts: seq<Part>, groups: seq<seq<Part>>, n: nat)
    requires Forwarded(posts, groups, n) && Uniform(posts, n) && Uniform(Flat(groups), n)
    ensures SumW(posts) == SumW(Flat(groups)) && SumX(posts, n) == SumX(Flat(groups), n)
    decreases |posts|
  {
    if posts != [] {
      var k := |posts| - 1;
      FlatUniform(posts[..k], groups[..k], n);
      TwoLevelSums(posts[..k], groups[..k], n);
      SumsConcat(Flat(groups[..k]), groups[k], n);
      AxpyOfScale(SumX(posts[..k], n), posts[k].w, posts[k].x);
    }
  }

  lemma AxpyOfScale(a: Vec, w: real, x: Vec)
    requires |a| == |x|
    ensures Axpy(a, w, x) == Plus(a, Scale(w, x))
  {
    forall i | 0 <= i < |a|
      ensures Axpy(a, w, x)[i] == Plus(a, Scale(w, x))[i]
    {
    }
  }

  /** However ranks are grouped onto machines, the lead's mean is the mean of every rank posting directly. */
  lemma TwoLevelMean(posts: seq<Part>, groups: seq<seq<Part>>, n: nat)
    requires Forwarded(posts, groups, n)
    ensures Uniform(posts, n) && Uniform(Flat(groups), n)
    ensures WeightedMean(posts, n) == WeightedMean(Flat(groups), n)
  {
    FlatUniform(posts, groups, n);
    TwoLevelSums(posts, groups, n);
  }

  // ---- and its drift ----

  /** About any centre, a machine's one contribution is spread no further than its ranks are. */
  lemma CombinedSpread(c: Part, parts: seq<Part>, m: Vec)
    requires Stands(c, parts) && |m| == |c.x|
    ensures Weighed(c.w, Dist2(c.x, m)) <= Spread(parts, m)
  {
    assert Uniform(parts, |m|) && c.w == SumW(parts);
    StandsDot(c, parts, m);
    StandsDot(c, parts, c.x);
    hide *;
    SpreadExpands(parts, m);
    SpreadExpands(parts, c.x);
    SpreadNotNegative(parts, c.x);
    DistExpands(c.x, m);
    Pythagoras(c.w, Norm2(c.x), Dot(c.x, m), Norm2(m), SumSq(parts), Dot(SumX(parts, |m|), m), Dot(SumX(parts, |m|), c.x),
               Spread(parts, m), Spread(parts, c.x), Dist2(c.x, m));
  }

  lemma StandsDot(c: Part, parts: seq<Part>, b: Vec)
    requires Stands(c, parts) && |b| == |c.x|
    ensures Dot(SumX(parts, |b|), b) == Weighed(c.w, Dot(c.x, b))
    ensures Dot(c.x, c.x) == Norm2(c.x)
  {
    DotScale(c.w, c.x, b);
  }

  lemma Pythagoras(w: real, x2: real, xm: real, m2: real, sq: real, sm: real, sx: real, about: real, own: real, dist: real)
    requires Balances(about, sq, sm, w, m2) && Balances(own, sq, sx, w, x2) && own >= 0.0
    requires sm == Weighed(w, xm) && sx == Weighed(w, x2) && dist == x2 - 2.0 * xm + m2
    ensures Weighed(w, dist) <= about
  {
    assert w * dist == w * x2 - 2.0 * (w * xm) + w * m2;
  }

  lemma {:induction false} SpreadConcat(a: seq<Part>, b: seq<Part>, m: Vec)
    requires Uniform(a, |m|) && Uniform(b, |m|)
    ensures Uniform(a + b, |m|) && Spread(a + b, m) == Spread(a, m) + Spread(b, m)
  {
    if b == [] {
      assert a + b == a;
    } else {
      SpreadConcat(a, b[..|b| - 1], m);
      assert (a + b)[..|a + b| - 1] == a + b[..|b| - 1];
    }
  }

  lemma {:induction false} TwoLevelSpread(posts: seq<Part>, groups: seq<seq<Part>>, m: Vec)
    requires Forwarded(posts, groups, |m|) && Uniform(posts, |m|) && Uniform(Flat(groups), |m|)
    ensures Spread(posts, m) <= Spread(Flat(groups), m)
    decreases |posts|
  {
    if posts != [] {
      var k := |posts| - 1;
      FlatUniform(posts[..k], groups[..k], |m|);
      TwoLevelSpread(posts[..k], groups[..k], m);
      SpreadConcat(Flat(groups[..k]), groups[k], m);
      CombinedSpread(posts[k], groups[k], m);
    }
  }

  /** Combining on machines first can only lower the drift the lead reports. */
  lemma TwoLevelDrift(lead: Acc, posts: seq<Part>, flat: Acc, groups: seq<seq<Part>>)
    requires Holds(lead, posts) && Holds(flat, Flat(groups)) && |lead.sum| == |flat.sum|
    requires Forwarded(posts, groups, |lead.sum|)
    requires DriftSquared(lead).Some? && DriftSquared(flat).Some?
    ensures DriftSquared(lead).value <= DriftSquared(flat).value
  {
    TwoLevelSums(posts, groups, |lead.sum|);
    var m := Mean(lead);
    assert m == Mean(flat);
    StreamedSpread(lead, posts);
    StreamedSpread(flat, Flat(groups));
    TwoLevelSpread(posts, groups, m);
    SpreadNotNegative(posts, m);
    assert Streamed(lead) <= Streamed(flat) by {
      QuotientOrder(Spread(posts, m), Spread(Flat(groups), m), SumW(posts));
    }
    hide Streamed, Norm2, Mean;
    DriftOrder(Streamed(lead), Streamed(flat), Norm2(m));
  }

  lemma QuotientOrder(a: real, b: real, w: real)
    requires a <= b && w > 0.0
    ensures a / w <= b / w
  {
    var x, y := a / w, b / w;
    assert x * w == a && y * w == b;
    if x > y {
      PositiveProduct(x - y, w, (x - y) * w);
    }
  }

  lemma DriftOrder(a: real, b: real, m2: real)
    requires a <= b
    ensures DriftOf(a, m2) <= DriftOf(b, m2)
  {
    var x, y := if a > 0.0 then a else 0.0, if b > 0.0 then b else 0.0;
    if m2 > 0.0 {
      QuotientOrder(x, y, m2);
    }
  }

  // ---- the machine-local round ----

  datatype Arrival = Refused | Waiting(start: bool)

  /** The machine's one contribution, as it goes to the lead. */
  datatype Forward = Forward(members: seq<Member>, reply: Reply, samples: int)

  ghost predicate DistinctRanks(members: seq<Member>) {
    && (forall i | 0 <= i < |members| :: members[i].rank >= 0)
    && (forall i, j | 0 <= i < j < |members| :: members[i].rank != members[j].rank)
  }

  ghost function Ranks(members: seq<Member>): set<nat>
    requires DistinctRanks(members)
  {
    set i | 0 <= i < |members| :: members[i].rank
  }

  ghost function RanksIn(members: seq<Member>): set<int> {
    set i | 0 <= i < |members| :: members[i].rank
  }

  ghost predicate Reported(members: seq<Member>, parts: seq<Part>) {
    && |parts| == |members|
    && forall i | 0 <= i < |parts| :: parts[i].w == SampleWeight(members[i].samples)
  }

  lemma OneMember(members: seq<Member>, parts: seq<Part>, m: Member, part: Part, n: nat)
    requires DistinctRanks(members) && Reported(members, parts) && Uniform(parts, n)
    requires m.rank >= 0 && forall i | 0 <= i < |members| :: members[i].rank != m.rank
    requires part.w == SampleWeight(m.samples) && |part.x| == n
    ensures DistinctRanks(members + [m]) && Reported(members + [m], parts + [part]) && Uniform(parts + [part], n)
    ensures SumW(parts + [part]) == SumW(parts) + part.w
  {
    assert (parts + [part])[..|parts|] == parts;
  }

  /** What a contribution changes about an accumulator besides its sum. */
  lemma AddCounts(a: Acc, p: Payload, scales: seq<real>, samples: int)
    requires Closable(a) && |scales| > 0
    ensures var (a', ok) := Add(a, p, scales, samples);
      && Closable(a') && |a'.sum| == |a.sum|
      && a'.count == (if ok then a.count + 1 else a.count)
      && a'.weight == (if ok then a.weight + SampleWeight(samples) else a.weight)
      && (ok ==> Decode(a, p, scales).Some? && |Decode(a, p, scales).value| == |a.sum|)
      && (!ok ==> a' == a.(sum := a'.sum))
  {
  }

  /** Sample counts are whole numbers, so a machine's total weight is one too. */
  lemma {:induction false} WholeWeight(members: seq<Member>, parts: seq<Part>) returns (total: nat)
    requires Reported(members, parts)
    ensures SumW(parts) == total as real
  {
    if parts == [] {
      total := 0;
    } else {
      var n := |parts| - 1;
      total := WholeWeight(members[..n], parts[..n]);
      var s := members[n].samples;
      total := total + if s < 0 then 0 else if s == 0 then 1 else s;
    }
  }

  lemma RoundWhole(n: int)
    ensures Round(n as real) == n
  {
    if n >= 0 {
      assert (n as real + 0.5).Floor == n;
    } else {
      assert (-(n as real) + 0.5).Floor == -n;
    }
  }

  // ---- what refused payloads leave in a machine's sum ----

  /** The accumulator holds these contributions, and in its sum something more. */
  ghost predicate HoldsBut(a: Acc, parts: seq<Part>, extra: Vec) {
    && |extra| == |a.sum| && Uniform(parts, |a.sum|)
    && a.sum == Plus(SumX(parts, |a.sum|), extra)
    && a.count == |parts| && a.weight == SumW(parts) && a.sumSq == SumSq(parts)
  }

  lemma ButLength(a: Acc, parts: seq<Part>, extra: Vec)
    requires HoldsBut(a, parts, extra)
    ensures |extra| == |a.sum| && Uniform(parts, |a.sum|) && a.weight == SumW(parts)
  {
  }

  /** What a refused payload leaves in the sum: its values before the first bad scale. */
  function SpoilOf(a: Acc, p: Payload, scales: seq<real>, w: real): (v: Vec)
    requires WellFormed(a) && |scales| > 0
    ensures |v| == |a.sum|
  {
    var n := SpoiledPrefix(a, p, scales);
    if n == 0 then Zero(|a.sum|)
    else
      var f := FirstBad(scales);
      var e := Expand(a.segments[..f], scales[..f]);
      seq(|a.sum|, j requires 0 <= j < |a.sum| => if j < n then w * Value(p.q[j], e[j]) else 0.0)
  }

  lemma SpoilAdds(a: Acc, p: Payload, scales: seq<real>, w: real)
    requires WellFormed(a) && |scales| > 0
    ensures Spoil(a, p, scales, w) == Plus(a.sum, SpoilOf(a, p, scales, w))
  {
    hide Value, Expand, FirstBad;
  }

  lemma NothingBut(a: Acc, parts: seq<Part>)
    requires |a.sum| >= 0
    ensures HoldsBut(a, parts, Zero(|a.sum|)) <==> Holds(a, parts)
  {
    if Uniform(parts, |a.sum|) {
      assert Plus(SumX(parts, |a.sum|), Zero(|a.sum|)) == SumX(parts, |a.sum|);
    }
  }

  lemma AcceptedBut(a: Acc, parts: seq<Part>, extra: Vec, p: Payload, scales: seq<real>, samples: int, who: set<nat>)
    requires WellFormed(a) && |scales| > 0 && HoldsBut(a, parts, extra) && Decode(a, p, scales).Some?
    ensures HoldsBut(Add(a, p, scales, samples).0, parts + [Part(who, Decode(a, p, scales).value, SampleWeight(samples))], extra)
  {
    var q := Part(who, Decode(a, p, scales).value, SampleWeight(samples));
    assert (parts + [q])[..|parts|] == parts;
    var n := |a.sum|;
    hide Decode, SampleWeight;
    PlusAxpy(SumX(parts, n), extra, q.w, q.x);
  }

  lemma PlusAxpy(a: Vec, b: Vec, w: real, x: Vec)
    requires |a| == |b| == |x|
    ensures Axpy(Plus(a, b), w, x) == Plus(Axpy(a, w, x), b)
  {
    forall i | 0 <= i < |a|
      ensures Axpy(Plus(a, b), w, x)[i] == Plus(Axpy(a, w, x), b)[i]
    {
    }
  }

  lemma RefusedBut(a: Acc, parts: seq<Part>, extra: Vec, p: Payload, scales: seq<real>, samples: int)
    requires WellFormed(a) && |scales| > 0 && HoldsBut(a, parts, extra) && Decode(a, p, scales).None?
    ensures HoldsBut(Add(a, p, scales, samples).0, parts, Plus(extra, SpoilOf(a, p, scales, SampleWeight(samples))))
  {
    var w := SampleWeight(samples);
    var more := SpoilOf(a, p, scales, w);
    SpoilAdds(a, p, scales, w);
    hide SpoilOf, Spoil, Decode, SampleWeight;
    assert Add(a, p, scales, samples).0 == a.(sum := Plus(a.sum, more)) by { RefusedAdd(a, p, scales, samples); }
    assert Plus(Plus(SumX(parts, |a.sum|), extra), more) == Plus(SumX(parts, |a.sum|), Plus(extra, more));
  }

  lemma RefusedAdd(a: Acc, p: Payload, scales: seq<real>, samples: int)
    requires WellFormed(a) && |scales| > 0 && Decode(a, p, scales).None?
    ensures Add(a, p, scales, samples).0 == a.(sum := Spoil(a, p, scales, SampleWeight(samples)))
  {
  }

  /** The mean of a sum that holds something more than its contributions. */
  ghost function SpoiledMean(parts: seq<Part>, extra: Vec): (m: Vec)
    requires Uniform(parts, |extra|)
    ensures |m| == |extra|
  {
    Plus(WeightedMean(parts, |extra|), Scale(Inverse(SumW(parts)), extra))
  }

  lemma MeanBut(a: Acc, parts: seq<Part>, extra: Vec)
    requires HoldsBut(a, parts, extra)
    ensures Mean(a) == SpoiledMean(parts, extra)
  {
    var s, k := SumX(parts, |a.sum|), Inverse(a.weight);
    hide SumX, SumSq, SumW, Inverse;
    forall i | 0 <= i < |extra|
      ensures Mean(a)[i] == SpoiledMean(parts, extra)[i]
    {
      assert k * (s[i] + extra[i]) == k * s[i] + k * extra[i];
    }
  }

  /** A machine forwards its ranks' mean exactly when they weigh nothing or its refused payloads left nothing behind. */
  lemma SpoiledMeanIff(parts: seq<Part>, extra: Vec)
    requires Uniform(parts, |extra|)
    ensures SpoiledMean(parts, extra) == WeightedMean(parts, |extra|) <==> SumW(parts) == 0.0 || extra == Zero(|extra|)
  {
    SumWNotNegative(parts);
    var k, m := Inverse(SumW(parts)), WeightedMean(parts, |extra|);
    var spoiled := SpoiledMean(parts, extra);
    assert k == 0.0 <==> SumW(parts) == 0.0 by {
      if SumW(parts) > 0.0 {
        InverseIs(SumW(parts));
      }
    }
    hide WeightedMean, SumW, Inverse;
    forall i | 0 <= i < |extra|
      ensures spoiled[i] == m[i] <==> k == 0.0 || extra[i] == 0.0
    {
      ProductZero(k, extra[i]);
    }
    if spoiled == m && k != 0.0 {
      assert forall i | 0 <= i < |extra| :: spoiled[i] == m[i];
    }
    if k == 0.0 || extra == Zero(|extra|) {
      assert spoiled == m;
    }
  }

  /** Two tensors of one value each, the second with a scale of zero: the payload is refused, yet its first value stays in the
      machine's sum. */
  lemma RefusedPayloadSpoils(segments: seq<nat>)
    requires segments == [1, 1]
    ensures var a := NewAcc(I8, 2, segments);
      WellFormed(a) && Decode(a, Bytes([5, 7]), [2.0, 0.0]).None? && SpoilOf(a, Bytes([5, 7]), [2.0, 0.0], 1.0) == [10.0, 0.0]
  {
    var a := NewAcc(I8, 2, segments);
    var segs, scales: seq<real> := a.segments, [2.0, 0.0];
    assert segs[..1] == [1] && segs[..1][..0] == [] && scales[..1] == [2.0];
    assert Total([1]) == 1 && Total(segs) == 2;
    assert scales[1..] == [0.0] && FirstBad(scales[1..]) == 0;
    assert FirstBad(scales) == 1;
    assert Expand([1], [2.0]) == [2.0];
  }

  /** A good payload of the same shape is accepted whatever is in the sum. */
  lemma GoodPayload(a: Acc)
    requires a.dtype == I8 && a.segments == [1, 1] && |a.sum| == 2
    ensures WellFormed(a) && Decode(a, Bytes([1, 1]), [1.0, 1.0]) == Some([1.0, 1.0])
  {
    var segs, scales: seq<real> := a.segments, [1.0, 1.0];
    assert segs[..1] == [1] && segs[..1][..0] == [] && scales[..1] == [1.0] && scales[..1][..0] == [];
    assert Total([1]) == 1 && Total(segs) == 2;
    assert scales[1..] == [1.0] && scales[1..][1..] == [];
    assert FirstBad(scales[1..][1..]) == 0 && FirstBad(scales[1..]) == 1 && FirstBad(scales) == 2;
    assert Expand([1], [1.0]) == [1.0];
    assert Expand(segs, scales) == [1.0, 1.0];
    assert Dequantise([1, 1], Expand(segs, scales)) == [1.0, 1.0];
  }

  /** What the ranks decode from an int8 reply over these segments. */
  function DecodedBy(segments: seq<nat>, r: Reply): (x: Vec)
    requires r.Quantised? && |segments| == |r.scales| && Total(segments) == |r.q|
    ensures |x| == |r.q|
  {
    Dequantise(r.q, Expand(segments, r.scales))
  }

  lemma ReplyShape(a: Acc, res: Vec)
    requires a.dtype.I8? && Closable(a) && |res| == |a.sum| && a.segments != []
    ensures var r := MeanResidual(a, res).0;
      && r.Quantised? && |r.q| == |a.sum| && |r.scales| == |a.segments|
      && Decoded(a, r) == DecodedBy(a.segments, r)
  {
    hide Dequantise, Expand, Levels, Steps, ElementSteps, Leftover;
  }

  /** What one machine of two ranks forwards when the first rank's payload is refused. */
  ghost predicate Spoiled(segments: seq<nat>, out: Forward, kept: Vec) {
    && out.members == [Member(1, 1.0, 0.0, 1)] && SampleWeight(out.samples) == 1.0
    && out.reply.Quantised? && |segments| == |out.reply.scales| && Total(segments) == |out.reply.q| == |kept|
    && Plus(DecodedBy(segments, out.reply), kept) == [11.0, 1.0]
  }

  /** The rank with the refused payload is gone, the other rank's values are accepted, and what the machine forwards for it alone,
      the rounding error it keeps added, is not that rank's [1, 1] but [11, 1]. */
  method ForwardSpoiled(segments: seq<nat>) returns (out: Forward, kept: Vec)
    requires segments == [1, 1]
    ensures Spoiled(segments, out, kept)
  {
    TwoOnes(segments);
    var round := new LocalRound<int>(I8, 2, segments, 2);
    var bad, good := Member(0, 1.0, 0.0, 1), Member(1, 1.0, 0.0, 1);
    hide *;
    RefusedPayloadSpoils(segments);
    NobodyIn(bad.rank);
    SpoiledStart(segments);
    var p, q: Payload := Bytes([5, 7]), Bytes([1, 1]);
    var uneven, even: seq<real> := [2.0, 0.0], [1.0, 1.0];
    var first := round.Arrive(bad, p, uneven);
    assert round.extra == [10.0, 0.0] && round.parts == [];
    GoodPayload(round.acc.View());
    NobodyIn(good.rank);
    var second := round.Arrive(good, q, even);
    assert round.parts == [Part({1}, [1.0, 1.0], 1.0)];
    out, kept := ForwardAnyway(round);
  }

  /** The second half: the timeout sends the machine's round off with the one rank in it. */
  method ForwardAnyway(round: LocalRound<int>) returns (out: Forward, kept: Vec)
    requires round.Valid() && !round.sent && round.acc != null && round.acc.dtype == I8 && round.acc.segments == [1, 1]
    requires round.members == [Member(1, 1.0, 0.0, 1)] && round.parts == [Part({1}, [1.0, 1.0], 1.0)]
    requires round.extra == [10.0, 0.0]
    modifies round
    ensures round.acc == null && Spoiled([1, 1], out, kept)
  {
    hide *;
    var start := round.GiveUpWaiting();
    var res := new real[2](_ => 0.0);
    ghost var a, before := round.acc.View(), res[..];
    round.Shape();
    out := round.TakeForward(res);
    kept := res[..];
    SpoiledEnd(a, out, before, kept, round.parts, round.extra);
  }

  lemma TwoOnes(segments: seq<nat>)
    requires segments == [1, 1]
    ensures Total(segments) == 2
  {
    assert segments[..1] == [1] && segments[..1][..0] == [];
    assert Total(segments[..1]) == 1;
  }

  lemma NobodyIn(rank: int)
    ensures rank !in RanksIn([])
  {
  }

  lemma SpoiledStart(segments: seq<nat>)
    ensures NewAcc(I8, 2, segments) == Acc(I8, segments, [0.0, 0.0], 0, 0.0, 0.0)
    ensures SampleWeight(1) == 1.0 && Plus(Zero(2), [10.0, 0.0]) == [10.0, 0.0]
  {
    assert Zero(2) == [0.0, 0.0];
  }

  lemma SpoiledEnd(a: Acc, out: Forward, before: Vec, kept: Vec, parts: seq<Part>, extra: Vec)
    requires parts == [Part({1}, [1.0, 1.0], 1.0)] && extra == [10.0, 0.0] && before == [0.0, 0.0]
    requires a.dtype == I8 && a.segments == [1, 1] && |a.sum| == 2 && SampleWeight(out.samples) == SumW(parts)
    requires Closable(a) && (out.reply, kept) == MeanResidual(a, before) && Uniform(parts, 2)
    requires out.reply.Quantised? ==> Plus(Decoded(a, out.reply), kept) == Plus(SpoiledMean(parts, extra), before)
    requires out.members == [Member(1, 1.0, 0.0, 1)]
    ensures Spoiled(a.segments, out, kept)
  {
    TwoOnes(a.segments);
    ReplyShape(a, before);
    SpoiledTen(parts, extra);
    assert Plus([11.0, 1.0], before) == [11.0, 1.0];
    hide Total, DecodedBy, Decoded, MeanResidual, SpoiledMean, SumW, SampleWeight, Plus, Uniform, Closable;
  }

  lemma SpoiledTen(parts: seq<Part>, extra: Vec)
    requires parts == [Part({1}, [1.0, 1.0], 1.0)] && extra == [10.0, 0.0]
    ensures SumW(parts) == 1.0 && Uniform(parts, 2) && SpoiledMean(parts, extra) == [11.0, 1.0]
  {
    assert parts[..0] == [];
    assert SumW(parts) == 1.0 && Inverse(1.0) == 1.0;
    assert SumX(parts, 2) == Axpy(Zero(2), 1.0, [1.0, 1.0]) == [1.0, 1.0];
    assert Scale(1.0, [1.0, 1.0]) == [1.0, 1.0] && Scale(1.0, extra) == extra;
    hide SumX, SumW;
  }

  class LocalRound<Body(!new)> {
    var acc: Accumulator?
    var members: seq<Member>
    const want: nat
    var sent: bool
    var fetched: nat
    var answer: Option<Body>
    ghost var parts: seq<Part>   // what the accepted contributions were
    ghost var starts: nat        // how many forwards have been started
    ghost var extra: Vec         // what refused contributions left in the sum

    ghost predicate Valid()
      reads this, acc, if acc == null then {} else {acc.sum}
    {
      && want >= 1 && starts == (if sent then 1 else 0)
      && DistinctRanks(members) && Reported(members, parts)
      && (answer.Some? ==> acc == null)
      && (acc == null ==> sent)
      && (sent ==> members != [])
      && (acc != null ==>
            && Closable(acc.View()) && HoldsBut(acc.View(), parts, extra))
    }

    lemma Shape()
      requires Valid() && acc != null
      ensures Closable(acc.View()) && |acc.View().sum| == acc.sum.Length == |extra| && Uniform(parts, |extra|)
      ensures acc.View().dtype == acc.dtype && acc.View().segments == acc.segments
    {
    }

    constructor (dtype: DType, n: nat, segments: seq<nat>, want: nat)
      requires want >= 1 && (segments != [] ==> Total(segments) == n)
      ensures Valid() && acc != null && fresh(acc) && fresh(acc.sum)
      ensures acc.View() == NewAcc(dtype, n, segments) && members == [] && !sent && answer.None? && parts == [] && this.want == want
      ensures extra == Zero(n)
    {
      var a := new Accumulator(dtype, n);
      a.segments := segments;
      acc := a;
      this.want := want;
      members, sent, fetched, answer := [], false, 0, None;
      parts, starts, extra := [], 0, Zero(n);
      NothingBut(NewAcc(dtype, n, segments), []);
    }

    /** A first post is folded in; a refused one may leave its leading segments in the sum. */
    method FoldIn(m: Member, p: Payload, scales: seq<real>) returns (ok: bool)
      requires Valid() && !sent && m.rank >= 0 && |scales| > 0
      requires forall i | 0 <= i < |members| :: members[i].rank != m.rank
      modifies this`members, this`parts, this`extra, acc, acc.sum
      ensures Valid() && acc.dtype == old(acc.dtype) && acc.segments == old(acc.segments) && |acc.View().sum| == |old(acc.View()).sum|
      ensures ok <==> Decode(old(acc.View()), p, scales).Some?
      ensures ok ==> members == old(members) + [m] && extra == old(extra)
      ensures ok ==> parts == old(parts) + [Part({m.rank}, Decode(old(acc.View()), p, scales).value, SampleWeight(m.samples))]
      ensures !ok ==> members == old(members) && parts == old(parts)
      ensures !ok ==> extra == Plus(old(extra), SpoilOf(old(acc.View()), p, scales, SampleWeight(m.samples)))
    {
      hide Decode, Add, SpoilOf, Total, HoldsBut, DistinctRanks, Reported, SumW, Uniform;
      ghost var was := acc.View();
      assert |extra| == |was.sum| by { ButLength(was, parts, extra); }
      ok := acc.AddSegmented(p, scales, m.samples);
      AddCounts(was, p, scales, m.samples);
      if !ok {
        RefusedBut(was, parts, extra, p, scales, m.samples);
        extra := Plus(extra, SpoilOf(was, p, scales, SampleWeight(m.samples)));
        return;
      }
      ghost var part := Part({m.rank}, Decode(was, p, scales).value, SampleWeight(m.samples));
      ButLength(was, parts, extra);
      AcceptedBut(was, parts, extra, p, scales, m.samples, {m.rank});
      members := members + [m];
      parts := parts + [part];
      OneMember(old(members), old(parts), m, part, acc.sum.Length);
    }

    method HasPosted(rank: int) returns (seen: bool)
      ensures seen <==> rank in RanksIn(members)
      ensures !seen ==> forall i | 0 <= i < |members| :: members[i].rank != rank
    {
      seen := false;
      for i := 0 to |members|
        invariant seen <==> rank in RanksIn(members[..i])
      {
        assert members[..i + 1] == members[..i] + [members[i]];
        seen := seen || members[i].rank == rank;
      }
      assert members[..|members|] == members;
    }

    /** A rank posts: a first post is folded in unless the round has gone to the lead, and the post that completes
        the machine starts the forward. A refused payload is an error for its rank alone. */
    method Arrive(m: Member, p: Payload, scales: seq<real>) returns (r: Arrival)
      requires Valid() && m.rank >= 0 && |scales| > 0
      modifies this`members, this`parts, this`extra, this`sent, this`starts, acc, if acc == null then {} else {acc.sum}
      ensures Valid() && acc == old(acc) && answer == old(answer)
      ensures acc != null ==>
        acc.dtype == old(acc.dtype) && acc.segments == old(acc.segments) && |acc.View().sum| == |old(acc.View()).sum|
      ensures var folds := !old(sent) && m.rank !in RanksIn(old(members));
        var decoded := if folds then Decode(old(acc.View()), p, scales) else None;
        && (r.Refused? <==> folds && decoded.None?)
        && (decoded.Some? ==> members == old(members) + [m])
        && (decoded.Some? ==> parts == old(parts) + [Part({m.rank}, decoded.value, SampleWeight(m.samples))])
        && (decoded.None? ==> members == old(members) && parts == old(parts))
        && (!r.Refused? ==> extra == old(extra))
      ensures r.Refused? ==> sent == old(sent)
      ensures r.Refused? ==> extra == Plus(old(extra), SpoilOf(old(acc.View()), p, scales, SampleWeight(m.samples)))
      ensures r.Waiting? ==> (r.start <==> !old(sent) && |members| >= want) && sent == (old(sent) || r.start)
    {
      hide RanksIn;
      var seen := HasPosted(m.rank);
      if !seen && !sent {
        var ok := FoldIn(m, p, scales);
        if !ok {
          return Refused;
        }
      }
      var start := !sent && |members| >= want;
      if start {
        sent, starts := true, starts + 1;
      }
      return Waiting(start);
    }

    /** The local timeout starts the one forward, if somebody is in and it has not started. */
    method GiveUpWaiting() returns (start: bool)
      requires Valid()
      modifies this`sent, this`starts
      ensures Valid()
      ensures start <==> !old(sent) && members != []
      ensures sent == (old(sent) || start)
    {
      start := !sent && |members| > 0;
      if start {
        sent, starts := true, starts + 1;
      }
    }

    /** The combined contribution: the ranks' mean, with whatever refused payloads left in the sum, and a sample count the lead
        reads as their total weight. */
    method TakeForward(res: array<real>) returns (out: Forward)
      requires Valid() && sent && acc != null && res.Length == acc.sum.Length && res != acc.sum
      modifies this`acc, res
      ensures Valid() && acc == null && out.members == members && members == old(members) && parts == old(parts)
      ensures SampleWeight(out.samples) == SumW(parts)
      ensures (out.reply, res[..]) == MeanResidual(old(acc.View()), old(res[..]))
      ensures |extra| == res.Length && Uniform(parts, res.Length)
      ensures out.reply.Exact? ==> out.reply.vals == SpoiledMean(parts, extra)
      ensures out.reply.Exact? && extra == Zero(|extra|) ==>
        Stands(Part(Ranks(members), out.reply.vals, SampleWeight(out.samples)), parts)
      ensures out.reply.Quantised? ==>
        Plus(Decoded(old(acc.View()), out.reply), res[..]) == Plus(SpoiledMean(parts, extra), old(res[..]))
    {
      ghost var a, before := acc.View(), res[..];
      var reply := acc.TakeMean(res);
      var samples := Round(acc.weight);
      if acc.weight <= 0.0 {
        samples := -1;
      }
      ghost var total := WholeWeight(members, parts);
      RoundWhole(total);
      MeanStands(Ranks(members), parts, acc.sum.Length);
      MeanBut(a, parts, extra);
      SpoiledMeanIff(parts, extra);
      if a.dtype.I8? {
        FeedbackRound(a, before);
      }
      acc := null;
      return Forward(members, reply, samples);
    }

    /** Whatever the lead says is stored once... */
    method Store(body: Body)
      requires Valid() && acc == null && answer.None?
      modifies this`answer
      ensures Valid() && answer == Some(body)
    {
      answer := Some(body);
    }

    /** ...and every local rank takes the same one home; the last member to fetch retires the round. */
    method Fetch() returns (body: Body, retire: bool)
      requires Valid() && answer.Some?
      modifies this`fetched
      ensures Valid() && Some(body) == answer
      ensures fetched == old(fetched) + 1 && (retire <==> fetched >= |members|)
    {
      fetched := fetched + 1;
      return answer.value, fetched >= |members|;
    }
  }
}
