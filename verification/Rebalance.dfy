/** Decisions about a ring taken from what its ranks report: refitted shares, a rank to drop, one rank alone, DiLoCo. */
module Rebalance {
  import opened Wrappers
  import opened Vectors
  import opened Reduce
  import opened Shares

  datatype Report = Report(step: real, sync: real, samples: int)
  type Reports = map<nat, Report>

  /** Samples a second of compute. */
  function Rate(r: Report): (x: real)
    ensures x >= 0.0
    ensures x > 0.0 ==> r.step > 0.0 && r.samples > 0
  {
    if r.step <= 0.0 || r.samples <= 0 then 0.0 else Fraction(r.samples as real, r.step / 1000.0)
  }

  /** The sum of f over the keys below n. */
  function SumAt(f: nat -> real, keys: set<nat>, n: nat): real {
    if n == 0 then 0.0 else SumAt(f, keys, n - 1) + if n - 1 in keys then f(n - 1) else 0.0
  }

  lemma {:induction false} SumAtInsert(f: nat -> real, keys: set<nat>, n: nat, k: nat)
    requires k !in keys && k < n
    ensures SumAt(f, keys + {k}, n) == SumAt(f, keys, n) + f(k)
  {
    if n - 1 == k {
      SumAtSame(f, keys, keys + {k}, n - 1);
    } else {
      SumAtInsert(f, keys, n - 1, k);
    }
  }

  lemma {:induction false} SumAtSame(f: nat -> real, a: set<nat>, b: set<nat>, n: nat)
    requires forall k | 0 <= k < n :: k in a <==> k in b
    ensures SumAt(f, a, n) == SumAt(f, b, n)
  {
    if n > 0 {
      SumAtSame(f, a, b, n - 1);
    }
  }

  function SamplesOf(reports: Reports): nat -> real {
    (k: nat) => if k in reports then reports[k].samples as real else 0.0
  }

  function SyncOf(reports: Reports): nat -> real {
    (k: nat) => if k in reports && reports[k].sync > 0.0 then reports[k].sync else 0.0
  }

  function SyncedOf(reports: Reports): nat -> real {
    (k: nat) => if k in reports && reports[k].sync > 0.0 then 1.0 else 0.0
  }

  // ---- refitting shares to measured rates ----

  /** What planRebalance decides: nothing, a rank to drop, or new shares. */
  datatype Plan = Keep | Drop(rank: nat) | Refit(shares: Vec)

  const MIN_SHIFT: real := 0.10

  /** Every rank of the ring has measured itself. */
  predicate Measured(reports: Reports, world: nat) {
    world >= 2 && |reports| >= world && forall k | k in reports :: k < world && Rate(reports[k]) > 0.0
  }

  lemma {:induction false} AllBelow(keys: set<nat>, n: nat)
    requires forall k | k in keys :: k < n
    ensures |keys| <= n
    ensures |keys| == n ==> forall k | 0 <= k < n :: k in keys
  {
    if n > 0 {
      AllBelow(keys - {n - 1}, n - 1);
    } else {
      assert keys == {};
    }
  }

  lemma MeasuredAll(reports: Reports, world: nat)
    requires Measured(reports, world)
    ensures forall k | 0 <= k < world :: k in reports && Rate(reports[k]) > 0.0
  {
    AllBelow(reports.Keys, world);
  }

  function Rates(reports: Reports, world: nat): (r: Vec)
    ensures |r| == world
  {
    seq(world, k requires 0 <= k < world => if k in reports then Rate(reports[k]) else 0.0)
  }

  /** Each rank's share in proportion to its rate. */
  function Proportional(rates: Vec): (v: Vec)
    requires Sum(rates) > 0.0
    ensures |v| == |rates|
  {
    Divided(rates, Sum(rates))
  }

  predicate ShiftedEnough(current: Vec, want: Vec) {
    |current| != |want| || exists i | 0 <= i < |want| :: Abs(want[i] - current[i]) >= MIN_SHIFT
  }

  function MeanSync(reports: Reports, world: nat): real
    requires SumAt(SyncedOf(reports), reports.Keys, world) > 0.0
  {
    SumAt(SyncOf(reports), reports.Keys, world) / SumAt(SyncedOf(reports), reports.Keys, world) / 1000.0
  }

  function PlanRebalance(reports: Reports, current: Vec, world: nat): Plan {
    if !Measured(reports, world) then Keep
    else
      var rates := Rates(reports, world);
      var total := Sum(rates);
      if total <= 0.0 then Keep
      else
        var drop :=
          if SumAt(SyncedOf(reports), reports.Keys, world) > 0.0 then
            WorstFreeloader(rates, total, SumAt(SamplesOf(reports), reports.Keys, world), MeanSync(reports, world))
          else -1;
        if drop >= 0 then Drop(drop)
        else if !ShiftedEnough(current, Proportional(rates)) then Keep
        else Refit(Proportional(rates))
  }

  /** The first rank of the lowest rate. */
  function Slowest(rates: Vec): (k: nat)
    requires rates != []
    ensures k < |rates| && forall i | 0 <= i < |rates| :: rates[k] <= rates[i]
    ensures forall i | 0 <= i < k :: rates[i] > rates[k]
  {
    var n := |rates| - 1;
    if n == 0 then 0
    else
      var k := Slowest(rates[..n]);
      assert forall i | 0 <= i < n :: rates[..n][i] == rates[i];
      if rates[n] < rates[k] then n else k
  }

  /** The compute a step gains when the ring goes on without a rank of this rate. */
  function AddedCompute(samples: real, total: real, rate: real): real
    requires 0.0 < total && rate < total
  {
    samples / (total - rate) - samples / total
  }

  function SavedSync(sync: real, world: nat): real
    requires world > 1
  {
    sync / (world - 1) as real
  }

  function WorstFreeloader(rates: Vec, total: real, samples: real, sync: real): int
    requires total > 0.0
  {
    if |rates| <= 2 then -1
    else
      var slowest := Slowest(rates);
      if slowest == 0 || total - rates[slowest] <= 0.0 || samples <= 0.0 then -1
      else if AddedCompute(samples, total, rates[slowest]) >= SavedSync(sync, |rates|) then -1
      else slowest
  }

  /** The seconds a step takes: its samples at this many a second, and its sync. */
  function Together(samples: real, speed: real, sync: real): real
    requires speed > 0.0
  {
    samples / speed + sync
  }

  /** A sync that goes round a ring of one rank less, with one hop less in n - 1. */
  function HopFewer(sync: real, world: nat): real
    requires world > 1
  {
    sync * (world - 2) as real / (world - 1) as real
  }

  /** The step is shorter without rank j, the others doing its samples and the sync going round a ring of one less. */
  ghost predicate DropPays(rates: Vec, samples: real, sync: real, j: nat)
    requires j < |rates| && |rates| > 1 && 0.0 < Sum(rates) && rates[j] < Sum(rates)
  {
    Together(samples, Sum(rates) - rates[j], HopFewer(sync, |rates|)) < Together(samples, Sum(rates), sync)
  }

  /** A hop less of n - 1 saves that part of the sync. */
  lemma HopLess(sync: real, world: nat)
    requires world > 2
    ensures sync - SavedSync(sync, world) == HopFewer(sync, world)
  {
    var d := (world - 1) as real;
    var q, p := sync / d, sync * (world - 2) as real / d;
    assert q * d == sync && p * d == sync * (d - 1.0);
    assert (sync - q - p) * d == 0.0 by {
      assert (sync - q - p) * d == sync * d - q * d - p * d;
    }
    if sync - q - p > 0.0 {
      PositiveProduct(sync - q - p, d, 0.0);
    } else if sync - q - p < 0.0 {
      PositiveProduct(q + p - sync, d, 0.0);
    }
  }

  /** Going on without a rank pays exactly when the step is shorter for it. */
  lemma PaysIf(samples: real, total: real, rate: real, sync: real, world: nat)
    requires 0.0 < rate < total && world > 2
    ensures AddedCompute(samples, total, rate) < SavedSync(sync, world) <==>
      Together(samples, total - rate, HopFewer(sync, world)) < Together(samples, total, sync)
  {
    HopLess(sync, world);
    var hop := HopFewer(sync, world);
    hide SavedSync, HopFewer;
    assert AddedCompute(samples, total, rate) == samples / (total - rate) - samples / total;
    assert Together(samples, total - rate, hop) == samples / (total - rate) + hop;
  }

  lemma InverseOrder(samples: real, a: real, b: real)
    requires samples > 0.0 && 0.0 < a <= b
    ensures samples / a >= samples / b
  {
    var x, y := samples / a, samples / b;
    assert x * a == samples && y * b == samples;
    QuotientSigns(samples, b, y);
    ProductNotNegative(y, b - a);
    if x < y {
      PositiveProduct(y - x, a, (y - x) * a);
    }
  }

  /** The compute added grows with the rate of the rank that goes. */
  lemma AddedGrows(samples: real, total: real, slow: real, fast: real)
    requires samples > 0.0 && slow <= fast < total && 0.0 < total
    ensures AddedCompute(samples, total, slow) <= AddedCompute(samples, total, fast)
  {
    InverseOrder(samples, total - fast, total - slow);
  }

  /** With at least two positive rates no rank carries the whole ring. */
  lemma NoRankIsAll(rates: Vec, j: nat)
    requires |rates| >= 2 && j < |rates| && forall i | 0 <= i < |rates| :: rates[i] > 0.0
    ensures 0.0 < rates[j] < Sum(rates)
  {
    var k := |rates| - 1;
    SumNotNegative(rates[..k]);
    if j < k {
      assert rates[..k][j] == rates[j];
    } else {
      assert rates[..k][0] == rates[0];
    }
  }

  /** Testing only the slowest rank decides for the whole ring: it is dropped exactly when dropping some rank pays.
      The one exception is the lead: when rank 0 is the (first) slowest nothing is dropped, whoever would pay. */
  lemma SlowestDecides(rates: Vec, samples: real, sync: real)
    requires |rates| > 2 && samples > 0.0 && forall i | 0 <= i < |rates| :: rates[i] > 0.0
    ensures Sum(rates) > 0.0 && forall j | 0 <= j < |rates| :: rates[j] < Sum(rates)
    ensures WorstFreeloader(rates, Sum(rates), samples, sync) >= 0
      <==> Slowest(rates) != 0 && exists j | 0 <= j < |rates| :: DropPays(rates, samples, sync, j)
    ensures WorstFreeloader(rates, Sum(rates), samples, sync) >= 0
      ==> WorstFreeloader(rates, Sum(rates), samples, sync) == Slowest(rates)
          && DropPays(rates, samples, sync, Slowest(rates))
  {
    forall j | 0 <= j < |rates|
      ensures rates[j] < Sum(rates)
      ensures DropPays(rates, samples, sync, j) <==> AddedCompute(samples, Sum(rates), rates[j]) < SavedSync(sync, |rates|)
    {
      NoRankIsAll(rates, j);
      PaysIf(samples, Sum(rates), rates[j], sync, |rates|);
    }
    var s := Slowest(rates);
    hide AddedCompute, SavedSync, Sum, DropPays;
    forall j | 0 <= j < |rates| && DropPays(rates, samples, sync, j)
      ensures DropPays(rates, samples, sync, s)
    {
      AddedGrows(samples, Sum(rates), rates[s], rates[j]);
    }
    assert s != 0 && DropPays(rates, samples, sync, s) ==> WorstFreeloader(rates, Sum(rates), samples, sync) == s;
    assert WorstFreeloader(rates, Sum(rates), samples, sync) >= 0 ==> DropPays(rates, samples, sync, s);
  }

  /** Three equal ranks over a slow link: dropping rank 1 or 2 pays, and nobody is dropped. */
  lemma EqualRanksNeverDrop()
    ensures var rates := [1.0, 1.0, 1.0];
      Sum(rates) == 3.0 && WorstFreeloader(rates, 3.0, 3.0, 100.0) == -1 && DropPays(rates, 3.0, 100.0, 1)
  {
    var rates := [1.0, 1.0, 1.0];
    assert rates[..2] == [1.0, 1.0] && rates[..2][..1] == [1.0] && rates[..2][..1][..0] == [];
    assert Sum(rates[..2][..1]) == 1.0 && Sum(rates[..2]) == 2.0;
    assert Slowest(rates[..2][..1]) == 0 && Slowest(rates[..2]) == 0;
  }

  /** How long a rank of this rate takes over its share of a step. */
  function TimeFor(share: real, samples: real, rate: real): real
    requires rate > 0.0
  {
    Fraction(share * samples, rate)
  }

  /** How long the slowest rank takes over its share of a step. */
  ghost predicate StepTakes(shares: Vec, rates: Vec, samples: real, t: real)
    requires |shares| == |rates| && forall i | 0 <= i < |rates| :: rates[i] > 0.0
  {
    && (forall i | 0 <= i < |rates| :: TimeFor(shares[i], samples, rates[i]) <= t)
    && (exists i | 0 <= i < |rates| :: TimeFor(shares[i], samples, rates[i]) == t)
  }

  lemma {:induction false} SumOrder(a: Vec, b: Vec)
    requires |a| == |b| && forall i | 0 <= i < |a| :: a[i] <= b[i]
    ensures Sum(a) <= Sum(b)
    ensures Sum(a) == Sum(b) ==> a == b
  {
    if a != [] {
      var k := |a| - 1;
      SumOrder(a[..k], b[..k]);
      assert a == a[..k] + [a[k]] && b == b[..k] + [b[k]];
    }
  }

  lemma ShareTime(share: real, samples: real, rate: real, total: real)
    requires samples > 0.0 && rate > 0.0 && total > 0.0
    ensures TimeFor(share, samples, rate) <= Fraction(samples, total) <==> share <= Fraction(rate, total)
  {
    var t, f, x := share * samples / rate, rate / total, samples / total;
    assert t * rate == share * samples && f * total == rate && x * total == samples;
    // t - x and share - f differ by the positive factor samples/rate
    var d, g := (t - x) * (rate * total), (share - f) * (samples * total);
    assert d == g by {
      assert (t - x) * (rate * total) == t * rate * total - x * total * rate;
      assert (share - f) * (samples * total) == share * samples * total - f * total * samples;
    }
    PositiveProduct(rate, total, rate * total);
    PositiveProduct(samples, total, samples * total);
    SameSign(t - x, rate * total, share - f, samples * total);
  }

  lemma SameSign(a: real, p: real, b: real, q: real)
    requires p > 0.0 && q > 0.0 && a * p == b * q
    ensures a <= 0.0 <==> b <= 0.0
  {
    if a > 0.0 {
      PositiveProduct(a, p, a * p);
      if b <= 0.0 {
        ProductNotNegative(-b, q);
      }
    } else if b > 0.0 {
      PositiveProduct(b, q, b * q);
      ProductNotNegative(-a, p);
    }
  }

  /** Proportional shares are the best there are: any shares of all the data make some rank take at least as long, and
      only the proportional ones take no longer. */
  lemma ProportionalIsBest(shares: Vec, rates: Vec, samples: real)
    requires |shares| == |rates| >= 1 && samples > 0.0 && Sum(shares) == 1.0
    requires forall i | 0 <= i < |rates| :: rates[i] > 0.0
    ensures Sum(rates) > 0.0 && Sum(Proportional(rates)) == 1.0
    ensures StepTakes(Proportional(rates), rates, samples, Fraction(samples, Sum(rates)))
    ensures (forall i | 0 <= i < |rates| :: TimeFor(shares[i], samples, rates[i]) <= Fraction(samples, Sum(rates)))
      <==> shares == Proportional(rates)
  {
    SumNotNegative(rates);
    assert rates[0] > 0.0;
    var total := Sum(rates);
    var best := Proportional(rates);
    SumDivided(rates, total);
    assert forall i | 0 <= i < |rates| :: best[i] == Fraction(rates[i], total);
    hide Fraction, TimeFor, Sum, Divided;
    forall i | 0 <= i < |rates|
      ensures TimeFor(shares[i], samples, rates[i]) <= Fraction(samples, total) <==> shares[i] <= best[i]
      ensures TimeFor(best[i], samples, rates[i]) == Fraction(samples, total)
    {
      ShareTime(shares[i], samples, rates[i], total);
      BestTime(samples, rates[i], total);
    }
    if forall i | 0 <= i < |rates| :: shares[i] <= best[i] {
      SumOrder(shares, best);
    }
    assert TimeFor(best[0], samples, rates[0]) == Fraction(samples, total);
  }

  lemma BestTime(samples: real, rate: real, total: real)
    requires rate > 0.0 && total > 0.0
    ensures TimeFor(Fraction(rate, total), samples, rate) == Fraction(samples, total)
  {
    var f, x := rate / total, samples / total;
    assert f * total == rate && x * total == samples;
    assert f * samples == x * rate by {
      assert f * samples == f * (x * total) == f * total * x;
    }
    assert x * rate / rate == x;
  }

  /** A refit replaces shares only by proper ones: positive for every rank, summing to one. */
  lemma RefitIsPositive(reports: Reports, current: Vec, world: nat)
    requires PlanRebalance(reports, current, world).Refit?
    ensures var v := PlanRebalance(reports, current, world).shares;
      && |v| == world && Sum(v) == 1.0
      && (forall i | 0 <= i < world :: v[i] > 0.0)
      && (forall k :: k in reports <==> 0 <= k < world)
  {
    hide Rate, Fraction, Sum, SumAt, WorstFreeloader, ShiftedEnough, Divided;
    MeasuredAll(reports, world);
    var rates := Rates(reports, world);
    assert Sum(rates) > 0.0 && PlanRebalance(reports, current, world) == Refit(Proportional(rates));
    forall i | 0 <= i < world
      ensures rates[i] > 0.0
    {
      assert rates[i] == Rate(reports[i]);
    }
    ProportionalIsPositive(rates);
  }

  lemma ProportionalIsPositive(rates: Vec)
    requires Sum(rates) > 0.0 && forall i | 0 <= i < |rates| :: rates[i] > 0.0
    ensures Sum(Proportional(rates)) == 1.0 && forall i | 0 <= i < |rates| :: Proportional(rates)[i] > 0.0
  {
    SumDivided(rates, Sum(rates));
    hide Fraction;
  }

  // ---- one rank alone, and DiLoCo ----

  const SOLO_MARGIN: real := 1.10

  /** planSolo's verdict: none until every rank is measured; then the predicted time of the fastest rank alone and the
      measured time of a split step. */
  datatype Solo = Unmeasured | Compared(solo: real, split: real)

  /** A step's cost for one rank when it syncs every h steps. */
  function StepCost(r: Report, h: real): real
    requires h > 0.0
  {
    r.step + Fraction(r.sync, h)
  }

  function Interval(syncEvery: int): (h: real)
    ensures h >= 1.0
  {
    if syncEvery > 1 then syncEvery as real else 1.0
  }

  predicate SoloMeasured(reports: Reports, live: int) {
    live >= 2 && |reports| >= live && forall k | k in reports :: Rate(reports[k]) > 0.0 && reports[k].sync > 0.0
  }

  ghost predicate IsFastest(reports: Reports, k: nat) {
    k in reports && forall j | j in reports :: Rate(reports[j]) <= Rate(reports[k])
  }

  /** t is the smallest step cost any rank reports at interval h. */
  ghost predicate IsLowestCost(reports: Reports, h: real, t: real)
    requires h > 0.0
  {
    && (forall k | k in reports :: t <= StepCost(reports[k], h))
    && (exists k :: k in reports && t == StepCost(reports[k], h))
  }

  function SoloTime(samples: real, rate: real): real
    requires rate > 0.0
  {
    1000.0 * Fraction(samples, rate)
  }

  /** s is what planSolo finds; any rank of maximal rate gives the same times. */
  ghost predicate IsSolo(reports: Reports, live: int, syncEvery: int, bound: nat, s: Solo) {
    if !SoloMeasured(reports, live) then s == Unmeasured
    else
      && s.Compared?
      && IsLowestCost(reports, Interval(syncEvery), s.split)
      && exists k :: IsFastest(reports, k) && Rate(reports[k]) > 0.0
          && s.solo == SoloTime(SumAt(SamplesOf(reports), reports.Keys, bound), Rate(reports[k]))
  }

  predicate SoloPays(s: Solo) {
    s.Compared? && s.solo * SOLO_MARGIN < s.split
  }

  /** How many steps n ranks may go between syncs under DiLoCo; 0 when they may not. */
  function DiLoCoEvery(n: int): (every: int)
    ensures every == 0 || every >= 4
    ensures every > 0 <==> n <= 4
  {
    if n <= 2 then 32 else if n <= 3 then 16 else if n <= 4 then 4 else 0
  }

  /** t beats the times it is compared with by the margin; bar is one rank alone, when that is on offer. */
  predicate Beats(t: real, split: real, bar: Option<real>) {
    t * SOLO_MARGIN < split && (bar.Some? ==> t * SOLO_MARGIN < bar.value)
  }

  /** planDiLoCo: the ring's step at the validated interval, taken only when it beats the rest. */
  ghost predicate IsDiLoCo(reports: Reports, live: int, bar: Option<real>, split: real, fast: real, ok: bool) {
    if DiLoCoEvery(live) == 0 || live < 2 || |reports| < live || split <= 0.0 || (bar.Some? && bar.value <= 0.0) then !ok
    else IsLowestCost(reports, DiLoCoEvery(live) as real, fast) && (ok <==> Beats(fast, split, bar))
  }

  /** A step costs less the longer the interval. */
  lemma CostFalls(r: Report, h: real, g: real)
    requires r.sync > 0.0 && 0.0 < h <= g
    ensures StepCost(r, g) <= StepCost(r, h)
  {
    InverseOrder(r.sync, h, g);
  }

  /** A switch to DiLoCo lengthens the interval in force, beats the measured split step of every rank and, unless the
      user fixed the ring, the fastest rank alone. */
  lemma SwitchLengthensInterval(reports: Reports, live: int, syncEvery: int, bound: nat, s: Solo, bar: Option<real>, fast: real)
    requires IsSolo(reports, live, syncEvery, bound, s) && s.Compared?
    requires bar.Some? ==> bar.value == s.solo
    requires IsDiLoCo(reports, live, bar, s.split, fast, true)
    ensures DiLoCoEvery(live) as real > Interval(syncEvery)
    ensures forall k | k in reports :: fast * SOLO_MARGIN < StepCost(reports[k], Interval(syncEvery))
    ensures bar.Some? ==> fast * SOLO_MARGIN < s.solo
  {
    var every, h := DiLoCoEvery(live) as real, Interval(syncEvery);
    var k :| k in reports && s.split == StepCost(reports[k], h);
    var j :| j in reports && fast == StepCost(reports[j], every);
    if every <= h {
      CostFalls(reports[j], every, h);
      assert false;
    }
  }

  /** A release names a rank no other out-runs, whose predicted time alone beats every rank's measured split step. */
  lemma ReleaseBeatsSplit(reports: Reports, live: int, syncEvery: int, bound: nat, s: Solo, keep: nat)
    requires IsSolo(reports, live, syncEvery, bound, s) && SoloPays(s) && IsFastest(reports, keep)
    ensures Rate(reports[keep]) > 0.0
    ensures s.solo == SoloTime(SumAt(SamplesOf(reports), reports.Keys, bound), Rate(reports[keep]))
    ensures forall k | k in reports :: s.solo * SOLO_MARGIN < StepCost(reports[k], Interval(syncEvery))
  {
    var k :| IsFastest(reports, k) && Rate(reports[k]) > 0.0
      && s.solo == SoloTime(SumAt(SamplesOf(reports), reports.Keys, bound), Rate(reports[k]));
    assert Rate(reports[k]) == Rate(reports[keep]);
  }

  // ---- the loops over the reports, in whatever order the map gives them ----

  method ComputeSolo(reports: Reports, live: int, syncEvery: int, ghost bound: nat) returns (keep: int, s: Solo)
    requires forall k | k in reports :: k < bound
    ensures IsSolo(reports, live, syncEvery, bound, s)
    ensures SoloPays(s) <==> keep >= 0
    ensures keep >= 0 ==> IsFastest(reports, keep)
  {
    if live < 2 || |reports| < live {
      return -1, Unmeasured;
    }
    var measured, fast, fastRate, samples, split := ScanReports(reports, Interval(syncEvery), bound);
    if !measured {
      return -1, Unmeasured;
    }
    ScanEnds(reports, live, syncEvery, bound, fast, fastRate, split);
    s := Compared(SoloTime(samples, fastRate), split);
    keep := if SoloPays(s) then fast else -1;
  }

  method ScanReports(reports: Reports, h: real, ghost bound: nat)
    returns (measured: bool, fast: int, fastRate: real, samples: real, split: real)
    requires h > 0.0 && forall k | k in reports :: k < bound
    ensures measured <==> forall k | k in reports :: Rate(reports[k]) > 0.0 && reports[k].sync > 0.0
    ensures measured ==> FastestOf(reports, reports.Keys, fast, fastRate) && LowestOf(reports, reports.Keys, h, split)
    ensures measured ==> samples == SumAt(SamplesOf(reports), reports.Keys, bound)
  {
    fast, fastRate, samples, split := -1, 0.0, 0.0, 0.0;
    var left: set<nat> := reports.Keys;
    ghost var done: set<nat> := {};
    SumAtEmpty(SamplesOf(reports), bound);
    assert FastestOf(reports, {}, fast, fastRate) && LowestOf(reports, {}, h, split);
    hide FastestOf, LowestOf, StepCost, SumAt, SamplesOf, Rate;
    while left != {}
      invariant done == reports.Keys - left && left <= reports.Keys
      invariant forall k | k in done :: Rate(reports[k]) > 0.0 && reports[k].sync > 0.0
      invariant FastestOf(reports, done, fast, fastRate)
      invariant LowestOf(reports, done, h, split)
      invariant samples == SumAt(SamplesOf(reports), done, bound)
    {
      var rank: nat :| rank in left;
      var rep := reports[rank];
      var r := Rate(rep);
      if r <= 0.0 || rep.sync <= 0.0 {
        return false, fast, fastRate, samples, split;
      }
      ScanGrows(reports, done, rank, bound, h, fast, fastRate, split);
      samples := samples + rep.samples as real;
      if r > fastRate {
        fast, fastRate := rank, r;
      }
      if left == reports.Keys || StepCost(rep, h) < split {
        split := StepCost(rep, h);
      }
      left := left - {rank};
      done := done + {rank};
    }
    assert done == reports.Keys;
    measured := true;
  }

  /** The scan so far: the first rank of the highest rate, and the lowest step cost. */
  ghost predicate FastestOf(reports: Reports, done: set<nat>, fast: int, fastRate: real)
    requires done <= reports.Keys
  {
    if done == {} then fastRate == 0.0
    else
      && fast >= 0 && fast in done && Rate(reports[fast]) == fastRate
      && forall k | k in done :: Rate(reports[k]) <= fastRate
  }

  ghost predicate LowestOf(reports: Reports, done: set<nat>, h: real, split: real)
    requires done <= reports.Keys && h > 0.0
  {
    done != {} ==>
      && (forall k | k in done :: split <= StepCost(reports[k], h))
      && (exists k :: k in done && split == StepCost(reports[k], h))
  }

  lemma ScanEnds(reports: Reports, live: int, syncEvery: int, bound: nat, fast: int, fastRate: real, split: real)
    requires live >= 2 && |reports| >= live
    requires forall k | k in reports :: Rate(reports[k]) > 0.0 && reports[k].sync > 0.0
    requires FastestOf(reports, reports.Keys, fast, fastRate) && LowestOf(reports, reports.Keys, Interval(syncEvery), split)
    ensures fast >= 0 && IsFastest(reports, fast) && fastRate > 0.0
    ensures IsSolo(reports, live, syncEvery, bound,
                   Compared(SoloTime(SumAt(SamplesOf(reports), reports.Keys, bound), fastRate), split))
  {
    assert IsFastest(reports, fast);
  }

  lemma ScanGrows(reports: Reports, done: set<nat>, rank: nat, bound: nat, h: real, fast: int, fastRate: real, split: real)
    requires done <= reports.Keys && rank in reports && rank !in done && rank < bound && h > 0.0
    requires forall k | k in done :: Rate(reports[k]) > 0.0
    requires Rate(reports[rank]) > 0.0
    requires FastestOf(reports, done, fast, fastRate) && LowestOf(reports, done, h, split)
    ensures var r := Rate(reports[rank]);
      FastestOf(reports, done + {rank}, if r > fastRate then rank else fast, if r > fastRate then r else fastRate)
    ensures var c := StepCost(reports[rank], h);
      LowestOf(reports, done + {rank}, h, if done == {} || c < split then c else split)
    ensures SumAt(SamplesOf(reports), done + {rank}, bound)
      == SumAt(SamplesOf(reports), done, bound) + reports[rank].samples as real
  {
    SumAtInsert(SamplesOf(reports), done, bound, rank);
    var c := StepCost(reports[rank], h);
    hide StepCost, Rate, SumAt;
    if done != {} && c >= split {
      var k :| k in done && split == StepCost(reports[k], h);
      assert k in done + {rank};
    } else {
      assert rank in done + {rank};
    }
  }

  lemma {:induction false} SumAtEmpty(f: nat -> real, n: nat)
    ensures SumAt(f, {}, n) == 0.0
  {
    if n > 0 {
      SumAtEmpty(f, n - 1);
    }
  }

  method ComputeDiLoCo(reports: Reports, live: int, bar: Option<real>, split: real) returns (fast: real, ok: bool)
    ensures IsDiLoCo(reports, live, bar, split, fast, ok)
  {
    var every := DiLoCoEvery(live);
    if every == 0 || live < 2 || |reports| < live || split <= 0.0 || (bar.Some? && bar.value <= 0.0) {
      return 0.0, false;
    }
    fast := 0.0;
    var left: set<nat> := reports.Keys;
    ghost var lowest := 0;
    while left != {}
      invariant left <= reports.Keys
      invariant forall k | k in reports.Keys - left :: fast <= StepCost(reports[k], every as real)
      invariant left != reports.Keys ==> lowest in reports && fast == StepCost(reports[lowest], every as real)
    {
      var rank: nat :| rank in left;
      if left == reports.Keys || StepCost(reports[rank], every as real) < fast {
        fast, lowest := StepCost(reports[rank], every as real), rank;
      }
      left := left - {rank};
    }
    ok := Beats(fast, split, bar);
  }

  lemma {:induction false} SumUpdate(v: Vec, i: nat, x: real)
    requires i < |v|
    ensures Sum(v[i := x]) == Sum(v) - v[i] + x
  {
    var k := |v| - 1;
    if i == k {
      SumLast(v, x);
    } else {
      SumUpdate(v[..k], i, x);
      assert v[i := x][..k] == v[..k][i := x];
    }
  }

  /** The rates of the ranks counted so far; the others are zero. */
  ghost predicate RatesOf(reports: Reports, done: set<nat>, rates: Vec) {
    forall k | 0 <= k < |rates| :: rates[k] == if k in done && k in reports then Rate(reports[k]) else 0.0
  }

  ghost predicate Tallied(reports: Reports, done: set<nat>, n: nat, samples: real, syncSum: real, syncN: nat) {
    && samples == SumAt(SamplesOf(reports), done, n)
    && syncSum == SumAt(SyncOf(reports), done, n)
    && syncN as real == SumAt(SyncedOf(reports), done, n)
  }

  lemma TallyGrows(reports: Reports, done: set<nat>, n: nat, samples: real, syncSum: real, syncN: nat, rank: nat)
    requires Tallied(reports, done, n, samples, syncSum, syncN) && rank in reports && rank !in done && rank < n
    ensures var r := reports[rank];
      Tallied(reports, done + {rank}, n, samples + r.samples as real,
              if r.sync > 0.0 then syncSum + r.sync else syncSum, if r.sync > 0.0 then syncN + 1 else syncN)
  {
    SumAtInsert(SamplesOf(reports), done, n, rank);
    SumAtInsert(SyncOf(reports), done, n, rank);
    SumAtInsert(SyncedOf(reports), done, n, rank);
  }

  method Tally(reports: Reports, world: nat)
    returns (ok: bool, rates: Vec, total: real, samples: real, syncSum: real, syncN: nat)
    ensures ok <==> forall k | k in reports :: k < world && Rate(reports[k]) > 0.0
    ensures ok ==> rates == Rates(reports, world) && total == Sum(rates)
    ensures ok ==> Tallied(reports, reports.Keys, world, samples, syncSum, syncN)
  {
    var out := new real[world](_ => 0.0);
    total, samples, syncSum, syncN, rates := 0.0, 0.0, 0.0, 0, [];
    var left: set<nat> := reports.Keys;
    ghost var done: set<nat> := {};
    SumAtEmpty(SamplesOf(reports), world);
    SumAtEmpty(SyncOf(reports), world);
    SumAtEmpty(SyncedOf(reports), world);
    SumZero(world);
    assert out[..] == Zero(world);
    hide SumAt, Rate, Sum;
    while left != {}
      invariant done == reports.Keys - left && left <= reports.Keys
      invariant forall k | k in done :: k < world && Rate(reports[k]) > 0.0
      invariant RatesOf(reports, done, out[..]) && total == Sum(out[..])
      invariant Tallied(reports, done, world, samples, syncSum, syncN)
    {
      var rank: nat :| rank in left;
      var rep := reports[rank];
      if rank >= world {
        return false, rates, total, samples, syncSum, syncN;
      }
      var r := Rate(rep);
      if r <= 0.0 {
        return false, rates, total, samples, syncSum, syncN;
      }
      SumUpdate(out[..], rank, r);
      assert out[..][rank] == 0.0;
      ghost var before := out[..];
      out[rank] := r;
      assert out[..] == before[rank := r];
      total := total + r;
      TallyGrows(reports, done, world, samples, syncSum, syncN, rank);
      samples := samples + rep.samples as real;
      if rep.sync > 0.0 {
        syncSum, syncN := syncSum + rep.sync, syncN + 1;
      }
      left := left - {rank};
      done := done + {rank};
    }
    assert done == reports.Keys;
    ok, rates := true, out[..];
    assert rates == Rates(reports, world);
  }

  method ComputeFreeloader(rates: Vec, total: real, samples: real, sync: real) returns (drop: int)
    requires total > 0.0
    ensures drop == WorstFreeloader(rates, total, samples, sync)
  {
    if |rates| <= 2 {
      return -1;
    }
    var slowest: int, slowRate := -1, 0.0;
    for i := 0 to |rates|
      invariant i == 0 ==> slowest == -1
      invariant i > 0 ==> slowest == Slowest(rates[..i]) && slowRate == rates[slowest]
    {
      assert rates[..i + 1][..i] == rates[..i];
      if slowest == -1 || rates[i] < slowRate {
        slowest, slowRate := i, rates[i];
      }
    }
    assert rates[..|rates|] == rates;
    hide Slowest;
    if slowest <= 0 || total - slowRate <= 0.0 || samples <= 0.0 {
      return -1;
    }
    if AddedCompute(samples, total, slowRate) >= SavedSync(sync, |rates|) {
      return -1;
    }
    return slowest;
  }

  method ComputeRebalance(reports: Reports, current: Vec, world: nat) returns (plan: Plan)
    ensures plan == PlanRebalance(reports, current, world)
  {
    if world < 2 || |reports| < world {
      return Keep;
    }
    var ok, rates, total, samples, syncSum, syncN := Tally(reports, world);
    hide SumAt, Sum, Rate, WorstFreeloader, Fraction;
    if !ok || total <= 0.0 {
      return Keep;
    }
    if syncN > 0 {
      var drop := ComputeFreeloader(rates, total, samples, syncSum / syncN as real / 1000.0);
      if drop >= 0 {
        return Drop(drop);
      }
    }
    var want := Divided(rates, total);
    if !ShiftedEnough(current, want) {
      return Keep;
    }
    return Refit(want);
  }
}
