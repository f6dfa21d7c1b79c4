/** What the reports of a ring's ranks make the lead decide, in the reports' own terms: milliseconds and samples a step. */
module Refits {
  import opened Wrappers
  import opened Vectors
  import opened Reduce
  import opened Shares
  import opened Rebalance

  // ---- what the reports add up to ----

  /** Samples a second. */
  function Speed(r: Report): real
    requires r.step > 0.0
  {
    r.samples as real * 1000.0 / r.step
  }

  /** Every rank of the ring, and nobody else, has reported steps of some length over some samples. */
  ghost predicate Complete(reports: Reports, world: nat) {
    world >= 2 && (forall k: nat :: k in reports <==> k < world)
    && forall k | k in reports :: reports[k].step > 0.0 && reports[k].samples > 0
  }

  /** The ranks together: samples a second, samples a step, and the milliseconds that those that waited for a sync waited. */
  datatype Totals = Totals(speed: real, samples: int, waited: real, waiting: nat)

  function TotalsOf(reports: Reports, n: nat): Totals
    requires forall k | 0 <= k < n :: k in reports && reports[k].step > 0.0
  {
    if n == 0 then Totals(0.0, 0, 0.0, 0)
    else
      var t, r := TotalsOf(reports, n - 1), reports[n - 1];
      Totals(t.speed + Speed(r), t.samples + r.samples,
             if r.sync > 0.0 then t.waited + r.sync else t.waited, if r.sync > 0.0 then t.waiting + 1 else t.waiting)
  }

  /** The seconds a rank that waited for a sync waited, on average. */
  function MeanWait(t: Totals): real
    requires t.waiting > 0
  {
    t.waited / t.waiting as real / 1000.0
  }

  /** The first of the slowest ranks. */
  ghost predicate IsSlowest(reports: Reports, world: nat, k: nat)
    requires Complete(reports, world)
  {
    && k < world && (forall j | 0 <= j < world :: Speed(reports[k]) <= Speed(reports[j]))
    && (forall j | 0 <= j < k :: Speed(reports[k]) < Speed(reports[j]))
  }

  /** The ring's step without its slowest rank, all of its samples done by the others and its sync a round of one hop less, is
      shorter than with it. */
  ghost predicate Freeloads(reports: Reports, world: nat, k: nat)
    requires Complete(reports, world)
  {
    var t := TotalsOf(reports, world);
    && world > 2 && k > 0 && IsSlowest(reports, world, k) && t.waiting > 0 && 0.0 < Speed(reports[k]) < t.speed
    && Together(t.samples as real, t.speed - Speed(reports[k]), HopFewer(MeanWait(t), world))
        < Together(t.samples as real, t.speed, MeanWait(t))
  }

  /** Each rank's part of the ring's speed. */
  ghost predicate InProportion(reports: Reports, world: nat, v: Vec)
    requires Complete(reports, world)
  {
    var total := TotalsOf(reports, world).speed;
    total > 0.0 && |v| == world && forall k | 0 <= k < world :: v[k] * total == Speed(reports[k])
  }

  /** Some share is off by a tenth of the data, or the shares are those of a ring of another size. */
  ghost predicate Off(current: Vec, want: Vec) {
    |current| != |want| || exists k | 0 <= k < |want| :: want[k] - current[k] >= 0.1 || current[k] - want[k] >= 0.1
  }

  // ---- they are what the plan reckons with ----

  lemma SpeedIsRate(r: Report)
    requires r.step > 0.0 && r.samples > 0
    ensures Speed(r) == Rate(r) > 0.0
  {
    var x, q := r.samples as real, r.step / 1000.0;
    var f := x / q;
    assert f * q == x && q * 1000.0 == r.step;
    assert f * r.step == x * 1000.0 by { assert f * r.step == f * (q * 1000.0) == f * q * 1000.0; }
    assert f == x * 1000.0 / r.step;
  }

  lemma CompleteIff(reports: Reports, world: nat)
    ensures Complete(reports, world) <==> Measured(reports, world)
  {
    if Measured(reports, world) {
      MeasuredAll(reports, world);
    }
    if Complete(reports, world) {
      KeysBelow(reports.Keys, world);
      forall k | k in reports
        ensures Rate(reports[k]) > 0.0
      {
        SpeedIsRate(reports[k]);
      }
    }
  }

  lemma {:induction false} KeysBelow(keys: set<nat>, n: nat)
    requires forall k :: k in keys <==> 0 <= k < n
    ensures |keys| == n
  {
    if n > 0 {
      KeysBelow(keys - {n - 1}, n - 1);
    } else {
      assert keys == {};
    }
  }

  lemma SumsNext(reports: Reports, n: nat)
    requires n > 0 && n - 1 in reports
    ensures SumAt(SamplesOf(reports), reports.Keys, n) == SumAt(SamplesOf(reports), reports.Keys, n - 1) + reports[n - 1].samples as real
    ensures SumAt(SyncOf(reports), reports.Keys, n)
      == SumAt(SyncOf(reports), reports.Keys, n - 1) + if reports[n - 1].sync > 0.0 then reports[n - 1].sync else 0.0
    ensures SumAt(SyncedOf(reports), reports.Keys, n)
      == SumAt(SyncedOf(reports), reports.Keys, n - 1) + if reports[n - 1].sync > 0.0 then 1.0 else 0.0
  {
  }

  lemma RatesNext(reports: Reports, world: nat, n: nat)
    requires 0 < n <= world && n - 1 in reports
    ensures Sum(Rates(reports, world)[..n]) == Sum(Rates(reports, world)[..n - 1]) + Rate(reports[n - 1])
  {
    var rates := Rates(reports, world);
    assert rates[..n][..n - 1] == rates[..n - 1] && rates[..n][n - 1] == Rate(reports[n - 1]);
    hide Rate;
  }

  lemma {:induction false} TotalsAre(reports: Reports, world: nat, n: nat)
    requires Complete(reports, world) && n <= world
    ensures var t := TotalsOf(reports, n);
      && t.speed == Sum(Rates(reports, world)[..n]) && t.samples as real == SumAt(SamplesOf(reports), reports.Keys, n)
      && t.waited == SumAt(SyncOf(reports), reports.Keys, n) && t.waiting as real == SumAt(SyncedOf(reports), reports.Keys, n)
  {
    if n > 0 {
      TotalsAre(reports, world, n - 1);
      SpeedIsRate(reports[n - 1]);
      SumsNext(reports, n);
      RatesNext(reports, world, n);
      hide Speed, Rate, SumAt, Sum, Rates, SamplesOf, SyncOf, SyncedOf;
    }
  }

  lemma {:induction false} TotalsPositive(reports: Reports, world: nat, n: nat)
    requires Complete(reports, world) && n <= world
    ensures n > 0 ==> TotalsOf(reports, n).samples > 0
    ensures TotalsOf(reports, n).samples >= 0
  {
    if n > 0 {
      TotalsPositive(reports, world, n - 1);
    }
  }

  lemma SlowestIs(reports: Reports, world: nat, k: nat)
    requires Complete(reports, world)
    ensures IsSlowest(reports, world, k) <==> k == Slowest(Rates(reports, world))
  {
    var rates := Rates(reports, world);
    forall j | 0 <= j < world
      ensures rates[j] == Speed(reports[j])
    {
      SpeedIsRate(reports[j]);
    }
    hide Speed, Rate;
    var s := Slowest(rates);
    assert IsSlowest(reports, world, s);
  }

  lemma WorstIs(rates: Vec, samples: real, sync: real, k: nat)
    requires |rates| >= 2 && samples > 0.0 && forall j | 0 <= j < |rates| :: rates[j] > 0.0
    ensures forall j | 0 <= j < |rates| :: 0.0 < rates[j] < Sum(rates)
    ensures 0.0 < Sum(rates) && WorstFreeloader(rates, Sum(rates), samples, sync) >= -1
    ensures WorstFreeloader(rates, Sum(rates), samples, sync) == k <==>
      && |rates| > 2 && k > 0 && k == Slowest(rates)
      && Together(samples, Sum(rates) - rates[k], HopFewer(sync, |rates|))
          < Together(samples, Sum(rates), sync)
  {
    forall j | 0 <= j < |rates|
      ensures 0.0 < rates[j] < Sum(rates)
    {
      NoRankIsAll(rates, j);
    }
    assert rates[0] > 0.0;
    if |rates| > 2 {
      PaysIf(samples, Sum(rates), rates[Slowest(rates)], sync, |rates|);
    }
    hide Sum, Slowest, SavedSync, AddedCompute, Together, HopFewer;
  }

  /** The plan's reckoning in the reports' own terms. */
  lemma ReckonedAs(reports: Reports, world: nat)
    requires Complete(reports, world)
    ensures var t, rates := TotalsOf(reports, world), Rates(reports, world);
      && t.speed == Sum(rates) && t.samples > 0 && forall j | 0 <= j < world :: rates[j] == Speed(reports[j]) > 0.0
  {
    TotalsAre(reports, world, world);
    assert Rates(reports, world)[..world] == Rates(reports, world);
    TotalsPositive(reports, world, world);
    forall j | 0 <= j < world
      ensures Rates(reports, world)[j] == Speed(reports[j]) > 0.0
    {
      SpeedIsRate(reports[j]);
    }
  }

  lemma FreeloadsShows(reports: Reports, world: nat, k: nat, t: Totals, sync: real)
    requires Complete(reports, world) && t == TotalsOf(reports, world) && t.waiting > 0
    requires sync == MeanWait(t)
    ensures Freeloads(reports, world, k) <==>
      && world > 2 && k > 0 && IsSlowest(reports, world, k) && 0.0 < Speed(reports[k]) < t.speed
      && Together(t.samples as real, t.speed - Speed(reports[k]), HopFewer(sync, world)) < Together(t.samples as real, t.speed, sync)
  {
    hide Complete, TotalsOf, Speed, Together, HopFewer, MeanWait;
  }

  lemma FreeloaderIs(reports: Reports, world: nat, k: nat)
    requires Complete(reports, world) && TotalsOf(reports, world).waiting > 0
    ensures var t := TotalsOf(reports, world);
      && t.speed > 0.0
      && (Freeloads(reports, world, k) <==>
            WorstFreeloader(Rates(reports, world), t.speed, t.samples as real, MeanWait(t)) == k)
      && WorstFreeloader(Rates(reports, world), t.speed, t.samples as real, MeanWait(t)) >= -1
  {
    var t, rates := TotalsOf(reports, world), Rates(reports, world);
    var sync := MeanWait(t);
    ReckonedAs(reports, world);
    assert world >= 2;
    hide *;
    SlowestIs(reports, world, k);
    WorstIs(rates, t.samples as real, sync, k);
    FreeloadsShows(reports, world, k, t, sync);
  }

  lemma NobodyWaits(reports: Reports, world: nat, k: nat)
    requires Complete(reports, world) && TotalsOf(reports, world).waiting == 0
    ensures !Freeloads(reports, world, k)
  {
  }

  lemma ProportionIs(reports: Reports, world: nat, v: Vec)
    requires Complete(reports, world)
    ensures Sum(Rates(reports, world)) > 0.0
    ensures InProportion(reports, world, v) <==> v == Proportional(Rates(reports, world))
  {
    var rates := Rates(reports, world);
    ReckonedAs(reports, world);
    SpeedIsPositive(rates);
    InTermsOf(reports, world, rates, v);
    hide *;
    ProportionalIs(rates, v);
  }

  lemma SpeedIsPositive(rates: Vec)
    requires |rates| >= 2 && forall j | 0 <= j < |rates| :: rates[j] > 0.0
    ensures Sum(rates) > 0.0
  {
    NoRankIsAll(rates, 0);
  }

  lemma InTermsOf(reports: Reports, world: nat, rates: Vec, v: Vec)
    requires Complete(reports, world) && TotalsOf(reports, world).speed == Sum(rates) > 0.0 && |rates| == world
    requires forall k | 0 <= k < world :: rates[k] == Speed(reports[k])
    ensures InProportion(reports, world, v) <==> |v| == |rates| && forall k | 0 <= k < |v| :: v[k] * Sum(rates) == rates[k]
  {
    hide Speed, Sum, TotalsOf, Complete;
  }

  lemma ProportionalIs(rates: Vec, v: Vec)
    requires Sum(rates) > 0.0
    ensures v == Proportional(rates) <==> |v| == |rates| && forall k | 0 <= k < |v| :: v[k] * Sum(rates) == rates[k]
  {
    hide Sum, Fraction;
    forall k | 0 <= k < |rates| && |v| == |rates|
      ensures v[k] * Sum(rates) == rates[k] <==> v[k] == Proportional(rates)[k]
    {
      ShareIs(v[k], rates[k], Sum(rates));
    }
    hide Divided, Proportional;
  }

  lemma ShareIs(x: real, rate: real, total: real)
    requires total > 0.0
    ensures x * total == rate <==> x == Fraction(rate, total)
  {
    var q := rate / total;
    var d := x - q;
    assert q * total == rate && d * total == x * total - rate;
    if d > 0.0 {
      PositiveProduct(d, total, d * total);
    } else if d < 0.0 {
      PositiveProduct(-d, total, -d * total);
    }
  }

  lemma OffIs(current: Vec, want: Vec)
    ensures Off(current, want) <==> ShiftedEnough(current, want)
  {
    forall k | 0 <= k < |want| && |current| == |want|
      ensures Abs(want[k] - current[k]) >= MIN_SHIFT <==> want[k] - current[k] >= 0.1 || current[k] - want[k] >= 0.1
    {
    }
  }

  /** The rank the plan drops, if any. */
  ghost predicate DropIs(reports: Reports, world: nat, drop: int) {
    var rates := Rates(reports, world);
    drop == if SumAt(SyncedOf(reports), reports.Keys, world) > 0.0 && Sum(rates) > 0.0 then
      WorstFreeloader(rates, Sum(rates), SumAt(SamplesOf(reports), reports.Keys, world), MeanSync(reports, world))
    else -1
  }

  lemma PlanInParts(reports: Reports, current: Vec, world: nat, drop: int)
    requires Measured(reports, world) && Sum(Rates(reports, world)) > 0.0 && DropIs(reports, world, drop)
    ensures var best := Proportional(Rates(reports, world));
      PlanRebalance(reports, current, world) ==
        if drop >= 0 then Drop(drop) else if !ShiftedEnough(current, best) then Keep else Refit(best)
  {
    hide Measured, Rates, Sum, SumAt, WorstFreeloader, MeanSync, Proportional, ShiftedEnough;
  }

  lemma DropFreeloads(reports: Reports, world: nat) returns (drop: int)
    requires Complete(reports, world)
    ensures drop >= -1 && DropIs(reports, world, drop) && forall k: nat :: Freeloads(reports, world, k) <==> drop == k
  {
    var t, rates := TotalsOf(reports, world), Rates(reports, world);
    WaitingIs(reports, world);
    ReckonedAs(reports, world);
    SpeedIsPositive(rates);
    hide Complete, Speed, Sum, SumAt, TotalsOf, Freeloads, Rates, WorstFreeloader, MeanSync, MeanWait;
    if t.waiting > 0 {
      drop := WorstFreeloader(rates, t.speed, t.samples as real, MeanWait(t));
      FreeloaderIs(reports, world, 0);
      forall k: nat
        ensures Freeloads(reports, world, k) <==> drop == k
      {
        FreeloaderIs(reports, world, k);
      }
    } else {
      drop := -1;
      forall k: nat
        ensures !Freeloads(reports, world, k)
      {
        NobodyWaits(reports, world, k);
      }
    }
  }

  /** The plan, from any reports: nothing until every rank has measured itself; then the slowest rank is dropped exactly when it is
      not the lead and the ring's step is shorter without it; else the ranks get shares in proportion to their speeds, if some share
      is off by a tenth. */
  lemma PlanIs(reports: Reports, current: Vec, world: nat)
    ensures var plan := PlanRebalance(reports, current, world);
      if !Complete(reports, world) then plan == Keep
      else match plan
        case Drop(rank) => Freeloads(reports, world, rank)
        case Refit(v) => (forall k: nat :: !Freeloads(reports, world, k)) && InProportion(reports, world, v) && Off(current, v)
        case Keep => (forall k: nat :: !Freeloads(reports, world, k)) && forall v | InProportion(reports, world, v) :: !Off(current, v)
  {
    CompleteIff(reports, world);
    if Complete(reports, world) {
      var drop := DropFreeloads(reports, world);
      ProportionIs(reports, world, []);
      var best := Proportional(Rates(reports, world));
      PlanInParts(reports, current, world, drop);
      OffIs(current, best);
      hide *;
      forall v
        ensures InProportion(reports, world, v) <==> v == best
      {
        ProportionIs(reports, world, v);
      }
    } else {
      hide Measured, Complete;
    }
  }

  lemma WaitingIs(reports: Reports, world: nat)
    requires Complete(reports, world)
    ensures var t := TotalsOf(reports, world);
      && t.samples as real == SumAt(SamplesOf(reports), reports.Keys, world)
      && t.waiting as real == SumAt(SyncedOf(reports), reports.Keys, world)
      && (t.waiting > 0 ==> MeanSync(reports, world) == MeanWait(t))
  {
    TotalsAre(reports, world, world);
  }

  /** Three ranks of 100 ms a step, the last with half the samples of the others, and a sync of 40 ms. */
  function SlowThird(sync: real): Reports {
    map[0 := Report(100.0, sync, 10), 1 := Report(100.0, sync, 10), 2 := Report(100.0, sync, 5)]
  }

  lemma SlowThirdAdds(sync: real)
    requires sync > 0.0
    ensures Complete(SlowThird(sync), 3) && TotalsOf(SlowThird(sync), 3) == Totals(250.0, 25, 3.0 * sync, 3)
    ensures forall k | k == 0 || k == 1 :: Speed(SlowThird(sync)[k]) == 100.0
    ensures Speed(SlowThird(sync)[2]) == 50.0
  {
    var r := SlowThird(sync);
    assert TotalsOf(r, 0) == Totals(0.0, 0, 0.0, 0);
    assert TotalsOf(r, 1) == Totals(100.0, 10, sync, 1);
    assert TotalsOf(r, 2) == Totals(200.0, 20, sync + sync, 2);
  }

  lemma SlowThirdStep(sync: real)
    requires sync > 0.0
    ensures Freeloads(SlowThird(sync), 3, 2) <==> sync > 50.0
    ensures forall k | Freeloads(SlowThird(sync), 3, k) :: k == 2
  {
    SlowThirdAdds(sync);
    var s := sync / 1000.0;
    assert 3.0 * sync / 3 as real / 1000.0 == s;
    assert HopFewer(s, 3) == s / 2.0;
    assert Together(25.0, 200.0, s / 2.0) == 0.125 + s / 2.0 && Together(25.0, 250.0, s) == 0.1 + s;
    hide TotalsOf, Speed, Together, HopFewer;
  }

  lemma SlowThirdShares(sync: real, v: Vec)
    requires sync > 0.0 && InProportion(SlowThird(sync), 3, v)
    ensures v == [0.4, 0.4, 0.2]
  {
    SlowThirdAdds(sync);
    hide TotalsOf, Speed, Complete;
    assert v[0] * 250.0 == 100.0 && v[1] * 250.0 == 100.0 && v[2] * 250.0 == 50.0;
  }

  /** A rank that earns its place is kept: at 40 ms a sync, dropping the slow third rank would save 20 ms and cost 25. At 60 ms it is
      dropped. */
  lemma SlowThirdIsKept()
    ensures PlanRebalance(SlowThird(40.0), [0.4, 0.4, 0.2], 3) == Keep
    ensures PlanRebalance(SlowThird(60.0), [0.4, 0.4, 0.2], 3) == Drop(2)
  {
    hide *;
    var current := [0.4, 0.4, 0.2];
    SlowThirdStep(40.0);
    SlowThirdStep(60.0);
    SlowThirdAdds(40.0);
    SlowThirdAdds(60.0);
    PlanIs(SlowThird(40.0), current, 3);
    PlanIs(SlowThird(60.0), current, 3);
    NotOff(current);
    forall v | InProportion(SlowThird(40.0), 3, v)
      ensures v == current
    {
      SlowThirdShares(40.0, v);
    }
  }

  lemma NotOff(v: Vec)
    ensures !Off(v, v)
  {
  }

  // ---- one rank alone, and DiLoCo ----

  /** The milliseconds a step of the ring's samples takes one rank alone. */
  function Alone(r: Report, samples: int): real
    requires r.samples > 0
  {
    samples as real * r.step / r.samples as real
  }

  /** The milliseconds a rank's step takes when it syncs every so many steps. */
  function Shared(r: Report, every: int): real
    requires every > 0
  {
    r.step + r.sync / every as real
  }

  /** As many ranks as are live have reported steps, samples and syncs, and nobody else has reported anything less. */
  ghost predicate AllIn(reports: Reports, live: int) {
    2 <= live <= |reports| && forall k | k in reports :: reports[k].step > 0.0 && reports[k].samples > 0 && reports[k].sync > 0.0
  }

  function StepsBetween(syncEvery: int): (every: int)
    ensures every > 0
  {
    if syncEvery > 1 then syncEvery else 1
  }

  /** The samples of every rank there is a report of, up to this rank. */
  function SamplesOfAll(reports: Reports, n: nat): int {
    if n == 0 then 0 else SamplesOfAll(reports, n - 1) + if n - 1 in reports then reports[n - 1].samples else 0
  }

  lemma {:induction false} SamplesAre(reports: Reports, n: nat)
    ensures SamplesOfAll(reports, n) as real == SumAt(SamplesOf(reports), reports.Keys, n)
  {
    if n > 0 {
      SamplesAre(reports, n - 1);
    }
  }

  lemma AllInIff(reports: Reports, live: int)
    ensures AllIn(reports, live) <==> SoloMeasured(reports, live)
  {
    forall k | k in reports
      ensures Rate(reports[k]) > 0.0 <==> reports[k].step > 0.0 && reports[k].samples > 0
    {
      if reports[k].step > 0.0 && reports[k].samples > 0 {
        SpeedIsRate(reports[k]);
      }
    }
  }

  lemma SharedIs(r: Report, every: int)
    requires every > 0
    ensures Shared(r, every) == StepCost(r, every as real)
  {
  }

  lemma AloneIs(r: Report, samples: int)
    requires r.step > 0.0 && r.samples > 0
    ensures Rate(r) > 0.0 && Alone(r, samples) == SoloTime(samples as real, Rate(r))
  {
    SpeedIsRate(r);
    var n, s, v := r.samples as real, samples as real, Speed(r);
    assert v * r.step == n * 1000.0;
    var a := Alone(r, samples);
    var q := s / v;
    assert a * n == s * r.step && q * v == s;
    // a n v == s step v == s n 1000 == 1000 q v n
    assert a * n * v == s * (v * r.step) by { assert a * n * v == s * r.step * v; }
    assert s * (v * r.step) == q * v * n * 1000.0 by { assert s * (v * r.step) == s * (n * 1000.0) == q * v * (n * 1000.0); }
    assert (a - 1000.0 * q) * (n * v) == 0.0 by {
      assert (a - 1000.0 * q) * (n * v) == a * n * v - q * v * n * 1000.0;
    }
    PositiveProduct(n, v, n * v);
    if a - 1000.0 * q > 0.0 {
      PositiveProduct(a - 1000.0 * q, n * v, (a - 1000.0 * q) * (n * v));
    } else if a - 1000.0 * q < 0.0 {
      PositiveProduct(1000.0 * q - a, n * v, (1000.0 * q - a) * (n * v));
    }
  }

  /** This rank alone, doing everybody's samples, beats every rank's step as it is by a tenth. */
  ghost predicate AlonePays(reports: Reports, live: int, syncEvery: int, n: nat, k: nat)
    requires AllIn(reports, live)
  {
    k in reports && forall j | j in reports ::
      Alone(reports[k], SamplesOfAll(reports, n)) * 1.1 < Shared(reports[j], StepsBetween(syncEvery))
  }

  /** The steps between syncs that so many ranks may go. */
  function Spacing(live: int): (every: int)
    ensures every > 0
  {
    if live <= 2 then 32 else if live == 3 then 16 else 4
  }

  /** At that spacing this rank's step beats every rank's step as it is by a tenth, and, where one rank alone is on offer, the
      fastest of them alone. */
  ghost predicate SpacingPays(reports: Reports, live: int, syncEvery: int, n: nat, fixed: bool, k: nat)
    requires AllIn(reports, live)
  {
    k in reports && forall j | j in reports ::
      && Shared(reports[k], Spacing(live)) * 1.1 < Shared(reports[j], StepsBetween(syncEvery))
      && (!fixed ==> Shared(reports[k], Spacing(live)) * 1.1 < Alone(reports[j], SamplesOfAll(reports, n)))
  }

  /** The slower of two ranks takes longer alone. */
  lemma AloneOrder(a: Report, b: Report, samples: int)
    requires a.step > 0.0 && a.samples > 0 && b.step > 0.0 && b.samples > 0 && samples > 0 && Rate(b) <= Rate(a)
    ensures Alone(a, samples) <= Alone(b, samples)
  {
    AloneIs(a, samples);
    AloneIs(b, samples);
    InverseOrder(samples as real, Rate(b), Rate(a));
    hide Rate, Alone;
  }

  lemma {:induction false} SamplesPositive(reports: Reports, live: int, n: nat, k: nat)
    requires AllIn(reports, live)
    ensures SamplesOfAll(reports, n) >= 0 && (k in reports && k < n ==> SamplesOfAll(reports, n) > 0)
  {
    if n > 0 {
      SamplesPositive(reports, live, n - 1, k);
    }
  }

  /** What planSolo compares: the fastest rank alone, and the lowest step as it is. */
  lemma ComparedAre(reports: Reports, live: int, syncEvery: int, n: nat, s: Solo, k: nat)
    requires IsSolo(reports, live, syncEvery, n, s) && AllIn(reports, live) && forall j | j in reports :: j < n
    requires IsFastest(reports, k)
    ensures s.Compared? && s.solo == Alone(reports[k], SamplesOfAll(reports, n))
    ensures forall j | j in reports :: s.solo <= Alone(reports[j], SamplesOfAll(reports, n))
    ensures forall j | j in reports :: s.split <= Shared(reports[j], StepsBetween(syncEvery))
    ensures exists j | j in reports :: s.split == Shared(reports[j], StepsBetween(syncEvery))
  {
    AllInIff(reports, live);
    SamplesAre(reports, n);
    SamplesPositive(reports, live, n, k);
    AloneIs(reports[k], SamplesOfAll(reports, n));
    assert StepsBetween(syncEvery) as real == Interval(syncEvery);
    forall j | j in reports
      ensures Shared(reports[j], StepsBetween(syncEvery)) == StepCost(reports[j], Interval(syncEvery))
      ensures Alone(reports[k], SamplesOfAll(reports, n)) <= Alone(reports[j], SamplesOfAll(reports, n))
    {
      SharedIs(reports[j], StepsBetween(syncEvery));
      AloneOrder(reports[k], reports[j], SamplesOfAll(reports, n));
    }
    hide Alone, Shared, StepCost, Rate, SumAt, SamplesOfAll, SoloTime;
  }

  /** One rank alone is on offer exactly when some rank alone beats every rank's step; and it is a fastest one then. */
  lemma AlonePaysIff(reports: Reports, live: int, syncEvery: int, n: nat, s: Solo)
    requires IsSolo(reports, live, syncEvery, n, s) && forall j | j in reports :: j < n
    ensures SoloPays(s) <==> AllIn(reports, live) && exists k :: AlonePays(reports, live, syncEvery, n, k)
    ensures SoloPays(s) ==> forall k | IsFastest(reports, k) :: AlonePays(reports, live, syncEvery, n, k)
  {
    AllInIff(reports, live);
    if AllIn(reports, live) {
      var k :| IsFastest(reports, k) && Rate(reports[k]) > 0.0
        && s.solo == SoloTime(SumAt(SamplesOf(reports), reports.Keys, n), Rate(reports[k]));
      ComparedAre(reports, live, syncEvery, n, s, k);
      forall f | IsFastest(reports, f)
        ensures s.solo == Alone(reports[f], SamplesOfAll(reports, n))
      {
        ComparedAre(reports, live, syncEvery, n, s, f);
      }
      hide IsSolo, IsFastest, AllIn, Alone, Shared, SamplesOfAll, SumAt, Rate, SoloTime;
      if SoloPays(s) {
        assert AlonePays(reports, live, syncEvery, n, k);
      }
    }
  }

  /** Rare syncs are switched to exactly when up to four ranks are live and some rank's step beats all there is to beat. */
  lemma SpacingPaysIff(reports: Reports, live: int, syncEvery: int, n: nat, s: Solo, fixed: bool, fast: real, ok: bool)
    requires IsSolo(reports, live, syncEvery, n, s) && forall j | j in reports :: j < n
    requires match s
      case Unmeasured => !ok
      case Compared(solo, split) => IsDiLoCo(reports, live, if fixed then None else Some(solo), split, fast, ok)
    ensures ok <==> AllIn(reports, live) && live <= 4 && exists k :: SpacingPays(reports, live, syncEvery, n, fixed, k)
  {
    AllInIff(reports, live);
    if AllIn(reports, live) {
      var k :| IsFastest(reports, k) && Rate(reports[k]) > 0.0
        && s.solo == SoloTime(SumAt(SamplesOf(reports), reports.Keys, n), Rate(reports[k]));
      ComparedAre(reports, live, syncEvery, n, s, k);
      TimesArePositive(reports, live, syncEvery, n, s, k);
      if live <= 4 {
        assert DiLoCoEvery(live) == Spacing(live);
        forall j | j in reports
          ensures Shared(reports[j], Spacing(live)) == StepCost(reports[j], Spacing(live) as real)
        {
          SharedIs(reports[j], Spacing(live));
        }
        hide IsSolo, IsFastest, Alone, Shared, SamplesOfAll, SumAt, Rate, SoloTime, StepCost, SoloMeasured, DiLoCoEvery, Spacing;
        SpacingDecides(reports, live, syncEvery, n, s, fixed, fast, ok, k);
      }
    }
  }

  lemma TimesArePositive(reports: Reports, live: int, syncEvery: int, n: nat, s: Solo, k: nat)
    requires AllIn(reports, live) && s.Compared? && k in reports && k < n && s.solo == Alone(reports[k], SamplesOfAll(reports, n))
    requires exists j | j in reports :: s.split == Shared(reports[j], StepsBetween(syncEvery))
    ensures s.solo > 0.0 && s.split > 0.0
  {
    SamplesPositive(reports, live, n, k);
    var r, total := reports[k], SamplesOfAll(reports, n) as real;
    assert s.solo * r.samples as real == total * r.step;
    PositiveProduct(total, r.step, total * r.step);
    if s.solo <= 0.0 {
      ProductNotNegative(-s.solo, r.samples as real);
    }
    var j :| j in reports && s.split == Shared(reports[j], StepsBetween(syncEvery));
    QuotientSigns(reports[j].sync, StepsBetween(syncEvery) as real, reports[j].sync / StepsBetween(syncEvery) as real);
  }

  lemma SpacingDecides(reports: Reports, live: int, syncEvery: int, n: nat, s: Solo, fixed: bool, fast: real, ok: bool, k: nat)
    requires AllIn(reports, live) && live <= 4 && s.Compared? && s.solo > 0.0 && s.split > 0.0
    requires k in reports && s.solo == Alone(reports[k], SamplesOfAll(reports, n))
    requires forall j | j in reports :: s.solo <= Alone(reports[j], SamplesOfAll(reports, n))
    requires forall j | j in reports :: s.split <= Shared(reports[j], StepsBetween(syncEvery))
    requires exists j | j in reports :: s.split == Shared(reports[j], StepsBetween(syncEvery))
    requires DiLoCoEvery(live) == Spacing(live)
    requires forall j | j in reports :: Shared(reports[j], Spacing(live)) == StepCost(reports[j], Spacing(live) as real)
    requires IsDiLoCo(reports, live, if fixed then None else Some(s.solo), s.split, fast, ok)
    ensures ok <==> exists j :: SpacingPays(reports, live, syncEvery, n, fixed, j)
  {
    hide Alone, Shared, SamplesOfAll, StepCost, DiLoCoEvery, Spacing, StepsBetween;
    var j :| j in reports && fast == StepCost(reports[j], Spacing(live) as real);
    if ok {
      assert SpacingPays(reports, live, syncEvery, n, fixed, j);
    }
    if i: nat :| SpacingPays(reports, live, syncEvery, n, fixed, i) {
      assert fast <= Shared(reports[i], Spacing(live));
    }
  }
}
