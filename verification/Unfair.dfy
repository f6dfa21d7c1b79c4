/** Runs of the board, from its start, in which a dropped rank is left with data, or a down report leaves a round waiting for
    nobody. */
module Unfair {
  import opened Wrappers
  import opened Counting
  import opened Vectors
  import opened Reduce
  import opened Messages
  import opened Shares
  import opened Rebalance
  import opened Protocol
  import opened Rounds
  import opened Verdicts
  import opened Closing
  import opened Joining
  import opened Sharing
  import opened Scenarios

  // ---- steps ----

  /** A report about a rank past the ring's size. */
  lemma OutsiderDown(s: State, rank: nat, world: nat, order: seq<Key>)
    requires Sound(s) && world >= 2 && rank < world && Enumerates(order, s.open.Keys) && 0 < s.run.ring.world <= rank
    ensures Step(s, DownEvent(rank, world, order)) == s.(run := s.run.(ring := s.run.ring.(dropped := s.run.ring.dropped + {rank})))
  {
    hide CloseAll, Enumerates, SoundRound;
  }

  // ---- a joiner on an index reported down ----

  /** One sync of a ring of two that may grow, and the index after it reported down. */
  ghost predicate Forgotten(s: State) {
    && Sound(s) && s.run.ring.world == 2 && s.run.ring.dropped == {2} && s.run.lastSeq == 1 && s.run.aborted.None?
    && s.run.mode.sharded && !s.run.mode.released && s.run.joins.join.None?
  }

  lemma ReachForgotten(s: State, order: seq<Key>)
    requires Everybody(Both(), 2) && Synced(s, 1, 2, Both(), true) && Enumerates(order, s.open.Keys)
    ensures Forgotten(Step(s, DownEvent(2, 3, order)))
  {
    SyncedHas(s, 1, 2, Both(), true);
    OutsiderDown(s, 2, 3, order);
    hide Step, SoundRun, SoundRound, ReportedBy, Everybody, Enumerates, Synced;
  }

  lemma JoinsAllTheSame(s: State)
    requires Forgotten(s)
    ensures var ring := Step(s, JoinEvent(2, false)).run.ring;
      2 in ring.dropped && |ring.weights| == 3 && ring.weights[2] > 0.0
  {
    LeadHandsOver({2}, 2);
    hide SharesWith, SoundRound, Fitting, LowestLive;
    assert Admissible(s.run, 2);
    assert Step(s, JoinEvent(2, false)) == s.(run := Admit(s.run, 2));
    hide Step, Admissible;
    assert s.run.ring.dropped + Skipped(2, 2) == {2};
    AverageIsPositive(s.run.ring.weights);
  }

  lemma AverageIsPositive(weights: Vec)
    ensures SharesWith(weights, 2, {2}, 3)[2] > 0.0
  {
    NewcomerTakesAverage(weights, 2, {2}, 3);
    hide SharesWithout, Live, SharesWith;
    PositiveFactor(SharesWith(weights, 2, {2}, 3)[2], Live(SharesWithout(if |weights| == 2 then weights else Ones(2), {2}), {2}));
  }

  lemma PositiveFactor(x: real, n: nat)
    requires x * (n + 1) as real == 1.0
    ensures x > 0.0
  {
    if x <= 0.0 {
      ProductNotNegative(-x, (n + 1) as real);
    }
  }

  /** It happens: after one sync of a ring of two, rank 2 is reported down before it joined, and another joiner is admitted on its
      index: it is given a share, and the ring counts it as dropped. */
  lemma DeadIndexIsShared() returns (events: seq<Event>, e: Event)
    ensures SharesFit(Exec(Start(), events).run.ring) && Spoils(Exec(Start(), events), e)
    ensures var ring := Exec(Start(), events + [e]).run.ring;
      2 in ring.dropped && |ring.weights| == 3 && ring.weights[2] > 0.0
  {
    hide *;
    BothEvery();
    events, e := Warm(1, 2, Both(), true), JoinEvent(2, false);
    WarmIsSynced(1, 2, Both(), true);
    var s := Exec(Start(), events);
    SyncedShares(s, 1, 2, Both(), true);
    var order := SomeOrder(s.open.Keys);
    OneEventMore(events, DownEvent(2, 3, order));
    ReachForgotten(s, order);
    StepFairIff(s, DownEvent(2, 3, order));
    DownNeverSpoils(s, DownEvent(2, 3, order));
    events := events + [DownEvent(2, 3, order)];
    OneEventMore(events, e);
    var s1 := Exec(Start(), events);
    JoinsAllTheSame(s1);
    SharedDeadUnfair(Step(s1, e).run.ring, 2);
    StepFairIff(s1, e);
  }

  lemma SyncedShares(s: State, n: nat, world: nat, members: seq<Member>, sharded: bool)
    requires Everybody(members, world) && Synced(s, n, world, members, sharded)
    ensures Sound(s) && SharesFit(s.run.ring)
  {
    SyncedHas(s, n, world, members, sharded);
    hide Synced, SoundRun, SoundRound, ReportedBy;
    assert Proper([], s.run.ring.dropped);
  }

  lemma DownNeverSpoils(s: State, e: Event)
    requires Sound(s) && e.DownEvent?
    ensures !Spoils(s, e)
  {
  }

  lemma SharedDeadUnfair(ring: Ring, rank: nat)
    requires rank in ring.dropped && rank < |ring.weights| && ring.weights[rank] > 0.0
    ensures !SharesFit(ring)
  {
  }

  // ---- a freeloader's report outlives it ----

  /** Rank 0 has become slow, and rank 1 has not. */
  function Slow(): seq<Member> {
    [Member(0, 1000.0, 0.0, 1), Member(1, 1.0, 0.0, 10)]
  }

  function ThinRun(n: nat, reports: Reports, news: News): Run {
    Run(Ring(3, {2}, [], reports), news, Joins(None, None, [], []), Mode(false, false, false, false, false, 0), map[], n, n, None)
  }

  /** A ring of three goes on without the third, whose report is still there. */
  ghost predicate Thinned(s: State, n: nat, slow: bool) {
    && Sound(s) && s.run == ThinRun(n, s.run.ring.reports, s.run.news) && (forall k | k in s.open :: k.seqNo <= n)
    && s.run.ring.reports.Keys == {0, 1, 2} && s.run.ring.reports[2] == Report(1.0, 1000000.0, 1)
    && (slow ==> s.run.ring.reports[0] == Report(1000.0, 0.0, 1) && s.run.ring.reports[1] == Report(1.0, 0.0, 10))
  }

  /** Two reports taken down. */
  lemma TwoReport(ring: Ring, a: Member, b: Member)
    requires Below(ring) && ring.world == 3 && 2 in ring.dropped && 0 !in ring.dropped && 1 !in ring.dropped
    requires a.rank == 0 && b.rank == 1 && a.step > 0.0 && b.step > 0.0 && a.samples >= 0 && b.samples >= 0
    ensures var r := ObserveAll(ring, [a, b]);
      r == ring.(reports := ring.reports[0 := Report(a.step, a.sync, a.samples)][1 := Report(b.step, b.sync, b.samples)])
  {
    var m := [a, b];
    assert m[..1] == [a] && m[..1][..0] == [];
    assert ObserveAll(ring, []) == ring && ObserveAll(ring, m[..1]) == Observe(ring, a);
    assert ObserveAll(ring, m) == Observe(ObserveAll(ring, m[..1]), b);
  }

  lemma SlowIn()
    ensures Slow() != [] && InRing(Slow(), 3) && InRing(Pairing(), 3) && Pairing() != []
  {
  }

  lemma ThinHeard(run: Run, n: nat)
    requires SoundRun(run) && 20 <= n <= 38 && run == ThinRun(n, run.ring.reports, run.news)
    requires run.ring.reports.Keys == {0, 1, 2}
    ensures var req := Plain(n + 1, 3, Slow(), false);
      && ValidRequest(req) && ChoiceFits(run, req, NOTHING)
      && Heard(run, req, NOTHING)
        == ThinRun(n + 1, run.ring.reports[0 := Report(1000.0, 0.0, 1)][1 := Report(1.0, 0.0, 10)], run.news)
  {
    SlowIn();
    var req := Plain(n + 1, 3, Slow(), false);
    PlainIsValid(n + 1, 3, Slow(), false);
    ThinFields(run, n);
    QuietHeard(run, req, NOTHING);
    var ring := LeadFields(run, req).ring;
    TwoReport(ring, Slow()[0], Slow()[1]);
    assert Slow() == [Slow()[0], Slow()[1]];
    hide Heard, ChoiceFits, LeadFields, ObserveAll, Below, Fitting, Quiet;
  }

  lemma ThinFields(run: Run, n: nat)
    requires SoundRun(run) && 20 <= n <= 38 && run == ThinRun(n, run.ring.reports, run.news)
    ensures var req := Plain(n + 1, 3, Slow(), false);
      && ValidRequest(req) && Quiet(run, req) && Advances(run, req)
      && LeadFields(run, req) == ThinRun(n + 1, run.ring.reports, run.news).(round := n)
  {
    SlowIn();
    PlainIsValid(n + 1, 3, Slow(), false);
    hide Fitting, Below;
  }

  lemma ThinStep(s: State, n: nat, slow: bool)
    requires Thinned(s, n, slow) && 20 <= n <= 38
    ensures Slow() != [] && Thinned(Step(s, PostEvent(Plain(n + 1, 3, Slow(), false), NOTHING)), n + 1, true)
  {
    hide *;
    SlowIn();
    var req := Plain(n + 1, 3, Slow(), false);
    PlainIsValid(n + 1, 3, Slow(), false);
    ThinnedHas(s, n, slow);
    ThinHeard(s.run, n);
    FreshPost(s, NOTHING, n + 1, 3, Slow(), false);
    PostSteps(s, req);
    OpensHas(s, Post(s, req, NOTHING), req, Heard(s.run, req, NOTHING));
    ThinnedIs(s, Post(s, req, NOTHING), n, slow);
  }

  lemma ThinnedHas(s: State, n: nat, slow: bool)
    requires Thinned(s, n, slow)
    ensures Sound(s) && SoundRun(s.run) && s.run == ThinRun(n, s.run.ring.reports, s.run.news) && s.run.aborted.None?
    ensures s.run.ring.reports.Keys == {0, 1, 2} && Key(n + 1, 0) !in s.open
  {
    hide SoundRound;
  }

  lemma ThinnedIs(s: State, t: State, n: nat, slow: bool)
    requires Thinned(s, n, slow) && Sound(t) && t.open == s.open[Key(n + 1, 0) := |s.rounds|]
    requires t.run == ThinRun(n + 1, s.run.ring.reports[0 := Report(1000.0, 0.0, 1)][1 := Report(1.0, 0.0, 10)], s.run.news)
    ensures Thinned(t, n + 1, true)
  {
    hide SoundRun, SoundRound;
  }

  /** After the drop: syncs without the third rank. */
  lemma {:induction false} Thin(events: seq<Event>, n: nat) returns (all: seq<Event>)
    requires Thinned(Exec(Start(), events), 20, false) && 21 <= n <= 39
    ensures Thinned(Exec(Start(), all), n, true)
    decreases n
  {
    hide *;
    SlowIn();
    var e := PostEvent(Plain(n, 3, Slow(), false), NOTHING);
    if n == 21 {
      OneEventMore(events, e);
      ThinStep(Exec(Start(), events), 20, false);
      all := events + [e];
    } else {
      all := Thin(events, n - 1);
      OneEventMore(all, e);
      ThinStep(Exec(Start(), all), n - 1, true);
      all := all + [e];
    }
  }

  /** The drop leaves the third rank's report. */
  lemma ReachThinned(s: State)
    requires Everybody(Trio(), 3) && Synced(s, 19, 3, Trio(), false)
    ensures Thinned(Step(s, PostEvent(Plain(20, 3, Pairing(), false), NOTHING)), 20, false)
  {
    SlowIn();
    var req := Plain(20, 3, Pairing(), false);
    SyncedHas(s, 19, 3, Trio(), false);
    TrioFreeloads(s.run);
    TrioReports(s.run.ring.reports);
    DropHeard(s.run);
    hide Heard, ChoiceFits, Post, Step, Plain, InRing, ValidRequest, Opened, SoundRound, SoundRun, ReportedBy, Everybody, PostDrops;
    FreshPost(s, NOTHING, 20, 3, Pairing(), false);
    assert KeyOf(req) == Key(20, 0) by { PlainIsValid(20, 3, Pairing(), false); }
    PostSteps(s, req);
  }

  lemma TrioReports(reports: Reports)
    requires Everybody(Trio(), 3) && ReportedBy(reports, Trio(), 3)
    ensures reports.Keys == {0, 1, 2} && reports[0] == Report(1.0, 0.0, 10) && reports[1] == Report(1.0, 1000000.0, 10)
    ensures reports[2] == Report(1.0, 1000000.0, 1)
  {
    UpToThree();
    hide UpTo;
  }

  lemma DropHeard(run: Run)
    requires SoundRun(run) && Everybody(Trio(), 3) && ReportedBy(run.ring.reports, Trio(), 3)
    requires run == QuietRun(19, 3, run.ring.reports, false)
    ensures var req := Plain(20, 3, Pairing(), false);
      && ValidRequest(req) && ChoiceFits(run, req, NOTHING)
      && var run' := Heard(run, req, NOTHING);
        && run' == ThinRun(20, run'.ring.reports, run'.news)
        && run'.ring.reports.Keys == {0, 1, 2} && run'.ring.reports[2] == Report(1.0, 1000000.0, 1)
  {
    hide *;
    SlowIn();
    var req := Plain(20, 3, Pairing(), false);
    PlainIsValid(20, 3, Pairing(), false);
    TrioFields(run);
    TrioFreeloads(run);
    DueReports(20, run.ring.reports);
    var run0 := LeadFields(run, req);
    TrioChoice(run0);
    TrioReports(run.ring.reports);
    DropRun(run0);
    LeadPublishes(run, req);
    PairingHeard(run, req);
  }

  lemma DueReports(n: nat, reports: Reports)
    ensures Due20(3, reports, false).ring.reports == reports
  {
  }

  lemma LeadPublishes(run: Run, req: Request)
    requires ValidRequest(req) && SoundRun(run) && ChoiceFits(run, req, NOTHING) && req.shard == 0 && Advances(run, req)
    requires var run0 := LeadFields(run, req);
      && run0 == Due20(3, run.ring.reports, false) && Offered(run0, NOTHING)
      && RebalanceFor(run0, NOTHING) == (run0.(round := 20, ring := run0.ring.(dropped := {2})), Some(DropNote(2)))
    ensures var r := LeadPart(run, req, NOTHING); r == ThinRun(20, run.ring.reports, r.news)
  {
    hide RebalanceFor, LeadFields, ChoiceFits, Offered, SoundRun, ValidRequest, Advances;
  }

  lemma PairingHeard(run: Run, req: Request)
    requires ValidRequest(req) && SoundRun(run) && ChoiceFits(run, req, NOTHING) && req.shard == 0
    requires Reporters(req) == Pairing() && run.ring.reports.Keys == {0, 1, 2} && run.ring.reports[2] == Report(1.0, 1000000.0, 1)
    requires var r := LeadPart(run, req, NOTHING); r == ThinRun(20, run.ring.reports, r.news)
    ensures var r := Heard(run, req, NOTHING);
      && r == ThinRun(20, r.ring.reports, r.news)
      && r.ring.reports.Keys == {0, 1, 2} && r.ring.reports[2] == Report(1.0, 1000000.0, 1)
  {
    var run1 := LeadPart(run, req, NOTHING);
    assert Pairing() == [Pairing()[0], Pairing()[1]];
    hide LeadPart, ChoiceFits, ValidRequest, Reporters, ObserveAll, Fitting;
    TwoReport(run1.ring, Pairing()[0], Pairing()[1]);
  }

  lemma DropRun(run: Run)
    requires SoundRun(run) && Everybody(Trio(), 3) && ReportedBy(run.ring.reports, Trio(), 3)
    requires run == Due20(3, run.ring.reports, false) && Offered(run, NOTHING)
    ensures RebalanceFor(run, NOTHING)
      == (run.(round := 20, ring := run.ring.(dropped := {2})), Some(DropNote(2)))
  {
    hide *;
    TrioDrops(run.ring.reports);
    DueDecides(run);
    DropsOne(run, 2);
    assert {} + {2} == {2};
  }

  lemma DueDecides(run: Run)
    requires SoundRun(run) && run == Due20(3, run.ring.reports, false) && Offered(run, NOTHING)
    ensures OnCadence(run) && !run.mode.fixed && run.round == 19 && run.ring.dropped == {} && run.ring.weights == []
    ensures run.ring.world == 3 && SoloFor(run, NOTHING) == (run, None)
  {
    hide Fitting, Below;
  }

  /** A refit whose plan is to drop a rank. */
  lemma DropsOne(run: Run, rank: nat)
    requires SoundRun(run) && OnCadence(run) && Offered(run, NOTHING) && !run.mode.fixed && rank !in run.ring.dropped
    requires SoloFor(run, NOTHING) == (run, None)
    requires PlanRebalance(run.ring.reports, run.ring.weights, run.ring.world) == Drop(rank)
    ensures RebalanceFor(run, NOTHING)
      == (run.(round := run.round + 1, ring := run.ring.(dropped := run.ring.dropped + {rank})), Some(DropNote(rank)))
  {
    SoloLater(run);
    hide PlanRebalance, SoloFor, Fitting, Below;
  }

  lemma SoloLater(run: Run)
    requires SoundRun(run) && Offered(run, NOTHING) && SoloFor(run, NOTHING) == (run, None)
    ensures SoloFor(run.(round := run.round + 1), NOTHING) == (run.(round := run.round + 1), None)
  {
    hide Fitting, Below;
  }

  // ---- and the next refit counts on it ----

  lemma SlowRates(r: Reports)
    requires r.Keys == {0, 1, 2} && r[0] == Report(1000.0, 0.0, 1) && r[1] == Report(1.0, 0.0, 10)
    requires r[2] == Report(1.0, 1000000.0, 1)
    ensures Measured(r, 3) && Rates(r, 3) == [1.0, 10000.0, 1000.0] && Sum(Rates(r, 3)) == 11001.0
    ensures !SoloMeasured(r, 2)
  {
    var members := [Member(0, 1000.0, 0.0, 1), Member(1, 1.0, 0.0, 10), Member(2, 1.0, 1000000.0, 1)];
    assert Rate(r[0]) == 1.0 && Rate(r[1]) == 10000.0 && Rate(r[2]) == 1000.0;
    UpToThree();
    hide Rate, SumAt, UpTo, Rates, Sum, Measured;
    assert Everybody(members, 3) && ReportedBy(r, members, 3);
    hide Everybody, ReportedBy;
    ThreeRates(r, members);
  }

  lemma SlowestIsFirst(rates: Vec)
    requires rates == [1.0, 10000.0, 1000.0]
    ensures Slowest(rates) == 0
  {
  }

  lemma SlowRefits(r: Reports)
    requires r.Keys == {0, 1, 2} && r[0] == Report(1000.0, 0.0, 1) && r[1] == Report(1.0, 0.0, 10)
    requires r[2] == Report(1.0, 1000000.0, 1)
    ensures PlanRebalance(r, [], 3).Refit? && |PlanRebalance(r, [], 3).shares| == 3 && PlanRebalance(r, [], 3).shares[2] > 0.0
  {
    SlowRates(r);
    SlowestIsFirst(Rates(r, 3));
    assert PlanRebalance(r, [], 3).Refit? by {
      hide SumAt, SyncedOf, SyncOf, SamplesOf, Sum, Rates, Measured, MeanSync, Proportional, Slowest;
    }
    hide PlanRebalance;
    RefitIsPositive(r, [], 3);
  }

  lemma FortiethRefits(run: Run)
    requires SoundRun(run) && run == ThinRun(39, run.ring.reports, run.news) && run.ring.reports.Keys == {0, 1, 2}
    requires var r := run.ring.reports;
      r[0] == Report(1000.0, 0.0, 1) && r[1] == Report(1.0, 0.0, 10) && r[2] == Report(1.0, 1000000.0, 1)
    ensures var req := Plain(40, 3, Slow(), false);
      && ValidRequest(req) && ChoiceFits(run, req, NOTHING)
      && var ring := Heard(run, req, NOTHING).ring;
        2 in ring.dropped && |ring.weights| == 3 && ring.weights[2] > 0.0
  {
    SlowIn();
    var req := Plain(40, 3, Slow(), false);
    PlainIsValid(40, 3, Slow(), false);
    FortiethFields(run);
    var run0 := LeadFields(run, req);
    FortiethChoice(run0);
    FortiethRing(run0);
    hide LeadFields, RebalanceFor, IsChoice, Offered, OnCadence, Deciding, Plain, InRing, Fitting, ValidRequest, Slow;
    assert ChoiceFits(run, req, NOTHING);
    var run1 := LeadPart(run, req, NOTHING);
    assert run1.ring == RebalanceFor(run0, NOTHING).0.ring;
    ObservedRing(run1.ring, Reporters(req));
  }

  lemma ObservedRing(ring: Ring, members: seq<Member>)
    requires Below(ring) && forall i | 0 <= i < |members| :: members[i].rank < ring.world
    ensures ObserveAll(ring, members).weights == ring.weights && ObserveAll(ring, members).dropped == ring.dropped
  {
  }

  /** The run as the refit at the fortieth sync sees it. */
  function Due40(reports: Reports, news: News): Run {
    ThinRun(40, reports, news).(round := 39)
  }

  lemma FortiethFields(run: Run)
    requires SoundRun(run) && run == ThinRun(39, run.ring.reports, run.news)
    ensures var req := Plain(40, 3, Slow(), false);
      && ValidRequest(req) && req.shard == 0 && Advances(run, req)
      && LeadFields(run, req) == Due40(run.ring.reports, run.news)
  {
    SlowIn();
    PlainIsValid(40, 3, Slow(), false);
    hide Fitting, Below;
  }

  lemma FortiethChoice(run: Run)
    requires SoundRun(run) && run == Due40(run.ring.reports, run.news) && run.ring.reports.Keys == {0, 1, 2}
    requires var r := run.ring.reports;
      r[0] == Report(1000.0, 0.0, 1) && r[1] == Report(1.0, 0.0, 10) && r[2] == Report(1.0, 1000000.0, 1)
    ensures IsChoice(run, NOTHING) && Offered(run, NOTHING)
  {
    assert 0 in run.ring.reports && run.ring.reports[0].sync == 0.0;
    assert !SoloMeasured(run.ring.reports, LiveCount(run));
    assert !SoloPays(NOTHING.solo) && !run.mode.autoSync;
    hide SoloMeasured, LiveCount, Fitting, Below;
  }

  lemma FortiethRing(run: Run)
    requires SoundRun(run) && run == Due40(run.ring.reports, run.news) && run.ring.reports.Keys == {0, 1, 2}
    requires Offered(run, NOTHING)
    requires var r := run.ring.reports;
      r[0] == Report(1000.0, 0.0, 1) && r[1] == Report(1.0, 0.0, 10) && r[2] == Report(1.0, 1000000.0, 1)
    ensures OnCadence(run)
    ensures var ring := RebalanceFor(run, NOTHING).0.ring; 2 in ring.dropped && |ring.weights| == 3 && ring.weights[2] > 0.0
  {
    SlowRefits(run.ring.reports);
    hide PlanRebalance, Fitting, Below;
  }

  lemma Refits(s: State)
    requires Thinned(s, 39, true)
    ensures var ring := Step(s, PostEvent(Plain(40, 3, Slow(), false), NOTHING)).run.ring;
      2 in ring.dropped && |ring.weights| == 3 && ring.weights[2] > 0.0
  {
    SlowIn();
    var req := Plain(40, 3, Slow(), false);
    FortiethRefits(s.run);
    assert s.run.aborted.None? && Key(40, 0) !in s.open;
    hide Heard, ChoiceFits, Post, Step, Plain, InRing, ValidRequest, Opened, SoundRound, SoundRun;
    FreshPost(s, NOTHING, 40, 3, Slow(), false);
    PostSteps(s, req);
  }

  lemma ThinnedShares(s: State, n: nat, slow: bool)
    requires Thinned(s, n, slow)
    ensures Sound(s) && SharesFit(s.run.ring) && !DeadAreSilent(s.run.ring)
  {
    hide SoundRun, SoundRound;
    assert Proper([], s.run.ring.dropped);
    assert 2 in s.run.ring.reports && 2 in s.run.ring.dropped;
  }

  /** It happens: at the twentieth sync of a ring of three the third rank is dropped as a freeloader, and the other two go on; rank 0
      slows down, and the refit at the fortieth sync, which still has the third rank's report, gives it a share. */
  lemma FreeloaderIsShared() returns (events: seq<Event>, e: Event)
    ensures SharesFit(Exec(Start(), events).run.ring) && Spoils(Exec(Start(), events), e)
    ensures var ring := Exec(Start(), events + [e]).run.ring;
      2 in ring.dropped && |ring.weights| == 3 && ring.weights[2] > 0.0
  {
    hide *;
    PairingIn();
    EverybodyIsIn(Trio(), 3);
    SlowIn();
    events := Warm(19, 3, Trio(), false);
    WarmIsSynced(19, 3, Trio(), false);
    var drop := PostEvent(Plain(20, 3, Pairing(), false), NOTHING);
    OneEventMore(events, drop);
    ReachThinned(Exec(Start(), events));
    events := Thin(events + [drop], 39);
    e := PostEvent(Plain(40, 3, Slow(), false), NOTHING);
    OneEventMore(events, e);
    var s := Exec(Start(), events);
    ThinnedShares(s, 39, true);
    Refits(s);
    SharedDeadUnfair(Step(s, e).run.ring, 2);
    StepFairIff(s, e);
  }

  // ---- a report that leaves a round behind ----

  /** A contribution of both ranks to the second shard of the second sync, in a ring they say has three. */
  function ShardPost(): Request {
    Plain(2, 3, Both(), false).(shard := 1, shards := 2)
  }

  lemma ShardIsSimple()
    ensures Simple(ShardPost(), Both()) && ShardPost().world == 3 && ShardPost().shard == 1 && ShardPost().seqNo == 2
    ensures RanksOf(Both()) == {0, 1} && LiveIn({0, 1}, {}) == 2 && Awaited({}, 3) == 3
  {
    hide *;
    ShardFields();
    Whose();
    NoneBelow(3);
    AwaitsAll(3);
  }

  lemma ShardFields()
    ensures Simple(ShardPost(), Both()) && ShardPost().world == 3 && ShardPost().shard == 1 && ShardPost().seqNo == 2
  {
  }

  lemma AwaitsAll(world: nat)
    requires DropsBelow({}, world) == 0 && world >= 1
    ensures Awaited({}, world) == world
  {
    hide DropsBelow;
  }

  lemma ShardHeard(run: Run)
    requires SoundRun(run) && ValidRequest(ShardPost())
    ensures ChoiceFits(run, ShardPost(), NOTHING) && Heard(run, ShardPost(), NOTHING) == run
  {
    ShardIsSimple();
    hide Fitting, Below;
  }

  /** A round of three is open that lacks only the third rank, in a ring the lead knows as two. */
  ghost predicate Larger(s: State) {
    && Sound(s) && s.run.ring.world == 2 && s.run.ring.dropped == {} && Key(2, 1) in s.open
    && (var r := s.rounds[s.open[Key(2, 1)]]; !Decided(r) && r.seen == {0, 1} && r.world == 3)
    && forall k | k in s.open && k != Key(2, 1) :: Decided(s.rounds[s.open[k]])
  }

  lemma OpenedShard(r: Round)
    requires ValidRequest(ShardPost()) && Opened(r, ShardPost(), {}, {})
    ensures !Decided(r) && r.seen == {0, 1} && r.world == 3
  {
    ShardIsSimple();
    SimpleIsValid(ShardPost(), Both());
  }

  lemma ReachLarger(s: State)
    requires Everybody(Both(), 2) && Synced(s, 1, 2, Both(), false)
    ensures Larger(Step(s, PostEvent(ShardPost(), NOTHING)))
  {
    SyncedHas(s, 1, 2, Both(), false);
    assert s.run.ring.world == 2;
    hide *;
    ShardIsSimple();
    SimpleIsValid(ShardPost(), Both());
    ShardHeard(s.run);
    assert Key(2, 1) !in s.open by { NoSecondYet(s); }
    SimpleFresh(s, NOTHING, ShardPost(), Both());
    PostSteps(s, ShardPost());
    OpensLarger(s, Post(s, ShardPost(), NOTHING));
  }

  lemma NoSecondYet(s: State)
    requires forall k | k in s.open :: k.seqNo <= 1
    ensures Key(2, 1) !in s.open
  {
  }

  lemma OpensLarger(s: State, t: State)
    requires ValidRequest(ShardPost()) && Opens(s, t, ShardPost(), s.run) && Sound(s) && Sound(t)
    requires s.run.ring.world == 2 && s.run.ring.dropped == {} && KeyOf(ShardPost()) == Key(2, 1)
    requires forall k | k in s.open :: Decided(s.rounds[s.open[k]])
    ensures Larger(t)
  {
    hide Opened, ValidRequest, ShardPost, Decided, SoundRun, SoundRound;
    OpenedShard(t.rounds[|s.rounds|]);
    forall k | k in t.open && k != Key(2, 1)
      ensures Decided(t.rounds[t.open[k]])
    {
      assert t.rounds[s.open[k]] == t.rounds[..|s.rounds|][s.open[k]];
    }
  }

  lemma LargerIsFree(s: State)
    requires Larger(s)
    ensures NoneStuck(s) && DownSticks(s, 2, 3)
  {
    ShardIsSimple();
    hide SoundRun, SoundRound, Awaited, LiveIn;
    forall k | k in s.open
      ensures !Stuck(s.run.ring.dropped, s.rounds[s.open[k]])
    {
      DecidedIsFree(s.run.ring.dropped, s.rounds[s.open[k]]);
    }
    var r := s.rounds[s.open[Key(2, 1)]];
    assert 0 in r.seen;
    assert LacksOnly({}, 2, r);
  }

  /** It happens: after one sync in a ring of two, both ranks' machine posts a shard of a ring of three, which the lead has not been
      told of; then rank 2 is reported down. It is past the ring's size, so no round is looked at, and the shard's round has
      everyone and no verdict. */
  lemma DownReportSticks() returns (events: seq<Event>, e: Event)
    ensures NoneStuck(Exec(Start(), events)) && Sticks(Exec(Start(), events), e) && !NoneStuck(Exec(Start(), events + [e]))
  {
    hide *;
    BothEvery();
    events := Warm(1, 2, Both(), false);
    WarmIsSynced(1, 2, Both(), false);
    var shard := PostEvent(ShardPost(), NOTHING);
    OneEventMore(events, shard);
    ReachLarger(Exec(Start(), events));
    events := events + [shard];
    var s := Exec(Start(), events);
    var order := SomeOrder(s.open.Keys);
    e := DownEvent(2, 3, order);
    OneEventMore(events, e);
    LargerIsFree(s);
    NobodyWaitsForNobody(events);
    assert Sticks(s, e) by { DownSticksIs(s, 2, 3, order); }
    StepSticksIff(s, e);
  }

  lemma DownSticksIs(s: State, rank: nat, world: nat, order: seq<Key>)
    requires Sound(s) && world >= 2 && rank < world && Enumerates(order, s.open.Keys)
    ensures Sticks(s, DownEvent(rank, world, order)) <==> DownSticks(s, rank, world)
  {
    hide DownSticks, Enumerates;
  }
}
