/** A rank joining a running ring, over every interleaving: one join at a time, indices that are never reused, and a
    handover that survives its ranks. */
module Joining {
  import opened Wrappers
  import opened Vectors
  import opened Reduce
  import opened Messages
  import opened Shares
  import opened Rebalance
  import opened Protocol
  import opened Rounds
  import opened Verdicts
  import opened Notes
  import opened Closing

  // ---- what holds of a ring that grows ----

  /** Every joiner's index is past the ring it joined, every index it skipped is dropped, and the next joiner's ring
      holds it: no index is ever given to two joiners. */
  ghost predicate Ordered(ring: Ring, admitted: seq<Admitted>) {
    && (forall i | 0 <= i < |admitted| :: admitted[i].oldWorld <= admitted[i].rank < ring.world)
    && (forall i, j | 0 <= i < j < |admitted| :: admitted[i].rank < admitted[j].oldWorld)
    && (forall i, k: nat | 0 <= i < |admitted| && admitted[i].oldWorld <= k < admitted[i].rank :: k in ring.dropped)
  }

  /** A snapshot, once taken, has woken the joiner; before, nothing has. */
  ghost predicate SnapReady(j: Join) {
    j.ready <==> j.snap.Some?
  }

  /** The join in progress is the last one admitted. */
  ghost predicate Current(joins: Joins) {
    joins.join.Some? ==>
      var j := joins.join.value;
      && SnapReady(j) && joins.admitted != [] && j.id == |joins.admitted| - 1
      && joins.admitted[j.id] == Admitted(j.rank, j.oldWorld) && j.oldWorld > 0
  }

  /** Every joiner has been woken once, except the one that is still waiting, which has not been. */
  ghost predicate WokenOnce(joins: Joins) {
    && (forall i, j | 0 <= i < j < |joins.woken| :: joins.woken[i] != joins.woken[j])
    && (forall id: nat :: id in joins.woken <==>
          id < |joins.admitted| && !(joins.join.Some? && joins.join.value.id == id && !joins.join.value.ready))
  }

  ghost predicate JoinsFit(ring: Ring, joins: Joins) {
    && Ordered(ring, joins.admitted) && Current(joins) && WokenOnce(joins)
    && (joins.loading.Some? ==> joins.loading.value.snap.Some? && SnapReady(joins.loading.value))
  }

  /** The rank handing over is the lowest the old ring still has, or -1. */
  ghost predicate Handed(ring: Ring, joins: Joins) {
    joins.join.Some? ==> joins.join.value.from == LowestLive(ring.dropped, joins.join.value.oldWorld)
  }

  /** Rank 0 leaves no report behind, so a ring that has lost it never has everybody's. */
  ghost predicate LeadReports(ring: Ring) {
    0 in ring.dropped ==> 0 !in ring.reports
  }

  ghost predicate RunFits(run: Run) {
    JoinsFit(run.ring, run.joins) && Handed(run.ring, run.joins) && LeadReports(run.ring)
  }

  lemma {:induction false} LowestStays(dropped: set<nat>, more: set<nat>, n: nat)
    requires dropped <= more && (LowestLive(dropped, n) >= 0 ==> LowestLive(dropped, n) !in more)
    ensures LowestLive(more, n) == LowestLive(dropped, n)
  {
    if n > 0 && LowestLive(dropped, n - 1) >= 0 {
      LowestStays(dropped, more, n - 1);
    } else if n > 0 {
      LowestStays(dropped, more, n - 1);
    }
  }

  // ---- ranks going down ----

  lemma EndedWakes(joins: Joins)
    requires WokenOnce(joins) && Current(joins) && joins.join.Some?
    ensures WokenOnce(EndJoin(joins))
  {
    var j := joins.join.value;
    assert j.ready <==> j.id in joins.woken;
  }

  lemma WithoutFits(run: Run, rank: nat)
    requires SoundRun(run) && JoinsFit(run.ring, run.joins) && rank < run.ring.world
    ensures JoinsFit(WithoutRank(run, rank).ring, WithoutRank(run, rank).joins)
  {
    hide SharesWithout, WokenOnce, LowestLive;
    WithoutWakes(run.joins, rank, run.ring.dropped + {rank});
  }

  lemma WithoutWakes(joins: Joins, rank: nat, dropped: set<nat>)
    requires WokenOnce(joins) && Current(joins)
    ensures WokenOnce(JoinWithout(joins, rank, dropped))
  {
    hide LowestLive;
    var j := LoadedBy(joins, rank);
    assert WokenOnce(j) && Current(j);
    if j.join.Some? {
      EndedWakes(j);
    }
  }

  /** A death hands the handover to the lowest rank left when it was that rank's. */
  lemma WithoutHanded(run: Run, rank: nat)
    requires SoundRun(run) && Handed(run.ring, run.joins) && rank < run.ring.world
    ensures Handed(WithoutRank(run, rank).ring, WithoutRank(run, rank).joins)
  {
    hide SharesWithout, LowestLive;
    if run.joins.join.Some? && run.joins.join.value.from != rank {
      LowestStays(run.ring.dropped, run.ring.dropped + {rank}, run.joins.join.value.oldWorld);
    }
  }

  lemma OutsiderHanded(ring: Ring, joins: Joins, rank: nat)
    requires JoinsFit(ring, joins) && Handed(ring, joins) && rank >= ring.world
    ensures Handed(ring.(dropped := ring.dropped + {rank}), joins)
  {
    if joins.join.Some? {
      assert joins.join.value.oldWorld <= ring.world by { hide LowestLive; }
      LowestStays(ring.dropped, ring.dropped + {rank}, joins.join.value.oldWorld);
    }
  }

  lemma MarkDownFits(s: State, rank: nat, world: nat, order: seq<Key>)
    requires Sound(s) && RunFits(s.run)
    ensures RunFits(MarkDown(s, rank, world, order).run)
  {
    hide CloseAll, WithoutRank, SoundRound, Fitting, SnapReady, LowestLive, WokenOnce, Handed, LeadReports;
    var run := Sized(s.run, world);
    assert JoinsFit(run.ring, run.joins);
    SizedHanded(s.run, world);
    if rank < run.ring.world && rank !in run.ring.dropped {
      var run1 := WithoutRank(run, rank);
      WithoutFits(run, rank);
      WithoutHanded(run, rank);
      WithoutLead(run, rank);
      CloseAllNews(s.(run := Publish(run1, run1.lastSeq + 1, RingNow(run1, Down(rank)))), order);
    } else if rank >= run.ring.world {
      OutsiderHanded(run.ring, run.joins, rank);
      OutsiderLead(run.ring, rank);
    }
  }

  lemma SizedHanded(run: Run, world: nat)
    requires SoundRun(run) && Handed(run.ring, run.joins) && LeadReports(run.ring)
    ensures Handed(Sized(run, world).ring, Sized(run, world).joins) && LeadReports(Sized(run, world).ring)
  {
  }

  lemma WithoutLead(run: Run, rank: nat)
    requires SoundRun(run) && LeadReports(run.ring)
    ensures LeadReports(WithoutRank(run, rank).ring)
  {
    hide SharesWithout, JoinWithout;
  }

  lemma OutsiderLead(ring: Ring, rank: nat)
    requires Below(ring) && LeadReports(ring) && rank >= ring.world
    ensures LeadReports(ring.(dropped := ring.dropped + {rank}))
  {
  }

  lemma {:induction false} DropMissingFits(s: State, id: nat, n: nat, orders: seq<seq<Key>>)
    requires Sound(s) && RunFits(s.run) && id < |s.rounds| && n <= |orders|
    ensures RunFits(DropMissing(s, id, n, orders).run)
  {
    hide MarkDown, SoundRun, SoundRound, RunFits;
    if n > 0 {
      var s1, s' := DropMissing(s, id, n - 1, orders), DropMissing(s, id, n, orders);
      var world, order := s.rounds[id].world, orders[n - 1];
      assert s' == s1 || s' == MarkDown(s1, n - 1, world, order);
      hide *;
      DropMissingFits(s, id, n - 1, orders);
      MarkDownFits(s1, n - 1, world, order);
    }
  }

  lemma ExpireFits(s: State, key: Key, rank: nat, orders: seq<seq<Key>>)
    requires Sound(s) && RunFits(s.run) && OrdersFit(s, key, orders)
    ensures RunFits(Expire(s, key, rank, orders).0.run)
  {
    hide Shut, DropMissing, Closable, SoundRun, Enumerates, JoinsFit, Handed, LeadReports;
    var s' := Expire(s, key, rank, orders).0;
    if s' != s {
      var id := s.open[key];
      var (run, r') := Shut(s.run, s.rounds[id], rank);
      var s1 := s.(run := run, rounds := s.rounds[id := r']);
      ShutRun(s.run, s.rounds[id], rank);
      if s' != s1 {
        DropMissingFits(s1, id, |orders|, orders);
      }
    }
  }

  // ---- posts while a rank is joining ----

  /** The plan of this refit would move the shares or drop a rank. */
  predicate PlanMoves(run: Run) {
    match PlanRebalance(run.ring.reports, run.ring.weights, run.ring.world)
    case Keep => false
    case Drop(rank) => !run.mode.fixed && rank !in run.ring.dropped
    case Refit(_) => true
  }

  /** While a join is open nothing is released or switched; but the refit still moves shares or drops a rank exactly when it is
      due, every rank up to the joiner has reported, and its plan says so. */
  lemma DecidedDuringJoinIff(run: Run, c: Choice)
    requires SoundRun(run) && run.joins.join.Some? && (OnCadence(run) ==> Offered(run, c))
    ensures var r := RebalanceFor(run, c).0;
      && r == run.(round := run.round + 1, ring := r.ring)
      && (r.ring != run.ring <==> OnCadence(run) && Measured(run.ring.reports, run.ring.world) && PlanMoves(run))
  {
    hide Proportional, WorstFreeloader, MeanSync;
    var plan := PlanRebalance(run.ring.reports, run.ring.weights, run.ring.world);
    assert plan.Refit? ==> plan.shares != run.ring.weights by {
      hide Measured, Rates, SumAt, SoundRun, Below;
      if plan.Refit? {
        ShiftedDiffers(run.ring.weights, plan.shares);
      }
    }
    hide PlanRebalance, Measured, ShiftedEnough;
    assert plan != Keep ==> Measured(run.ring.reports, run.ring.world) by { KeepUnlessMeasured(run.ring.reports, run.ring.weights, run.ring.world); }
  }

  lemma KeepUnlessMeasured(reports: Reports, current: Vec, world: nat)
    ensures !Measured(reports, world) ==> PlanRebalance(reports, current, world) == Keep
  {
  }

  lemma ShiftedDiffers(current: Vec, want: Vec)
    requires ShiftedEnough(current, want)
    ensures current != want
  {
  }

  /** While a rank that has not reported is joining, no refit, freeloader drop, release or switch to DiLoCo is decided. */
  lemma NothingDecidedDuringJoin(run: Run, c: Choice)
    requires SoundRun(run) && run.joins.join.Some? && run.joins.join.value.rank !in run.ring.reports
    requires run.joins.join.value.rank < run.ring.world
    requires OnCadence(run) ==> Offered(run, c)
    ensures RebalanceFor(run, c) == (run.(round := run.round + 1), None)
  {
    hide Proportional, ShiftedEnough, WorstFreeloader;
    if Measured(run.ring.reports, run.ring.world) {
      MeasuredAll(run.ring.reports, run.ring.world);
    }
  }

  lemma FieldsFit(run: Run, req: Request)
    requires ValidRequest(req) && SoundRun(run) && RunFits(run)
    ensures RunFits(LeadFields(run, req)) && LeadFields(run, req).joins.join == run.joins.join
  {
    hide WokenOnce;
    assert WokenOnce(LeadFields(run, req).joins) by {
      LoadedWakes(run.joins, req.rank);
    }
  }

  lemma LoadedWakes(joins: Joins, rank: int)
    requires WokenOnce(joins)
    ensures WokenOnce(LoadedBy(joins, rank))
  {
  }

  /** A freeloader is never rank 0, and none is dropped without rank 0's report. */
  lemma FreeloaderFollows(run: Run, c: Choice)
    requires SoundRun(run) && (OnCadence(run) ==> Offered(run, c)) && FreeloaderOf(run, c).Some?
    ensures FreeloaderOf(run, c).value > 0 && 0 in run.ring.reports
  {
    hide SoloFor, PlanRebalance, Below, Fitting;
    var (run1, _) := SoloFor(run.(round := run.round + 1), c);
    assert run1.ring.reports == run.ring.reports && run1.ring.world == run.ring.world by {
      SoloReports(run.(round := run.round + 1), c);
    }
    DropIsNotLead(run1.ring.reports, run1.ring.weights, run1.ring.world);
  }

  lemma SoloReports(run: Run, c: Choice)
    requires SoundRun(run) && Offered(run, c)
    ensures SoloFor(run, c).0.ring.reports == run.ring.reports && SoloFor(run, c).0.ring.world == run.ring.world
  {
  }

  lemma DropIsNotLead(reports: Reports, current: Vec, world: nat)
    requires PlanRebalance(reports, current, world).Drop?
    ensures PlanRebalance(reports, current, world).rank > 0 && 0 in reports
  {
    hide Proportional, ShiftedEnough, SumAt, MeanSync, AddedCompute, SavedSync, Sum;
    MeasuredAll(reports, world);
  }

  /** As long as the ring has rank 0, it is the one that hands over. */
  lemma LeadHandsOver(dropped: set<nat>, n: nat)
    requires 0 !in dropped && n > 0
    ensures LowestLive(dropped, n) == 0
  {
  }

  lemma RebalanceFits(run: Run, c: Choice)
    requires SoundRun(run) && (OnCadence(run) ==> Offered(run, c)) && RunFits(run)
    ensures RunFits(RebalanceFor(run, c).0) && RebalanceFor(run, c).0.joins == run.joins
  {
    hide RebalanceFor, Ordered, OnCadence, SoloPays, WokenOnce, FreeloaderOf, LowestLive;
    var run' := RebalanceFor(run, c).0;
    RebalanceRing(run, c);
    RebalanceDrops(run, c);
    OrderedSame(run'.ring, run.ring, run.joins.admitted);
    if FreeloaderOf(run, c).Some? {
      FreeloaderFollows(run, c);
      if run.joins.join.Some? {
        LeadHandsOver(run.ring.dropped, run.joins.join.value.oldWorld);
        LeadHandsOver(run'.ring.dropped, run.joins.join.value.oldWorld);
      }
    }
  }

  lemma LeadFits(run: Run, req: Request, c: Choice)
    requires ValidRequest(req) && SoundRun(run) && ChoiceFits(run, req, c) && RunFits(run)
    ensures RunFits(LeadPart(run, req, c)) && LeadPart(run, req, c).joins.join == run.joins.join
  {
    hide RebalanceFor, IsSolo, IsDiLoCo, Fitting, JoinsFit, Handed, LeadReports;
    if req.shard == 0 {
      FieldsFit(run, req);
      if Advances(run, req) {
        RebalanceFits(LeadFields(run, req), c);
      }
    }
  }

  lemma RebalanceRing(run: Run, c: Choice)
    requires SoundRun(run) && (OnCadence(run) ==> Offered(run, c))
    ensures var r := RebalanceFor(run, c).0;
      && r.joins == run.joins && r.ring.world == run.ring.world && run.ring.dropped <= r.ring.dropped
      && r.ring.reports == run.ring.reports
  {
    hide PlanRebalance, SoundRun;
  }

  lemma HeardFits(run: Run, req: Request, c: Choice)
    requires ValidRequest(req) && SoundRun(run) && ChoiceFits(run, req, c) && RunFits(run)
    ensures RunFits(Heard(run, req, c))
  {
    LeadFits(run, req, c);
    hide LeadPart, ChoiceFits, Fitting, Ordered, SnapReady, WokenOnce, LowestLive;
    if req.shard == 0 {
      LeadStays(LeadPart(run, req, c).ring, Reporters(req));
    }
    OrderedSame(Heard(run, req, c).ring, LeadPart(run, req, c).ring, LeadPart(run, req, c).joins.admitted);
  }

  lemma {:induction false} LeadStays(ring: Ring, members: seq<Member>)
    requires Below(ring) && forall i | 0 <= i < |members| :: members[i].rank < ring.world
    requires LeadReports(ring)
    ensures LeadReports(ObserveAll(ring, members))
  {
    if members != [] {
      LeadStays(ring, members[..|members| - 1]);
    }
  }

  lemma OrderedSame(ring: Ring, other: Ring, admitted: seq<Admitted>)
    requires ring.world >= other.world && other.dropped <= ring.dropped && Ordered(other, admitted)
    ensures Ordered(ring, admitted)
  {
  }

  lemma PostFits(s: State, req: Request, c: Choice)
    requires Sound(s) && RunFits(s.run)
    ensures RunFits(Post(s, req, c).run)
  {
    hide Landed, ChoiceFits, SoundRound, SoundRun, NewRound, JoinsFit, Handed, LeadReports;
    if ValidRequest(req) && !TurnedAway(s.run, req) && ChoiceFits(s.run, req, c) && RoundFor(s, req).Some? {
      var (s1, id) := RoundFor(s, req).value;
      LandedRun(s1.run, s1.rounds[id], req, c);
      HeardFits(s1.run, req, c);
    }
  }

  // ---- joins ----

  lemma AdmitFits(run: Run, rank: nat)
    requires SoundRun(run) && RunFits(run) && Admissible(run, rank)
    ensures RunFits(Admit(run, rank))
  {
    hide SharesWith, WokenOnce;
    AdmitDrops(run, rank);
    assert WokenOnce(Admit(run, rank).joins) by {
      NewcomerWaits(run.joins, Admit(run, rank).joins);
    }
  }

  lemma NewcomerWaits(joins: Joins, joins': Joins)
    requires WokenOnce(joins) && joins.join.None? && joins'.woken == joins.woken
    requires |joins'.admitted| == |joins.admitted| + 1
    requires joins'.join.Some? && joins'.join.value.id == |joins.admitted| && !joins'.join.value.ready
    ensures WokenOnce(joins')
  {
  }

  lemma SnapFits(run: Run, rank: int, body: seq<int>)
    requires RunFits(run) && Wanted(run, rank)
    ensures RunFits(run.(joins := Snapped(run.joins, body)))
  {
    var id := run.joins.join.value.id;
    assert id !in run.joins.woken;
  }

  lemma TakenFits(run: Run, id: nat)
    requires SoundRun(run) && RunFits(run)
    ensures RunFits(Taken(run, id))
  {
    hide LowestLive, Ordered;
  }

  lemma StepFits(s: State, e: Event)
    requires Sound(s) && RunFits(s.run)
    ensures RunFits(Step(s, e).run)
  {
    hide SoundRound, SoundRun, MarkDown, Expire, Post, Told, JoinsFit, Handed, LeadReports, Admit, Snapped, Wanted, Taken;
    match e
    case PostEvent(req, c) => PostFits(s, req, c);
    case TimeOutEvent(i, orders) =>
      if TimeOut(s, i, orders) != s {
        ExpireFits(s, s.tickets[i].key, s.tickets[i].rank, orders);
      }
    case DownEvent(rank, world, order) => MarkDownFits(s, rank, world, order);
    case JoinEvent(rank, check) =>
      if Step(s, e) != s {
        AdmitFits(s.run, rank);
      }
    case PutEvent(rank, body) =>
      if Wanted(s.run, rank) {
        SnapFits(s.run, rank, body);
      }
    case TakenEvent(id) => TakenFits(s.run, id);
    case _ =>
  }

  /** Over every interleaving: indices only go up and are never reused, every index a joiner skipped is dropped, a joiner is ready
      exactly when there is a snapshot for it, every joiner is woken once, by its snapshot or by the end of its join, and never
      twice; and the rank handing over is the lowest the old ring still has (or -1). */
  lemma {:induction false} JoinsAlwaysFit(events: seq<Event>)
    ensures RunFits(Exec(Start(), events).run)
  {
    if events == [] {
    } else {
      var front, e := events[..|events| - 1], events[|events| - 1];
      assert Exec(Start(), events) == Step(Exec(Start(), front), e);
      hide *;
      JoinsAlwaysFit(front);
      StepFits(Exec(Start(), front), e);
    }
  }

  /** A post never loses the handover: a refit that drops a rank while one is joining has rank 0's report, so rank 0 is there and
      hands over, and it is never the rank dropped. */
  lemma PostKeepsHandover(s: State, req: Request, c: Choice)
    requires Sound(s) && RunFits(s.run) && s.run.joins.join.Some?
    ensures var join' := Post(s, req, c).run.joins.join;
      && join' == s.run.joins.join
      && join'.value.from == LowestLive(Post(s, req, c).run.ring.dropped, join'.value.oldWorld)
    ensures Accepts(s, req, c) && PostDrops(s.run, req, c).Some? ==>
      s.run.joins.join.value.from == 0 < PostDrops(s.run, req, c).value
  {
    PostFits(s, req, c);
    PostJoin(s, req, c);
    hide Post, Accepts, SoundRun, SoundRound, LowestLive, JoinsFit;
    assert s.run.joins.join.value.oldWorld > 0 by { JoinIsOfARing(s.run); }
    if Accepts(s, req, c) && PostDrops(s.run, req, c).Some? {
      PostDropFollows(s.run, req, c);
      LeadHandsOver(s.run.ring.dropped, s.run.joins.join.value.oldWorld);
    }
  }

  lemma JoinIsOfARing(run: Run)
    requires RunFits(run) && run.joins.join.Some?
    ensures run.joins.join.value.oldWorld > 0
  {
  }

  lemma PostDropFollows(run: Run, req: Request, c: Choice)
    requires ValidRequest(req) && SoundRun(run) && ChoiceFits(run, req, c) && PostDrops(run, req, c).Some?
    ensures PostDrops(run, req, c).value > 0 && 0 in run.ring.reports
  {
    hide IsSolo, IsDiLoCo, Fitting, FreeloaderOf;
    FreeloaderFollows(LeadFields(run, req), c);
  }

  lemma PostDropped(s: State, req: Request, c: Choice)
    requires Sound(s)
    ensures Post(s, req, c).run.ring.dropped == s.run.ring.dropped
      + if Accepts(s, req, c) && PostDrops(s.run, req, c).Some? then {PostDrops(s.run, req, c).value} else {}
  {
    hide Post, PostDrops, SoundRun, SoundRound, Heard;
    if Accepts(s, req, c) {
      PostRun(s, req, c);
      HeardDrops(s.run, req, c);
    } else {
      PostRefused(s, req, c);
    }
  }

  lemma PostRefused(s: State, req: Request, c: Choice)
    requires Sound(s) && !Accepts(s, req, c)
    ensures Post(s, req, c).run == s.run
  {
    hide PostTo, SoundRun, SoundRound, NewRound, ChoiceFits;
  }

  // ---- one step, and many ----

  /** What becomes of a join until the next one is admitted: it keeps its ranks, its snapshot is never replaced, its joiner
      is woken once, and once over it does not come back. */
  ghost predicate JoinLater(joins: Joins, joins': Joins) {
    && joins.admitted <= joins'.admitted
    && (joins'.admitted == joins.admitted && joins'.join.Some? ==> joins.join.Some? && SameJoin(joins.join.value, joins'.join.value))
  }

  ghost predicate SameJoin(j: Join, j': Join) {
    && j' == j.(from := j'.from, snap := j'.snap, ready := j'.ready)
    && (j.snap.Some? ==> j'.snap == j.snap)
    && (j.ready ==> j'.ready)
  }

  lemma JoinTrans(a: Joins, b: Joins, c: Joins)
    requires JoinLater(a, b) && JoinLater(b, c)
    ensures JoinLater(a, c)
  {
  }

  lemma MarkDownJoin(s: State, rank: nat, world: nat, order: seq<Key>)
    requires Sound(s)
    ensures JoinLater(s.run.joins, MarkDown(s, rank, world, order).run.joins)
  {
    hide CloseAll, RingWithout, SoundRound;
    var run := Sized(s.run, world);
    if rank < run.ring.world && rank !in run.ring.dropped {
      var run1 := WithoutRank(run, rank);
      CloseAllNews(s.(run := Publish(run1, run1.lastSeq + 1, RingNow(run1, Down(rank)))), order);
    }
  }

  lemma {:induction false} DropMissingJoin(s: State, id: nat, n: nat, orders: seq<seq<Key>>)
    requires Sound(s) && id < |s.rounds| && n <= |orders|
    ensures JoinLater(s.run.joins, DropMissing(s, id, n, orders).run.joins)
  {
    hide MarkDown, SoundRun, SoundRound;
    if n > 0 {
      var s1, s' := DropMissing(s, id, n - 1, orders), DropMissing(s, id, n, orders);
      var world, order := s.rounds[id].world, orders[n - 1];
      assert s' == s1 || s' == MarkDown(s1, n - 1, world, order);
      hide *;
      DropMissingJoin(s, id, n - 1, orders);
      MarkDownJoin(s1, n - 1, world, order);
      if s' != s1 {
        JoinTrans(s.run.joins, s1.run.joins, s'.run.joins);
      }
    }
  }

  lemma ExpireJoin(s: State, key: Key, rank: nat, orders: seq<seq<Key>>)
    requires Sound(s) && OrdersFit(s, key, orders)
    ensures JoinLater(s.run.joins, Expire(s, key, rank, orders).0.run.joins)
  {
    hide Shut, DropMissing, Closable, SoundRun, Enumerates;
    var s' := Expire(s, key, rank, orders).0;
    if s' != s {
      var id := s.open[key];
      var (run, r') := Shut(s.run, s.rounds[id], rank);
      var s1 := s.(run := run, rounds := s.rounds[id := r']);
      ShutRun(s.run, s.rounds[id], rank);
      if s' != s1 {
        DropMissingJoin(s1, id, |orders|, orders);
      }
    }
  }

  lemma PostJoin(s: State, req: Request, c: Choice)
    requires Sound(s)
    ensures Post(s, req, c).run.joins == s.run.joins.(loading := Post(s, req, c).run.joins.loading)
  {
    hide Landed, ChoiceFits, SoundRound, SoundRun, NewRound;
    if ValidRequest(req) && !TurnedAway(s.run, req) && ChoiceFits(s.run, req, c) && RoundFor(s, req).Some? {
      var (s1, id) := RoundFor(s, req).value;
      LandedRun(s1.run, s1.rounds[id], req, c);
      HeardJoin(s1.run, req, c);
    }
  }

  lemma HeardJoin(run: Run, req: Request, c: Choice)
    requires ValidRequest(req) && SoundRun(run) && ChoiceFits(run, req, c)
    ensures Heard(run, req, c).joins == run.joins.(loading := Heard(run, req, c).joins.loading)
  {
    LeadJoin(run, req, c);
    hide LeadPart, ChoiceFits, Fitting;
  }

  lemma LeadJoin(run: Run, req: Request, c: Choice)
    requires ValidRequest(req) && SoundRun(run) && ChoiceFits(run, req, c)
    ensures LeadPart(run, req, c).joins == run.joins.(loading := LeadPart(run, req, c).joins.loading)
  {
    hide RebalanceFor, IsSolo, IsDiLoCo, Fitting;
    if req.shard == 0 && Advances(run, req) {
      RebalanceRing(LeadFields(run, req), c);
    }
  }

  lemma StepJoins(s: State, e: Event)
    requires Sound(s)
    ensures JoinLater(s.run.joins, Step(s, e).run.joins)
  {
    hide SoundRound, SoundRun, MarkDown, Expire, Post, Told;
    match e
    case PostEvent(req, c) => PostJoin(s, req, c);
    case TimeOutEvent(i, orders) =>
      if TimeOut(s, i, orders) != s {
        ExpireJoin(s, s.tickets[i].key, s.tickets[i].rank, orders);
      }
    case DownEvent(rank, world, order) => MarkDownJoin(s, rank, world, order);
    case JoinEvent(rank, check) =>
      if Step(s, e) != s {
        hide SharesWith;
      }
    case _ =>
  }

  lemma {:induction false} JoinsLater(s: State, events: seq<Event>)
    requires Sound(s)
    ensures JoinLater(s.run.joins, Exec(s, events).run.joins)
  {
    if events != [] {
      var front, e := events[..|events| - 1], events[|events| - 1];
      assert Exec(s, events) == Step(Exec(s, front), e);
      hide *;
      JoinsLater(s, front);
      StepJoins(Exec(s, front), e);
      JoinTrans(s.run.joins, Exec(s, front).run.joins, Exec(s, events).run.joins);
    }
  }

  /** A join takes one snapshot: whatever happens later, a join seen again is the same join, with the same snapshot if it had
      one. */
  lemma OneSnapshot(events: seq<Event>, more: seq<Event>)
    requires var a, b := Exec(Start(), events).run.joins.join, Exec(Start(), events + more).run.joins.join;
      a.Some? && b.Some? && a.value.id == b.value.id
    ensures SameJoin(Exec(Start(), events).run.joins.join.value, Exec(Start(), events + more).run.joins.join.value)
  {
    var s, s' := Exec(Start(), events), Exec(Start(), events + more);
    hide *;
    JoinsAlwaysFit(events);
    JoinsAlwaysFit(events + more);
    ExecConcat(Start(), events, more);
    JoinsLater(s, more);
    SameId(s.run, s'.run);
  }

  lemma SameId(run: Run, run': Run)
    requires RunFits(run) && RunFits(run') && JoinLater(run.joins, run'.joins)
    requires run.joins.join.Some? && run'.joins.join.Some? && run.joins.join.value.id == run'.joins.join.value.id
    ensures SameJoin(run.joins.join.value, run'.joins.join.value)
  {
    hide Ordered, SameJoin, Handed, WokenOnce;
    assert |run.joins.admitted| == |run'.joins.admitted| && run.joins.admitted <= run'.joins.admitted;
  }

  /** This rank is the one admitted last, and nothing has woken it. */
  ghost predicate StillWaits(joins: Joins, rank: int) {
    && joins.join.Some? && joins.admitted != [] && rank == joins.admitted[|joins.admitted| - 1].rank
    && |joins.admitted| - 1 !in joins.woken
  }

  /** A snapshot is accepted only while its joiner has not been woken: closing its channel then cannot fail. */
  lemma WantedMeansWaiting(events: seq<Event>, rank: int)
    requires Wanted(Exec(Start(), events).run, rank)
    ensures StillWaits(Exec(Start(), events).run.joins, rank)
  {
    var s := Exec(Start(), events);
    hide *;
    JoinsAlwaysFit(events);
    WantedAt(s.run, rank);
  }

  lemma WantedAt(run: Run, rank: int)
    requires RunFits(run) && Wanted(run, rank)
    ensures StillWaits(run.joins, rank)
  {
  }

  // ---- growth and shares ----

  lemma {:induction false} DropMissingWorld(s: State, id: nat, n: nat, orders: seq<seq<Key>>)
    requires Sound(s) && id < |s.rounds| && n <= |orders| && s.run.ring.world != 0
    ensures DropMissing(s, id, n, orders).run.ring.world == s.run.ring.world
  {
    hide MarkDown, SoundRun, SoundRound;
    if n > 0 {
      var s1, s' := DropMissing(s, id, n - 1, orders), DropMissing(s, id, n, orders);
      var world, order := s.rounds[id].world, orders[n - 1];
      assert s' == s1 || s' == MarkDown(s1, n - 1, world, order);
      hide *;
      DropMissingWorld(s, id, n - 1, orders);
      MarkDownWorld(s1, n - 1, world, order);
    }
  }

  lemma MarkDownWorld(s: State, rank: nat, world: nat, order: seq<Key>)
    requires Sound(s) && s.run.ring.world != 0
    ensures MarkDown(s, rank, world, order).run.ring.world == s.run.ring.world
  {
    hide CloseAll, SoundRound, SharesWithout, JoinWithout;
    if rank < s.run.ring.world && rank !in s.run.ring.dropped {
      var run1 := WithoutRank(s.run, rank);
      CloseAllNews(s.(run := Publish(run1, run1.lastSeq + 1, RingNow(run1, Down(rank)))), order);
    }
  }

  lemma ExpireWorld(s: State, key: Key, rank: nat, orders: seq<seq<Key>>)
    requires Sound(s) && OrdersFit(s, key, orders) && s.run.ring.world != 0
    ensures Expire(s, key, rank, orders).0.run.ring.world == s.run.ring.world
  {
    hide Shut, DropMissing, Closable, SoundRun, Enumerates;
    var s' := Expire(s, key, rank, orders).0;
    if s' != s {
      var id := s.open[key];
      var (run, r') := Shut(s.run, s.rounds[id], rank);
      var s1 := s.(run := run, rounds := s.rounds[id := r']);
      if s' != s1 {
        DropMissingWorld(s1, id, |orders|, orders);
      }
    }
  }

  /** A post grows the ring exactly when the lead takes it, it carries the ring's control, and it names a larger ring than the
      lead knows. */
  lemma PostGrowsIff(s: State, req: Request, c: Choice)
    requires Sound(s)
    ensures var world, world' := s.run.ring.world, Post(s, req, c).run.ring.world;
      && (world' != world <==> Accepts(s, req, c) && req.shard == 0 && req.world > world)
      && (world' != world ==> world' == req.world)
  {
    hide Post, SoundRun, SoundRound, Heard;
    if Accepts(s, req, c) {
      PostRun(s, req, c);
      HeardWorld(s.run, req, c);
    } else {
      PostRefused(s, req, c);
    }
  }

  lemma HeardWorld(run: Run, req: Request, c: Choice)
    requires ValidRequest(req) && SoundRun(run) && ChoiceFits(run, req, c)
    ensures Heard(run, req, c).ring.world == if req.shard == 0 && req.world > run.ring.world then req.world else run.ring.world
  {
    LeadWorld(run, req, c);
    hide LeadPart, ChoiceFits, Fitting;
  }

  lemma LeadWorld(run: Run, req: Request, c: Choice)
    requires ValidRequest(req) && SoundRun(run) && ChoiceFits(run, req, c)
    ensures LeadPart(run, req, c).ring.world == if req.shard == 0 && req.world > run.ring.world then req.world else run.ring.world
  {
    hide RebalanceFor, IsSolo, IsDiLoCo, Fitting;
  }

  /** Once it has a size the ring grows only by the joiner it admits, or to the size a lead post names. */
  lemma GrowsOnlyBy(s: State, e: Event)
    requires Sound(s) && s.run.ring.world != 0 && Step(s, e).run.ring.world != s.run.ring.world
    ensures (e.JoinEvent? && !e.check && Admissible(s.run, e.joiner) && Step(s, e).run.ring.world == e.joiner + 1)
      || (e.PostEvent? && Accepts(s, e.req, e.choice) && e.req.shard == 0
          && Step(s, e).run.ring.world == e.req.world > s.run.ring.world)
  {
    hide SoundRound, SoundRun, MarkDown, Expire, Post, Told, Admissible, SharesWith;
    match e
    case PostEvent(req, c) => PostGrowsIff(s, req, c);
    case TimeOutEvent(i, orders) =>
      if TimeOut(s, i, orders) != s {
        ExpireWorld(s, s.tickets[i].key, s.tickets[i].rank, orders);
      }
    case DownEvent(rank, world, order) => MarkDownWorld(s, rank, world, order);
    case _ =>
  }

  /** The refit this post brings moves the ring, although a rank is joining and nobody will be told. */
  ghost predicate MovesUntold(run: Run, req: Request)
    requires ValidRequest(req) && SoundRun(run)
  {
    var run0 := LeadFields(run, req);
    && req.shard == 0 && Advances(run, req) && OnCadence(run0)
    && Measured(run0.ring.reports, run0.ring.world) && PlanMoves(run0)
  }

  /** While a join is open a post changes the shares or drops a rank exactly when it is taken, a refit is due at it, every rank up
      to the joiner has reported, and the plan says so; and then no note tells the ring. The joiner may have reported by then: the
      lead sends it the whole snapshot before it closes the join. */
  lemma PostMovesDuringJoinIff(s: State, req: Request, c: Choice)
    requires Sound(s) && s.run.joins.join.Some?
    ensures var run, run' := s.run, Post(s, req, c).run;
      && (run'.ring.weights != run.ring.weights || run'.ring.dropped != run.ring.dropped <==>
            Accepts(s, req, c) && MovesUntold(run, req))
      && run'.news == run.news
  {
    hide Post, SoundRun, SoundRound, Heard, MovesUntold;
    if Accepts(s, req, c) {
      PostRun(s, req, c);
      PostNews(s, req, c);
      HeardMoves(s.run, req, c);
    } else {
      PostRefused(s, req, c);
    }
  }

  lemma PostNews(s: State, req: Request, c: Choice)
    requires Sound(s) && Accepts(s, req, c)
    ensures Post(s, req, c).run.news == Heard(s.run, req, c).news
  {
    hide Landed, ChoiceFits, SoundRound, SoundRun, NewRound, Heard;
    var (s1, id) := RoundFor(s, req).value;
    LandedRun(s1.run, s1.rounds[id], req, c);
  }

  lemma HeardMoves(run: Run, req: Request, c: Choice)
    requires ValidRequest(req) && SoundRun(run) && ChoiceFits(run, req, c) && run.joins.join.Some?
    ensures var run' := Heard(run, req, c);
      && (run'.ring.weights != run.ring.weights || run'.ring.dropped != run.ring.dropped <==> MovesUntold(run, req))
      && run'.news == run.news
  {
    LeadMoves(run, req, c);
    hide LeadPart, ChoiceFits, Fitting, MovesUntold;
  }

  lemma LeadMoves(run: Run, req: Request, c: Choice)
    requires ValidRequest(req) && SoundRun(run) && ChoiceFits(run, req, c) && run.joins.join.Some?
    ensures var run' := LeadPart(run, req, c);
      && (run'.ring.weights != run.ring.weights || run'.ring.dropped != run.ring.dropped <==> MovesUntold(run, req))
      && run'.news == run.news
  {
    hide RebalanceFor, IsSolo, IsDiLoCo, Fitting, PlanMoves, Measured, OnCadence;
    if req.shard == 0 && Advances(run, req) {
      var run0 := LeadFields(run, req);
      DecidedDuringJoinIff(run0, c);
      MovedRing(run0, c);
    }
  }

  lemma MovedRing(run: Run, c: Choice)
    requires SoundRun(run) && (OnCadence(run) ==> Offered(run, c))
    ensures var r := RebalanceFor(run, c).0;
      r.ring == run.ring.(weights := r.ring.weights, dropped := r.ring.dropped)
  {
    hide PlanRebalance, SoundRun;
  }

  /** While a join is open only a rank's death, or a refit with the joiner's own report, changes the shares. */
  lemma SharesHeldDuringJoin(s: State, e: Event)
    requires Sound(s) && s.run.joins.join.Some? && Step(s, e).run.ring.weights != s.run.ring.weights
    ensures e.DownEvent? || e.TimeOutEvent? || (e.PostEvent? && Accepts(s, e.req, e.choice) && MovesUntold(s.run, e.req))
  {
    hide SoundRound, SoundRun, MarkDown, Expire, Post, Told, SharesWith, MovesUntold, Accepts;
    match e
    case PostEvent(req, c) => PostMovesDuringJoinIff(s, req, c);
    case _ =>
  }
}
