/** The shares over every interleaving of downs, joins, refits and releases: all of the data, none of it for the dead, but for
    exactly the steps that give it to them. */
module Sharing {
  import opened Wrappers
  import opened Vectors
  import opened Reduce
  import opened Messages
  import opened Shares
  import opened Rebalance
  import opened Protocol
  import opened Rounds
  import opened Verdicts
  import opened Notes
  import opened Closing
  import opened Joining

  /** The shares in force are proper ones for at most the ring's ranks. */
  ghost predicate SharesFit(ring: Ring) {
    Proper(ring.weights, ring.dropped) && |ring.weights| <= ring.world
  }

  /** No dropped rank's report is left. */
  ghost predicate DeadAreSilent(ring: Ring) {
    forall k | k in ring.reports :: k !in ring.dropped
  }

  // ---- one change at a time ----

  /** A member's death makes the shares proper, whatever they were. */
  lemma WithoutFair(ring: Ring, rank: nat)
    requires Below(ring) && rank < ring.world
    ensures SharesFit(RingWithout(ring, rank))
    ensures DeadAreSilent(ring) ==> DeadAreSilent(RingWithout(ring, rank))
  {
    hide SharesWithout, Proper;
    WithoutProper(if |ring.weights| == ring.world then ring.weights else Ones(ring.world), ring.dropped + {rank});
  }

  lemma OutsiderFair(ring: Ring, rank: nat)
    requires Below(ring) && rank >= ring.world
    ensures SharesFit(ring) ==> SharesFit(ring.(dropped := ring.dropped + {rank}))
    ensures DeadAreSilent(ring) ==> DeadAreSilent(ring.(dropped := ring.dropped + {rank}))
  {
  }

  /** A refit gives every rank a positive share, so it is proper exactly when no rank of the ring has been dropped: after a
      freeloader drop, which keeps the rank's report, it is not. */
  lemma RefitProperIff(reports: Reports, current: Vec, world: nat, dropped: set<nat>)
    requires PlanRebalance(reports, current, world).Refit?
    ensures Proper(PlanRebalance(reports, current, world).shares, dropped) <==> forall k: nat | k < world :: k !in dropped
  {
    RefitIsPositive(reports, current, world);
    hide PlanRebalance, Sum;
    var v := PlanRebalance(reports, current, world).shares;
    if k: nat :| k < world && k in dropped {
      assert v[k] > 0.0;
    }
  }

  /** So a refit, which every rank has reported for, is proper exactly when none of the reports is a dropped rank's. */
  lemma RefitFairIff(ring: Ring)
    requires PlanRebalance(ring.reports, ring.weights, ring.world).Refit?
    ensures SharesFit(ring.(weights := PlanRebalance(ring.reports, ring.weights, ring.world).shares)) <==> DeadAreSilent(ring)
  {
    RefitIsPositive(ring.reports, ring.weights, ring.world);
    RefitProperIff(ring.reports, ring.weights, ring.world, ring.dropped);
    hide PlanRebalance, Proper;
    assert DeadAreSilent(ring) <==> forall k: nat | k < ring.world :: k !in ring.dropped;
  }

  /** A release, which gives one rank all of the data, is proper exactly when that rank has not been dropped. */
  lemma ReleaseFairIff(ring: Ring, keep: nat)
    requires Below(ring) && keep in ring.reports
    ensures SharesFit(ring.(weights := Zero(ring.world)[keep := 1.0])) <==> keep !in ring.dropped
  {
    OneHot(ring.world, keep);
    var v := Zero(ring.world)[keep := 1.0];
    assert v[keep] == 1.0;
  }

  /** Dropping a rank and leaving the shares as they are keeps them proper exactly when it has none. */
  lemma DropFairIff(ring: Ring, rank: nat)
    requires SharesFit(ring)
    ensures SharesFit(ring.(dropped := ring.dropped + {rank})) <==> !(rank < |ring.weights| && ring.weights[rank] > 0.0)
  {
    hide Sum;
  }

  lemma {:induction false} OneHot(n: nat, k: nat)
    requires k < n
    ensures Sum(Zero(n)[k := 1.0]) == 1.0
  {
    if k == n - 1 {
      SumZero(n);
      SumLast(Zero(n), 1.0);
    } else {
      OneHot(n - 1, k);
      assert Zero(n)[k := 1.0][..n - 1] == Zero(n - 1)[k := 1.0];
    }
  }

  lemma ObserveLive(ring: Ring, members: seq<Member>)
    requires Below(ring) && forall i | 0 <= i < |members| :: members[i].rank < ring.world
    requires DeadAreSilent(ring)
    ensures DeadAreSilent(ObserveAll(ring, members))
  {
    if members != [] {
      ObserveLive(ring, members[..|members| - 1]);
    }
  }

  // ---- refits ----

  /** The refit turns to DiLoCo, and looks no further. */
  predicate Switches(run: Run, c: Choice) {
    Deciding(run) && run.mode.autoSync && !run.mode.diloco && c.diloco
  }

  predicate Releases(run: Run, c: Choice) {
    Deciding(run) && !Switches(run, c) && !run.mode.fixed && SoloPays(c.solo) && run.mode.sharded
  }

  /** A refit that leaves a dropped rank with data: it releases the run to one, it drops a rank whose share in force is positive, or
      it counts on the report a dropped rank has left. */
  ghost predicate RefitSpoils(run: Run, c: Choice)
    requires SoundRun(run)
  {
    OnCadence(run) && !Switches(run, c) &&
    if Releases(run, c) then c.keep in run.ring.dropped
    else
      match PlanRebalance(run.ring.reports, run.ring.weights, run.ring.world)
      case Keep => false
      case Drop(rank) =>
        !run.mode.fixed && rank !in run.ring.dropped && rank < |run.ring.weights| && run.ring.weights[rank] > 0.0
      case Refit(_) => !DeadAreSilent(run.ring)
  }

  lemma RebalanceFairIff(run: Run, c: Choice)
    requires SoundRun(run) && (OnCadence(run) ==> Offered(run, c)) && SharesFit(run.ring)
    ensures SharesFit(RebalanceFor(run, c).0.ring) <==> !RefitSpoils(run, c)
  {
    hide PlanRebalance, Fitting, Proper, DeadAreSilent;
    if OnCadence(run) {
      var plan := PlanRebalance(run.ring.reports, run.ring.weights, run.ring.world);
      if Deciding(run) && SoloPays(c.solo) {
        ReleaseFairIff(run.ring, c.keep);
      }
      if plan.Refit? {
        RefitFairIff(run.ring);
      }
      if plan.Drop? {
        DropFairIff(run.ring, plan.rank);
      }
    }
  }

  /** While no dropped rank's report is left, only a freeloader drop leaves a dropped rank with data. */
  lemma SilentDeadGetNothing(run: Run, c: Choice)
    requires SoundRun(run) && (OnCadence(run) ==> Offered(run, c)) && DeadAreSilent(run.ring)
    ensures RefitSpoils(run, c) ==> FreeloaderOf(run, c).Some?
  {
    hide PlanRebalance, Fitting, Below;
  }

  /** A refit leaves a dropped rank's report exactly when it drops a freeloader, and a ring of a fixed size never does. */
  lemma RebalanceSilentIff(run: Run, c: Choice)
    requires SoundRun(run) && (OnCadence(run) ==> Offered(run, c)) && DeadAreSilent(run.ring)
    ensures DeadAreSilent(RebalanceFor(run, c).0.ring) <==> FreeloaderOf(run, c).None?
    ensures run.mode.fixed ==> FreeloaderOf(run, c).None?
  {
    hide PlanRebalance, Fitting, Below;
    if OnCadence(run) {
      var plan := PlanRebalance(run.ring.reports, run.ring.weights, run.ring.world);
      if plan.Drop? {
        DropIsReported(run.ring.reports, run.ring.weights, run.ring.world);
      }
    }
  }

  lemma DropIsReported(reports: Reports, current: Vec, world: nat)
    requires PlanRebalance(reports, current, world).Drop?
    ensures PlanRebalance(reports, current, world).rank in reports
  {
    MeasuredAll(reports, world);
    hide Proportional, SumAt, MeanSync;
  }

  // ---- posts ----

  lemma ObservedShares(ring: Ring, members: seq<Member>)
    requires Below(ring) && forall i | 0 <= i < |members| :: members[i].rank < ring.world
    ensures SharesFit(ObserveAll(ring, members)) <==> SharesFit(ring)
  {
    hide Proper;
  }

  lemma {:induction false} ObservedStays(ring: Ring, members: seq<Member>)
    requires Below(ring) && forall i | 0 <= i < |members| :: members[i].rank < ring.world
    ensures ring.reports.Keys <= ObserveAll(ring, members).reports.Keys
  {
    if members != [] {
      ObservedStays(ring, members[..|members| - 1]);
    }
  }

  /** The refit this post brings leaves a dropped rank with data. */
  ghost predicate PostSpoils(run: Run, req: Request, c: Choice)
    requires ValidRequest(req) && SoundRun(run)
  {
    req.shard == 0 && Advances(run, req) && RefitSpoils(LeadFields(run, req), c)
  }

  lemma LeadFairIff(run: Run, req: Request, c: Choice)
    requires ValidRequest(req) && SoundRun(run) && ChoiceFits(run, req, c)
    ensures SharesFit(run.ring) ==> (SharesFit(LeadPart(run, req, c).ring) <==> !PostSpoils(run, req, c))
    ensures DeadAreSilent(run.ring) ==> (DeadAreSilent(LeadPart(run, req, c).ring) <==> PostDrops(run, req, c).None?)
  {
    hide RebalanceFor, IsSolo, IsDiLoCo, Fitting, Proper, FreeloaderOf, RefitSpoils;
    if req.shard == 0 && Advances(run, req) {
      var run0 := LeadFields(run, req);
      if SharesFit(run.ring) {
        RebalanceFairIff(run0, c);
      }
      if DeadAreSilent(run.ring) {
        RebalanceSilentIff(run0, c);
      }
    }
  }

  lemma HeardFairIff(run: Run, req: Request, c: Choice)
    requires ValidRequest(req) && SoundRun(run) && ChoiceFits(run, req, c)
    ensures SharesFit(run.ring) ==> (SharesFit(Heard(run, req, c).ring) <==> !PostSpoils(run, req, c))
    ensures DeadAreSilent(run.ring) ==> (DeadAreSilent(Heard(run, req, c).ring) <==> PostDrops(run, req, c).None?)
  {
    LeadFairIff(run, req, c);
    hide LeadPart, ChoiceFits, Fitting, Proper, PostDrops, RefitSpoils;
    if req.shard == 0 {
      var ring := LeadPart(run, req, c).ring;
      ObservedShares(ring, Reporters(req));
      ObservedStays(ring, Reporters(req));
      if DeadAreSilent(ring) {
        ObserveLive(ring, Reporters(req));
      } else {
        var k :| k in ring.reports && k in ring.dropped;
        assert k in ring.reports.Keys && k in Heard(run, req, c).ring.reports.Keys;
      }
    } else {
      NoLeadNoDrop(run, req, c);
    }
  }

  lemma NoLeadNoDrop(run: Run, req: Request, c: Choice)
    requires ValidRequest(req) && SoundRun(run) && ChoiceFits(run, req, c) && req.shard != 0
    ensures PostDrops(run, req, c).None?
  {
  }

  // ---- every step ----

  /** The steps that leave a dropped rank with data: a refit that does, and the admission of a joiner on an index that has been
      reported down. */
  ghost predicate Spoils(s: State, e: Event)
    requires Sound(s)
  {
    match e
    case PostEvent(req, c) => Accepts(s, req, c) && PostSpoils(s.run, req, c)
    case JoinEvent(rank, check) => rank >= 1 && Admissible(s.run, rank) && !check && rank in s.run.ring.dropped
    case _ => false
  }

  /** The steps that leave a dropped rank's report behind. */
  ghost predicate Freeloads(s: State, e: Event)
    requires Sound(s)
  {
    e.PostEvent? && Accepts(s, e.req, e.choice) && PostDrops(s.run, e.req, e.choice).Some?
  }

  /** What a step other than a post or an admission keeps. */
  ghost predicate StillFair(ring: Ring, ring': Ring) {
    (SharesFit(ring) ==> SharesFit(ring')) && (DeadAreSilent(ring) ==> DeadAreSilent(ring'))
  }

  lemma MarkDownFair(s: State, rank: nat, world: nat, order: seq<Key>)
    requires Sound(s)
    ensures StillFair(s.run.ring, MarkDown(s, rank, world, order).run.ring)
  {
    hide CloseAll, SoundRound, Fitting, RingWithout, JoinWithout, Proper;
    var run := Sized(s.run, world);
    if rank < run.ring.world && rank !in run.ring.dropped {
      var run1 := WithoutRank(run, rank);
      CloseAllNews(s.(run := Publish(run1, run1.lastSeq + 1, RingNow(run1, Down(rank)))), order);
      WithoutFair(run.ring, rank);
    } else if rank >= run.ring.world {
      OutsiderFair(run.ring, rank);
    }
  }

  lemma {:induction false} DropMissingFair(s: State, id: nat, n: nat, orders: seq<seq<Key>>)
    requires Sound(s) && id < |s.rounds| && n <= |orders|
    ensures StillFair(s.run.ring, DropMissing(s, id, n, orders).run.ring)
  {
    hide MarkDown, SoundRun, SoundRound, SharesFit, DeadAreSilent;
    if n > 0 {
      var s1, s' := DropMissing(s, id, n - 1, orders), DropMissing(s, id, n, orders);
      var world, order := s.rounds[id].world, orders[n - 1];
      assert s' == s1 || s' == MarkDown(s1, n - 1, world, order);
      DropMissingFair(s, id, n - 1, orders);
      hide DropMissing;
      MarkDownFair(s1, n - 1, world, order);
    }
  }

  lemma ExpireFair(s: State, key: Key, rank: nat, orders: seq<seq<Key>>)
    requires Sound(s) && OrdersFit(s, key, orders)
    ensures StillFair(s.run.ring, Expire(s, key, rank, orders).0.run.ring)
  {
    hide Shut, DropMissing, Closable, SoundRun, Enumerates, SharesFit, DeadAreSilent;
    var s' := Expire(s, key, rank, orders).0;
    if s' != s {
      var id := s.open[key];
      var (run, r') := Shut(s.run, s.rounds[id], rank);
      var s1 := s.(run := run, rounds := s.rounds[id := r']);
      ShutRun(s.run, s.rounds[id], rank);
      if s' != s1 {
        DropMissingFair(s1, id, |orders|, orders);
      }
    }
  }

  lemma PostFairIff(s: State, req: Request, c: Choice)
    requires Sound(s)
    ensures SharesFit(s.run.ring) ==> (SharesFit(Post(s, req, c).run.ring) <==> !Spoils(s, PostEvent(req, c)))
    ensures DeadAreSilent(s.run.ring) ==> (DeadAreSilent(Post(s, req, c).run.ring) <==> !Freeloads(s, PostEvent(req, c)))
  {
    hide Post, SoundRun, SoundRound, Heard, SharesFit, DeadAreSilent, PostDrops, PostSpoils;
    if Accepts(s, req, c) {
      PostRun(s, req, c);
      HeardFairIff(s.run, req, c);
    } else {
      PostRefused(s, req, c);
    }
  }

  lemma AdmitFairIff(run: Run, rank: nat)
    requires SoundRun(run) && Admissible(run, rank)
    ensures SharesFit(Admit(run, rank).ring) <==> rank !in run.ring.dropped
    ensures DeadAreSilent(Admit(run, rank).ring) <==> DeadAreSilent(run.ring)
  {
    hide SharesWith, Proper, Fitting;
    assert run.ring.dropped + Skipped(run.ring.world, rank) == run.ring.dropped;
    WithProperIff(run.ring.weights, run.ring.world, run.ring.dropped, rank + 1);
  }

  lemma StepFairIff(s: State, e: Event)
    requires Sound(s)
    ensures SharesFit(s.run.ring) ==> (SharesFit(Step(s, e).run.ring) <==> !Spoils(s, e))
    ensures DeadAreSilent(s.run.ring) ==> (DeadAreSilent(Step(s, e).run.ring) <==> !Freeloads(s, e))
  {
    hide SoundRound, SoundRun, MarkDown, Expire, Post, Told, SharesFit, DeadAreSilent, Admit, Accepts, PostDrops, PostSpoils;
    match e
    case PostEvent(req, c) => PostFairIff(s, req, c);
    case TimeOutEvent(i, orders) =>
      if TimeOut(s, i, orders) != s {
        ExpireFair(s, s.tickets[i].key, s.tickets[i].rank, orders);
      }
    case DownEvent(rank, world, order) => MarkDownFair(s, rank, world, order);
    case JoinEvent(rank, check) =>
      if rank >= 1 && Admissible(s.run, rank) && !check {
        AdmitFairIff(s.run, rank);
      }
    case TakenEvent(id) => TakenRing(s.run, id);
    case _ =>
  }

  lemma TakenRing(run: Run, id: nat)
    requires SoundRun(run)
    ensures Taken(run, id).ring == run.ring
  {
  }

  // ---- over whole runs ----

  /** The shares are proper in every state on the way. */
  ghost predicate AlwaysFair(events: seq<Event>) {
    SharesFit(Exec(Start(), events).run.ring) && (events == [] || AlwaysFair(events[..|events| - 1]))
  }

  ghost predicate NothingSpoils(events: seq<Event>) {
    events == [] ||
    (NothingSpoils(events[..|events| - 1]) && !Spoils(Exec(Start(), events[..|events| - 1]), events[|events| - 1]))
  }

  /** Over every interleaving no share is ever negative, no dropped rank ever has one, and together they are all of the data or, when
      no survivor held any, none of it, exactly when no event of the run spoils them. */
  lemma {:induction false} SharesStayFairIff(events: seq<Event>)
    ensures AlwaysFair(events) <==> NothingSpoils(events)
  {
    if events == [] {
    } else {
      var front, e := events[..|events| - 1], events[|events| - 1];
      var s := Exec(Start(), front);
      assert Exec(Start(), events) == Step(s, e);
      assert AlwaysFair(events) <==> SharesFit(Step(s, e).run.ring) && AlwaysFair(front);
      assert NothingSpoils(events) <==> NothingSpoils(front) && !Spoils(s, e);
      assert AlwaysFair(front) ==> SharesFit(s.run.ring);
      hide *;
      SharesStayFairIff(front);
      StepFairIff(s, e);
    }
  }

  /** No dropped rank's report is left in any state on the way. */
  ghost predicate AlwaysSilent(events: seq<Event>) {
    DeadAreSilent(Exec(Start(), events).run.ring) && (events == [] || AlwaysSilent(events[..|events| - 1]))
  }

  ghost predicate NobodyFreeloads(events: seq<Event>) {
    events == [] ||
    (NobodyFreeloads(events[..|events| - 1]) && !Freeloads(Exec(Start(), events[..|events| - 1]), events[|events| - 1]))
  }

  /** Over every interleaving no dropped rank's report is ever left for a refit to count on, exactly when no refit of the run drops a
      freeloader. */
  lemma {:induction false} DeadStaySilentIff(events: seq<Event>)
    ensures AlwaysSilent(events) <==> NobodyFreeloads(events)
  {
    if events == [] {
    } else {
      var front, e := events[..|events| - 1], events[|events| - 1];
      var s := Exec(Start(), front);
      assert Exec(Start(), events) == Step(s, e);
      assert AlwaysSilent(events) <==> DeadAreSilent(Step(s, e).run.ring) && AlwaysSilent(front);
      assert NobodyFreeloads(events) <==> NobodyFreeloads(front) && !Freeloads(s, e);
      assert AlwaysSilent(front) ==> DeadAreSilent(s.run.ring);
      hide *;
      DeadStaySilentIff(front);
      StepFairIff(s, e);
    }
  }
}
