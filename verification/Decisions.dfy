/** What a post makes the lead decide about the ring, from what the ranks have reported. */
module Decisions {
  import opened Wrappers
  import opened Vectors
  import opened Reduce
  import opened Messages
  import opened Shares
  import opened Rebalance
  import opened Protocol
  import opened Refits
  import Rounds
  import Closing
  import Joining

  /** The ranks of the ring that have not been dropped. */
  function LiveRanks(ring: Ring): int {
    ring.world - |set k | k in ring.dropped && k < ring.world|
  }

  /** One rank alone beats the ring. */
  ghost predicate OneIsFaster(run: Run) {
    AllIn(run.ring.reports, LiveRanks(run.ring))
    && exists k :: AlonePays(run.ring.reports, LiveRanks(run.ring), run.mode.syncEvery, run.ring.world, k)
  }

  /** The ring beats itself, and one rank alone if it may be let go, by syncing rarely. */
  ghost predicate RareIsFaster(run: Run) {
    AllIn(run.ring.reports, LiveRanks(run.ring)) && LiveRanks(run.ring) <= 4
    && exists k :: SpacingPays(run.ring.reports, LiveRanks(run.ring), run.mode.syncEvery, run.ring.world, run.mode.fixed, k)
  }

  /** Every twentieth sync of a ring not yet let go: rare syncs if they pay, or all of the data to one rank if that pays, both only
      with nobody on the way in; or a freeloader dropped; or shares in proportion. A ring the user fixed lets nobody go. */
  ghost predicate Decides(run: Run, note: Option<Note>) {
    var ring, mode, free := run.ring, run.mode, run.joins.join.None? && run.joins.loading.None?;
    if mode.released || (run.round + 1) % 20 != 0 then note.None?
    else if free && mode.autoSync && !mode.diloco && RareIsFaster(run) then note == Some(DiLoCoNote(Spacing(LiveRanks(ring))))
    else if free && !mode.fixed && mode.sharded && OneIsFaster(run) then
      note.Some? && note.value.RingNote? && note.value.event.Release?
      && AlonePays(ring.reports, LiveRanks(ring), mode.syncEvery, ring.world, note.value.event.keep)
    else if !Complete(ring.reports, ring.world) then note.None?
    else
      && (forall k: nat | Freeloads(ring.reports, ring.world, k) ::
            note == if mode.fixed || k in ring.dropped then None else Some(DropNote(k)))
      && ((forall k: nat :: !Freeloads(ring.reports, ring.world, k)) ==>
            forall v | InProportion(ring.reports, ring.world, v) :: note == if Off(ring.weights, v) then Some(RefitNote(v)) else None)
  }

  lemma OneFreeloader(reports: Reports, world: nat, a: nat, b: nat)
    requires Complete(reports, world) && Freeloads(reports, world, a) && Freeloads(reports, world, b)
    ensures a == b
  {
    hide Speed, TotalsOf, Together;
    assert IsSlowest(reports, world, a) && IsSlowest(reports, world, b);
  }

  lemma OneProportion(reports: Reports, world: nat, v: Vec, w: Vec)
    requires Complete(reports, world) && InProportion(reports, world, v) && InProportion(reports, world, w)
    ensures v == w
  {
    hide *;
    ProportionIs(reports, world, v);
    ProportionIs(reports, world, w);
  }

  lemma LiveIs(run: Run)
    ensures LiveCount(run) == LiveRanks(run.ring)
  {
  }

  lemma PaysAre(run: Run, c: Choice)
    requires SoundRun(run) && IsChoice(run, c)
    ensures SoloPays(c.solo) <==> OneIsFaster(run)
    ensures SoloPays(c.solo) ==> AlonePays(run.ring.reports, LiveRanks(run.ring), run.mode.syncEvery, run.ring.world, c.keep)
    ensures run.mode.autoSync && !run.mode.diloco ==> (c.diloco <==> RareIsFaster(run))
  {
    LiveIs(run);
    hide IsSolo, IsDiLoCo, AllIn, SpacingPays, AlonePays, LiveCount, LiveRanks, SoloPays, IsFastest, Fitting;
    AlonePaysIff(run.ring.reports, LiveCount(run), run.mode.syncEvery, run.ring.world, c.solo);
    if run.mode.autoSync && !run.mode.diloco {
      var fast := c.fast;
      SpacingPaysIff(run.ring.reports, LiveCount(run), run.mode.syncEvery, run.ring.world, c.solo, run.mode.fixed, fast, c.diloco);
    }
  }

  lemma PlanDecides(run: Run)
    ensures var ring := run.ring;
      var plan := PlanRebalance(ring.reports, ring.weights, ring.world);
      var note := match plan
        case Keep => None
        case Drop(rank) => if run.mode.fixed || rank in ring.dropped then None else Some(DropNote(rank))
        case Refit(shares) => Some(RefitNote(shares));
      if !Complete(ring.reports, ring.world) then note.None?
      else
        && (forall k: nat | Freeloads(ring.reports, ring.world, k) ::
              note == if run.mode.fixed || k in ring.dropped then None else Some(DropNote(k)))
        && ((forall k: nat :: !Freeloads(ring.reports, ring.world, k)) ==>
              forall v | InProportion(ring.reports, ring.world, v) :: note == if Off(ring.weights, v) then Some(RefitNote(v)) else None)
  {
    var ring := run.ring;
    PlanIs(ring.reports, ring.weights, ring.world);
    hide Complete, Freeloads, InProportion, Off, PlanRebalance;
    if Complete(ring.reports, ring.world) {
      forall a: nat, b: nat | Freeloads(ring.reports, ring.world, a) && Freeloads(ring.reports, ring.world, b)
        ensures a == b
      {
        OneFreeloader(ring.reports, ring.world, a, b);
      }
      forall v, w | InProportion(ring.reports, ring.world, v) && InProportion(ring.reports, ring.world, w)
        ensures v == w
      {
        OneProportion(ring.reports, ring.world, v, w);
      }
    }
  }

  /** What is told of a refit is what the reports call for. */
  lemma RebalanceDecides(run: Run, c: Choice)
    requires SoundRun(run) && (OnCadence(run) ==> Offered(run, c)) && (OnCadence(run) && Deciding(run) ==> IsChoice(run, c))
    ensures Decides(run, RebalanceFor(run, c).1)
  {
    hide PlanRebalance, IsChoice, Fitting, SoloPays, Complete, Freeloads, InProportion, Off, RareIsFaster, OneIsFaster, AlonePays;
    if OnCadence(run) {
      if Deciding(run) {
        PaysAre(run, c);
      }
      LiveIs(run);
      SpacingIs(run);
      PlanDecides(run);
      hide LiveRanks, LiveCount, AllIn, Spacing, DiLoCoEvery;
    }
  }

  lemma SpacingIs(run: Run)
    ensures RareIsFaster(run) ==> DiLoCoEvery(LiveRanks(run.ring)) == Spacing(LiveRanks(run.ring))
  {
    hide SpacingPays, LiveRanks;
  }

  /** The lead publishes, with a post that takes it to a new sync, just what the ring's reports call for at that sync, from that sync
      on; unless a join is open: then nobody is told. A post that is not taken, brings no news of the sync, or is of a shard above
      the first publishes nothing. */
  lemma PostDecides(s: State, req: Request, c: Choice)
    requires Sound(s)
    ensures var news, news' := s.run.news, Post(s, req, c).run.news;
      if Closing.Accepts(s, req, c) && req.shard == 0 && req.seqNo > s.run.lastSeq then
        exists note :: Decides(LeadFields(s.run, req), note)
          && if note.Some? && s.run.joins.join.None? then
               news'.published == news.published + [Notice(req.seqNo, note.value)] && news'.note == note && news'.noteSeq == req.seqNo
             else news' == news
      else news' == news
  {
    hide Post, SoundRun, Decides, RebalanceFor, IsChoice;
    if Closing.Accepts(s, req, c) {
      Joining.PostNews(s, req, c);
      HeardDecides(s.run, req, c);
    } else {
      Joining.PostRefused(s, req, c);
    }
  }

  lemma HeardDecides(run: Run, req: Request, c: Choice)
    requires ValidRequest(req) && SoundRun(run) && ChoiceFits(run, req, c)
    ensures var news, news' := run.news, Heard(run, req, c).news;
      if req.shard == 0 && req.seqNo > run.lastSeq then
        exists note :: Decides(LeadFields(run, req), note)
          && if note.Some? && run.joins.join.None? then
               news'.published == news.published + [Notice(req.seqNo, note.value)] && news'.note == note && news'.noteSeq == req.seqNo
             else news' == news
      else news' == news
  {
    hide Decides, RebalanceFor, IsSolo, IsDiLoCo, Fitting;
    if req.shard == 0 && Advances(run, req) {
      var run0 := LeadFields(run, req);
      assert OnCadence(run0) == OnCadence(run);
      RebalanceDecides(run0, c);
      RebalanceKeepsNews(run0, c);
      assert Decides(run0, RebalanceFor(run0, c).1);
    }
  }

  lemma RebalanceKeepsNews(run: Run, c: Choice)
    requires SoundRun(run) && (OnCadence(run) ==> Offered(run, c))
    ensures var run' := RebalanceFor(run, c).0; run'.news == run.news && run'.joins == run.joins
  {
    hide PlanRebalance, SoundRun;
  }

  // ---- what a post says of its ranks and its run ----

  /** The member reports on this rank, and has measured a step. */
  ghost predicate ReportsOn(m: Member, k: nat) {
    m.rank == k && m.step > 0.0 && m.samples >= 0
  }

  /** The last of the members that reports on this rank. */
  ghost predicate LastOn(members: seq<Member>, k: nat, i: nat) {
    i < |members| && ReportsOn(members[i], k) && forall j | i < j < |members| :: !ReportsOn(members[j], k)
  }

  /** Each rank's report is the last one given for it, unless it is dropped; the others stay as they were. */
  ghost predicate TakenDown(before: Reports, after: Reports, members: seq<Member>, dropped: set<nat>) {
    forall k: nat ::
      if k !in dropped && exists i: nat :: LastOn(members, k, i) then
        exists i: nat :: LastOn(members, k, i) && k in after && after[k] == Report(members[i].step, members[i].sync, members[i].samples)
      else (k in after <==> k in before) && (k in after ==> after[k] == before[k])
  }

  lemma LastNext(members: seq<Member>, k: nat, i: nat)
    requires members != []
    ensures var n := |members| - 1;
      LastOn(members, k, i) <==> if ReportsOn(members[n], k) then i == n else LastOn(members[..n], k, i)
  {
  }

  lemma OneTakenDown(ring: Ring, m: Member)
    requires m.rank >= 0
    ensures forall k: nat ::
      if ReportsOn(m, k) && k !in ring.dropped then
        k in Observe(ring, m).reports && Observe(ring, m).reports[k] == Report(m.step, m.sync, m.samples)
      else
        (k in Observe(ring, m).reports <==> k in ring.reports)
        && (k in ring.reports ==> Observe(ring, m).reports[k] == ring.reports[k])
  {
  }

  lemma {:induction false} AllTakenDown(ring: Ring, members: seq<Member>)
    requires Below(ring) && forall i | 0 <= i < |members| :: 0 <= members[i].rank < ring.world
    ensures TakenDown(ring.reports, ObserveAll(ring, members).reports, members, ring.dropped)
  {
    if members != [] {
      var n := |members| - 1;
      var front, m := members[..n], members[n];
      AllTakenDown(ring, front);
      var mid, after := ObserveAll(ring, front).reports, ObserveAll(ring, members).reports;
      forall k: nat, i: nat
        ensures LastOn(members, k, i) <==> if ReportsOn(m, k) then i == n else LastOn(front, k, i)
      {
        LastNext(members, k, i);
      }
      hide LastOn, Below, ReportsOn;
      OneTakenDown(ObserveAll(ring, front), m);
      forall k: nat
        ensures if k !in ring.dropped && exists i: nat :: LastOn(members, k, i) then
            exists i: nat :: LastOn(members, k, i) && k in after && after[k] == Report(members[i].step, members[i].sync, members[i].samples)
          else (k in after <==> k in ring.reports) && (k in after ==> after[k] == ring.reports[k])
      {
        if ReportsOn(m, k) {
          assert LastOn(members, k, n);
        } else if i: nat :| LastOn(front, k, i) {
          assert LastOn(members, k, i);
        }
      }
    }
  }

  /** What a lead's post says of its run is taken as it is, whatever else the post makes the lead decide: once sharded or fixed a run
      stays so, and the interval is the last one given; and each rank's report is the last given for it. */
  ghost predicate HeardOut(run: Run, run': Run, req: Request) {
    && run'.lastSeq == (if req.seqNo > run.lastSeq then req.seqNo else run.lastSeq)
    && run'.ring.world == (if req.world > run.ring.world then req.world else run.ring.world)
    && (run'.mode.sharded <==> run.mode.sharded || req.sharded) && (run'.mode.fixed <==> run.mode.fixed || req.fixed)
    && run'.mode.autoSync == req.auto && run'.mode.syncEvery == (if req.syncEvery > 0 then req.syncEvery else run.mode.syncEvery)
    && TakenDown(run.ring.reports, run'.ring.reports,
                 if req.members == [] then [Member(req.rank, req.step, req.sync, req.samples)] else req.members, run'.ring.dropped)
  }

  lemma RebalanceLeaves(run: Run, c: Choice)
    requires SoundRun(run) && (OnCadence(run) ==> Offered(run, c))
    ensures var run' := RebalanceFor(run, c).0;
      && run'.lastSeq == run.lastSeq && run'.ring.world == run.ring.world && run'.ring.reports == run.ring.reports
      && run'.mode == run.mode.(released := run'.mode.released, diloco := run'.mode.diloco)
  {
    hide PlanRebalance, SoundRun;
  }

  lemma LeadLeaves(run: Run, req: Request, c: Choice)
    requires ValidRequest(req) && SoundRun(run) && ChoiceFits(run, req, c)
    ensures var run0, run' := if req.shard == 0 then LeadFields(run, req) else run, LeadPart(run, req, c);
      && run'.lastSeq == run0.lastSeq && run'.ring.world == run0.ring.world && run'.ring.reports == run0.ring.reports
      && run'.mode == run0.mode.(released := run'.mode.released, diloco := run'.mode.diloco)
  {
    hide RebalanceFor, IsSolo, IsDiLoCo, Fitting, LeadFields;
    if req.shard == 0 && Advances(run, req) {
      var run0 := LeadFields(run, req);
      assert OnCadence(run0) == OnCadence(run) by { SameCadence(run, req); }
      RebalanceLeaves(run0, c);
    }
  }

  lemma SameCadence(run: Run, req: Request)
    requires ValidRequest(req) && SoundRun(run)
    ensures OnCadence(LeadFields(run, req)) == OnCadence(run)
  {
  }

  lemma HeardIsHeardOut(run: Run, req: Request, c: Choice)
    requires ValidRequest(req) && SoundRun(run) && ChoiceFits(run, req, c) && req.shard == 0
    ensures HeardOut(run, Heard(run, req, c), req)
  {
    LeadLeaves(run, req, c);
    AllTakenDown(LeadPart(run, req, c).ring, Reporters(req));
    hide LeadPart, ChoiceFits, Fitting, TakenDown;
  }

  /** A lead's post, when it is taken, is heard out. */
  lemma PostIsHeard(s: State, req: Request, c: Choice)
    requires Sound(s) && Closing.Accepts(s, req, c) && req.shard == 0
    ensures HeardOut(s.run, Post(s, req, c).run, req)
  {
    hide Landed, ChoiceFits, SoundRound, SoundRun, NewRound, Heard, HeardOut;
    var (s1, id) := RoundFor(s, req).value;
    Rounds.LandedRun(s1.run, s1.rounds[id], req, c);
    HeardIsHeardOut(s.run, req, c);
    HeardOutAnyway(s.run, Heard(s.run, req, c), Post(s, req, c).run, req);
  }

  lemma HeardOutAnyway(run: Run, a: Run, b: Run, req: Request)
    requires HeardOut(run, a, req) && b == a.(residual := b.residual, aborted := b.aborted)
    ensures HeardOut(run, b, req)
  {
    hide TakenDown;
  }
}
