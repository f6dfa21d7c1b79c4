/** How a rank joins a ring under way, event by event: admitted, handed the state, loading it, and in. */
module Handovers {
  import opened Wrappers
  import opened Vectors
  import opened Reduce
  import opened Messages
  import opened Shares
  import opened Rebalance
  import opened Protocol
  import opened Rounds
  import opened Notes
  import opened Closing
  import opened Telling
  import Joining

  /** When a rank may join: the ring trains in shards and has synced, it has neither stopped nor been let go, nobody else is joining,
      the rank comes after every rank there is, dropped ones apart, and somebody is there to hand over. */
  ghost predicate MayEnter(run: Run, rank: nat) {
    && run.lastSeq != 0 && run.aborted.None? && !run.mode.released && run.mode.sharded && run.joins.join.None?
    && 1 <= rank && run.ring.world <= rank && (forall k | run.ring.world <= k < rank :: k in run.ring.dropped)
    && exists k | 0 <= k < run.ring.world :: k !in run.ring.dropped
  }

  /** Whom the join waits for a snapshot from and for whom, if for anybody. */
  ghost predicate Awaits(j: Joins, rank: int) {
    j.join.Some? && j.join.value.rank == rank && j.join.value.snap.None?
  }

  /** What an event does to the join in progress. The first snapshot for the joiner is kept and wakes it; once the joiner has all of
      it the join is over and the joiner loading, and the ring's note is not news to it; its first sync ends that. A rank's death
      ends what it was part of, or passes it on. Nothing else touches a join. */
  ghost predicate HandsOver(s: State, s': State, e: Event)
    requires Sound(s)
  {
    var run, run', j, j' := s.run, s'.run, s.run.joins, s'.run.joins;
    match e
    case JoinEvent(rank, check) =>
      if MayEnter(run, rank) && !check then Welcomed(run, run', rank) && s' == s.(run := run') else s' == s
    case PutEvent(rank, body) =>
      s' == s.(run := run.(joins := j'))
      && if Awaits(j, rank) then
           j' == j.(join := Some(j.join.value.(snap := Some(body), ready := true)), woken := j.woken + [j.join.value.id])
         else j' == j
    case TakenEvent(id) =>
      if j.join.Some? && j.join.value.id == id && j.join.value.snap.Some? then
        && j' == j.(join := None, loading := j.join)
        && run' == run.(joins := j', news := run.news.(told := run'.news.told, excused := run'.news.excused))
        && run'.news.told == run.news.told + {j.join.value.rank}
      else s' == s
    case PostEvent(req, c) =>
      j' == if Accepts(s, req, c) && req.shard == 0 && j.loading.Some? && j.loading.value.rank == req.rank then j.(loading := None) else j
    case DownEvent(rank, size, order) =>
      if run'.news != run.news then JoinLoses(j, j', rank, run'.ring.dropped) else j' == j
    case TimeOutEvent(_, _) => run'.ring.dropped == run.ring.dropped ==> j' == j
    case _ => j' == j
  }

  lemma EnterIff(run: Run, rank: nat)
    ensures MayEnter(run, rank) <==> rank >= 1 && Admissible(run, rank)
  {
  }

  lemma EnterStep(s: State, rank: nat, check: bool)
    requires Sound(s)
    ensures HandsOver(s, Step(s, JoinEvent(rank, check)), JoinEvent(rank, check))
  {
    EnterIff(s.run, rank);
    if rank >= 1 && Admissible(s.run, rank) && !check {
      JoinTells(s.run, rank);
    }
    hide Admit, Welcomed, Admissible, SoundRun, SoundRound, MayEnter;
  }

  lemma LeadKeepsJoin(run: Run, req: Request, c: Choice)
    requires ValidRequest(req) && SoundRun(run) && ChoiceFits(run, req, c)
    ensures Heard(run, req, c).joins ==
      if req.shard == 0 && run.joins.loading.Some? && run.joins.loading.value.rank == req.rank then run.joins.(loading := None)
      else run.joins
  {
    hide RebalanceFor, IsSolo, IsDiLoCo, Fitting;
    if req.shard == 0 && Advances(run, req) {
      var run0 := LeadFields(run, req);
      RebalanceKeepsJoin(run0, c);
    }
  }

  lemma RebalanceKeepsJoin(run: Run, c: Choice)
    requires SoundRun(run) && (OnCadence(run) ==> Offered(run, c))
    ensures RebalanceFor(run, c).0.joins == run.joins
  {
    hide PlanRebalance, SoundRun;
  }

  lemma PostKeepsJoin(s: State, req: Request, c: Choice)
    requires Sound(s)
    ensures HandsOver(s, Post(s, req, c), PostEvent(req, c))
  {
    hide Landed, ChoiceFits, SoundRound, SoundRun, NewRound, Heard;
    if Accepts(s, req, c) {
      var (s1, id) := RoundFor(s, req).value;
      LandedRun(s1.run, s1.rounds[id], req, c);
      LeadKeepsJoin(s.run, req, c);
    } else {
      Joining.PostRefused(s, req, c);
    }
  }

  lemma DownKeepsJoin(s: State, rank: nat, world: nat, order: seq<Key>)
    requires Sound(s)
    ensures var run, run' := s.run, MarkDown(s, rank, world, order).run;
      if run'.news != run.news then JoinLoses(run.joins, run'.joins, rank, run'.ring.dropped) else run'.joins == run.joins
  {
    DownTells(s, rank, world, order);
    hide CloseAll, WithoutRank, SoundRound, Says, TellsRing, JoinLoses, SharesBefore, SharedAmong;
  }

  lemma {:induction false} MissingKeepsJoin(s: State, id: nat, n: nat, orders: seq<seq<Key>>)
    requires Sound(s) && id < |s.rounds| && n <= |orders|
    ensures var run, run' := s.run, DropMissing(s, id, n, orders).run;
      run.ring.dropped <= run'.ring.dropped && (run'.ring.dropped == run.ring.dropped ==> run'.joins == run.joins)
  {
    hide MarkDown, SoundRun, SoundRound;
    if n > 0 {
      var s1, s' := DropMissing(s, id, n - 1, orders), DropMissing(s, id, n, orders);
      MissingKeepsJoin(s, id, n - 1, orders);
      if s' != s1 {
        DownDrops(s1, n - 1, s.rounds[id].world, orders[n - 1]);
        assert n - 1 in s'.run.ring.dropped && n - 1 !in s1.run.ring.dropped;
      }
    }
  }

  lemma DownDrops(s: State, rank: nat, world: nat, order: seq<Key>)
    requires Sound(s)
    ensures MarkDown(s, rank, world, order).run.ring.dropped == s.run.ring.dropped + {rank}
  {
    DownTells(s, rank, world, order);
    hide MarkDown, Says, TellsRing, JoinLoses, SharesBefore, SharedAmong;
  }

  lemma TimeOutKeepsJoin(s: State, i: nat, orders: seq<seq<Key>>)
    requires Sound(s)
    ensures HandsOver(s, TimeOut(s, i, orders), TimeOutEvent(i, orders))
  {
    hide DropMissing, Closable, SoundRun, SoundRound, Enumerates, Shut;
    if TimeOut(s, i, orders) != s && s.tickets[i].key in s.open && Expire(s, s.tickets[i].key, s.tickets[i].rank, orders).0 != s {
      var id := s.open[s.tickets[i].key];
      var (run, r') := Shut(s.run, s.rounds[id], s.tickets[i].rank);
      var s1 := s.(run := run, rounds := s.rounds[id := r']);
      ShutSeen(s.run, s.rounds[id], s.tickets[i].rank);
      if TimeOut(s, i, orders).run != run {
        MissingKeepsJoin(s1, id, |orders|, orders);
      }
    }
  }

  /** Every event, from any state: what it does to the join in progress, and nothing more. */
  lemma StepHandsOver(s: State, e: Event)
    requires Sound(s)
    ensures HandsOver(s, Step(s, e), e)
  {
    match e
    case JoinEvent(rank, check) => EnterStep(s, rank, check);
    case PostEvent(req, c) =>
      PostKeepsJoin(s, req, c);
      hide Post, HandsOver;
      assert Step(s, e) == Post(s, req, c);
    case TimeOutEvent(i, orders) =>
      TimeOutKeepsJoin(s, i, orders);
      hide TimeOut, HandsOver;
      assert Step(s, e) == TimeOut(s, i, orders);
    case DownEvent(rank, size, order) =>
      DownKeepsJoin(s, rank, size, order);
      hide MarkDown, JoinLoses, SoundRun, SoundRound;
    case _ => hide Told, SoundRun, SoundRound;
  }

  // ---- rounds that wait for a handover ----

  /** A rank of this round is kept away by a join: the one handing over, or the one joining or loading, has yet to reach it; or the join
      has nobody left to hand over. */
  ghost predicate KeptAway(run: Run, r: Round) {
    var j := run.joins;
    || (j.join.Some? && j.join.value.from < 0)
    || exists k: nat ::
      && k !in r.seen && k !in run.ring.dropped
      && ((j.join.Some? && k == j.join.value.from)
          || (k < r.world && k == if j.join.Some? then j.join.value.rank else if j.loading.Some? then j.loading.value.rank else r.world))
  }

  lemma BusyIff(run: Run, r: Round)
    ensures HandoverBusy(run, r) <==> KeptAway(run, r)
  {
    var j := run.joins;
    if HandoverBusy(run, r) && !(j.join.Some? && j.join.value.from < 0) {
      if j.join.Some? && j.join.value.from !in r.seen && j.join.value.from !in run.ring.dropped {
        var k: nat := j.join.value.from;
        assert k !in r.seen && k !in run.ring.dropped;
      } else {
        var k := if j.join.Some? then j.join.value.rank else j.loading.value.rank;
        assert k !in r.seen && k !in run.ring.dropped && k < r.world;
      }
    }
  }

  /** A handler's look marks the round under its key, and no other, as held exactly when it is undecided and a join keeps one of its
      ranks away. */
  lemma HeldIff(s: State, i: nat, k: Key)
    requires Sound(s) && i < |s.tickets| && k in s.open && s.rounds[s.open[k]].key == k
    ensures Poll(s, i) == s.(rounds := Poll(s, i).rounds) && |Poll(s, i).rounds| == |s.rounds|
    ensures var r, r' := s.rounds[s.open[k]], Poll(s, i).rounds[s.open[k]];
      r' == r.(held := r'.held) && (r'.held <==> r.held || (k == s.tickets[i].key && !Decided(r) && KeptAway(s.run, r)))
  {
    BusyIff(s.run, s.rounds[s.open[k]]);
    hide HandoverBusy, KeptAway, SoundRun, SoundRound;
    if s.tickets[i].key in s.open && k != s.tickets[i].key {
      assert s.rounds[s.open[s.tickets[i].key]].key == s.tickets[i].key;
    }
  }
}
