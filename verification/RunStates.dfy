/** A training run's state on the lead daemon, updated in place under the board's lock. Every method does to the fields
    what the protocol's function of the same purpose does to a run. */
module RunStates {
  import opened Wrappers
  import opened Vectors
  import opened Reduce
  import opened Messages
  import opened Shares
  import opened Rebalance
  import opened Protocol

  class RunState {
    var ring: Ring
    var news: News
    var joins: Joins
    var mode: Mode
    var residual: Residuals
    var round: nat
    var lastSeq: int
    var aborted: Option<Fault>

    ghost function View(): Run
      reads this
    {
      Run(ring, news, joins, mode, residual, round, lastSeq, aborted)
    }

    lemma Shows()
      ensures View() == Run(ring, news, joins, mode, residual, round, lastSeq, aborted)
    {
    }

    constructor ()
      ensures View() == NewRun()
    {
      ring, news, joins := Ring(0, {}, [], map[]), News(None, 0, {}, [], {}), Joins(None, None, [], []);
      mode, residual := Mode(false, false, false, false, false, 0), map[];
      round, lastSeq, aborted := 0, 0, None;
    }

    // ---- counting ----

    method CountDropsBelow(world: nat) returns (n: nat)
      ensures n == DropsBelow(ring.dropped, world)
    {
      n := 0;
      var left := ring.dropped;
      while left != {}
        invariant left <= ring.dropped
        invariant n == DropsBelow(ring.dropped - left, world)
      {
        var rank :| rank in left;
        ghost var before := set d | d in ring.dropped - left && d < world;
        ghost var after := set d | d in ring.dropped - (left - {rank}) && d < world;
        assert after == if rank < world then before + {rank} else before;
        left := left - {rank};
        if rank < world {
          n := n + 1;
        }
      }
      assert ring.dropped - left == ring.dropped;
    }

    method CountLiveIn(seen: set<nat>) returns (n: nat)
      ensures n == LiveIn(seen, ring.dropped)
    {
      n := 0;
      var left := seen;
      while left != {}
        invariant left <= seen
        invariant n == LiveIn(seen - left, ring.dropped)
      {
        var rank :| rank in left;
        ghost var before := (seen - left) - ring.dropped;
        assert (seen - (left - {rank})) - ring.dropped == if rank in ring.dropped then before else before + {rank};
        left := left - {rank};
        if rank !in ring.dropped {
          n := n + 1;
        }
      }
      assert seen - left == seen;
    }

    method FindLowestLive(n: nat) returns (k: int)
      ensures k == LowestLive(ring.dropped, n)
    {
      k := 0;
      while k < n
        invariant 0 <= k <= n && forall j | 0 <= j < k :: j in ring.dropped
      {
        if k !in ring.dropped {
          LowestIs(ring.dropped, n, k);
          return;
        }
        k := k + 1;
      }
      LowestIs(ring.dropped, n, -1);
      k := -1;
    }

    static lemma LowestIs(dropped: set<nat>, n: nat, k: int)
      requires -1 <= k < n && (k >= 0 ==> k !in dropped) && forall j | 0 <= j < (if k >= 0 then k else n) :: j in dropped
      ensures LowestLive(dropped, n) == k
    {
      var l := LowestLive(dropped, n);
      assert (l < 0 && k >= 0 ==> k in dropped) && (l >= 0 && k < 0 ==> l in dropped);
    }

    // ---- notes ----

    method PublishNote(seqNo: int, note: Note)
      modifies this`news
      ensures View() == Publish(old(View()), seqNo, note)
    {
      news := News(Some(note), seqNo, {}, news.published + [Notice(seqNo, note)], {});
    }

    /** What this rank's answer to this sync carries of the news; a rank that gets the note counts as told. */
    method NoteFor(rank: nat, seqNo: int) returns (note: Option<Note>)
      modifies this`news
      ensures var due := Due(old(View()), rank, seqNo);
        && note == (if due then old(news.note) else None)
        && news == old(news).(told := if due then old(news.told) + {rank} else old(news.told))
    {
      if news.note.None? || seqNo < news.noteSeq || rank in news.told {
        return None;
      }
      news := news.(told := news.told + {rank});
      return news.note;
    }

    method RingFragment(event: RingEvent) returns (note: Note)
      ensures note == RingNow(View(), event)
    {
      var joining: Option<(nat, int)> := None;
      if joins.join.Some? && joins.join.value.snap.None? {
        joining := Some((joins.join.value.rank, joins.join.value.from));
      }
      note := RingNote(ring.weights, joining, event);
    }

    // ---- what ranks and the lead say ----

    method AbortWith(why: Fault)
      modifies this`aborted
      ensures View() == AbortRun(old(View()), why)
    {
      if aborted.Some? {
        return;
      }
      aborted := Some(why);
    }

    method ObserveReport(m: Member)
      modifies this`ring
      ensures ring == Observe(old(ring), m)
    {
      if m.step <= 0.0 || m.samples < 0 || m.rank < 0 || m.rank in ring.dropped {
        return;
      }
      ring := ring.(reports := ring.reports[m.rank := Report(m.step, m.sync, m.samples)]);
    }

    method ObserveReports(members: seq<Member>)
      requires Below(ring) && forall i | 0 <= i < |members| :: members[i].rank < ring.world
      modifies this`ring
      ensures Below(old(ring)) && ring == ObserveAll(old(ring), members)
    {
      for i := 0 to |members|
        invariant ring == ObserveAll(old(ring), members[..i])
      {
        assert members[..i + 1][..i] == members[..i];
        ObserveReport(members[i]);
      }
      assert members[..|members|] == members;
    }

    method TakeModes(req: Request)
      modifies this`mode
      ensures mode == old(mode).(sharded := old(mode).sharded || req.sharded, fixed := old(mode).fixed || req.fixed,
                                 autoSync := req.auto,
                                 syncEvery := if req.syncEvery > 0 then req.syncEvery else old(mode).syncEvery)
    {
      if req.sharded {
        mode := mode.(sharded := true);
      }
      if req.fixed {
        mode := mode.(fixed := true);
      }
      mode := mode.(autoSync := req.auto);
      if req.syncEvery > 0 {
        mode := mode.(syncEvery := req.syncEvery);
      }
    }

    method TakeLeadFields(req: Request)
      requires ValidRequest(req) && SoundRun(View())
      modifies this`ring, this`mode, this`joins, this`lastSeq
      ensures View() == LeadFields(old(View()), req)
    {
      hide SoundRun;
      if req.world > ring.world {
        ring := ring.(world := req.world);
      }
      TakeModes(req);
      if joins.loading.Some? && joins.loading.value.rank == req.rank {
        joins := joins.(loading := None);
      }
      if req.seqNo > lastSeq {
        lastSeq := req.seqNo;
      }
    }

    // ---- refits ----

    /** planSolo and planDiLoCo on the reports as they are. */
    method WeighUp(live: int) returns (keep: int, ghost c: Choice, switch: bool)
      requires SoundRun(View()) && live == LiveCount(View())
      ensures IsChoice(View(), c) && (keep >= 0 <==> SoloPays(c.solo)) && (keep >= 0 ==> c.keep == keep && keep in ring.reports)
      ensures switch <==> mode.autoSync && !mode.diloco && c.diloco
    {
      var solo;
      keep, solo := ComputeSolo(ring.reports, live, mode.syncEvery, ring.world);
      c := Choice(if keep >= 0 then keep else 0, solo, 0.0, false);
      switch := false;
      hide IsDiLoCo, IsSolo;
      if mode.autoSync && !mode.diloco && solo.Compared? {
        var fast, ok := ComputeDiLoCo(ring.reports, live, if mode.fixed then None else Some(solo.solo), solo.split);
        c := c.(fast := fast, diloco := ok);
        switch := ok;
      }
    }

    method DecideSolo() returns (note: Option<Note>, ghost c: Choice)
      requires SoundRun(View())
      modifies this`ring, this`mode
      ensures Deciding(old(View())) ==> IsChoice(old(View()), c)
      ensures Offered(old(View()), c) && (View(), note) == SoloFor(old(View()), c)
    {
      c := Choice(0, Unmeasured, 0.0, false);
      if mode.released || joins.join.Some? || joins.loading.Some? {
        return None, c;
      }
      hide IsChoice, SoloPays, Fitting;
      var gone := CountDropsBelow(ring.world);
      var live := ring.world - gone;
      var keep, switch;
      keep, c, switch := WeighUp(live);
      if switch {
        mode := mode.(diloco := true);
        return Some(DiLoCoNote(DiLoCoEvery(live))), c;
      }
      if mode.fixed || keep < 0 || !mode.sharded {
        return None, c;
      }
      mode := mode.(released := true);
      ring := ring.(weights := Zero(ring.world)[keep := 1.0]);
      var told := RingFragment(Release(keep));
      note := Some(told);
    }

    method DecideRebalance() returns (note: Option<Note>, ghost c: Choice)
      requires SoundRun(View())
      modifies this`ring, this`mode, this`round
      ensures OnCadence(old(View())) && Deciding(old(View())) ==> IsChoice(old(View()), c)
      ensures OnCadence(old(View())) ==> Offered(old(View()), c)
      ensures (View(), note) == RebalanceFor(old(View()), c)
    {
      c := Choice(0, Unmeasured, 0.0, false);
      round := round + 1;
      if mode.released || round % REBALANCE_EVERY != 0 {
        return None, c;
      }
      ghost var run0 := View();
      assert SoundRun(run0) && (forall d :: IsChoice(run0, d) <==> IsChoice(old(View()), d));
      hide SoloFor, IsChoice, Fitting, SoloPays, PlanRebalance;
      note, c := DecideSolo();
      if note.Some? {
        return;
      }
      var plan := ComputeRebalance(ring.reports, ring.weights, ring.world);
      match plan
      case Keep =>
      case Drop(rank) =>
        if !mode.fixed && rank !in ring.dropped {
          ring := ring.(dropped := ring.dropped + {rank});
          note := Some(DropNote(rank));
        }
      case Refit(shares) =>
        ring := ring.(weights := shares);
        note := Some(RefitNote(shares));
    }
  
    /** The lead's part of a post: once per sync the refit looks at the ring, and what it decides is published unless a join's
        note would be lost. */
    method HearLead(req: Request) returns (ghost c: Choice)
      requires ValidRequest(req) && SoundRun(View()) && req.shard == 0
      modifies this`ring, this`mode, this`joins, this`lastSeq, this`round, this`news
      ensures SoundRun(old(View())) && ChoiceFits(old(View()), req, c) && View() == LeadPart(old(View()), req, c)
    {
      var advances := req.seqNo > lastSeq;
      TakeLeadFields(req);
      c := Choice(0, Unmeasured, 0.0, false);
      hide RebalanceFor, IsChoice, Fitting, Below, LeadFields;
      if advances {
        var note;
        note, c := DecideRebalance();
        if note.Some? && joins.join.None? {
          PublishNote(req.seqNo, note.value);
        }
      }
    }

    method HearPost(req: Request) returns (ghost c: Choice)
      requires ValidRequest(req) && SoundRun(View())
      modifies this`ring, this`mode, this`joins, this`lastSeq, this`round, this`news
      ensures SoundRun(old(View())) && ChoiceFits(old(View()), req, c) && View() == Heard(old(View()), req, c)
    {
      c := Choice(0, Unmeasured, 0.0, false);
      if req.shard == 0 {
        c := HearLead(req);
        hide LeadPart, ChoiceFits, Fitting;
        ObserveReports(Reporters(req));
      }
    }

    // ---- ranks going down and joining ----

    /** A join without its joiner is over; one without the rank handing over turns to the lowest rank left. */
    method LeaveRing(rank: nat)
      requires SoundRun(View()) && rank < ring.world
      modifies this`ring, this`joins
      ensures SoundRun(old(View())) && View() == WithoutRank(old(View()), rank)
    {
      hide SharesWithout, Fitting;
      var weights := ring.weights;
      if |weights| != ring.world {
        weights := Ones(ring.world);
      }
      ring := ring.(dropped := ring.dropped + {rank}, reports := ring.reports - {rank});
      weights := ComputeWithout(weights, ring.dropped);
      ring := ring.(weights := weights);
      if joins.loading.Some? && joins.loading.value.rank == rank {
        joins := joins.(loading := None);
      }
      if joins.join.Some? {
        if joins.join.value.rank == rank {
          DropJoin();
        } else if joins.join.value.from == rank {
          var from := FindLowestLive(joins.join.value.oldWorld);
          joins := joins.(join := Some(joins.join.value.(from := from)));
        }
      }
    }

    /** endJoin: the join's channel is closed unless it is already. */
    method DropJoin()
      modifies this`joins
      ensures View() == old(View()).(joins := EndJoin(old(joins)))
    {
      if joins.join.Some? {
        if !joins.join.value.ready {
          joins := joins.(woken := joins.woken + [joins.join.value.id]);
        }
        joins := joins.(join := None);
      }
    }

    /** ddpJoin's checks, in its order. */
    method MayJoin(rank: nat) returns (ok: bool)
      ensures ok == Admissible(View(), rank)
    {
      if lastSeq == 0 || aborted.Some? || mode.released || !mode.sharded || joins.join.Some? || rank < ring.world {
        return false;
      }
      for k := ring.world to rank
        invariant forall j | ring.world <= j < k :: j in ring.dropped
      {
        if k !in ring.dropped {
          return false;
        }
      }
      var from := FindLowestLive(ring.world);
      return from >= 0;
    }

    method AdmitRank(rank: nat)
      requires SoundRun(View()) && Admissible(View(), rank)
      modifies this`ring, this`joins, this`news
      ensures SoundRun(old(View())) && View() == Admit(old(View()), rank)
    {
      hide SharesWith, Fitting, Below;
      var world := ring.world;
      var from := FindLowestLive(world);
      ghost var before := ring.dropped;
      for k := world to rank
        modifies this`ring
        invariant ring == old(ring).(dropped := before + Skipped(world, k))
      {
        ring := ring.(dropped := ring.dropped + {k});
        assert Skipped(world, k + 1) == Skipped(world, k) + {k};
      }
      var weights := ComputeWith(ring.weights, world, ring.dropped, rank + 1);
      ring := ring.(weights := weights, world := rank + 1);
      joins := joins.(join := Some(Join(|joins.admitted|, rank, from, world, None, false)),
                      admitted := joins.admitted + [Admitted(rank, world)]);
      var note := RingFragment(Joining(rank));
      PublishNote(lastSeq + 1, note);
    }

    method PutSnapshot(rank: int, body: seq<int>) returns (ok: bool)
      modifies this`joins
      ensures ok == old(Wanted(View(), rank))
      ensures View() == if ok then old(View()).(joins := Snapped(old(View()).joins, body)) else old(View())
    {
      if joins.join.None? || joins.join.value.rank != rank || joins.join.value.snap.Some? {
        return false;
      }
      joins := joins.(join := Some(joins.join.value.(snap := Some(body), ready := true)),
                      woken := joins.woken + [joins.join.value.id]);
      return true;
    }

    /** The joiner has been sent the whole snapshot of the join it asked about. */
    method FinishJoin(id: nat)
      requires SoundRun(View())
      modifies this`joins, this`news
      ensures SoundRun(old(View())) && View() == Taken(old(View()), id)
    {
      if joins.join.None? || joins.join.value.id != id || joins.join.value.snap.None? {
        return;
      }
      var rank := joins.join.value.rank;
      news := news.(told := news.told + {rank}, excused := news.excused + {rank});
      joins := joins.(join := None, loading := joins.join);
    }
  }
}
