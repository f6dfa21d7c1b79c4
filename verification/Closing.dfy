/** No round waits for nobody: once every rank the ring still has is in, the round is closed, but for exactly the drops that nobody
    looks after. */
module Closing {
  import opened Wrappers
  import opened Counting
  import opened Vectors
  import opened Reduce
  import opened Messages
  import opened Shares
  import opened Rebalance
  import opened Protocol
  import opened Rounds

  /** Everyone the ring still has is in, and yet there is no verdict. */
  ghost predicate Stuck(dropped: set<nat>, r: Round) {
    !Decided(r) && LiveIn(r.seen, dropped) >= Awaited(dropped, r.world)
  }

  /** No round the board still serves is stuck. */
  ghost predicate NoneStuck(s: State)
    requires Sound(s)
  {
    forall k | k in s.open :: !Stuck(s.run.ring.dropped, s.rounds[s.open[k]])
  }

  lemma SettledIsFree(run: Run, r: Round)
    requires SoundRun(run) && SoundRound(r) && !Decided(r) && Healthy(run.ring.dropped, run.aborted.Some?, r)
    ensures !Stuck(run.ring.dropped, Settled(run, r).1)
    ensures !Decided(Settled(run, r).1) ==> ExpectedCount(Settled(run, r).1) == Awaited(run.ring.dropped, r.world)
  {
    AwaitedFalls(run.ring.dropped, run.ring.dropped, r.world);
    assert r.parts == [] ==> r.seen == {};
  }

  lemma CloseReadyFrees(s: State, key: Key, k: Key)
    requires Sound(s) && Safe(s) && k in s.open
    requires k == key || !Stuck(s.run.ring.dropped, s.rounds[s.open[k]])
    ensures var s' := CloseReady(s, key);
      !Stuck(s'.run.ring.dropped, s'.rounds[s'.open[k]])
  {
    CloseReadyKeeps(s, key);
    if k == key && !Decided(s.rounds[s.open[k]]) {
      SettledIsFree(s.run, s.rounds[s.open[k]]);
    }
    hide Settled, Stuck, Healthy, Closable, SoundRun, RoundLater, RunLater, OffLater;
    if k != key && key in s.open {
      assert s.rounds[s.open[k]].key == k && s.rounds[s.open[key]].key == key;
    }
    assert Decided(s.rounds[s.open[k]]) ==> !Stuck(s.run.ring.dropped, s.rounds[s.open[k]]) by {
      DecidedIsFree(s.run.ring.dropped, s.rounds[s.open[k]]);
    }
  }

  lemma DecidedIsFree(dropped: set<nat>, r: Round)
    ensures Decided(r) ==> !Stuck(dropped, r)
  {
  }

  lemma {:induction false} CloseAllFrees(s: State, order: seq<Key>, k: Key)
    requires Sound(s) && Safe(s) && k in s.open && k in order
    ensures var s' := CloseAll(s, order);
      !Stuck(s'.run.ring.dropped, s'.rounds[s'.open[k]])
  {
    var front, key := order[..|order| - 1], order[|order| - 1];
    var s1 := CloseAll(s, front);
    assert CloseAll(s, order) == CloseReady(s1, key);
    assert k == key || k in front;
    hide *;
    CloseAllKeeps(s, front);
    if k != key {
      CloseAllFrees(s, front, k);
    }
    CloseReadyFrees(s1, key, k);
  }

  /** A fresh down report of a ring member leaves no round waiting that has everyone it will ever get. */
  lemma FreshDownClosesAll(s: State, rank: nat, world: nat, order: seq<Key>)
    requires Sound(s) && Safe(s) && FreshDown(s.run, rank, world) && Enumerates(order, s.open.Keys)
    ensures NoneStuck(MarkDown(s, rank, world, order))
  {
    var run := Sized(s.run, world);
    var run1 := WithoutRank(run, rank);
    var run2 := Publish(run1, run1.lastSeq + 1, RingNow(run1, Down(rank)));
    var s1 := s.(run := run2);
    var s' := MarkDown(s, rank, world, order);
    hide CloseAll, Stuck, Healthy, SharesWithout, JoinWithout, Fitting, SoundRound;
    assert s' == CloseAll(s1, order);
    assert RunLater(s.run, run2) by { DownLater(s.run, rank, world); }
    OnlyRun(s, run2);
    hide Safe, MarkDown, RunLater;
    forall k | k in s'.open
      ensures !Stuck(s'.run.ring.dropped, s'.rounds[s'.open[k]])
    {
      assert k in order;
      CloseAllFrees(s1, order, k);
    }
  }

  lemma DownLater(run: Run, rank: nat, world: nat)
    requires SoundRun(run) && FreshDown(run, rank, world)
    ensures var run1 := WithoutRank(Sized(run, world), rank);
      RunLater(run, Publish(run1, run1.lastSeq + 1, RingNow(run1, Down(rank))))
  {
    hide SharesWithout, Fitting;
  }

  // ---- ranks dropped with nobody looking ----

  /** Everyone the ring has besides this rank is in the round, and that is somebody. */
  ghost predicate LacksOnly(dropped: set<nat>, rank: nat, r: Round) {
    && (forall k: nat | k < r.world && k != rank && k !in dropped :: k in r.seen)
    && (exists k | k in r.seen :: k != rank && k !in dropped)
  }

  /** What dropping a rank makes of an undecided round nobody looks at: it is stuck exactly when everyone else is in. */
  lemma DropSticksIff(dropped: set<nat>, rank: nat, r: Round)
    requires !Decided(r) && forall k | k in r.seen :: k < r.world
    ensures Stuck(dropped + {rank}, r) <==> LacksOnly(dropped, rank, r)
  {
    var gone := dropped + {rank};
    var live, there := UpTo(r.world) - gone, r.seen - gone;
    LiveRanks(gone, r.world);
    Subsize(there, live);
    if Stuck(gone, r) {
      assert there == live && there != {};
      var k :| k in there;
      forall k: nat | k < r.world && k != rank && k !in dropped
        ensures k in r.seen
      {
        assert k in live;
      }
    }
    if LacksOnly(dropped, rank, r) {
      assert there == live;
      var k :| k in r.seen && k != rank && k !in dropped;
      assert k in there;
    }
  }

  /** A round the board serves lacks only this rank. */
  ghost predicate SomeLacksOnly(dropped: set<nat>, rank: nat, s: State)
    requires Sound(s)
  {
    exists k | k in s.open :: !Decided(s.rounds[s.open[k]]) && LacksOnly(dropped, rank, s.rounds[s.open[k]])
  }

  lemma AllSticksIff(dropped: set<nat>, rank: nat, s: State)
    requires Sound(s) && Safe(s) && s.run.ring.dropped == dropped + {rank}
    ensures NoneStuck(s) <==> !SomeLacksOnly(dropped, rank, s)
  {
    forall k | k in s.open
      ensures Stuck(s.run.ring.dropped, s.rounds[s.open[k]]) <==>
        !Decided(s.rounds[s.open[k]]) && LacksOnly(dropped, rank, s.rounds[s.open[k]])
    {
      var r := s.rounds[s.open[k]];
      assert Healthy(s.run.ring.dropped, s.run.aborted.Some?, r);
      DecidedIsFree(s.run.ring.dropped, r);
      if !Decided(r) {
        DropSticksIff(dropped, rank, r);
      }
    }
    hide Stuck, LacksOnly, Healthy, SoundRound, SoundRun;
  }

  // ---- over whole runs ----

  /** An opening round is of a size the lead has been told. */
  ghost predicate OpeningsTold(s: State) {
    forall i | 0 <= i < |s.rounds| && s.rounds[i].opening :: s.rounds[i].world <= s.run.ring.world
  }

  lemma ToldLater(s: State, s': State)
    requires OpeningsTold(s) && Later(s, s') && |s.rounds| == |s'.rounds|
    ensures OpeningsTold(s')
  {
    forall i | 0 <= i < |s.rounds| && s'.rounds[i].opening
      ensures s'.rounds[i].world <= s'.run.ring.world
    {
      assert RoundLater(s.rounds[i], s'.rounds[i]);
    }
  }

  // ---- down reports ----

  /** A report about a rank past the ring's size closes no round, and so leaves behind those that lacked only that rank. */
  ghost predicate DownSticks(s: State, rank: nat, world: nat)
    requires Sound(s)
  {
    rank >= Sized(s.run, world).ring.world && SomeLacksOnly(s.run.ring.dropped, rank, s)
  }

  lemma DownSticksIff(s: State, rank: nat, world: nat, order: seq<Key>)
    requires Sound(s) && Safe(s) && NoneStuck(s) && Enumerates(order, s.open.Keys)
    ensures NoneStuck(MarkDown(s, rank, world, order)) <==> !DownSticks(s, rank, world)
  {
    var s' := MarkDown(s, rank, world, order);
    MarkDownKeeps(s, rank, world, order);
    if rank < Sized(s.run, world).ring.world {
      if rank !in s.run.ring.dropped {
        FreshDownClosesAll(s, rank, world, order);
      } else {
        assert s'.rounds == s.rounds && s'.open == s.open && s'.run.ring.dropped == s.run.ring.dropped;
        hide MarkDown, Stuck;
      }
    } else {
      assert s'.rounds == s.rounds && s'.open == s.open && s'.run.ring.dropped == s.run.ring.dropped + {rank};
      hide MarkDown, Stuck, LacksOnly, Safe;
      AllSticksIff(s.run.ring.dropped, rank, s');
    }
  }

  lemma {:induction false} DropMissingFrees(s: State, id: nat, n: nat, orders: seq<seq<Key>>)
    requires Sound(s) && Safe(s) && NoneStuck(s) && id < |s.rounds| && n <= |orders|
    requires n <= s.rounds[id].world <= s.run.ring.world
    requires forall i | 0 <= i < |orders| :: Enumerates(orders[i], s.open.Keys)
    ensures NoneStuck(DropMissing(s, id, n, orders))
  {
    hide MarkDown, Safe, NoneStuck, SoundRun, SoundRound;
    if n > 0 {
      var s1, s' := DropMissing(s, id, n - 1, orders), DropMissing(s, id, n, orders);
      var world, order := s.rounds[id].world, orders[n - 1];
      assert s' == s1 || s' == MarkDown(s1, n - 1, world, order);
      hide *;
      DropMissingFrees(s, id, n - 1, orders);
      DropMissingKeeps(s, id, n - 1, orders);
      StillMember(s, s1, n - 1, world);
      DownSticksIff(s1, n - 1, world, order);
    }
  }

  lemma StillMember(s: State, s1: State, rank: nat, world: nat)
    requires Sound(s1) && Later(s, s1) && rank < world <= s.run.ring.world
    ensures !DownSticks(s1, rank, world)
  {
    hide OffLater, RoundLater, SomeLacksOnly;
  }

  lemma DropMissedFrees(s: State, id: nat, orders: seq<seq<Key>>)
    requires Sound(s) && Safe(s) && NoneStuck(s) && id < |s.rounds| && |orders| == s.rounds[id].world <= s.run.ring.world
    requires forall i | 0 <= i < |orders| :: Enumerates(orders[i], s.open.Keys)
    ensures NoneStuck(DropMissed(s, id, orders))
  {
    hide DropMissing, Stuck, SoundRun, SoundRound, Safe;
    if DropMissed(s, id, orders) != s {
      DropMissingFrees(s, id, |orders|, orders);
    }
  }

  // ---- timeouts ----

  /** A step that decides one round, or changes nothing about it that matters here. */
  lemma OneRoundFree(s: State, s': State, id: nat)
    requires Sound(s) && Sound(s') && NoneStuck(s) && id < |s.rounds| == |s'.rounds|
    requires s'.rounds == s.rounds[id := s'.rounds[id]]
    requires s'.run.ring.dropped == s.run.ring.dropped
    requires forall k | k in s'.open :: k in s.open && s'.open[k] == s.open[k]
    requires Stuck(s.run.ring.dropped, s'.rounds[id]) ==> Stuck(s.run.ring.dropped, s.rounds[id])
    ensures NoneStuck(s')
  {
    hide Stuck, SoundRun, SoundRound;
  }

  lemma ExpireFrees(s: State, key: Key, rank: nat, orders: seq<seq<Key>>)
    requires Sound(s) && Safe(s) && OpeningsTold(s) && NoneStuck(s) && OrdersFit(s, key, orders)
    ensures NoneStuck(Expire(s, key, rank, orders).0)
  {
    hide Shut, DropMissed, Healthy, RoundLater, Closable, SoundRun, Enumerates, RunLater;
    var s' := Expire(s, key, rank, orders).0;
    if s' != s {
      var id := s.open[key];
      var r := s.rounds[id];
      var (run, r') := Shut(s.run, r, rank);
      var s1 := s.(run := run, rounds := s.rounds[id := r']);
      ShutKeeps(s.run, r, rank);
      OneRound(s, s1, id, r');
      ShutDecides(s.run, r, rank);
      DecidedIsFree(s.run.ring.dropped, r');
      OneRoundFree(s, s1, id);
      if s' != s1 {
        assert RoundLater(r, r');
        assert s1.rounds[id].world <= s1.run.ring.world by { OpeningSize(r, r'); }
        DropMissedFrees(s1, id, orders);
      }
    }
  }

  lemma OpeningSize(r: Round, r': Round)
    requires RoundLater(r, r')
    ensures r'.opening == r.opening && r'.world == r.world
  {
  }

  lemma ShutDecides(run: Run, r: Round, rank: nat)
    requires SoundRun(run) && SoundRound(r) && !Decided(r)
    ensures Decided(Shut(run, r, rank).1)
  {
  }

  // ---- posts ----

  /** A contribution either closes its round or leaves somebody to wait for. */
  lemma ArriveIsFree(run: Run, r: Round, req: Request)
    requires ValidRequest(req) && SoundRun(run) && SoundRound(r) && r.world == req.world
    requires Healthy(run.ring.dropped, run.aborted.Some?, r) && ExpectedCount(r) == Awaited(run.ring.dropped, r.world)
    ensures !Stuck(run.ring.dropped, Arrive(run, r, req).1)
  {
    if !Decided(r) {
      FoldKeeps(r, req);
      hide Folded, Checked, Holds, Finish, Closable, MeanResidual;
    }
  }

  lemma LandedIsFree(run: Run, r: Round, req: Request, c: Choice)
    requires ValidRequest(req) && SoundRun(run) && SoundRound(r) && ChoiceFits(run, req, c) && r.world == req.world
    requires Healthy(run.ring.dropped, run.aborted.Some?, r)
    ensures var (run', r') := Landed(run, r, req, c);
      && run'.ring == Heard(run, req, c).ring
      && (run'.ring.dropped == run.ring.dropped ==> !Stuck(run'.ring.dropped, r'))
  {
    var r1 := r.(expected := Awaited(run.ring.dropped, req.world));
    var run1 := Heard(run, req, c);
    HeardLater(run, req, c);
    AwaitedFalls(run.ring.dropped, run1.ring.dropped, req.world);
    assert RoundLater(r, r1) && SoundRound(r1);
    assert Healthy(run1.ring.dropped, run1.aborted.Some?, r1) by {
      hide Heard, Holds, Closable;
    }
    assert Landed(run, r, req, c) == Arrive(run1, r1, req);
    AwaitedFalls(run.ring.dropped, run.ring.dropped, req.world);
    hide Heard, Arrive, Healthy, SoundRound, ChoiceFits, SoundRun, Stuck, RunLater;
    ArriveKeeps(run1, r1, req);
    if run1.ring.dropped == run.ring.dropped {
      ArriveIsFree(run1, r1, req);
    }
  }

  /** The rank a refit drops as a freeloader, if it drops one. */
  function FreeloaderOf(run: Run, c: Choice): Option<nat>
    requires SoundRun(run) && (OnCadence(run) ==> Offered(run, c))
  {
    if !OnCadence(run) then None
    else
      var (run1, note) := SoloFor(run.(round := run.round + 1), c);
      var plan := PlanRebalance(run1.ring.reports, run1.ring.weights, run1.ring.world);
      if note.None? && plan.Drop? && !run1.mode.fixed && plan.rank !in run1.ring.dropped then Some(plan.rank) else None
  }

  /** The rank a post drops as a freeloader: one that opens a new sync at the lead, at a refit. */
  ghost function PostDrops(run: Run, req: Request, c: Choice): Option<nat>
    requires ValidRequest(req) && SoundRun(run) && ChoiceFits(run, req, c)
  {
    hide IsSolo, IsDiLoCo, Fitting, FreeloaderOf;
    if req.shard != 0 || !Advances(run, req) then None else FreeloaderOf(LeadFields(run, req), c)
  }

  lemma RebalanceDrops(run: Run, c: Choice)
    requires SoundRun(run) && (OnCadence(run) ==> Offered(run, c))
    ensures var r := RebalanceFor(run, c).0;
      if FreeloaderOf(run, c).Some? then
        && FreeloaderOf(run, c).value !in run.ring.dropped && !run.mode.fixed
        && r.ring.dropped == run.ring.dropped + {FreeloaderOf(run, c).value}
      else r.ring.dropped == run.ring.dropped
  {
    hide PlanRebalance, SoundRun;
  }

  lemma HeardDrops(run: Run, req: Request, c: Choice)
    requires ValidRequest(req) && SoundRun(run) && ChoiceFits(run, req, c)
    ensures var r := Heard(run, req, c);
      if PostDrops(run, req, c).Some? then
        && PostDrops(run, req, c).value !in run.ring.dropped && !run.mode.fixed
        && r.ring.dropped == run.ring.dropped + {PostDrops(run, req, c).value}
      else r.ring.dropped == run.ring.dropped
    ensures req.shard == 0 ==> Heard(run, req, c).ring.world >= req.world
  {
    LeadDrops(run, req, c);
    hide LeadPart, ChoiceFits, Fitting, PostDrops;
  }

  lemma LeadDrops(run: Run, req: Request, c: Choice)
    requires ValidRequest(req) && SoundRun(run) && ChoiceFits(run, req, c)
    ensures var r := LeadPart(run, req, c);
      if PostDrops(run, req, c).Some? then
        && PostDrops(run, req, c).value !in run.ring.dropped && !run.mode.fixed
        && r.ring.dropped == run.ring.dropped + {PostDrops(run, req, c).value}
      else r.ring.dropped == run.ring.dropped
  {
    if req.shard == 0 && Advances(run, req) {
      RebalanceDrops(LeadFields(run, req), c);
    }
    hide RebalanceFor, IsSolo, IsDiLoCo, Fitting, FreeloaderOf;
  }

  /** A post the lead takes: valid, neither turned away nor of another size than its round. */
  ghost predicate Accepts(s: State, req: Request, c: Choice)
    requires Sound(s)
  {
    && ValidRequest(req) && !TurnedAway(s.run, req) && ChoiceFits(s.run, req, c) && RoundFor(s, req).Some?
    && RoundFor(s, req).value.0.rounds[RoundFor(s, req).value.1].world == req.world
  }

  /** The ranks in a round once this contribution is, if it is not refused. */
  ghost function SeenWith(r: Round, req: Request): set<nat>
    requires ValidRequest(req)
  {
    if Contributors(req) !! r.seen then r.seen + Contributors(req) else r.seen
  }

  /** A post whose contribution is no fault, to a round of a size that counts the rank dropped: everyone besides that rank is in
      then, and that is somebody. The round still waits for as many ranks as the ring had before. */
  ghost predicate OwnSticks(dropped: set<nat>, rank: nat, r: Round, req: Request)
    requires ValidRequest(req) && SoundRound(r)
  {
    && !Decided(r) && Folded(Checked(r, req), req).err.None?
    && rank < req.world && LacksOnly(dropped, rank, r.(seen := SeenWith(r, req)))
  }

  /** A round under another key lacks only this rank. */
  ghost predicate OtherSticks(s: State, key: Key, rank: nat)
    requires Sound(s)
  {
    exists k | k in s.open && k != key ::
      !Decided(s.rounds[s.open[k]]) && LacksOnly(s.run.ring.dropped, rank, s.rounds[s.open[k]])
  }

  /** A post that drops a freeloader leaves behind every open round that lacks only that rank, its own counted with what it
      brings. */
  ghost predicate PostSticks(s: State, req: Request, c: Choice)
    requires Sound(s)
  {
    && Accepts(s, req, c) && PostDrops(s.run, req, c).Some?
    && var rank := PostDrops(s.run, req, c).value;
      var (s1, id) := RoundFor(s, req).value;
      OtherSticks(s, KeyOf(req), rank) || OwnSticks(s.run.ring.dropped, rank, s1.rounds[id], req)
  }

  /** With everyone else in, a round that still waits for the number the ring had before a drop stays open exactly when it
      counts the rank dropped. */
  lemma StaleCountIff(dropped: set<nat>, rank: nat, r: Round)
    requires rank !in dropped && r.world >= 1 && LacksOnly(dropped, rank, r) && forall k | k in r.seen :: k < r.world
    ensures LiveIn(r.seen, dropped + {rank}) < Awaited(dropped, r.world) <==> rank < r.world
  {
    var gone := dropped + {rank};
    var before, after, there := UpTo(r.world) - dropped, UpTo(r.world) - gone, r.seen - gone;
    LiveRanks(dropped, r.world);
    LiveRanks(gone, r.world);
    assert there == after;
    var k :| k in r.seen && k != rank && k !in dropped;
    assert k in there;
    assert after == if rank < r.world then before - {rank} else before;
    assert rank < r.world ==> rank in before;
  }

  /** What a round lacks does not depend on how many ranks it waits for. */
  lemma OwnAnyway(dropped: set<nat>, rank: nat, r: Round, req: Request, expected: int)
    requires ValidRequest(req) && SoundRound(r)
    ensures SoundRound(r.(expected := expected))
    ensures OwnSticks(dropped, rank, r.(expected := expected), req) <==> OwnSticks(dropped, rank, r, req)
  {
    hide Add, Contributors, SameModel, Decode;
  }

  lemma FoldedSeen(r: Round, req: Request)
    requires ValidRequest(req) && SoundRound(r) && !Decided(r)
    ensures var r1 := Folded(Checked(r, req), req); r1.err.None? ==> r1.seen == SeenWith(r, req)
  {
    hide Add, Contributors, SameModel, Decode;
  }

  lemma OwnSticksIff(run: Run, r: Round, req: Request, c: Choice)
    requires ValidRequest(req) && SoundRun(run) && SoundRound(r) && ChoiceFits(run, req, c) && r.world == req.world
    requires Healthy(run.ring.dropped, run.aborted.Some?, r) && PostDrops(run, req, c).Some?
    ensures Stuck(Heard(run, req, c).ring.dropped, Landed(run, r, req, c).1)
      <==> OwnSticks(run.ring.dropped, PostDrops(run, req, c).value, r, req)
  {
    var expected := Awaited(run.ring.dropped, req.world);
    HeardDrops(run, req, c);
    AwaitedFalls(run.ring.dropped, run.ring.dropped, req.world);
    OwnAnyway(run.ring.dropped, PostDrops(run, req, c).value, r, req, expected);
    assert Landed(run, r, req, c) == Arrive(Heard(run, req, c), r.(expected := expected), req);
    assert r.world >= 1;
    hide *;
    if r.done {
      DoneNeverSticks(run, r, req, c, Heard(run, req, c).ring.dropped, run.ring.dropped, PostDrops(run, req, c).value);
    } else {
      UndecidedFold(run.ring.dropped, run.aborted.Some?, r, req, expected);
      ArrivedSticksIff(Heard(run, req, c), r.(expected := expected), req, run.ring.dropped, PostDrops(run, req, c).value);
    }
  }

  lemma DoneNeverSticks(run: Run, r: Round, req: Request, c: Choice, gone: set<nat>, dropped: set<nat>, rank: nat)
    requires ValidRequest(req) && SoundRun(run) && SoundRound(r) && ChoiceFits(run, req, c)
    requires Healthy(run.ring.dropped, run.aborted.Some?, r) && r.done
    ensures !Stuck(gone, Landed(run, r, req, c).1) && !OwnSticks(dropped, rank, r, req)
  {
    assert Decided(r);
    var r' := Landed(run, r, req, c).1;
    assert Decided(r') by {
      hide Heard, ChoiceFits, SoundRun, Folded, Checked, Healthy, Awaited, Closable;
    }
    hide Landed;
    DecidedIsFree(gone, r');
  }

  lemma UndecidedFold(dropped: set<nat>, stopped: bool, r: Round, req: Request, expected: int)
    requires ValidRequest(req) && SoundRound(r) && r.world == req.world && Healthy(dropped, stopped, r) && !r.done
    ensures var r0 := r.(expected := expected);
      && SoundRound(r0) && !Decided(r0)
      && var r1 := Folded(Checked(r0, req), req);
        && r1.expected == expected && r1.world == r.world && r1.result.None?
        && (r1.err.None? ==> r1.seen == SeenWith(r0, req)) && forall k | k in r1.seen :: k < r.world
  {
    var r0 := r.(expected := expected);
    assert SoundRound(r0) && !Decided(r0) && Accounted(r0) && Summed(r0);
    FoldKeeps(r0, req);
    FoldedSeen(r0, req);
    hide Folded, Checked, Holds, Closable;
  }

  lemma ArrivedSticksIff(run: Run, r: Round, req: Request, dropped: set<nat>, rank: nat)
    requires ValidRequest(req) && SoundRun(run) && SoundRound(r) && !Decided(r) && r.world == req.world
    requires rank !in dropped && run.ring.dropped == dropped + {rank} && r.expected == Awaited(dropped, r.world)
    requires r.expected <= r.world
    requires var r1 := Folded(Checked(r, req), req);
      && r1.expected == r.expected && r1.world == r.world && r1.result.None?
      && (r1.err.None? ==> r1.seen == SeenWith(r, req)) && forall k | k in r1.seen :: k < r.world
    ensures Stuck(run.ring.dropped, Arrive(run, r, req).1) <==> OwnSticks(dropped, rank, r, req)
  {
    var r1 := Folded(Checked(r, req), req);
    hide Folded, Checked, Finish, LiveIn, Awaited, SeenWith, SoundRun, Closable;
    if r1.err.None? {
      DropSticksIff(dropped, rank, r1);
      if LacksOnly(dropped, rank, r1) {
        StaleCountIff(dropped, rank, r1);
      }
    }
  }

  lemma RoundForFree(s: State, req: Request)
    requires Sound(s) && Safe(s) && NoneStuck(s) && ValidRequest(req) && RoundFor(s, req).Some?
    ensures NoneStuck(RoundFor(s, req).value.0)
  {
    var s1 := RoundFor(s, req).value.0;
    if s1 != s {
      var r := NewRound(req).value;
      assert r.seen - s.run.ring.dropped == {};
      assert !Stuck(s.run.ring.dropped, r);
      hide Stuck, Healthy, SoundRun, SoundRound, NewRound;
    }
  }

  lemma PostToSticksIff(s: State, id: nat, req: Request, c: Choice)
    requires Sound(s) && Safe(s) && id < |s.rounds| && ValidRequest(req) && ChoiceFits(s.run, req, c)
    requires s.rounds[id].key == KeyOf(req) && s.rounds[id].world == req.world
    requires KeyOf(req) in s.open && s.open[KeyOf(req)] == id && NoneStuck(s)
    ensures NoneStuck(PostTo(s, id, req, c)) <==>
      !(PostDrops(s.run, req, c).Some?
        && (OtherSticks(s, KeyOf(req), PostDrops(s.run, req, c).value)
            || OwnSticks(s.run.ring.dropped, PostDrops(s.run, req, c).value, s.rounds[id], req)))
  {
    var s' := PostTo(s, id, req, c);
    PostToKeeps(s, id, req, c);
    LandedIsFree(s.run, s.rounds[id], req, c);
    HeardDrops(s.run, req, c);
    assert s'.rounds == s.rounds[id := Landed(s.run, s.rounds[id], req, c).1] && s'.open == s.open;
    assert s'.run.ring == Heard(s.run, req, c).ring;
    hide *;
    if PostDrops(s.run, req, c).Some? {
      assert Healthy(s.run.ring.dropped, s.run.aborted.Some?, s.rounds[id]) by { HealthyHere(s, id); }
      OwnSticksIff(s.run, s.rounds[id], req, c);
      OthersSticksIff(s, s', id, KeyOf(req), PostDrops(s.run, req, c).value);
    } else {
      OneRoundFree(s, s', id);
    }
  }

  lemma HealthyHere(s: State, id: nat)
    requires Safe(s) && id < |s.rounds|
    ensures Healthy(s.run.ring.dropped, s.run.aborted.Some?, s.rounds[id])
  {
  }

  /** After a drop a round is stuck under another key or under this one. */
  lemma OthersSticksIff(s: State, s': State, id: nat, key: Key, rank: nat)
    requires Sound(s) && Sound(s') && Safe(s) && key in s.open && s.open[key] == id < |s.rounds|
    requires |s'.rounds| == |s.rounds| && s'.rounds == s.rounds[id := s'.rounds[id]] && s'.open == s.open
    requires s'.run.ring.dropped == s.run.ring.dropped + {rank}
    ensures NoneStuck(s') <==> !(OtherSticks(s, key, rank) || Stuck(s'.run.ring.dropped, s'.rounds[id]))
  {
    forall k | k in s.open && k != key
      ensures s'.rounds[s.open[k]] == s.rounds[s.open[k]]
      ensures Stuck(s'.run.ring.dropped, s.rounds[s.open[k]]) <==>
        !Decided(s.rounds[s.open[k]]) && LacksOnly(s.run.ring.dropped, rank, s.rounds[s.open[k]])
    {
      var r := s.rounds[s.open[k]];
      assert r.key == k && s.rounds[id].key == key;
      assert Healthy(s.run.ring.dropped, s.run.aborted.Some?, r);
      DecidedIsFree(s'.run.ring.dropped, r);
      if !Decided(r) {
        DropSticksIff(s.run.ring.dropped, rank, r);
      }
    }
    hide Stuck, LacksOnly, Healthy, SoundRound, SoundRun, Decided;
  }

  lemma PostSticksIff(s: State, req: Request, c: Choice)
    requires Sound(s) && Safe(s) && NoneStuck(s)
    ensures NoneStuck(Post(s, req, c)) <==> !PostSticks(s, req, c)
  {
    hide PostTo, ChoiceFits, Stuck, Healthy, SoundRound, SoundRun, NewRound, Later, OtherSticks, OwnSticks, PostDrops;
    if ValidRequest(req) && !TurnedAway(s.run, req) && ChoiceFits(s.run, req, c) && RoundFor(s, req).Some? {
      var (s1, id) := RoundFor(s, req).value;
      RoundForKeeps(s, req);
      RoundForFree(s, req);
      if s1.rounds[id].world == req.world {
        PostToSticksIff(s1, id, req, c);
        SameOthers(s, req);
      }
    }
  }

  /** Making the post's own round changes nothing under the other keys. */
  lemma SameOthers(s: State, req: Request)
    requires Sound(s) && ValidRequest(req) && RoundFor(s, req).Some?
    ensures RoundFor(s, req).value.0.run == s.run
    ensures forall rank: nat :: OtherSticks(RoundFor(s, req).value.0, KeyOf(req), rank) <==> OtherSticks(s, KeyOf(req), rank)
  {
    hide LacksOnly, Decided, SoundRound, SoundRun, NewRound;
    var s1 := RoundFor(s, req).value.0;
    assert forall k | k in s.open :: k != KeyOf(req) ==> k in s1.open && s1.rounds[s1.open[k]] == s.rounds[s.open[k]];
  }

  // ---- every step ----

  /** The steps that leave a round of the board with everyone and no verdict. */
  ghost predicate Sticks(s: State, e: Event)
    requires Sound(s)
  {
    match e
    case PostEvent(req, c) => PostSticks(s, req, c)
    case DownEvent(rank, world, order) =>
      world >= 2 && rank < world && Enumerates(order, s.open.Keys) && DownSticks(s, rank, world)
    case _ => false
  }

  lemma StepSticksIff(s: State, e: Event)
    requires Sound(s) && Safe(s) && OpeningsTold(s) && NoneStuck(s)
    ensures NoneStuck(Step(s, e)) <==> !Sticks(s, e)
  {
    hide Stuck, Healthy, SoundRound, SoundRun, MarkDown, Expire, Told, Post, PostSticks, DownSticks;
    match e
    case PostEvent(req, c) => PostSticksIff(s, req, c);
    case ReplyEvent(i) =>
      if Serve(s, i) != s {
        StuckFetched(s.run.ring.dropped, s.rounds[s.tickets[i].round], s.tickets[i].who);
        ServedFree(s, i);
      }
    case PollEvent(i) =>
      if Poll(s, i) != s {
        StuckHeld(s.run.ring.dropped, s.rounds[s.open[s.tickets[i].key]]);
        OneRoundFree(s, Poll(s, i), s.open[s.tickets[i].key]);
      }
    case TimeOutEvent(i, orders) =>
      if TimeOut(s, i, orders) != s {
        ExpireFrees(s, s.tickets[i].key, s.tickets[i].rank, orders);
      }
    case LeaveEvent(i) =>
    case DownEvent(rank, world, order) =>
      if world >= 2 && rank < world && Enumerates(order, s.open.Keys) {
        DownSticksIff(s, rank, world, order);
      }
    case JoinEvent(rank, check) =>
      if Step(s, e) != s {
        AdmitDrops(s.run, rank);
      }
    case PutEvent(_, _) =>
    case TakenEvent(_) =>
  }

  lemma StuckFetched(dropped: set<nat>, r: Round, who: seq<nat>)
    ensures Stuck(dropped, Fetched(r, who)) <==> Stuck(dropped, r)
  {
  }

  lemma StuckHeld(dropped: set<nat>, r: Round)
    ensures Stuck(dropped, r.(held := true)) <==> Stuck(dropped, r)
  {
  }

  lemma ServedFree(s: State, i: nat)
    requires Sound(s) && NoneStuck(s) && i < |s.tickets| && Ready(s, s.tickets[i])
    ensures NoneStuck(Serve(s, i))
  {
    hide SoundRound, SoundRun, Told, Awaited, LiveIn;
    var s' := Serve(s, i);
    forall k | k in s'.open
      ensures Stuck(s'.run.ring.dropped, s'.rounds[s'.open[k]]) ==> Stuck(s.run.ring.dropped, s.rounds[s.open[k]])
    {
    }
  }

  /** A join drops nobody: the indices it skips are those of joiners already known dead. */
  lemma AdmitDrops(run: Run, rank: nat)
    requires SoundRun(run) && Admissible(run, rank)
    ensures Admit(run, rank).ring.dropped == run.ring.dropped
  {
    hide SharesWith, Fitting;
    assert run.ring.dropped + Skipped(run.ring.world, rank) == run.ring.dropped;
  }

  /** Only posts make rounds. */
  lemma StepRounds(s: State, e: Event)
    requires Sound(s) && !e.PostEvent?
    ensures |Step(s, e).rounds| == |s.rounds|
  {
    hide MarkDown, Expire, SoundRun, SoundRound, Admit, Taken;
  }

  lemma PostTold(s: State, req: Request, c: Choice)
    requires Sound(s) && Safe(s) && OpeningsTold(s)
    ensures OpeningsTold(Post(s, req, c))
  {
    hide PostTo, ChoiceFits, SoundRound, SoundRun, Healthy, OffLater, SameVerdict, NewRound;
    var s' := Post(s, req, c);
    PostKeeps(s, req, c);
    if s' != s {
      var (s1, id) := RoundFor(s, req).value;
      NewOpening(s, req);
      RoundForKeeps(s, req);
      PostToWorld(s1, id, req, c);
      PostToKeeps(s1, id, req, c);
      assert s' == PostTo(s1, id, req, c);
      assert RoundLater(s1.rounds[id], s'.rounds[id]);
      forall i | 0 <= i < |s'.rounds| && s'.rounds[i].opening
        ensures s'.rounds[i].world <= s'.run.ring.world
      {
        assert i < |s.rounds| ==> RoundLater(s.rounds[i], s'.rounds[i]);
      }
    }
  }

  /** A round just made is of its post's size, and opens the run only for a lead's post. */
  lemma NewOpening(s: State, req: Request)
    requires Sound(s) && ValidRequest(req) && RoundFor(s, req).Some?
    ensures var (s1, id) := RoundFor(s, req).value;
      s1 != s ==> id == |s.rounds| == |s1.rounds| - 1 && s1.rounds[id].world == req.world && (s1.rounds[id].opening ==> req.shard == 0)
    ensures RoundFor(s, req).value.0 == s ==> RoundFor(s, req).value.1 < |s.rounds|
  {
    hide SoundRound;
  }

  lemma PostToWorld(s: State, id: nat, req: Request, c: Choice)
    requires Sound(s) && id < |s.rounds| && ValidRequest(req) && ChoiceFits(s.run, req, c)
    requires s.rounds[id].key == KeyOf(req)
    ensures var s' := PostTo(s, id, req, c);
      |s'.rounds| == |s.rounds| && (req.shard == 0 ==> s'.run.ring.world >= req.world)
  {
    hide ChoiceFits, SoundRound, SoundRun, Heard, Landed;
    LandedRun(s.run, s.rounds[id], req, c);
    HeardDrops(s.run, req, c);
  }

  lemma StepTold(s: State, e: Event)
    requires Sound(s) && Safe(s) && OpeningsTold(s)
    ensures OpeningsTold(Step(s, e))
  {
    hide MarkDown, Expire, SoundRun, SoundRound, Admit, Taken, Post, Safe, Serve, Poll, TimeOut, Leave;
    if e.PostEvent? {
      PostTold(s, e.req, e.choice);
    } else {
      StepRounds(s, e);
      StepKeeps(s, e);
      ToldLater(s, Step(s, e));
    }
  }

  /** No state on the way has a served round that is stuck. */
  ghost predicate NeverStuck(events: seq<Event>) {
    NoneStuck(Exec(Start(), events)) && (events == [] || NeverStuck(events[..|events| - 1]))
  }

  /** No event of the run is one that sticks. */
  ghost predicate NothingSticks(events: seq<Event>) {
    events == [] ||
    (NothingSticks(events[..|events| - 1]) && !Sticks(Exec(Start(), events[..|events| - 1]), events[|events| - 1]))
  }

  /** Over every interleaving: a round the board serves never has every rank the ring still has and no verdict, exactly when no
      event of the run drops a rank, as a freeloader or past the ring's size, that was the only one such a round lacked. */
  lemma {:induction false} NobodyWaitsForNobody(events: seq<Event>)
    ensures Safe(Exec(Start(), events)) && OpeningsTold(Exec(Start(), events))
    ensures NeverStuck(events) <==> NothingSticks(events)
  {
    if events == [] {
    } else {
      var front, e := events[..|events| - 1], events[|events| - 1];
      var s := Exec(Start(), front);
      assert Exec(Start(), events) == Step(s, e);
      assert NeverStuck(events) <==> NoneStuck(Step(s, e)) && NeverStuck(front);
      assert NothingSticks(events) <==> NothingSticks(front) && !Sticks(s, e);
      assert NeverStuck(front) ==> NoneStuck(s);
      hide *;
      NobodyWaitsForNobody(front);
      OneMoreStep(s, e, NeverStuck(front));
    }
  }

  lemma OneMoreStep(s: State, e: Event, never: bool)
    requires Sound(s) && Safe(s) && OpeningsTold(s) && (never ==> NoneStuck(s))
    ensures Safe(Step(s, e)) && OpeningsTold(Step(s, e))
    ensures never ==> (NoneStuck(Step(s, e)) <==> !Sticks(s, e))
  {
    hide Step, Safe, OpeningsTold, NoneStuck, Sticks;
    StepKeeps(s, e);
    StepTold(s, e);
    if never {
      StepSticksIff(s, e);
    }
  }

  /** A round sticks only by a freeloader drop, which a ring of a fixed size never makes, or by the loss of a rank of a round larger
      than the lead knows its ring to be. */
  lemma SticksOnlyBy(s: State, e: Event)
    requires Sound(s) && Safe(s) && OpeningsTold(s) && NoneStuck(s) && Sticks(s, e)
    ensures (e.PostEvent? && Accepts(s, e.req, e.choice) && PostDrops(s.run, e.req, e.choice).Some? && !s.run.mode.fixed)
      || (e.DownEvent? && exists k | k in s.open :: s.rounds[s.open[k]].world > s.run.ring.world)
  {
    hide Stuck, Safe, MarkDown, SoundRun, SoundRound;
    match e {
      case PostEvent(req, c) =>
        var (s1, id) := RoundFor(s, req).value;
        PostRun(s, req, c);
        HeardDrops(s.run, req, c);
      case DownEvent(rank, world, _) =>
        var k :| k in s.open && !Decided(s.rounds[s.open[k]]) && LacksOnly(s.run.ring.dropped, rank, s.rounds[s.open[k]]);
        LargerThanTold(s, k, rank);
    }
  }

  lemma PostRun(s: State, req: Request, c: Choice)
    requires Sound(s) && Accepts(s, req, c)
    ensures Post(s, req, c).run.mode == Heard(s.run, req, c).mode && Post(s, req, c).run.ring == Heard(s.run, req, c).ring
  {
    hide Landed, ChoiceFits, SoundRound, SoundRun, NewRound, Heard;
    var (s1, id) := RoundFor(s, req).value;
    LandedRun(s1.run, s1.rounds[id], req, c);
  }

  lemma LargerThanTold(s: State, k: Key, rank: nat)
    requires Sound(s) && Safe(s) && NoneStuck(s) && k in s.open && rank >= s.run.ring.world
    requires !Decided(s.rounds[s.open[k]]) && LacksOnly(s.run.ring.dropped, rank, s.rounds[s.open[k]])
    ensures s.rounds[s.open[k]].world > s.run.ring.world
  {
    var r := s.rounds[s.open[k]];
    assert Healthy(s.run.ring.dropped, s.run.aborted.Some?, r);
    assert !Stuck(s.run.ring.dropped, r);
    DropSticksIff(s.run.ring.dropped, rank, r);
    if r.world <= rank {
      OutsiderStays(s.run.ring.dropped, rank, r);
    }
  }

  /** Losing a rank the round never counted changes nothing for it. */
  lemma OutsiderStays(dropped: set<nat>, rank: nat, r: Round)
    requires rank >= r.world && forall k | k in r.seen :: k < r.world
    ensures Stuck(dropped + {rank}, r) <==> Stuck(dropped, r)
  {
    assert r.seen - (dropped + {rank}) == r.seen - dropped;
    assert (set d | d in dropped + {rank} && d < r.world) == (set d | d in dropped && d < r.world);
  }
}
