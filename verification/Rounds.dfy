/** What every round keeps over every run of the board: one verdict, assigned once; every contribution folded in exactly
    once; no round closed as full without everyone. */
module Rounds {
  import opened Wrappers
  import opened Counting
  import opened Vectors
  import opened Reduce
  import opened Messages
  import opened Rebalance
  import opened Protocol

  // ---- what holds of a round ----

  /** The ranks a list of contributions stands for. */
  function Everyone(parts: seq<Part>): set<nat> {
    if parts == [] then {} else Everyone(parts[..|parts| - 1]) + parts[|parts| - 1].who
  }

  lemma {:induction false} EveryoneHas(parts: seq<Part>, i: nat)
    requires i < |parts|
    ensures parts[i].who <= Everyone(parts)
  {
    if i < |parts| - 1 {
      EveryoneHas(parts[..|parts| - 1], i);
    }
  }

  /** No rank is in the sum twice, and the ranks in it are exactly those marked as seen. */
  ghost predicate Accounted(r: Round) {
    && (forall i | 0 <= i < |r.parts| :: r.parts[i].who != {})
    && (forall i, j | 0 <= i < j < |r.parts| :: r.parts[i].who !! r.parts[j].who)
    && Everyone(r.parts) == r.seen
    && (forall k | k in r.seen :: k < r.world)
  }

  /** The accumulator of an open round, and the one a closed round closed on, hold the contributions folded in. */
  ghost predicate Summed(r: Round) {
    && (!Decided(r) ==> r.acc.Some? && Holds(r.acc.value, r.parts))
    && (r.result.Some? ==>
      && r.closed.Some?
      && Closable(r.closed.value.0) && |r.closed.value.1| == |r.closed.value.0.sum|
      && Holds(r.closed.value.0, r.parts)
      && r.result.value == MeanResidual(r.closed.value.0, r.closed.value.1).0)
  }

  /** One verdict, or none yet. */
  ghost predicate OneVerdict(r: Round) {
    && !(r.result.Some? && r.err.Some?)
    && (r.done <==> Decided(r))
    && (r.closing.Open? <==> !Decided(r))
    && (r.closing.Full? || r.closing.Short? ==> r.result.Some?)
    && (r.closing.Failed? ==> r.err.Some?)
  }

  /** A round that did not time out or fail has a contribution from every rank the ring still has. */
  ghost predicate Complete(dropped: set<nat>, r: Round) {
    && r.world >= 1
    && (r.closing.Full? ==> forall k: nat | k < r.world :: k in r.seen || k in dropped)
    && ExpectedCount(r) >= Awaited(dropped, r.world)
  }

  ghost predicate Healthy(dropped: set<nat>, stopped: bool, r: Round) {
    OneVerdict(r) && Accounted(r) && Summed(r) && Complete(dropped, r) && (r.err.Some? ==> stopped)
  }

  ghost predicate SameVerdict(r: Round, r': Round) {
    && r'.result == r.result && r'.err == r.err && r'.parts == r.parts && r'.posts == r.posts && r'.seen == r.seen
    && r'.closed == r.closed && r'.closing == r.closing && r'.partial == r.partial
  }

  /** What never changes about a round once it is there, and what never changes once it is decided. */
  ghost predicate RoundLater(r: Round, r': Round) {
    && r'.key == r.key && r'.world == r.world && r'.opening == r.opening && r'.kind == r.kind
    && r.seen <= r'.seen && r.parts <= r'.parts && r.posts <= r'.posts && r.fetched <= r'.fetched
    && (r.done ==> r'.done)
    && (Decided(r) ==> SameVerdict(r, r'))
  }

  /** What only grows in a run. */
  ghost predicate RunLater(run: Run, run': Run) {
    && run.ring.dropped <= run'.ring.dropped && run.ring.world <= run'.ring.world
    && run.lastSeq <= run'.lastSeq && run.joins.admitted <= run'.joins.admitted && run.news.published <= run'.news.published
    && (run.mode.released ==> run'.mode.released) && (run.mode.fixed ==> run'.mode.fixed)
    && (run.aborted.Some? ==> run'.aborted == run.aborted)
  }

  /** A handler keeps its round, its ranks and its place; once it has left it does not come back. */
  ghost predicate TicketLater(t: Ticket, t': Ticket) {
    && t' == t.(wait := t'.wait) && (t.wait.Left? ==> t'.wait.Left?)
  }

  /** A round that has left the board: no post, timeout or report finds it any more. */
  ghost predicate Off(s: State, i: nat) {
    forall k | k in s.open :: s.open[k] != i
  }

  ghost predicate OffLater(s: State, s': State)
    requires |s.rounds| <= |s'.rounds|
  {
    forall i | 0 <= i < |s.rounds| && Off(s, i) :: Off(s', i) && SameVerdict(s.rounds[i], s'.rounds[i])
  }

  ghost predicate Later(s: State, s': State) {
    && RunLater(s.run, s'.run)
    && |s.rounds| <= |s'.rounds| && (forall i | 0 <= i < |s.rounds| :: RoundLater(s.rounds[i], s'.rounds[i]))
    && |s.tickets| <= |s'.tickets| && (forall i | 0 <= i < |s.tickets| :: TicketLater(s.tickets[i], s'.tickets[i]))
    && s.answers <= s'.answers && OffLater(s, s')
  }

  ghost predicate Safe(s: State) {
    forall i | 0 <= i < |s.rounds| :: Healthy(s.run.ring.dropped, s.run.aborted.Some?, s.rounds[i])
  }

  lemma LaterTrans(a: State, b: State, c: State)
    requires Later(a, b) && Later(b, c)
    ensures Later(a, c)
  {
    forall i | 0 <= i < |a.rounds|
      ensures RoundLater(a.rounds[i], c.rounds[i])
    {
      assert RoundLater(a.rounds[i], b.rounds[i]) && RoundLater(b.rounds[i], c.rounds[i]);
    }
    forall i | 0 <= i < |a.tickets|
      ensures TicketLater(a.tickets[i], c.tickets[i])
    {
      assert TicketLater(a.tickets[i], b.tickets[i]) && TicketLater(b.tickets[i], c.tickets[i]);
    }
  }

  // ---- counting ----

  /** The ranks a ring of this size still has. */
  lemma LiveRanks(dropped: set<nat>, world: nat)
    ensures |UpTo(world) - dropped| == world - DropsBelow(dropped, world)
  {
    var gone := set d | d in dropped && d < world;
    assert UpTo(world) - dropped == UpTo(world) - gone;
    assert gone <= UpTo(world);
  }

  lemma AwaitedFalls(dropped: set<nat>, more: set<nat>, world: nat)
    requires dropped <= more
    ensures Awaited(more, world) <= Awaited(dropped, world)
    ensures world >= 1 ==> Awaited(dropped, world) <= world
  {
    Subsize(set d | d in dropped && d < world, set d | d in more && d < world);
  }

  /** Enough live ranks to close a round is all of them. */
  lemma FullMeansAll(seen: set<nat>, dropped: set<nat>, world: nat)
    requires forall k | k in seen :: k < world
    requires LiveIn(seen, dropped) >= Awaited(dropped, world)
    ensures forall k: nat | k < world :: k in seen || k in dropped
  {
    var live := UpTo(world) - dropped;
    LiveRanks(dropped, world);
    Subsize(seen - dropped, live);
    assert seen - dropped == live;
    assert forall k: nat | k < world && k !in dropped :: k in live;
  }

  /** A round stays as it was when the ring loses a rank or the run stops. */
  lemma HealthyStays(dropped: set<nat>, more: set<nat>, stopped: bool, stopped': bool, r: Round)
    requires Healthy(dropped, stopped, r) && dropped <= more && (stopped ==> stopped')
    ensures Healthy(more, stopped', r)
  {
    AwaitedFalls(dropped, more, r.world);
  }

  // ---- one round at a time ----

  lemma NewIsHealthy(req: Request, dropped: set<nat>, stopped: bool)
    requires ValidRequest(req) && NewRound(req).Some?
    ensures Healthy(dropped, stopped, NewRound(req).value)
  {
    var r := NewRound(req).value;
    AwaitedFalls(dropped, dropped, r.world);
    NewHolds(r.acc.value.dtype, |r.acc.value.sum|, r.acc.value.segments);
    assert r.acc.value == NewAcc(r.acc.value.dtype, |r.acc.value.sum|, r.acc.value.segments);
  }

  /** A contribution is in the sum once: folded in if none of its ranks is there yet, and otherwise left out. */
  lemma FoldKeeps(r: Round, req: Request)
    requires ValidRequest(req) && SoundRound(r) && !Decided(r) && Accounted(r) && Summed(r) && r.world == req.world
    ensures var r1 := Folded(Checked(r, req), req);
      && Accounted(r1) && (!Decided(r1) ==> Holds(r1.acc.value, r1.parts))
      && r1 == r.(manifest := r1.manifest, err := r1.err, acc := r1.acc, seen := r1.seen, parts := r1.parts, posts := r1.posts)
      && r.seen <= r1.seen && r.parts <= r1.parts && r.posts <= r1.posts
  {
    hide Contributors, Decode, Add, Holds, SameModel, Closable;
    var r0 := Checked(r, req);
    var r1 := Folded(r0, req);
    if r0.err.None? && Contributors(req) !! r.seen && Decode(r.acc.value, req.payload, ScalesOf(req)).Some? {
      var a := r.acc.value;
      AddHolds(a, r.parts, req.payload, ScalesOf(req), req.samples, Contributors(req));
      var part := Part(Contributors(req), Decode(a, req.payload, ScalesOf(req)).value, SampleWeight(req.samples));
      OneMore(r, part);
      assert r1.parts == r.parts + [part] && r1.seen == r.seen + part.who;
    }
  }

  lemma OneMore(r: Round, part: Part)
    requires Accounted(r) && part.who != {} && part.who !! r.seen && forall k | k in part.who :: k < r.world
    ensures Accounted(r.(parts := r.parts + [part], seen := r.seen + part.who))
  {
    assert (r.parts + [part])[..|r.parts|] == r.parts;
    forall i | 0 <= i < |r.parts|
      ensures r.parts[i].who !! part.who
    {
      EveryoneHas(r.parts, i);
    }
  }

  /** A round is closed on the mean of what was folded in. */
  lemma FinishKeeps(run: Run, r: Round)
    requires SoundRun(run) && SoundRound(r) && !Decided(r) && Summed(r)
    ensures var (run', r') := Finish(run, r);
      && Summed(r') && r' == r.(acc := None, result := r'.result, closed := r'.closed)
      && run' == run.(residual := run'.residual)
  {
  }

  lemma ArriveKeeps(run: Run, r: Round, req: Request)
    requires ValidRequest(req) && SoundRun(run) && SoundRound(r) && r.world == req.world
    requires Healthy(run.ring.dropped, run.aborted.Some?, r)
    ensures var (run', r') := Arrive(run, r, req);
      && Healthy(run.ring.dropped, run'.aborted.Some?, r') && RoundLater(r, r')
      && run' == run.(residual := run'.residual, aborted := run'.aborted) && RunLater(run, run')
  {
    if !Decided(r) {
      var r1 := Folded(Checked(r, req), req);
      FoldKeeps(r, req);
      hide *;
      ArrivedKeeps(run, r, r1, req);
    }
  }

  lemma ArrivedKeeps(run: Run, r: Round, r1: Round, req: Request)
    requires ValidRequest(req) && SoundRun(run) && SoundRound(r) && !Decided(r)
    requires Healthy(run.ring.dropped, run.aborted.Some?, r) && r1 == Folded(Checked(r, req), req)
    requires Accounted(r1) && (!Decided(r1) ==> Holds(r1.acc.value, r1.parts))
    requires r1 == r.(manifest := r1.manifest, err := r1.err, acc := r1.acc, seen := r1.seen, parts := r1.parts, posts := r1.posts)
    requires r.seen <= r1.seen && r.parts <= r1.parts && r.posts <= r1.posts
    ensures var (run', r') := Arrive(run, r, req);
      && Healthy(run.ring.dropped, run'.aborted.Some?, r') && RoundLater(r, r')
      && run' == run.(residual := run'.residual, aborted := run'.aborted) && RunLater(run, run')
  {
    hide Folded, Checked, Holds, Finish, Closable, MeanResidual;
    assert SoundRound(r1);
    if r1.err.None? && LiveIn(r1.seen, run.ring.dropped) >= ExpectedCount(r1) {
      FinishKeeps(run, r1);
      FullMeansAll(r1.seen, run.ring.dropped, r1.world);
    }
  }

  lemma ShutKeeps(run: Run, r: Round, rank: nat)
    requires SoundRun(run) && SoundRound(r) && !Decided(r) && Healthy(run.ring.dropped, run.aborted.Some?, r)
    ensures var (run', r') := Shut(run, r, rank);
      && Healthy(run.ring.dropped, run'.aborted.Some?, r') && RoundLater(r, r')
      && run' == run.(residual := run'.residual, aborted := run'.aborted) && RunLater(run, run')
  {
    hide Finish, Holds, Closable, MeanResidual, Awaited;
    if !Abandoned(run, r, rank) {
      FinishKeeps(run, r);
    }
  }

  lemma SettledKeeps(run: Run, r: Round)
    requires SoundRun(run) && SoundRound(r) && !Decided(r) && Healthy(run.ring.dropped, run.aborted.Some?, r)
    ensures var (run', r') := Settled(run, r);
      && Healthy(run.ring.dropped, run'.aborted.Some?, r') && RoundLater(r, r')
      && run' == run.(residual := run'.residual) && RunLater(run, run')
  {
    hide Finish, Holds, Closable, MeanResidual;
    AwaitedFalls(run.ring.dropped, run.ring.dropped, r.world);
    var r1 := r.(expected := Awaited(run.ring.dropped, r.world));
    FinishKeeps(run, r1);
    if LiveIn(r.seen, run.ring.dropped) >= r1.expected {
      FullMeansAll(r.seen, run.ring.dropped, r.world);
    }
  }

  // ---- the whole board ----

  /** A step that changes one round and the run. */
  lemma OneRound(s: State, s': State, id: nat, r: Round)
    requires Safe(s) && id < |s.rounds| && s'.rounds == s.rounds[id := r]
    requires RunLater(s.run, s'.run) && RoundLater(s.rounds[id], r)
    requires Healthy(s'.run.ring.dropped, s'.run.aborted.Some?, r)
    requires forall k | k in s'.open :: k in s.open && s'.open[k] == s.open[k]
    requires SameVerdict(s.rounds[id], r) || exists k | k in s.open :: s.open[k] == id
    ensures Safe(s')
    ensures s.tickets == s'.tickets && s.answers <= s'.answers ==> Later(s, s')
  {
    hide Healthy, RoundLater;
    forall i | 0 <= i < |s.rounds| && Off(s, i)
      ensures Off(s', i) && SameVerdict(s.rounds[i], s'.rounds[i])
    {
      assert i == id ==> !(exists k | k in s.open :: s.open[k] == id);
    }
    forall i | 0 <= i < |s'.rounds|
      ensures Healthy(s'.run.ring.dropped, s'.run.aborted.Some?, s'.rounds[i])
      ensures RoundLater(s.rounds[i], s'.rounds[i])
    {
      if i != id {
        HealthyStays(s.run.ring.dropped, s'.run.ring.dropped, s.run.aborted.Some?, s'.run.aborted.Some?, s.rounds[i]);
        RoundSame(s.rounds[i]);
      }
    }
    forall i | 0 <= i < |s.tickets|
      ensures TicketLater(s.tickets[i], s.tickets[i])
    {
    }
  }

  lemma RoundSame(r: Round)
    ensures RoundLater(r, r)
  {
  }

  lemma RunSame(run: Run)
    ensures RunLater(run, run)
  {
  }

  /** A step that changes only the run. */
  lemma OnlyRun(s: State, run: Run)
    requires Safe(s) && RunLater(s.run, run)
    ensures Safe(s.(run := run)) && Later(s, s.(run := run))
  {
    hide Healthy, RoundLater;
    forall i | 0 <= i < |s.rounds|
      ensures Healthy(run.ring.dropped, run.aborted.Some?, s.rounds[i]) && RoundLater(s.rounds[i], s.rounds[i])
    {
      HealthyStays(s.run.ring.dropped, run.ring.dropped, s.run.aborted.Some?, run.aborted.Some?, s.rounds[i]);
      RoundSame(s.rounds[i]);
    }
  }

  lemma CloseReadyKeeps(s: State, key: Key)
    requires Sound(s) && Safe(s)
    ensures Safe(CloseReady(s, key)) && Later(s, CloseReady(s, key)) && CloseReady(s, key).run.ring == s.run.ring
  {
    OnlyRun(s, s.run);
    if key in s.open && !Decided(s.rounds[s.open[key]]) {
      var id := s.open[key];
      SettledKeeps(s.run, s.rounds[id]);
      OneRound(s, CloseReady(s, key), id, CloseReady(s, key).rounds[id]);
    }
  }

  lemma {:induction false} CloseAllKeeps(s: State, order: seq<Key>)
    requires Sound(s) && Safe(s)
    ensures Safe(CloseAll(s, order)) && Later(s, CloseAll(s, order)) && CloseAll(s, order).run.ring == s.run.ring
  {
    if order == [] {
      OnlyRun(s, s.run);
    } else {
      var front, key := order[..|order| - 1], order[|order| - 1];
      assert CloseAll(s, order) == CloseReady(CloseAll(s, front), key);
      hide *;
      CloseAllKeeps(s, front);
      CloseReadyKeeps(CloseAll(s, front), key);
      LaterTrans(s, CloseAll(s, front), CloseAll(s, order));
    }
  }

  lemma MarkDownKeeps(s: State, rank: nat, world: nat, order: seq<Key>)
    requires Sound(s) && Safe(s)
    ensures Safe(MarkDown(s, rank, world, order)) && Later(s, MarkDown(s, rank, world, order))
  {
    var run := Sized(s.run, world);
    if rank < run.ring.world && rank !in run.ring.dropped {
      var run1 := WithoutRank(run, rank);
      var run2 := Publish(run1, run1.lastSeq + 1, RingNow(run1, Down(rank)));
      var s1 := s.(run := run2);
      assert RunLater(s.run, run2);
      assert MarkDown(s, rank, world, order) == CloseAll(s1, order);
      hide *;
      OnlyRun(s, run2);
      CloseAllKeeps(s1, order);
      LaterTrans(s, s1, CloseAll(s1, order));
    } else {
      var s' := MarkDown(s, rank, world, order);
      assert RunLater(s.run, s'.run) && s' == s.(run := s'.run);
      hide *;
      OnlyRun(s, s'.run);
    }
  }

  lemma {:induction false} DropMissingKeeps(s: State, id: nat, n: nat, orders: seq<seq<Key>>)
    requires Sound(s) && Safe(s) && id < |s.rounds| && n <= |orders|
    ensures Safe(DropMissing(s, id, n, orders)) && Later(s, DropMissing(s, id, n, orders))
  {
    hide MarkDown, Healthy, RoundLater, SoundRun, SoundRound;
    var s' := DropMissing(s, id, n, orders);
    if n == 0 {
      OnlyRun(s, s.run);
    } else {
      var s1 := DropMissing(s, id, n - 1, orders);
      var world, order := s.rounds[id].world, orders[n - 1];
      assert s' == s1 || s' == MarkDown(s1, n - 1, world, order);
      hide *;
      DropMissingKeeps(s, id, n - 1, orders);
      if s' != s1 {
        MarkDownKeeps(s1, n - 1, world, order);
        LaterTrans(s, s1, s');
      }
    }
  }

  lemma DropMissedKeeps(s: State, id: nat, orders: seq<seq<Key>>)
    requires Sound(s) && Safe(s) && id < |s.rounds| && |orders| == s.rounds[id].world
    ensures Safe(DropMissed(s, id, orders)) && Later(s, DropMissed(s, id, orders))
  {
    var r, s' := s.rounds[id], DropMissed(s, id, orders);
    if s' == s {
      OnlyRun(s, s.run);
    } else {
      var s1 := DropMissing(s, id, r.world, orders);
      assert RunLater(s1.run, s'.run) && s' == s1.(run := s'.run);
      hide *;
      DropMissingKeeps(s, id, |orders|, orders);
      OnlyRun(s1, s'.run);
      LaterTrans(s, s1, s');
    }
  }

  lemma ExpireKeeps(s: State, key: Key, rank: nat, orders: seq<seq<Key>>)
    requires Sound(s) && Safe(s) && OrdersFit(s, key, orders)
    ensures var s' := Expire(s, key, rank, orders).0; Safe(s') && Later(s, s')
  {
    hide Shut, DropMissed, Healthy, RoundLater, Closable, SoundRun, Enumerates, RunLater;
    var s' := Expire(s, key, rank, orders).0;
    if s' == s {
      RunSame(s.run);
      OnlyRun(s, s.run);
    } else {
      var id := s.open[key];
      var r := s.rounds[id];
      var (run, r') := Shut(s.run, r, rank);
      var s1 := s.(run := run, rounds := s.rounds[id := r']);
      ShutKeeps(s.run, r, rank);
      OneRound(s, s1, id, r');
      assert s' == s1 || (|orders| == r'.world && s' == DropMissed(s1, id, orders));
      hide *;
      if s' != s1 {
        DropMissedKeeps(s1, id, orders);
        LaterTrans(s, s1, s');
      }
    }
  }

  /** A step that changes nothing but how handlers wait. */
  lemma OnlyTickets(s: State, s': State)
    requires Safe(s) && s' == s.(tickets := s'.tickets) && |s.tickets| <= |s'.tickets|
    requires forall i | 0 <= i < |s.tickets| :: TicketLater(s.tickets[i], s'.tickets[i])
    ensures Safe(s') && Later(s, s')
  {
    hide Healthy, RoundLater;
    forall i | 0 <= i < |s.rounds|
      ensures RoundLater(s.rounds[i], s.rounds[i])
    {
      RoundSame(s.rounds[i]);
    }
  }

  lemma TimeOutKeeps(s: State, i: nat, orders: seq<seq<Key>>)
    requires Sound(s) && Safe(s)
    ensures Safe(TimeOut(s, i, orders)) && Later(s, TimeOut(s, i, orders))
  {
    var s' := TimeOut(s, i, orders);
    if s' == s {
      OnlyRun(s, s.run);
    } else {
      var t := s.tickets[i];
      var s1 := Expire(s, t.key, t.rank, orders).0;
      ExpireKeeps(s, t.key, t.rank, orders);
      OnlyTickets(s1, s');
      hide *;
      LaterTrans(s, s1, s');
    }
  }

  lemma PollKeeps(s: State, i: nat)
    requires Sound(s) && Safe(s)
    ensures Safe(Poll(s, i)) && Later(s, Poll(s, i))
  {
    var s' := Poll(s, i);
    if s' == s {
      OnlyRun(s, s.run);
    } else {
      var id := s.open[s.tickets[i].key];
      OneRound(s, s', id, s'.rounds[id]);
    }
  }

  lemma ServeKeeps(s: State, i: nat)
    requires Sound(s) && Safe(s)
    ensures Safe(Serve(s, i)) && Later(s, Serve(s, i))
  {
    var s' := Serve(s, i);
    if s' == s {
      OnlyRun(s, s.run);
    } else {
      var t := s.tickets[i];
      hide Told;
      var s1 := s'.(tickets := s.tickets);
      OneRound(s, s1, t.round, Fetched(s.rounds[t.round], t.who));
      OnlyTickets(s1, s');
      hide *;
      LaterTrans(s, s1, s');
    }
  }

  lemma RebalanceLater(run: Run, c: Choice)
    requires SoundRun(run) && (OnCadence(run) ==> Offered(run, c))
    ensures RunLater(run, RebalanceFor(run, c).0)
  {
    hide PlanRebalance, SoundRun;
  }

  lemma LeadLater(run: Run, req: Request, c: Choice)
    requires ValidRequest(req) && SoundRun(run) && ChoiceFits(run, req, c)
    ensures RunLater(run, LeadPart(run, req, c)) && LeadPart(run, req, c).aborted == run.aborted
  {
    hide RebalanceFor, IsSolo, IsDiLoCo, Fitting;
    RunSame(run);
    if req.shard == 0 && Advances(run, req) {
      RebalanceLater(LeadFields(run, req), c);
      RebalanceStaysUp(LeadFields(run, req), c);
    }
  }

  lemma RebalanceStaysUp(run: Run, c: Choice)
    requires SoundRun(run) && (OnCadence(run) ==> Offered(run, c))
    ensures RebalanceFor(run, c).0.aborted == run.aborted && RebalanceFor(run, c).0.joins == run.joins
  {
    hide PlanRebalance, SoundRun;
  }

  lemma HeardLater(run: Run, req: Request, c: Choice)
    requires ValidRequest(req) && SoundRun(run) && ChoiceFits(run, req, c)
    ensures RunLater(run, Heard(run, req, c)) && Heard(run, req, c).aborted == run.aborted
  {
    LeadLater(run, req, c);
    hide LeadPart, ChoiceFits, Fitting;
  }

  lemma LandedKeeps(run: Run, r: Round, req: Request, c: Choice)
    requires ValidRequest(req) && SoundRun(run) && SoundRound(r) && ChoiceFits(run, req, c) && r.world == req.world
    requires Healthy(run.ring.dropped, run.aborted.Some?, r)
    ensures var (run', r') := Landed(run, r, req, c);
      && Healthy(run'.ring.dropped, run'.aborted.Some?, r') && RoundLater(r, r') && RunLater(run, run')
  {
    var r1 := r.(expected := Awaited(run.ring.dropped, req.world));
    var run1 := Heard(run, req, c);
    HeardLater(run, req, c);
    AwaitedFalls(run.ring.dropped, run1.ring.dropped, req.world);
    assert RoundLater(r, r1) && SoundRound(r1);
    assert Healthy(run1.ring.dropped, run1.aborted.Some?, r1) by {
      hide Heard, Holds, Closable;
    }
    assert Landed(run, r, req, c) == Arrive(run1, r1, req);
    hide Heard, Arrive, Healthy, SoundRound, ChoiceFits, SoundRun;
    ArriveKeeps(run1, r1, req);
  }

  /** What a contribution, once it is heard, can still change about the run. */
  lemma ArriveRun(run: Run, r: Round, req: Request)
    requires ValidRequest(req) && SoundRun(run) && SoundRound(r)
    ensures var run' := Arrive(run, r, req).0; run' == run.(residual := run'.residual, aborted := run'.aborted)
  {
    hide Folded, Checked, MeanResidual, SoundRun;
  }

  lemma LandedRun(run: Run, r: Round, req: Request, c: Choice)
    requires ValidRequest(req) && SoundRun(run) && SoundRound(r) && ChoiceFits(run, req, c)
    ensures var run' := Landed(run, r, req, c).0;
      run' == Heard(run, req, c).(residual := run'.residual, aborted := run'.aborted)
  {
    hide Heard, ChoiceFits, SoundRun, Arrive, Closable, Awaited;
    var run1, r1 := Heard(run, req, c), r.(expected := Awaited(run.ring.dropped, req.world));
    assert Landed(run, r, req, c) == Arrive(run1, r1, req);
    ArriveRun(run1, r1, req);
  }

  lemma ShutRun(run: Run, r: Round, rank: nat)
    requires SoundRun(run) && SoundRound(r) && !Decided(r)
    ensures var run' := Shut(run, r, rank).0; run' == run.(residual := run'.residual, aborted := run'.aborted)
  {
  }

  lemma PostKeeps(s: State, req: Request, c: Choice)
    requires Sound(s) && Safe(s)
    ensures Safe(Post(s, req, c)) && Later(s, Post(s, req, c))
  {
    hide Landed, ChoiceFits, SoundRound, SoundRun, Healthy, RoundLater, RunLater, NewRound;
    var s' := Post(s, req, c);
    if s' == s {
      RunSame(s.run);
      OnlyRun(s, s.run);
    } else {
      var (s1, id) := RoundFor(s, req).value;
      RoundForKeeps(s, req);
      if s' != s1 {
        PostToKeeps(s1, id, req, c);
        assert s' == PostTo(s1, id, req, c);
        LaterTrans(s, s1, s');
      }
    }
  }

  lemma RoundForKeeps(s: State, req: Request)
    requires Sound(s) && Safe(s) && ValidRequest(req) && RoundFor(s, req).Some?
    ensures Safe(RoundFor(s, req).value.0) && Later(s, RoundFor(s, req).value.0)
  {
    hide Healthy, RoundLater, SoundRound, SoundRun, RunLater, NewRound;
    var (s1, id) := RoundFor(s, req).value;
    RunSame(s.run);
    OnlyRun(s, s.run);
    if s1 != s {
      NewIsHealthy(req, s.run.ring.dropped, s.run.aborted.Some?);
    }
  }

  lemma PostToKeeps(s: State, id: nat, req: Request, c: Choice)
    requires Sound(s) && Safe(s) && id < |s.rounds| && ValidRequest(req) && ChoiceFits(s.run, req, c)
    requires s.rounds[id].key == KeyOf(req) && s.rounds[id].world == req.world
    requires KeyOf(req) in s.open && s.open[KeyOf(req)] == id
    ensures Safe(PostTo(s, id, req, c)) && Later(s, PostTo(s, id, req, c))
  {
    hide Landed, ChoiceFits, SoundRound, SoundRun, Healthy, RoundLater, RunLater;
    var s' := PostTo(s, id, req, c);
    LandedKeeps(s.run, s.rounds[id], req, c);
    var s1 := s'.(tickets := s.tickets);
    OneRound(s, s1, id, s'.rounds[id]);
    OnlyTickets(s1, s');
    LaterTrans(s, s1, s');
  }

  lemma StepKeeps(s: State, e: Event)
    requires Sound(s) && Safe(s)
    ensures Safe(Step(s, e)) && Later(s, Step(s, e))
  {
    hide Healthy, RoundLater, RunLater, OffLater, Post, Serve, Poll, TimeOut, MarkDown, SoundRun, SoundRound;
    RunSame(s.run);
    match e
    case PostEvent(req, c) => PostKeeps(s, req, c);
    case ReplyEvent(i) => ServeKeeps(s, i);
    case PollEvent(i) => PollKeeps(s, i);
    case TimeOutEvent(i, orders) => TimeOutKeeps(s, i, orders);
    case LeaveEvent(i) =>
      OnlyRun(s, s.run);
      if i < |s.tickets| {
        OnlyTickets(s, Step(s, e));
      }
    case DownEvent(rank, world, order) =>
      OnlyRun(s, s.run);
      MarkDownKeeps(s, rank, world, order);
    case _ =>
      JoinEventLater(s, e);
      OnlyRun(s, Step(s, e).run);
  }

  /** What joins and snapshots do to a run. */
  lemma JoinEventLater(s: State, e: Event)
    requires Sound(s) && (e.JoinEvent? || e.PutEvent? || e.TakenEvent?)
    ensures RunLater(s.run, Step(s, e).run) && Step(s, e) == s.(run := Step(s, e).run)
  {
    hide SoundRun, SoundRound;
  }

  /** Every state any interleaving reaches is safe, and nothing decided on the way is ever undone. */
  lemma {:induction false} RunsAreSafe(s: State, events: seq<Event>)
    requires Sound(s) && Safe(s)
    ensures Safe(Exec(s, events)) && Later(s, Exec(s, events))
  {
    if events == [] {
      OnlyRun(s, s.run);
    } else {
      var front, e := events[..|events| - 1], events[|events| - 1];
      assert Exec(s, events) == Step(Exec(s, front), e);
      hide *;
      RunsAreSafe(s, front);
      StepKeeps(Exec(s, front), e);
      LaterTrans(s, Exec(s, front), Exec(s, events));
    }
  }

  lemma StartIsSafe()
    ensures Safe(Start())
  {
  }

  /** A longer run is a run on from a shorter one. */
  lemma {:induction false} ExecConcat(s: State, events: seq<Event>, more: seq<Event>)
    requires Sound(s)
    ensures Exec(s, events + more) == Exec(Exec(s, events), more)
  {
    if more == [] {
      assert events + more == events;
    } else {
      assert (events + more)[..|events + more| - 1] == events + more[..|more| - 1];
      ExecConcat(s, events, more[..|more| - 1]);
      hide Step, Sound;
    }
  }

  /** There is an order to meet the board's keys in. */
  lemma SomeOrder(keys: set<Key>) returns (order: seq<Key>)
    ensures Enumerates(order, keys)
  {
    if keys == {} {
      order := [];
    } else {
      var key :| key in keys;
      order := SomeOrder(keys - {key});
      order := order + [key];
    }
  }
}
