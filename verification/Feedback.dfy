/** int8 error feedback over whole runs of the board: whatever the interleaving of rounds, shards, timeouts and reports,
    all that was sent under a key plus what is still kept for it is all that was meant. */
module Feedback {
  import opened Wrappers
  import opened Vectors
  import opened Reduce
  import opened Messages
  import opened Rebalance
  import opened Protocol
  import opened Rounds

  datatype Side = Sent | Meant

  /** An int8 round closed under this key. */
  ghost predicate ClosedUnder(r: Round, k: ResidualKey) {
    && r.result.Some? && r.closed.Some? && Closable(r.closed.value.0) && r.closed.value.0.dtype.I8?
    && |r.closed.value.1| == |r.closed.value.0.sum|
    && r.result.value == MeanResidual(r.closed.value.0, r.closed.value.1).0
    && k == ResidualKey(r.kind, |r.closed.value.0.sum|, r.key.shard)
  }

  /** What a round's ranks decoded from its reply, or the exact mean the reply stands for. */
  ghost function Term(r: Round, k: ResidualKey, side: Side): (v: Vec)
    ensures |v| == k.n
  {
    if !ClosedUnder(r, k) then Zero(k.n)
    else if side.Sent? then Decoded(r.closed.value.0, r.result.value)
    else Mean(r.closed.value.0)
  }

  ghost function Terms(rounds: seq<Round>, k: ResidualKey, side: Side): (v: Vec)
    ensures |v| == k.n
  {
    if rounds == [] then Zero(k.n)
    else Plus(Terms(rounds[..|rounds| - 1], k, side), Term(rounds[|rounds| - 1], k, side))
  }

  /** This round closed under the key and left this over. */
  ghost predicate LeftBy(r: Round, k: ResidualKey, v: Vec) {
    ClosedUnder(r, k) && v == MeanResidual(r.closed.value.0, r.closed.value.1).1
  }

  /** Nothing sent under the key is lost: it is in the replies or still kept. */
  ghost predicate Conserved(residual: Residuals, rounds: seq<Round>, k: ResidualKey) {
    Fitting(residual) && Plus(Terms(rounds, k, Sent), Kept(residual, k)) == Terms(rounds, k, Meant)
  }

  /** What is kept under the key is what one of its rounds left over. */
  ghost predicate Traced(residual: Residuals, rounds: seq<Round>, k: ResidualKey) {
    k in residual ==> exists i | 0 <= i < |rounds| :: LeftBy(rounds[i], k, residual[k])
  }

  ghost predicate InBooks(residual: Residuals, rounds: seq<Round>, k: ResidualKey) {
    Conserved(residual, rounds, k) && Traced(residual, rounds, k)
  }

  ghost predicate AllConserved(s: State) {
    forall k: ResidualKey :: InBooks(s.run.residual, s.rounds, k)
  }

  lemma {:induction false} SameTerms(a: seq<Round>, b: seq<Round>, k: ResidualKey, side: Side)
    requires |a| == |b| && forall i | 0 <= i < |a| :: Term(a[i], k, side) == Term(b[i], k, side)
    ensures Terms(a, k, side) == Terms(b, k, side)
  {
    hide Term;
    if a != [] {
      SameTerms(a[..|a| - 1], b[..|b| - 1], k, side);
    }
  }

  /** A round's term, once it is no longer zero, joins the sum wherever the round stands. */
  lemma {:induction false} TermJoins(rounds: seq<Round>, id: nat, r: Round, k: ResidualKey, side: Side)
    requires id < |rounds| && Term(rounds[id], k, side) == Zero(k.n)
    ensures Terms(rounds[id := r], k, side) == Plus(Terms(rounds, k, side), Term(r, k, side))
  {
    hide Term;
    var n := |rounds| - 1;
    if id == n {
      assert rounds[id := r][..n] == rounds[..n];
      assert Plus(Terms(rounds[..n], k, side), Zero(k.n)) == Terms(rounds[..n], k, side);
    } else {
      TermJoins(rounds[..n], id, r, k, side);
      assert rounds[id := r][..n] == rounds[..n][id := r];
      var a, b, c := Terms(rounds[..n], k, side), Term(r, k, side), Term(rounds[n], k, side);
      assert Plus(Plus(a, b), c) == Plus(Plus(a, c), b);
    }
  }

  /** The round has the same part in the books as before. */
  ghost predicate SameTerm(r: Round, r': Round) {
    (forall k: ResidualKey, side: Side :: Term(r', k, side) == Term(r, k, side)) && SameLeft(r, r')
  }

  /** What the round left over, if anything, it still did. */
  ghost predicate SameLeft(r: Round, r': Round) {
    forall k: ResidualKey, v: Vec :: LeftBy(r, k, v) ==> LeftBy(r', k, v)
  }

  /** The round closed on this run's residual, which keeps the reply's rounding error; or neither changed. */
  ghost predicate Booked(run: Run, r: Round, run': Run, r': Round) {
    || (run'.residual == run.residual && SameTerm(r, r'))
    || (exists a: Acc :: BookedOn(run.residual, r, a, run'.residual, r'))
  }

  ghost predicate BookedOn(residual: Residuals, r: Round, a: Acc, residual': Residuals, r': Round) {
    var k := ResidualKey(r.kind, |a.sum|, r.key.shard);
    && Fitting(residual) && Closable(a) && a.dtype.I8?
    && r.result.None? && r'.kind == r.kind && r'.key == r.key
    && r'.closed == Some((a, Kept(residual, k)))
    && r'.result == Some(MeanResidual(a, Kept(residual, k)).0)
    && residual' == residual[k := MeanResidual(a, Kept(residual, k)).1]
  }

  lemma BookedKeeps(residual: Residuals, rounds: seq<Round>, id: nat, a: Acc, residual': Residuals, r': Round, k: ResidualKey)
    requires id < |rounds| && Conserved(residual, rounds, k) && BookedOn(residual, rounds[id], a, residual', r')
    ensures Conserved(residual', rounds[id := r'], k)
  {
    hide Terms, Decoded, Mean, Target, Levels, Steps, Leftover;
    var k' := ResidualKey(r'.kind, |a.sum|, r'.key.shard);
    assert Fitting(residual');
    if k == k' {
      var res := Kept(residual, k);
      var (reply, left) := MeanResidual(a, res);
      TermJoins(rounds, id, r', k, Sent);
      TermJoins(rounds, id, r', k, Meant);
      FeedbackRound(a, res);
      var sent, meant := Terms(rounds, k, Sent), Terms(rounds, k, Meant);
      var zero := Zero(k.n);
      var sentNow, meantNow := Decoded(a, reply), Mean(a);
      assert Plus(meant, zero) == meant && Plus(Plus(meant, meantNow), zero) == Plus(meant, meantNow);
      assert Term(r', k, Sent) == sentNow && Term(r', k, Meant) == meantNow;
      assert Kept(residual', k) == left;
      hide *;
      Ledger(sent, sentNow, left, meantNow, res, meant, zero);
    } else {
      Unmoved(rounds, id, r', k, Sent);
      Unmoved(rounds, id, r', k, Meant);
    }
  }

  lemma BookedTraces(residual: Residuals, rounds: seq<Round>, id: nat, a: Acc, residual': Residuals, r': Round, k: ResidualKey)
    requires id < |rounds| && Traced(residual, rounds, k) && BookedOn(residual, rounds[id], a, residual', r')
    ensures Traced(residual', rounds[id := r'], k)
  {
    hide MeanResidual;
    var rounds' := rounds[id := r'];
    if k == ResidualKey(r'.kind, |a.sum|, r'.key.shard) {
      assert LeftBy(rounds'[id], k, residual'[k]);
    } else if k in residual {
      var i :| 0 <= i < |rounds| && LeftBy(rounds[i], k, residual[k]);
      assert LeftBy(rounds'[i], k, residual'[k]);
    }
  }

  lemma SameTraces(residual: Residuals, rounds: seq<Round>, id: nat, r: Round, k: ResidualKey)
    requires id < |rounds| && Traced(residual, rounds, k) && SameLeft(rounds[id], r)
    ensures Traced(residual, rounds[id := r], k)
  {
    hide LeftBy;
    if k in residual {
      var i :| 0 <= i < |rounds| && LeftBy(rounds[i], k, residual[k]);
      assert LeftBy(rounds[id := r][i], k, residual[k]);
    }
  }

  lemma Unmoved(rounds: seq<Round>, id: nat, r: Round, k: ResidualKey, side: Side)
    requires id < |rounds| && Term(r, k, side) == Term(rounds[id], k, side)
    ensures Terms(rounds[id := r], k, side) == Terms(rounds, k, side)
  {
    hide Term;
    SameTerms(rounds[id := r], rounds, k, side);
  }

  /** A step that changes one round and the run's residuals. */
  lemma OneBooked(s: State, s': State, id: nat)
    requires AllConserved(s) && id < |s.rounds| == |s'.rounds| && s'.rounds == s.rounds[id := s'.rounds[id]]
    requires Booked(s.run, s.rounds[id], s'.run, s'.rounds[id])
    ensures AllConserved(s')
  {
    var r' := s'.rounds[id];
    hide Conserved, Traced, BookedOn, SameLeft, Term;
    forall k: ResidualKey
      ensures InBooks(s'.run.residual, s'.rounds, k)
    {
      assert InBooks(s.run.residual, s.rounds, k);
      if s'.run.residual == s.run.residual && SameTerm(s.rounds[id], r') {
        SameBooks(s.run.residual, s.rounds, id, r', k);
        SameTraces(s.run.residual, s.rounds, id, r', k);
      } else {
        var a: Acc :| BookedOn(s.run.residual, s.rounds[id], a, s'.run.residual, r');
        BookedKeeps(s.run.residual, s.rounds, id, a, s'.run.residual, r', k);
        BookedTraces(s.run.residual, s.rounds, id, a, s'.run.residual, r', k);
      }
    }
  }

  lemma SameBooks(residual: Residuals, rounds: seq<Round>, id: nat, r: Round, k: ResidualKey)
    requires id < |rounds| && Conserved(residual, rounds, k) && SameTerm(rounds[id], r)
    ensures Conserved(residual, rounds[id := r], k)
  {
    hide SameLeft, Term;
    Unmoved(rounds, id, r, k, Sent);
    Unmoved(rounds, id, r, k, Meant);
  }

  lemma OpenIsZero(r: Round, r': Round)
    requires r.result.None? && r'.result.None?
    ensures SameTerm(r, r')
  {
  }

  lemma ClosedStays(r: Round, r': Round)
    requires r'.result == r.result && r'.closed == r.closed && r'.kind == r.kind && r'.key == r.key
    ensures SameTerm(r, r')
  {
    hide MeanResidual, Decoded, Mean, Closable;
  }

  lemma FinishBooked(run: Run, r: Round, r0: Round)
    requires SoundRun(run) && SoundRound(r) && !Decided(r) && r0.result.None? && r0.kind == r.kind && r0.key == r.key
    ensures Booked(run, r0, Finish(run, r).0, Finish(run, r).1)
  {
    var a := r.acc.value;
    hide MeanResidual, Decoded, Mean;
    if a.dtype.I8? {
      assert BookedOn(run.residual, r0, a, Finish(run, r).0.residual, Finish(run, r).1);
    } else {
      NotBooked(r0, Finish(run, r).1);
    }
  }

  /** A round whose reply is exact has no part in the books. */
  lemma NotBooked(r: Round, r': Round)
    requires r.result.None? && r'.closed.Some? && !r'.closed.value.0.dtype.I8?
    ensures SameTerm(r, r')
  {
  }

  // ---- every step ----

  lemma SettledBooked(run: Run, r: Round)
    requires SoundRun(run) && SoundRound(r) && !Decided(r)
    ensures Booked(run, r, Settled(run, r).0, Settled(run, r).1)
  {
    var r1 := r.(expected := Awaited(run.ring.dropped, r.world));
    FinishBooked(run, r1, r);
    hide Finish, BookedOn, Term;
    if r.acc.value.count > 0 && LiveIn(r.seen, run.ring.dropped) >= r1.expected {
      Rebooked(run, r, Finish(run, r1).0, Finish(run, r1).1, Settled(run, r).1);
    } else {
      OpenIsZero(r, r1);
    }
  }

  /** What a round says of itself besides its result has no part in the books. */
  lemma Rebooked(run: Run, r: Round, run': Run, r1: Round, r2: Round)
    requires Booked(run, r, run', r1)
    requires r2.result == r1.result && r2.closed == r1.closed && r2.kind == r1.kind && r2.key == r1.key
    ensures Booked(run, r, run', r2)
  {
    hide Term, MeanResidual, Closable;
    ClosedStays(r1, r2);
    if a: Acc :| BookedOn(run.residual, r, a, run'.residual, r1) {
      assert BookedOn(run.residual, r, a, run'.residual, r2);
    }
  }

  lemma ShutBooked(run: Run, r: Round, rank: nat)
    requires SoundRun(run) && SoundRound(r) && !Decided(r)
    ensures Booked(run, r, Shut(run, r, rank).0, Shut(run, r, rank).1)
  {
    FinishBooked(run, r, r);
    Rebooked(run, r, Finish(run, r).0, Finish(run, r).1, Finish(run, r).1.(partial := r.acc.value.count, done := true, closing := Short));
    hide Finish, BookedOn, Term;
    if Abandoned(run, r, rank) {
      OpenIsZero(r, Shut(run, r, rank).1);
    }
  }

  lemma ArriveBooked(run: Run, r: Round, req: Request)
    requires ValidRequest(req) && SoundRun(run) && SoundRound(r)
    ensures Booked(run, r, Arrive(run, r, req).0, Arrive(run, r, req).1)
  {
    if Decided(r) {
      ClosedStays(r, r.(done := true));
    } else {
      var r1 := Folded(Checked(r, req), req);
      assert SoundRound(r1) && r1.result.None? && r1.kind == r.kind && r1.key == r.key;
      hide Folded, Checked, Term, BookedOn;
      OpenIsZero(r, r1);
      if r1.err.None? {
        FinishBooked(run, r1, r);
        Rebooked(run, r, Finish(run, r1).0, Finish(run, r1).1, Finish(run, r1).1.(done := true, closing := Full));
      } else {
        OpenIsZero(r, r1.(done := true, closing := Failed));
      }
      hide Finish, Booked;
    }
  }

  /** A step that leaves the rounds and the residuals alone. */
  lemma NoneBooked(s: State, s': State)
    requires AllConserved(s) && s'.rounds == s.rounds && s'.run.residual == s.run.residual
    ensures AllConserved(s')
  {
    hide InBooks;
    assert forall k: ResidualKey :: InBooks(s.run.residual, s.rounds, k) ==> InBooks(s'.run.residual, s'.rounds, k);
  }

  lemma CloseReadyConserves(s: State, key: Key)
    requires Sound(s) && AllConserved(s)
    ensures AllConserved(CloseReady(s, key))
  {
    hide Settled, InBooks, Booked;
    var s' := CloseReady(s, key);
    if s' != s {
      SettledBooked(s.run, s.rounds[s.open[key]]);
      OneBooked(s, s', s.open[key]);
    }
  }

  lemma {:induction false} CloseAllConserves(s: State, order: seq<Key>)
    requires Sound(s) && AllConserved(s)
    ensures AllConserved(CloseAll(s, order))
  {
    if order != [] {
      var front, key := order[..|order| - 1], order[|order| - 1];
      assert CloseAll(s, order) == CloseReady(CloseAll(s, front), key);
      hide *;
      CloseAllConserves(s, front);
      CloseReadyConserves(CloseAll(s, front), key);
    }
  }

  lemma MarkDownConserves(s: State, rank: nat, world: nat, order: seq<Key>)
    requires Sound(s) && AllConserved(s)
    ensures AllConserved(MarkDown(s, rank, world, order))
  {
    hide CloseAll, AllConserved;
    var run := Sized(s.run, world);
    if rank < run.ring.world && rank !in run.ring.dropped {
      var run1 := WithoutRank(run, rank);
      var s1 := s.(run := Publish(run1, run1.lastSeq + 1, RingNow(run1, Down(rank))));
      NoneBooked(s, s1);
      CloseAllConserves(s1, order);
    } else {
      NoneBooked(s, MarkDown(s, rank, world, order));
    }
  }

  lemma {:induction false} DropMissingConserves(s: State, id: nat, n: nat, orders: seq<seq<Key>>)
    requires Sound(s) && AllConserved(s) && id < |s.rounds| && n <= |orders|
    ensures AllConserved(DropMissing(s, id, n, orders))
  {
    hide MarkDown, AllConserved, SoundRun, SoundRound;
    if n > 0 {
      var s1, s' := DropMissing(s, id, n - 1, orders), DropMissing(s, id, n, orders);
      var world, order := s.rounds[id].world, orders[n - 1];
      assert s' == s1 || s' == MarkDown(s1, n - 1, world, order);
      hide *;
      DropMissingConserves(s, id, n - 1, orders);
      MarkDownConserves(s1, n - 1, world, order);
    }
  }

  lemma DropMissedConserves(s: State, id: nat, orders: seq<seq<Key>>)
    requires Sound(s) && AllConserved(s) && id < |s.rounds| && |orders| == s.rounds[id].world
    ensures AllConserved(DropMissed(s, id, orders))
  {
    hide AllConserved, SoundRun, SoundRound, DropMissing;
    DropMissingConserves(s, id, s.rounds[id].world, orders);
    if DropMissed(s, id, orders) != s {
      NoneBooked(DropMissing(s, id, s.rounds[id].world, orders), DropMissed(s, id, orders));
    }
  }

  lemma ExpireConserves(s: State, key: Key, rank: nat, orders: seq<seq<Key>>)
    requires Sound(s) && AllConserved(s) && OrdersFit(s, key, orders)
    ensures AllConserved(Expire(s, key, rank, orders).0)
  {
    hide Shut, DropMissed, Closable, SoundRun, Enumerates, AllConserved, Booked;
    var s' := Expire(s, key, rank, orders).0;
    if s' != s {
      var id := s.open[key];
      var (run, r') := Shut(s.run, s.rounds[id], rank);
      var s1 := s.(run := run, rounds := s.rounds[id := r']);
      ShutBooked(s.run, s.rounds[id], rank);
      OneBooked(s, s1, id);
      if s' != s1 {
        DropMissedConserves(s1, id, orders);
      }
    }
  }

  lemma HeardResidual(run: Run, req: Request, c: Choice)
    requires ValidRequest(req) && SoundRun(run) && ChoiceFits(run, req, c)
    ensures Heard(run, req, c).residual == run.residual
  {
    if req.shard == 0 && Advances(run, req) {
      RebalanceResidual(LeadFields(run, req), c);
    }
    assert LeadPart(run, req, c).residual == run.residual by {
      hide RebalanceFor, IsSolo, IsDiLoCo, Fitting;
    }
    hide LeadPart, ChoiceFits, Fitting;
  }

  lemma RebalanceResidual(run: Run, c: Choice)
    requires SoundRun(run) && (OnCadence(run) ==> Offered(run, c))
    ensures RebalanceFor(run, c).0.residual == run.residual
  {
    hide PlanRebalance, SoundRun;
  }

  lemma NewRoundConserves(s: State, req: Request)
    requires Sound(s) && AllConserved(s) && ValidRequest(req) && RoundFor(s, req).Some?
    ensures AllConserved(RoundFor(s, req).value.0)
  {
    var s1 := RoundFor(s, req).value.0;
    if s1 != s {
      var r := NewRound(req).value;
      assert s1.rounds[..|s.rounds|] == s.rounds;
      assert r.result.None?;
      hide NewRound, SoundRound;
      forall k: ResidualKey
        ensures InBooks(s1.run.residual, s1.rounds, k)
      {
        assert InBooks(s.run.residual, s.rounds, k);
        OneMoreOpen(s.run.residual, s.rounds, r, k);
        assert s1.rounds == s.rounds + [r];
      }
    }
  }

  lemma OneMoreOpen(residual: Residuals, rounds: seq<Round>, r: Round, k: ResidualKey)
    requires InBooks(residual, rounds, k) && r.result.None?
    ensures InBooks(residual, rounds + [r], k)
  {
    hide Terms, Traced;
    OpenAddsNothing(rounds, r, k, Sent);
    OpenAddsNothing(rounds, r, k, Meant);
    OpenTraces(residual, rounds, r, k);
  }

  lemma OpenTraces(residual: Residuals, rounds: seq<Round>, r: Round, k: ResidualKey)
    requires Traced(residual, rounds, k)
    ensures Traced(residual, rounds + [r], k)
  {
    hide LeftBy;
    if k in residual {
      var i :| 0 <= i < |rounds| && LeftBy(rounds[i], k, residual[k]);
      assert LeftBy((rounds + [r])[i], k, residual[k]);
    }
  }

  lemma OpenAddsNothing(rounds: seq<Round>, r: Round, k: ResidualKey, side: Side)
    requires r.result.None?
    ensures Terms(rounds + [r], k, side) == Terms(rounds, k, side)
  {
    assert (rounds + [r])[..|rounds|] == rounds;
    assert Term(r, k, side) == Zero(k.n);
    hide Term;
    var v := Terms(rounds, k, side);
    assert Plus(v, Zero(k.n)) == v;
  }

  lemma PostConserves(s: State, req: Request, c: Choice)
    requires Sound(s) && AllConserved(s)
    ensures AllConserved(Post(s, req, c))
  {
    hide Landed, ChoiceFits, SoundRound, SoundRun, NewRound, AllConserved, Booked;
    if Post(s, req, c) != s {
      var (s1, id) := RoundFor(s, req).value;
      NewRoundConserves(s, req);
      if Post(s, req, c) != s1 {
        LandedBooked(s1.run, s1.rounds[id], req, c);
        OneBooked(s1, Post(s, req, c), id);
      }
    }
  }

  lemma LandedBooked(run: Run, r: Round, req: Request, c: Choice)
    requires ValidRequest(req) && SoundRun(run) && SoundRound(r) && ChoiceFits(run, req, c)
    ensures Booked(run, r, Landed(run, r, req, c).0, Landed(run, r, req, c).1)
  {
    var r1, run1 := r.(expected := Awaited(run.ring.dropped, req.world)), Heard(run, req, c);
    HeardResidual(run, req, c);
    assert SoundRound(r1);
    assert Landed(run, r, req, c) == Arrive(run1, r1, req);
    hide Heard, Arrive, SoundRound, ChoiceFits, SoundRun, Term, BookedOn;
    ArriveBooked(run1, r1, req);
    ClosedStays(r, r1);
    if a: Acc :| BookedOn(run1.residual, r1, a, Arrive(run1, r1, req).0.residual, Arrive(run1, r1, req).1) {
      BookedFrom(run.residual, r, r1, a, Arrive(run1, r1, req).0.residual, Arrive(run1, r1, req).1);
    }
  }

  lemma BookedFrom(residual: Residuals, r: Round, r1: Round, a: Acc, residual': Residuals, r': Round)
    requires BookedOn(residual, r1, a, residual', r') && r.result == r1.result && r.kind == r1.kind && r.key == r1.key
    ensures BookedOn(residual, r, a, residual', r')
  {
  }

  lemma StepConserves(s: State, e: Event)
    requires Sound(s) && AllConserved(s)
    ensures AllConserved(Step(s, e))
  {
    hide SoundRound, SoundRun, MarkDown, Expire, Told, Post, AllConserved, Enumerates, Admit, Taken, Booked;
    match e
    case PostEvent(req, c) => PostConserves(s, req, c);
    case ReplyEvent(i) =>
      if Serve(s, i) != s {
        var r := s.rounds[s.tickets[i].round];
        ClosedStays(r, Fetched(r, s.tickets[i].who));
        SameBooked(s.run, r, Serve(s, i).run, Fetched(r, s.tickets[i].who));
        OneBooked(s, Serve(s, i), s.tickets[i].round);
      }
    case PollEvent(i) =>
      if Poll(s, i) != s {
        var r := s.rounds[s.open[s.tickets[i].key]];
        ClosedStays(r, r.(held := true));
        SameBooked(s.run, r, s.run, r.(held := true));
        OneBooked(s, Poll(s, i), s.open[s.tickets[i].key]);
      }
    case TimeOutEvent(i, orders) =>
      if TimeOut(s, i, orders) != s {
        var t := s.tickets[i];
        ExpireConserves(s, t.key, t.rank, orders);
        NoneBooked(Expire(s, t.key, t.rank, orders).0, TimeOut(s, i, orders));
      }
    case LeaveEvent(i) => NoneBooked(s, Leave(s, i));
    case DownEvent(rank, world, order) => MarkDownConserves(s, rank, world, order);
    case JoinEvent(_, _) =>
      assert Step(s, e).run.residual == s.run.residual by { hide SoundRound, AllConserved; JoinResidual(s, e); }
      NoneBooked(s, Step(s, e));
    case PutEvent(_, _) => NoneBooked(s, Step(s, e));
    case TakenEvent(_) =>
      assert Step(s, e).run.residual == s.run.residual by { JoinResidual(s, e); }
      NoneBooked(s, Step(s, e));
  }

  lemma SameBooked(run: Run, r: Round, run': Run, r': Round)
    requires run'.residual == run.residual && SameTerm(r, r')
    ensures Booked(run, r, run', r')
  {
  }

  lemma JoinResidual(s: State, e: Event)
    requires Sound(s) && (e.JoinEvent? || e.TakenEvent?)
    ensures Step(s, e).run.residual == s.run.residual && Step(s, e).rounds == s.rounds
  {
  }

  /** Over every interleaving, everything the ranks were sent under a key plus what is still kept for it is everything that
      was meant for them: the error of all replies together is one kept residual. */
  lemma {:induction false} NothingIsLost(events: seq<Event>, k: ResidualKey)
    ensures var s := Exec(Start(), events);
      Plus(Terms(s.rounds, k, Sent), Kept(s.run.residual, k)) == Terms(s.rounds, k, Meant)
  {
    RunsConserve(events);
    hide Exec;
    assert InBooks(Exec(Start(), events).run.residual, Exec(Start(), events).rounds, k);
  }

  /** How far, in an element, all that was sent under a key is from all that was meant. */
  ghost function MissingUnder(s: State, k: ResidualKey, j: nat): real
    requires j < k.n
  {
    Terms(s.rounds, k, Meant)[j] - Terms(s.rounds, k, Sent)[j]
  }

  /** What separates the two is within one round's rounding: 1/254 of the peak of the element's segment in that round's target. */
  ghost predicate WithinOneRound(r: Round, missing: real, k: ResidualKey, j: nat)
    requires j < k.n
  {
    ClosedUnder(r, k) &&
    exists lo: nat, hi: nat ::
      IsSegment(r.closed.value.0, lo, hi, j) && KeptWithin(missing, Peak(Target(r.closed.value.0, r.closed.value.1)[lo..hi]))
  }

  /** Over every interleaving, all that was sent under a key is, in every element, within one round's rounding of all that was
      meant, however many rounds there have been; a key no round has closed under owes nothing. */
  lemma ErrorStaysOneRound(events: seq<Event>, k: ResidualKey, j: nat)
    requires j < k.n
    ensures var s := Exec(Start(), events);
      if k in s.run.residual then
        exists i | 0 <= i < |s.rounds| :: WithinOneRound(s.rounds[i], MissingUnder(s, k, j), k, j)
      else MissingUnder(s, k, j) == 0.0
  {
    var s := Exec(Start(), events);
    assert InBooks(s.run.residual, s.rounds, k) by {
      hide *;
      RunsConserve(events);
      BooksOf(s, k);
    }
    hide *;
    SmallInBooks(s, k, j);
  }

  lemma SmallInBooks(s: State, k: ResidualKey, j: nat)
    requires j < k.n && InBooks(s.run.residual, s.rounds, k)
    ensures if k in s.run.residual then
        exists i | 0 <= i < |s.rounds| :: WithinOneRound(s.rounds[i], MissingUnder(s, k, j), k, j)
      else MissingUnder(s, k, j) == 0.0
  {
    hide Terms, LeftBy, WithinOneRound;
    var sent, meant, kept := Terms(s.rounds, k, Sent), Terms(s.rounds, k, Meant), Kept(s.run.residual, k);
    assert Plus(sent, kept)[j] == meant[j];
    if k in s.run.residual {
      var i :| 0 <= i < |s.rounds| && LeftBy(s.rounds[i], k, kept);
      LeftIsSmall(s.rounds[i], k, kept, j);
    }
  }

  lemma BooksOf(s: State, k: ResidualKey)
    requires AllConserved(s)
    ensures InBooks(s.run.residual, s.rounds, k)
  {
  }

  lemma LeftIsSmall(r: Round, k: ResidualKey, v: Vec, j: nat)
    requires LeftBy(r, k, v) && j < k.n && |v| == k.n
    ensures WithinOneRound(r, v[j], k, j)
  {
    hide MeanResidual, Cuts, Peak, KeptWithin, Target, Total;
    var lo, hi := FeedbackBound(r.closed.value.0, r.closed.value.1, j);
    assert IsSegment(r.closed.value.0, lo, hi, j);
  }

  lemma {:induction false} RunsConserve(events: seq<Event>)
    ensures AllConserved(Exec(Start(), events))
  {
    if events == [] {
    } else {
      var front, e := events[..|events| - 1], events[|events| - 1];
      assert Exec(Start(), events) == Step(Exec(Start(), front), e);
      hide *;
      RunsConserve(front);
      StepConserves(Exec(Start(), front), e);
    }
  }
}
