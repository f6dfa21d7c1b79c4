/** Runs of the board from its start in which what its invariants leave open does happen: a rank answered with nothing, a round
    that waits for nobody, a ring grown by a post, and shares moved while a rank is joining. */
module Scenarios {
  import opened Wrappers
  import opened Counting
  import opened Vectors
  import opened Reduce
  import opened Messages
  import opened Shares
  import opened Rebalance
  import opened Protocol
  import opened Rounds
  import opened Verdicts
  import opened Closing
  import opened Joining
  import opened Faults
  import Headcounts

  // ---- plain posts ----

  /** A contribution of one value that stands for these ranks. */
  function Plain(seqNo: int, world: nat, members: seq<Member>, sharded: bool): Request
    requires members != []
  {
    Request(seqNo, members[0].rank, world, 0, 0, "grads", Some(F32), 1, [], Numbers([1.0]), 1.0, [], members[0].samples, 0.0, 0.0,
            members, None, sharded, false, false, 0)
  }

  /** The members are ranks of a ring of this size, each with a measured step. */
  predicate InRing(members: seq<Member>, world: nat) {
    members != [] && forall i | 0 <= i < |members| :: 0 <= members[i].rank < world && members[i].step > 0.0 && members[i].samples >= 0
  }

  function RanksOf(members: seq<Member>): set<nat>
    requires forall i | 0 <= i < |members| :: members[i].rank >= 0
  {
    set i | 0 <= i < |members| :: members[i].rank
  }

  /** A contribution like it, to any shard. */
  predicate Simple(req: Request, members: seq<Member>) {
    && req.world >= 1 && InRing(members, req.world) && req.members == members && req.rank == members[0].rank
    && req.shard >= 0 && (req.shards > 0 ==> req.shard < req.shards <= req.world)
    && req.kind == "grads" && req.dtype == Some(F32) && req.count == 1 && req.counts == [] && req.payload == Numbers([1.0])
    && req.scale == 1.0 && req.scales == [] && req.manifest.None?
  }

  lemma SimpleIsValid(req: Request, members: seq<Member>)
    requires Simple(req, members)
    ensures ValidRequest(req) && Contributors(req) == RanksOf(members) && Reporters(req) == members && |Who(members)| == |members|
    ensures KeyOf(req) == Key(req.seqNo, req.shard) && !OpensRun(req)
  {
    var who := Who(members);
    forall k
      ensures k in who <==> k in RanksOf(members)
    {
      if k in who {
        var i :| 0 <= i < |who| && who[i] == k;
        assert members[i].rank == k;
      }
      if k in RanksOf(members) {
        var i :| 0 <= i < |members| && members[i].rank == k;
        assert who[i] == k;
      }
    }
  }

  lemma PlainIsSimple(seqNo: int, world: nat, members: seq<Member>, sharded: bool)
    requires InRing(members, world)
    ensures var req := Plain(seqNo, world, members, sharded);
      Simple(req, members) && req.world == world && req.shard == 0 && req.seqNo == seqNo
  {
  }

  lemma PlainIsValid(seqNo: int, world: nat, members: seq<Member>, sharded: bool)
    requires InRing(members, world)
    ensures var req := Plain(seqNo, world, members, sharded);
      && ValidRequest(req) && Contributors(req) == RanksOf(members) && Reporters(req) == members && |Who(members)| == |members|
      && KeyOf(req) == Key(seqNo, 0) && !OpensRun(req)
  {
    PlainIsSimple(seqNo, world, members, sharded);
    SimpleIsValid(Plain(seqNo, world, members, sharded), members);
  }

  /** Nothing is decided at this post: the run is not at a refit. */
  predicate Quiet(run: Run, req: Request)
    requires ValidRequest(req) && SoundRun(run)
  {
    !OnCadence(LeadFields(run, req))
  }

  /** A run a post leaves as it is, but for what the post says. */
  function After(run: Run, req: Request): (r: Run)
    requires ValidRequest(req) && SoundRun(run) && req.shard == 0
    ensures SoundRun(r)
  {
    var run1 := LeadFields(run, req);
    var run2 := if Advances(run, req) then run1.(round := run1.round + 1) else run1;
    run2.(ring := ObserveAll(run2.ring, Reporters(req)))
  }

  lemma QuietHeard(run: Run, req: Request, c: Choice)
    requires ValidRequest(req) && SoundRun(run) && req.shard == 0 && Quiet(run, req)
    ensures ChoiceFits(run, req, c) && Heard(run, req, c) == After(run, req)
  {
    hide IsSolo, IsDiLoCo, Fitting, SoloFor, PlanRebalance;
  }

  /** The round a plain post opens: with its ranks in, and closed if the ring has no others. */
  ghost predicate Opened(r: Round, req: Request, gone: set<nat>, gone': set<nat>)
    requires ValidRequest(req)
  {
    && r.key == KeyOf(req) && r.world == req.world && !r.opening && !r.held && r.fetched == {} && r.err.None?
    && r.seen == Contributors(req) && r.expected == Awaited(gone, req.world)
    && (if LiveIn(r.seen, gone') >= ExpectedCount(r) then r.done && r.result.Some?
        else !r.done && r.result.None? && r.acc.Some? && r.acc.value.count == 1)
  }

  lemma PlainDecodes(a: Acc, samples: int)
    requires a == NewAcc(F32, 1, [])
    ensures WellFormed(a) && Add(a, Numbers([1.0]), [1.0], samples).1 && Add(a, Numbers([1.0]), [1.0], samples).0.count == 1
    ensures Add(a, Numbers([1.0]), [1.0], samples).0.dtype == F32
  {
  }

  lemma ArriveFresh(run: Run, r: Round, req: Request, members: seq<Member>, gone: set<nat>)
    requires SoundRun(run) && Simple(req, members) && run.aborted.None?
    requires ValidRequest(req) && NewRound(req).Some? && r == NewRound(req).value.(expected := Awaited(gone, req.world))
    ensures SoundRound(r)
    ensures var (run', r') := Arrive(run, r, req); run' == run && Opened(r', req, gone, run.ring.dropped)
  {
    var a := NewAcc(F32, 1, []);
    assert r.acc == Some(a) && ScalesOf(req) == [1.0] && !Decided(r);
    SimpleIsValid(req, members);
    PlainDecodes(a, req.samples);
    hide Add, Contributors, MeanResidual, Awaited, LiveIn, NewAcc, InRing;
    assert Checked(r, req) == r;
    var r1 := Folded(r, req);
    assert r1.seen == Contributors(req) && r1.acc.value.count == 1 && r1.err.None? && r1.acc.value.dtype == F32;
  }

  lemma SimpleOpens(req: Request, members: seq<Member>)
    requires Simple(req, members)
    ensures ValidRequest(req) && NewRound(req).Some? && NewRound(req).value.world == req.world
    ensures NewRound(req).value.key == Key(req.seqNo, req.shard)
  {
    SimpleIsValid(req, members);
  }

  /** A plain post under a new key: the lead takes it, opens its round and puts its ranks in. */
  ghost predicate Opens(s: State, t: State, req: Request, run: Run)
    requires ValidRequest(req)
  {
    && t.run == run && t.answers == s.answers
    && |t.rounds| == |s.rounds| + 1 && t.rounds[..|s.rounds|] == s.rounds
    && Opened(t.rounds[|s.rounds|], req, s.run.ring.dropped, run.ring.dropped)
    && t.open == s.open[KeyOf(req) := |s.rounds|]
    && t.tickets == s.tickets + [Ticket(|s.rounds|, KeyOf(req), Who(Reporters(req)), req.rank, req.shard == 0, Waiting)]
  }

  lemma SimpleFresh(s: State, c: Choice, req: Request, members: seq<Member>)
    requires Sound(s) && Simple(req, members) && s.run.aborted.None? && Key(req.seqNo, req.shard) !in s.open
    requires ValidRequest(req) && ChoiceFits(s.run, req, c)
    ensures Accepts(s, req, c) && Opens(s, Post(s, req, c), req, Heard(s.run, req, c))
  {
    SimpleIsValid(req, members);
    SimpleOpens(req, members);
    HeardLater(s.run, req, c);
    hide ChoiceFits, SoundRun, Heard, Awaited, Opened, LiveIn, Contributors, Simple;
    var (s1, id) := RoundFor(s, req).value;
    var r := NewRound(req).value;
    var run1 := Heard(s.run, req, c);
    hide NewRound;
    assert s1.rounds == s.rounds + [r] && id == |s.rounds| && s1.run == s.run;
    var r1 := r.(expected := Awaited(s.run.ring.dropped, req.world));
    ArriveFresh(run1, r1, req, members, s.run.ring.dropped);
    hide Arrive;
    assert Landed(s.run, r, req, c) == Arrive(run1, r1, req);
  }

  lemma FreshPost(s: State, c: Choice, seqNo: int, world: nat, members: seq<Member>, sharded: bool)
    requires Sound(s) && InRing(members, world) && s.run.aborted.None? && Key(seqNo, 0) !in s.open
    requires var req := Plain(seqNo, world, members, sharded); ValidRequest(req) && ChoiceFits(s.run, req, c)
    ensures var req := Plain(seqNo, world, members, sharded);
      Accepts(s, req, c) && Opens(s, Post(s, req, c), req, Heard(s.run, req, c))
  {
    PlainIsSimple(seqNo, world, members, sharded);
    hide *;
    SimpleFresh(s, c, Plain(seqNo, world, members, sharded), members);
  }

  // ---- a rank answered with nothing ----

  /** A plain post that finds its round decided: its handler only waits for the answer. */
  lemma LatePost(s: State, c: Choice, seqNo: int, world: nat, members: seq<Member>, sharded: bool)
    requires Sound(s) && InRing(members, world) && s.run.aborted.None? && Key(seqNo, 0) in s.open
    requires var r := s.rounds[s.open[Key(seqNo, 0)]]; Decided(r) && r.world == world
    requires var req := Plain(seqNo, world, members, sharded); ValidRequest(req) && ChoiceFits(s.run, req, c)
    ensures var req, t, id := Plain(seqNo, world, members, sharded), Post(s, Plain(seqNo, world, members, sharded), c),
        s.open[Key(seqNo, 0)];
      && t.run == Heard(s.run, req, c) && t.answers == s.answers && t.open == s.open
      && t.rounds == s.rounds[id := s.rounds[id].(done := true, expected := Awaited(s.run.ring.dropped, world))]
      && t.tickets == s.tickets + [Ticket(id, Key(seqNo, 0), Who(members), req.rank, true, Waiting)]
  {
    PlainIsValid(seqNo, world, members, sharded);
    hide ChoiceFits, SoundRun, SoundRound, Heard, Awaited, Contributors, Folded, Checked;
  }

  /** A handler with an answer, or woken, answers each of its ranks with what its round holds. */
  lemma Replies(s: State, i: nat)
    requires Sound(s) && i < |s.tickets| && Ready(s, s.tickets[i])
    ensures var t, k := Serve(s, i), s.tickets[i];
      var r := Fetched(s.rounds[k.round], k.who);
      && t.run == s.run.(news := t.run.news) && t.rounds == s.rounds[k.round := r]
      && t.open == (if Spent(r) then s.open - {k.key} else s.open)
      && t.tickets == s.tickets[i := k.(wait := Left)]
      && |t.answers| == |s.answers| + |k.who|
      && forall j | |s.answers| <= j < |t.answers| :: t.answers[j].outcome == OutcomeOf(r) && t.answers[j].rank == k.who[j - |s.answers|]
  {
    var k := s.tickets[i];
    ToldAnswers(s.run, k, Fetched(s.rounds[k.round], k.who), k.who);
    hide SoundRun, SoundRound, Told, ExpectedCount;
  }

  /** A handler's timeout that closes the round under its key, whichever round that is. */
  lemma WokenByAnother(s: State, i: nat, orders: seq<seq<Key>>, id: nat)
    requires Sound(s) && i < |s.tickets| && s.tickets[i].wait.Waiting? && OrdersFit(s, s.tickets[i].key, orders)
    requires s.tickets[i].key in s.open && s.open[s.tickets[i].key] == id
    requires var r := s.rounds[id];
      !Decided(r) && r.acc.value.count > 0 && !r.opening && s.tickets[i].rank !in r.seen
    ensures var t := TimeOut(s, i, orders);
      && t.answers == s.answers && |t.rounds| == |s.rounds| && (forall j | 0 <= j < |s.rounds| && j != id :: t.rounds[j] == s.rounds[j])
      && t.tickets == s.tickets[i := s.tickets[i].(wait := Woken)]
  {
    hide SoundRun, Enumerates, MeanResidual, LiveIn, ExpectedCount;
  }

  /** A ring of two at its fifth sync. */
  predicate Pair(run: Run) {
    run.ring.world == 2 && run.ring.dropped == {} && run.aborted.None? && run.lastSeq == 5 && run.round == 1
  }

  lemma PairStays(run: Run, members: seq<Member>, c: Choice)
    requires SoundRun(run) && (Pair(run) || run == NewRun()) && InRing(members, 2)
    ensures var req := Plain(5, 2, members, false);
      && ValidRequest(req) && ChoiceFits(run, req, c) && Pair(Heard(run, req, c))
  {
    var req := Plain(5, 2, members, false);
    PlainIsValid(5, 2, members, false);
    QuietHeard(run, req, c);
    hide Fitting;
  }

  function Both(): seq<Member> {
    [Member(0, 1.0, 0.0, 1), Member(1, 1.0, 0.0, 1)]
  }

  function Only(rank: nat): seq<Member> {
    [Member(rank, 1.0, 0.0, 1)]
  }

  const FIFTH: Key := Key(5, 0)
  const NOTHING: Choice := Choice(0, Unmeasured, 0.0, false)

  lemma Whose()
    ensures InRing(Both(), 2) && Who(Both()) == [0, 1] && RanksOf(Both()) == {0, 1}
    ensures forall k: nat | k < 2 :: InRing(Only(k), 2) && Who(Only(k)) == [k] && RanksOf(Only(k)) == {k}
    ensures Awaited({}, 2) == 2 && LiveIn({0, 1}, {}) == 2 && forall k: nat | k < 2 :: LiveIn({k}, {}) == 1
  {
    assert Who(Both())[0] == 0 && Who(Both())[1] == 1;
    assert RanksOf(Both()) == {Both()[0].rank, Both()[1].rank};
    forall k: nat | k < 2
      ensures Who(Only(k)) == [k] && RanksOf(Only(k)) == {k} && LiveIn({k}, {}) == 1
    {
      assert Who(Only(k))[0] == k && RanksOf(Only(k)) == {Only(k)[0].rank};
      assert {k} - {} == {k};
    }
    assert DropsBelow({}, 2) == 0 by { NoneBelow(2); }
    assert {0, 1} - {} == {0, 1};
  }

  lemma NoneBelow(world: nat)
    ensures DropsBelow({}, world) == 0
  {
    var gone: set<nat> := {};
    assert (set d | d in gone && d < world) == {};
  }

  lemma OpenedBoth(r: Round)
    requires var req := Plain(5, 2, Both(), false); ValidRequest(req) && Opened(r, req, {}, {})
    ensures r.key == FIFTH && r.world == 2 && r.done && r.result.Some? && r.err.None? && r.fetched == {} && r.expected == 2
  {
    Whose();
    PlainIsValid(5, 2, Both(), false);
  }

  lemma OpenedOnly(r: Round, k: nat)
    requires k < 2
    requires var req := Plain(5, 2, Only(k), false); ValidRequest(req) && Opened(r, req, {}, {})
    ensures r.key == FIFTH && r.world == 2 && !Decided(r) && r.acc.Some? && r.acc.value.count == 1 && !r.done
    ensures r.seen == {k} && !r.opening && !r.held
  {
    Whose();
    PlainIsValid(5, 2, Only(k), false);
  }

  /** A plain post of the fifth sync that finds no round under its key. */
  lemma FifthOpens(s: State, members: seq<Member>)
    requires Sound(s) && (Pair(s.run) || s.run == NewRun()) && FIFTH !in s.open && InRing(members, 2)
    ensures var req := Plain(5, 2, members, false);
      var t := Step(s, PostEvent(req, NOTHING));
      && ValidRequest(req) && Pair(t.run) && t.answers == s.answers && |t.rounds| == |s.rounds| + 1 && t.rounds[..|s.rounds|] == s.rounds
      && Opened(t.rounds[|s.rounds|], req, {}, {}) && t.open == s.open[FIFTH := |s.rounds|]
      && t.tickets == s.tickets + [Ticket(|s.rounds|, FIFTH, Who(members), members[0].rank, true, Waiting)]
  {
    var req := Plain(5, 2, members, false);
    PlainIsValid(5, 2, members, false);
    PairStays(s.run, members, NOTHING);
    assert s.run.aborted.None? && s.run.ring.dropped == {};
    FreshPost(s, NOTHING, 5, 2, members, false);
    assert Heard(s.run, req, NOTHING).ring.dropped == {};
    hide Post, Heard, ChoiceFits, Opened, Who, Contributors, Sound, ValidRequest;
  }

  /** A plain post of the fifth sync that finds its round decided. */
  lemma FifthLate(s: State, members: seq<Member>)
    requires Sound(s) && Pair(s.run) && FIFTH in s.open && InRing(members, 2)
    requires var r := s.rounds[s.open[FIFTH]]; Decided(r) && r.world == 2
    ensures var t, id := Step(s, PostEvent(Plain(5, 2, members, false), NOTHING)), s.open[FIFTH];
      && Pair(t.run) && t.answers == s.answers && t.open == s.open
      && t.rounds == s.rounds[id := s.rounds[id].(done := true, expected := 2)]
      && t.tickets == s.tickets + [Ticket(id, FIFTH, Who(members), members[0].rank, true, Waiting)]
  {
    var req := Plain(5, 2, members, false);
    PlainIsValid(5, 2, members, false);
    PairStays(s.run, members, NOTHING);
    Whose();
    assert s.run.aborted.None? && s.run.ring.dropped == {};
    LatePost(s, NOTHING, 5, 2, members, false);
    hide Post, Heard, ChoiceFits, Who, Contributors, Sound, ValidRequest, Awaited, LiveIn;
  }

  /** The fifth sync's round closes at once for a machine of both ranks, which posts again: two handlers wait on one decided
      round that is still on the board. */
  ghost predicate Retried(s: State) {
    && Pair(s.run) && s.open == map[FIFTH := 0] && |s.rounds| == 1 && s.answers == []
    && s.rounds[0].key == FIFTH && s.rounds[0].world == 2 && s.rounds[0].done && s.rounds[0].result.Some?
    && s.rounds[0].fetched == {} && s.rounds[0].expected == 2 && s.rounds[0].err.None?
    && s.tickets == [Ticket(0, FIFTH, [0, 1], 0, true, Waiting), Ticket(0, FIFTH, [0, 1], 0, true, Waiting)]
  }

  lemma StartFacts()
    ensures var s := Start(); Sound(s) && s.run == NewRun() && s.open == map[] && s.rounds == [] && s.tickets == [] && s.answers == []
  {
  }

  lemma BothFirst()
    ensures Both() != [] && Both()[0].rank == 0 && forall k: nat :: Only(k) != [] && Only(k)[0].rank == k
  {
  }

  lemma IsDecided(r: Round)
    ensures Decided(r) <==> r.result.Some? || r.err.Some?
  {
  }

  lemma ReachRetried(s0: State, s1: State, e: Event)
    requires e == PostEvent(Plain(5, 2, Both(), false), NOTHING)
    requires s0 == Start() && s1 == Step(s0, e) && Sound(s1)
    ensures Retried(Step(s1, e))
  {
    hide Post, Step, Opened, Pair, Sound, ValidRequest, Plain, Both, Who, InRing, Awaited, LiveIn, RanksOf, Start, Decided;
    StartFacts();
    Whose();
    BothFirst();
    FifthOpens(s0, Both());
    assert s1.rounds == s1.rounds[..0] + [s1.rounds[0]];
    OpenedBoth(s1.rounds[0]);
    IsDecided(s1.rounds[0]);
    FifthLate(s1, Both());
  }

  /** Everybody has fetched this round, and it is over. */
  predicate Finished(r: Round) {
    r.result.Some? && r.err.None? && r.world == 2 && r.expected == 2 && r.done && r.fetched == {0, 1}
  }

  lemma TwoRanks(who: seq<nat>)
    requires who == [0, 1]
    ensures (set k | k in who) == {0, 1} && |(set k | k in who)| == 2
  {
    var a, b: set<nat> := {0}, {1};
    assert (set k | k in who) == a + b;
  }

  lemma FinishedIsSpent(r: Round, who: seq<nat>)
    requires Finished(r) && who == [0, 1]
    ensures Spent(Fetched(r, who)) && Finished(Fetched(r, who))
  {
    TwoRanks(who);
    assert Fetched(r, who).fetched == (set k | k in who);
    assert ExpectedCount(Fetched(r, who)) == 2;
  }

  lemma FetchedByBoth(r: Round, who: seq<nat>)
    requires who == [0, 1] && r.fetched == {} && r.result.Some? && r.err.None? && r.world == 2 && r.expected == 2 && r.done
    ensures Spent(Fetched(r, who)) && Finished(Fetched(r, who))
  {
    TwoRanks(who);
    assert Fetched(r, who).fetched == (set k | k in who);
    assert ExpectedCount(Fetched(r, who)) == 2;
  }

  lemma DoneIsReady(s: State, i: nat)
    requires Sound(s) && i < |s.tickets|
    ensures s.tickets[i].wait.Woken? ==> Protocol.Ready(s, s.tickets[i])
    ensures s.tickets[i].wait.Waiting? && s.rounds[s.tickets[i].round].done ==> Protocol.Ready(s, s.tickets[i])
    ensures s.tickets[i].round < |s.rounds|
  {
  }

  /** A reply is a step. */
  lemma ReplySteps(s: State, i: nat)
    requires Sound(s)
    ensures Step(s, ReplyEvent(i)) == Serve(s, i)
  {
  }

  lemma PairTold(run: Run, news: News)
    requires Pair(run)
    ensures Pair(run.(news := news))
  {
  }

  /** The first handler has answered, and the round has left the board. */
  ghost predicate Gone(s: State) {
    && Pair(s.run) && s.open == map[] && |s.rounds| == 1 && Finished(s.rounds[0])
    && |s.tickets| == 2 && s.tickets[1] == Ticket(0, FIFTH, [0, 1], 0, true, Waiting)
  }

  lemma ReachGone(s: State)
    requires Sound(s) && Retried(s)
    ensures Gone(Step(s, ReplyEvent(0)))
  {
    hide Step, Serve, Pair, Sound, Fetched, Spent, Finished, Protocol.Ready, OutcomeOf;
    ReplySteps(s, 0);
    DoneIsReady(s, 0);
    Replies(s, 0);
    FetchedByBoth(s.rounds[0], [0, 1]);
    PairTold(s.run, Serve(s, 0).run.news);
    assert map[FIFTH := 0] - {FIFTH} == map[];
  }

  /** Rank 0 posts alone: a new round under the same key. */
  ghost predicate Reopened(s: State) {
    && Pair(s.run) && s.open == map[FIFTH := 1] && |s.rounds| == 2 && Finished(s.rounds[0]) && !Decided(s.rounds[1])
    && |s.tickets| == 3
    && s.tickets[1] == Ticket(0, FIFTH, [0, 1], 0, true, Waiting) && s.tickets[2] == Ticket(1, FIFTH, [0], 0, true, Waiting)
  }

  lemma ReachReopened(s: State)
    requires Sound(s) && Gone(s)
    ensures Reopened(Step(s, PostEvent(Plain(5, 2, Only(0), false), NOTHING)))
  {
    hide Step, Pair, Sound, Finished, Decided, Plain, Opened, InRing, Who, ValidRequest, Only, Awaited, LiveIn, RanksOf;
    Whose();
    BothFirst();
    FifthOpens(s, Only(0));
    var t := Step(s, PostEvent(Plain(5, 2, Only(0), false), NOTHING));
    OpenedOnly(t.rounds[1], 0);
    IsDecided(t.rounds[1]);
    assert t.rounds[..1][0] == t.rounds[0];
  }

  /** The second handler answers from the first round, and takes the new one off the board. */
  ghost predicate Strayed(s: State) {
    && Pair(s.run) && s.open == map[] && |s.rounds| == 2 && !Decided(s.rounds[1])
    && |s.tickets| == 3 && s.tickets[2] == Ticket(1, FIFTH, [0], 0, true, Waiting)
  }

  lemma ReachStrayed(s: State)
    requires Sound(s) && Reopened(s)
    ensures Strayed(Step(s, ReplyEvent(1)))
  {
    hide Step, Serve, Pair, Sound, Fetched, Spent, Decided, Protocol.Ready, OutcomeOf;
    ReplySteps(s, 1);
    DoneIsReady(s, 1);
    Replies(s, 1);
    FinishedIsSpent(s.rounds[0], [0, 1]);
    PairTold(s.run, Serve(s, 1).run.news);
    assert map[FIFTH := 1] - {FIFTH} == map[];
  }

  /** Rank 1 posts: a third round under the key, while rank 0 waits on the second. */
  ghost predicate Parted(s: State) {
    && Pair(s.run) && s.open == map[FIFTH := 2] && |s.rounds| == 3 && !Decided(s.rounds[1])
    && !Decided(s.rounds[2]) && s.rounds[2].acc.Some? && s.rounds[2].acc.value.count == 1 && !s.rounds[2].opening
    && s.rounds[2].seen == {1} && s.rounds[2].world == 2
    && |s.tickets| == 4 && s.tickets[2] == Ticket(1, FIFTH, [0], 0, true, Waiting)
  }

  lemma ReachParted(s: State)
    requires Sound(s) && Strayed(s)
    ensures Parted(Step(s, PostEvent(Plain(5, 2, Only(1), false), NOTHING)))
  {
    hide Step, Pair, Sound, Decided, Plain, Opened, InRing, Who, ValidRequest, Only, Awaited, LiveIn, RanksOf;
    Whose();
    BothFirst();
    FifthOpens(s, Only(1));
    var t := Step(s, PostEvent(Plain(5, 2, Only(1), false), NOTHING));
    OpenedOnly(t.rounds[2], 1);
    assert t.rounds[..2][1] == t.rounds[1];
  }

  /** Rank 0's timeout closes rank 1's round. */
  ghost predicate Misled(s: State) {
    |s.rounds| == 3 && !Decided(s.rounds[1]) && |s.tickets| == 4 && s.tickets[2] == Ticket(1, FIFTH, [0], 0, true, Woken)
  }

  lemma ReachMisled(s: State, orders: seq<seq<Key>>)
    requires Sound(s) && Parted(s) && orders == [[FIFTH], [FIFTH]]
    ensures Misled(Step(s, TimeOutEvent(2, orders)))
  {
    PartedOrders(s, orders);
    assert Step(s, TimeOutEvent(2, orders)) == TimeOut(s, 2, orders);
    hide Step, TimeOut, OrdersFit, SoundRun, SoundRound, Decided, Pair;
    WokenByAnother(s, 2, orders, 2);
  }

  lemma PartedOrders(s: State, orders: seq<seq<Key>>)
    requires Sound(s) && Parted(s) && orders == [[FIFTH], [FIFTH]]
    ensures OrdersFit(s, FIFTH, orders)
  {
    hide SoundRun, SoundRound, Decided, Pair;
    assert s.open.Keys == {FIFTH};
  }

  /** It happens: a machine of both ranks posts twice and its first handler answers; rank 0 posts alone; the machine's second
      handler answers and takes the new round off the board; rank 1 posts; and rank 0's timeout, which closes rank 1's round,
      makes its handler answer from its own. Rank 0 is answered with nothing. */
  lemma StrayIsAnswered() returns (events: seq<Event>)
    ensures var s := Exec(Start(), events);
      s.answers != [] && s.answers[|s.answers| - 1].rank == 0 && s.answers[|s.answers| - 1].outcome == Payload(None)
  {
    var again, zero, one := PostEvent(Plain(5, 2, Both(), false), NOTHING), PostEvent(Plain(5, 2, Only(0), false), NOTHING),
      PostEvent(Plain(5, 2, Only(1), false), NOTHING);
    assert Exec(Start(), []) == Start() && [] + [again] == [again];
    hide *;
    events := [again];
    OneEventMore([], again);
    OneEventMore(events, again);
    ReachRetried(Start(), Exec(Start(), events), again);
    events := events + [again];
    OneEventMore(events, ReplyEvent(0));
    ReachGone(Exec(Start(), events));
    events := events + [ReplyEvent(0)];
    OneEventMore(events, zero);
    ReachReopened(Exec(Start(), events));
    events := events + [zero];
    OneEventMore(events, ReplyEvent(1));
    ReachStrayed(Exec(Start(), events));
    events := events + [ReplyEvent(1)];
    events := StrayReplies(events, one);
  }

  /** The second half of it. */
  lemma StrayReplies(before: seq<Event>, one: Event) returns (events: seq<Event>)
    requires Strayed(Exec(Start(), before)) && one == PostEvent(Plain(5, 2, Only(1), false), NOTHING)
    ensures var s := Exec(Start(), events);
      s.answers != [] && s.answers[|s.answers| - 1].rank == 0 && s.answers[|s.answers| - 1].outcome == Payload(None)
  {
    hide *;
    var orders := [[FIFTH], [FIFTH]];
    OneEventMore(before, one);
    ReachParted(Exec(Start(), before));
    events := before + [one];
    OneEventMore(events, TimeOutEvent(2, orders));
    ReachMisled(Exec(Start(), events), orders);
    events := events + [TimeOutEvent(2, orders)];
    OneEventMore(events, ReplyEvent(2));
    LastReply(Exec(Start(), events));
    events := events + [ReplyEvent(2)];
  }

  lemma LastReply(s: State)
    requires Sound(s) && Misled(s)
    ensures var t := Step(s, ReplyEvent(2));
      t.answers != [] && t.answers[|t.answers| - 1].rank == 0 && t.answers[|t.answers| - 1].outcome == Payload(None)
  {
    hide Step, Serve, Sound, Spent, Protocol.Ready;
    ReplySteps(s, 2);
    DoneIsReady(s, 2);
    Replies(s, 2);
  }

  // ---- a ring that has synced for a while ----

  /** One member for each rank of the ring. */
  predicate Everybody(members: seq<Member>, world: nat) {
    && InRing(members, world) && |members| == world
    && forall i | 0 <= i < world :: members[i].rank == i
  }

  ghost predicate ReportedBy(reports: Reports, members: seq<Member>, world: nat)
    requires Everybody(members, world)
  {
    && reports.Keys == UpTo(world)
    && forall i | 0 <= i < world :: reports[i] == Report(members[i].step, members[i].sync, members[i].samples)
  }

  lemma ObserveNext(ring: Ring, members: seq<Member>, n: nat)
    requires Below(ring) && ring.dropped == {} && 0 < n <= ring.world && Everybody(members, ring.world)
    ensures var m := members[n - 1];
      ObserveAll(ring, members[..n]).reports
      == ObserveAll(ring, members[..n - 1]).reports[n - 1 := Report(m.step, m.sync, m.samples)]
  {
    assert members[..n][..n - 1] == members[..n - 1] && members[..n][n - 1] == members[n - 1];
    assert ObserveAll(ring, members[..n]) == Observe(ObserveAll(ring, members[..n - 1]), members[n - 1]);
    hide ObserveAll, Below;
  }

  lemma {:induction false} ObservedAre(ring: Ring, members: seq<Member>, n: nat)
    requires Below(ring) && ring.dropped == {} && n <= ring.world && Everybody(members, ring.world)
    ensures var r := ObserveAll(ring, members[..n]).reports;
      && (forall k :: k in r <==> k in ring.reports || 0 <= k < n)
      && forall i | 0 <= i < n :: r[i] == Report(members[i].step, members[i].sync, members[i].samples)
  {
    if n == 0 {
      assert ObserveAll(ring, members[..0]) == ring;
    } else {
      hide ObserveAll, Below;
      ObserveNext(ring, members, n);
      ObservedAre(ring, members, n - 1);
    }
  }

  /** n syncs by everybody at once. */
  ghost function Warm(n: nat, world: nat, members: seq<Member>, sharded: bool): seq<Event>
    requires members != []
  {
    if n == 0 then [] else Warm(n - 1, world, members, sharded) + [PostEvent(Plain(n, world, members, sharded), NOTHING)]
  }

  function QuietRun(n: nat, world: nat, reports: Reports, sharded: bool): Run {
    Run(Ring(world, {}, [], reports), News(None, 0, {}, [], {}), Joins(None, None, [], []),
        Mode(sharded, false, false, false, false, 0), map[], n, n, None)
  }

  /** Everybody has taken part in n syncs, all of them decided, and nothing has been decided about the ring. */
  ghost predicate Synced(s: State, n: nat, world: nat, members: seq<Member>, sharded: bool)
    requires Everybody(members, world)
  {
    && Sound(s) && (forall k | k in s.open :: k.seqNo <= n && Decided(s.rounds[s.open[k]]))
    && (if n == 0 then s.run == NewRun()
        else ReportedBy(s.run.ring.reports, members, world) && s.run == QuietRun(n, world, s.run.ring.reports, sharded))
  }

  lemma SyncedRun(run: Run, n: nat, world: nat, members: seq<Member>, sharded: bool)
    requires SoundRun(run) && Everybody(members, world) && n <= 18
    requires if n == 0 then run == NewRun()
      else ReportedBy(run.ring.reports, members, world) && run == QuietRun(n, world, run.ring.reports, sharded)
    ensures var req := Plain(n + 1, world, members, sharded);
      && ValidRequest(req) && ChoiceFits(run, req, NOTHING)
      && var run' := Heard(run, req, NOTHING);
        ReportedBy(run'.ring.reports, members, world) && run' == QuietRun(n + 1, world, run'.ring.reports, sharded)
  {
    var req := Plain(n + 1, world, members, sharded);
    PlainIsValid(n + 1, world, members, sharded);
    SyncedFields(run, n, world, members, sharded);
    QuietHeard(run, req, NOTHING);
    hide ObserveAll, ReportedBy, LeadFields, ChoiceFits, Heard, Below, Fitting, OnCadence;
    assert Advances(run, req);
    EverybodyReports(LeadFields(run, req).ring, members, world);
  }

  lemma SyncedFields(run: Run, n: nat, world: nat, members: seq<Member>, sharded: bool)
    requires SoundRun(run) && Everybody(members, world) && n <= 18
    requires if n == 0 then run == NewRun()
      else ReportedBy(run.ring.reports, members, world) && run == QuietRun(n, world, run.ring.reports, sharded)
    ensures var req := Plain(n + 1, world, members, sharded);
      && ValidRequest(req) && Quiet(run, req)
      && var run1 := LeadFields(run, req);
        run1 == QuietRun(n + 1, world, run1.ring.reports, sharded).(round := n) && run1.ring.reports.Keys <= UpTo(world)
  {
    PlainIsValid(n + 1, world, members, sharded);
    hide Fitting;
  }

  lemma EverybodyReports(ring: Ring, members: seq<Member>, world: nat)
    requires Below(ring) && ring.dropped == {} && ring.world == world && Everybody(members, world) && ring.reports.Keys <= UpTo(world)
    ensures ReportedBy(ObserveAll(ring, members).reports, members, world)
  {
    assert members[..world] == members;
    ObservedAre(ring, members, world);
    hide ObserveAll, Below, UpTo;
  }

  /** A round everybody is in is decided at once. */
  lemma EverybodyCloses(r: Round, seqNo: int, world: nat, members: seq<Member>, sharded: bool)
    requires Everybody(members, world)
    requires var req := Plain(seqNo, world, members, sharded); ValidRequest(req) && Opened(r, req, {}, {})
    ensures Decided(r)
  {
    PlainIsValid(seqNo, world, members, sharded);
    NoneBelow(world);
    EverybodysRanks(members, world);
    hide Everybody, InRing, RanksOf, DropsBelow, UpTo, Contributors, ValidRequest;
    assert UpTo(world) - {} == UpTo(world);
  }

  lemma EverybodysRanks(members: seq<Member>, world: nat)
    requires Everybody(members, world)
    ensures RanksOf(members) == UpTo(world)
  {
    forall k: nat
      ensures k in RanksOf(members) <==> k in UpTo(world)
    {
      assert k < world ==> members[k].rank == k;
    }
  }

  lemma SyncedStep(s: State, n: nat, world: nat, members: seq<Member>, sharded: bool)
    requires Everybody(members, world) && n <= 18 && Synced(s, n, world, members, sharded)
    ensures Synced(Step(s, PostEvent(Plain(n + 1, world, members, sharded), NOTHING)), n + 1, world, members, sharded)
  {
    hide *;
    EverybodyIsIn(members, world);
    var req := Plain(n + 1, world, members, sharded);
    PlainIsValid(n + 1, world, members, sharded);
    SyncedHas(s, n, world, members, sharded);
    SyncedRun(s.run, n, world, members, sharded);
    var t := Post(s, req, NOTHING);
    var run := Heard(s.run, req, NOTHING);
    PostSteps(s, req);
    FreshPost(s, NOTHING, n + 1, world, members, sharded);
    SyncedAgain(s, t, n, world, members, sharded, run);
  }

  lemma SyncedHas(s: State, n: nat, world: nat, members: seq<Member>, sharded: bool)
    requires Everybody(members, world) && Synced(s, n, world, members, sharded)
    ensures Sound(s) && SoundRun(s.run) && s.run.aborted.None? && s.run.ring.dropped == {} && Key(n + 1, 0) !in s.open
    ensures forall k | k in s.open :: k.seqNo <= n && Decided(s.rounds[s.open[k]])
    ensures if n == 0 then s.run == NewRun()
      else ReportedBy(s.run.ring.reports, members, world) && s.run == QuietRun(n, world, s.run.ring.reports, sharded)
  {
    hide SoundRound, ReportedBy, Decided;
  }

  lemma SyncedAgain(s: State, t: State, n: nat, world: nat, members: seq<Member>, sharded: bool, run: Run)
    requires Everybody(members, world) && Synced(s, n, world, members, sharded) && Sound(t)
    requires var req := Plain(n + 1, world, members, sharded); ValidRequest(req) && Opens(s, t, req, run)
    requires ReportedBy(run.ring.reports, members, world) && run == QuietRun(n + 1, world, run.ring.reports, sharded)
    ensures Synced(t, n + 1, world, members, sharded)
  {
    hide *;
    EverybodyIsIn(members, world);
    PlainIsValid(n + 1, world, members, sharded);
    SyncedHas(s, n, world, members, sharded);
    OpensHas(s, t, Plain(n + 1, world, members, sharded), run);
    assert run.ring.dropped == {} by { QuietDropped(n + 1, world, run.ring.reports, sharded); }
    EverybodyCloses(t.rounds[|s.rounds|], n + 1, world, members, sharded);
    AllDecided(s, t, n);
    SyncedIs(t, n + 1, world, members, sharded);
  }

  lemma QuietDropped(n: nat, world: nat, reports: Reports, sharded: bool)
    ensures QuietRun(n, world, reports, sharded).ring.dropped == {}
  {
  }

  lemma OpensHas(s: State, t: State, req: Request, run: Run)
    requires ValidRequest(req) && Opens(s, t, req, run)
    ensures t.run == run && |t.rounds| == |s.rounds| + 1 && t.rounds[..|s.rounds|] == s.rounds
    ensures Opened(t.rounds[|s.rounds|], req, s.run.ring.dropped, run.ring.dropped) && t.open == s.open[KeyOf(req) := |s.rounds|]
  {
    hide Opened, ValidRequest;
  }

  lemma SyncedIs(s: State, n: nat, world: nat, members: seq<Member>, sharded: bool)
    requires Everybody(members, world) && Sound(s) && n > 0
    requires forall k | k in s.open :: k.seqNo <= n && Decided(s.rounds[s.open[k]])
    requires ReportedBy(s.run.ring.reports, members, world) && s.run == QuietRun(n, world, s.run.ring.reports, sharded)
    ensures Synced(s, n, world, members, sharded)
  {
    hide ReportedBy, QuietRun, Everybody, SoundRun, SoundRound, Decided;
  }

  lemma EverybodyIsIn(members: seq<Member>, world: nat)
    requires Everybody(members, world)
    ensures InRing(members, world) && members != []
  {
  }

  lemma AllDecided(s: State, t: State, n: nat)
    requires Sound(s) && Sound(t) && forall k | k in s.open :: k.seqNo <= n && Decided(s.rounds[s.open[k]])
    requires |t.rounds| == |s.rounds| + 1 && t.rounds[..|s.rounds|] == s.rounds && t.open == s.open[Key(n + 1, 0) := |s.rounds|]
    requires Decided(t.rounds[|s.rounds|])
    ensures forall k | k in t.open :: k.seqNo <= n + 1 && Decided(t.rounds[t.open[k]])
  {
    hide Decided, SoundRun, SoundRound;
    forall k | k in t.open
      ensures k.seqNo <= n + 1 && Decided(t.rounds[t.open[k]])
    {
      if k != Key(n + 1, 0) {
        assert t.rounds[s.open[k]] == t.rounds[..|s.rounds|][s.open[k]];
      }
    }
  }

  lemma WarmNext(n: nat, world: nat, members: seq<Member>, sharded: bool)
    requires members != []
    ensures n == 0 ==> Exec(Start(), Warm(n, world, members, sharded)) == Start()
    ensures n > 0 ==>
      Warm(n, world, members, sharded)
      == Warm(n - 1, world, members, sharded) + [PostEvent(Plain(n, world, members, sharded), NOTHING)]
  {
    hide Step, Start;
  }

  lemma SyncedStart(world: nat, members: seq<Member>, sharded: bool)
    requires Everybody(members, world)
    ensures Synced(Start(), 0, world, members, sharded)
  {
    StartFacts();
    hide Start, Everybody;
  }

  lemma {:induction false} WarmIsSynced(n: nat, world: nat, members: seq<Member>, sharded: bool)
    requires Everybody(members, world) && n <= 19
    ensures members != [] && Synced(Exec(Start(), Warm(n, world, members, sharded)), n, world, members, sharded)
  {
    assert members != [];
    hide *;
    WarmNext(n, world, members, sharded);
    if n == 0 {
      SyncedStart(world, members, sharded);
    } else {
      var front := Warm(n - 1, world, members, sharded);
      WarmIsSynced(n - 1, world, members, sharded);
      OneEventMore(front, PostEvent(Plain(n, world, members, sharded), NOTHING));
      SyncedStep(Exec(Start(), front), n - 1, world, members, sharded);
    }
  }

  // ---- a post that grows the ring ----

  /** It happens: after a sync in a ring of two, a post of the next sync that names three ranks makes it a ring of three. */
  lemma PostGrowsTheRing() returns (events: seq<Event>, e: Event)
    ensures e.PostEvent? && Exec(Start(), events).run.ring.world == 2 && Exec(Start(), events + [e]).run.ring.world == 3
  {
    events, e := Warm(1, 2, Both(), false), PostEvent(Plain(2, 3, Only(0), false), NOTHING);
    assert Everybody(Both(), 2);
    hide *;
    WarmIsSynced(1, 2, Both(), false);
    OneEventMore(events, e);
    GrowsOnce(Exec(Start(), events));
  }

  lemma GrowsOnce(s: State)
    requires Everybody(Both(), 2) && Synced(s, 1, 2, Both(), false)
    ensures s.run.ring.world == 2 && Step(s, PostEvent(Plain(2, 3, Only(0), false), NOTHING)).run.ring.world == 3
  {
    var req := Plain(2, 3, Only(0), false);
    PlainIsValid(2, 3, Only(0), false);
    assert InRing(Only(0), 3) && s.run.aborted.None? && Key(2, 0) !in s.open && Quiet(s.run, req);
    assert req.shard == 0 && req.world == 3 && s.run.ring.world == 2;
    hide *;
    QuietHeard(s.run, req, NOTHING);
    FreshPost(s, NOTHING, 2, 3, Only(0), false);
    PostGrowsIff(s, req, NOTHING);
    PostSteps(s, req);
  }

  /** A post is a step. */
  lemma PostSteps(s: State, req: Request)
    requires Sound(s)
    ensures Step(s, PostEvent(req, NOTHING)) == Post(s, req, NOTHING)
  {
  }

  // ---- three ranks' measurements ----

  lemma SumOfThree(v: Vec)
    requires |v| == 3
    ensures Sum(v) == v[0] + v[1] + v[2]
  {
    var two, one := v[..2], v[..1];
    assert two[..1] == one && one[..0] == [];
    assert Sum(one) == Sum([]) + one[0] && Sum(two) == Sum(one) + two[1] && Sum(v) == Sum(two) + v[2];
  }

  lemma SumAtNext(f: nat -> real, keys: set<nat>, n: nat)
    requires n in keys
    ensures SumAt(f, keys, n + 1) == SumAt(f, keys, n) + f(n)
  {
  }

  lemma ThreeRates(reports: Reports, members: seq<Member>)
    requires Everybody(members, 3) && ReportedBy(reports, members, 3) && forall i | 0 <= i < 3 :: Rate(reports[i]) > 0.0
    ensures Measured(reports, 3) && Rates(reports, 3) == [Rate(reports[0]), Rate(reports[1]), Rate(reports[2])]
    ensures Sum(Rates(reports, 3)) == Rate(reports[0]) + Rate(reports[1]) + Rate(reports[2])
    ensures forall f: nat -> real :: SumAt(f, reports.Keys, 3) == f(0) + f(1) + f(2)
  {
    hide Rate;
    assert |reports| == |reports.Keys| == 3;
    var rates := Rates(reports, 3);
    assert rates == [Rate(reports[0]), Rate(reports[1]), Rate(reports[2])];
    SumOfThree(rates);
    forall f: nat -> real
      ensures SumAt(f, reports.Keys, 3) == f(0) + f(1) + f(2)
    {
      assert SumAt(f, reports.Keys, 0) == 0.0;
      hide SumAt;
      SumAtNext(f, reports.Keys, 0);
      SumAtNext(f, reports.Keys, 1);
      SumAtNext(f, reports.Keys, 2);
    }
  }

  // ---- a freeloader nobody waits for any more ----

  /** Two ranks do most of the work, and the third spends its time syncing. */
  function Trio(): seq<Member> {
    [Member(0, 1.0, 0.0, 10), Member(1, 1.0, 1000000.0, 10), Member(2, 1.0, 1000000.0, 1)]
  }

  function Pairing(): seq<Member> {
    [Member(0, 1.0, 0.0, 10), Member(1, 1.0, 1000000.0, 10)]
  }

  lemma TrioRates(reports: Reports)
    requires Everybody(Trio(), 3) && ReportedBy(reports, Trio(), 3)
    ensures Measured(reports, 3) && Rates(reports, 3) == [10000.0, 10000.0, 1000.0] && Sum(Rates(reports, 3)) == 21000.0
    ensures SumAt(SyncedOf(reports), reports.Keys, 3) == 2.0 && SumAt(SyncOf(reports), reports.Keys, 3) == 2000000.0
    ensures SumAt(SamplesOf(reports), reports.Keys, 3) == 21.0
    ensures !SoloMeasured(reports, 3)
  {
    assert reports[0] == Report(1.0, 0.0, 10) && reports[1] == Report(1.0, 1000000.0, 10)
      && reports[2] == Report(1.0, 1000000.0, 1) && 0 in reports && 1 in reports && 2 in reports;
    assert Rate(reports[0]) == 10000.0 && Rate(reports[1]) == 10000.0 && Rate(reports[2]) == 1000.0;
    hide Rate, SumAt;
    ThreeRates(reports, Trio());
  }

  /** The refit drops the third rank. */
  lemma TrioDrops(reports: Reports)
    requires Everybody(Trio(), 3) && ReportedBy(reports, Trio(), 3)
    ensures PlanRebalance(reports, [], 3) == Drop(2)
  {
    TrioRates(reports);
    TrioSync(reports);
    var rates := Rates(reports, 3);
    hide SumAt, SyncedOf, SyncOf, SamplesOf, Sum, Rates, Measured, ReportedBy, MeanSync;
    SlowestIsLast(rates);
    assert AddedCompute(21.0, 21000.0, 1000.0) < SavedSync(1000.0, 3);
    assert WorstFreeloader(rates, 21000.0, 21.0, 1000.0) == 2;
  }

  lemma TrioSync(reports: Reports)
    requires SumAt(SyncedOf(reports), reports.Keys, 3) == 2.0 && SumAt(SyncOf(reports), reports.Keys, 3) == 2000000.0
    ensures MeanSync(reports, 3) == 1000.0
  {
    hide SumAt, SyncedOf, SyncOf;
  }

  lemma SlowestIsLast(rates: Vec)
    requires rates == [10000.0, 10000.0, 1000.0]
    ensures Slowest(rates) == 2
  {
  }

  /** The run as the refit at the twentieth sync sees it. */
  function Due20(world: nat, reports: Reports, sharded: bool): Run {
    QuietRun(20, world, reports, sharded).(round := 19)
  }

  lemma TrioChoice(run: Run)
    requires SoundRun(run) && Everybody(Trio(), 3) && ReportedBy(run.ring.reports, Trio(), 3)
    requires run == Due20(3, run.ring.reports, false)
    ensures IsChoice(run, NOTHING) && Offered(run, NOTHING) && FreeloaderOf(run, NOTHING) == Some(2)
  {
    NoneBelow(3);
    assert LiveCount(run) == 3 && OnCadence(run) && !run.mode.autoSync && !run.mode.fixed && run.ring.weights == [];
    assert !SoloPays(NOTHING.solo);
    assert SoloFor(run.(round := 20), NOTHING) == (run.(round := 20), None);
    TrioRates(run.ring.reports);
    TrioDrops(run.ring.reports);
    hide PlanRebalance, SoloMeasured, Measured, Rates, Sum, SumAt, ReportedBy, SoundRun, SoloFor, OnCadence, LiveCount, Everybody;
  }

  lemma TrioFields(run: Run)
    requires SoundRun(run) && run == QuietRun(19, 3, run.ring.reports, false)
    ensures var req := Plain(20, 3, Pairing(), false);
      && ValidRequest(req) && req.shard == 0 && Advances(run, req)
      && LeadFields(run, req) == Due20(3, run.ring.reports, false)
  {
    PlainIsValid(20, 3, Pairing(), false);
    hide Fitting, Below;
  }

  lemma TrioFreeloads(run: Run)
    requires SoundRun(run) && Everybody(Trio(), 3) && ReportedBy(run.ring.reports, Trio(), 3)
    requires run == QuietRun(19, 3, run.ring.reports, false)
    ensures var req := Plain(20, 3, Pairing(), false);
      && ValidRequest(req) && ChoiceFits(run, req, NOTHING) && PostDrops(run, req, NOTHING) == Some(2)
  {
    TrioFields(run);
    var run0 := LeadFields(run, Plain(20, 3, Pairing(), false));
    assert run0.ring.reports == run.ring.reports;
    hide IsChoice, Offered, FreeloaderOf, LeadFields, SoundRun, Everybody, ReportedBy, OnCadence, Deciding, Plain, ValidRequest;
    TrioChoice(run0);
  }

  /** What the twentieth post leaves behind: the third rank gone, and the round of the other two waiting for it. */
  ghost predicate Deserted(s: State) {
    && Sound(s) && s.run.ring.dropped == {2} && Key(20, 0) in s.open
    && var r := s.rounds[s.open[Key(20, 0)]];
      !Decided(r) && r.seen == {0, 1} && r.world == 3
  }

  lemma PairingIn()
    ensures Pairing() != [] && InRing(Pairing(), 3) && RanksOf(Pairing()) == {0, 1} && Everybody(Trio(), 3)
    ensures LiveIn({0, 1}, {2}) == 2 && Awaited({}, 3) == 3
  {
    assert RanksOf(Pairing()) == {Pairing()[0].rank, Pairing()[1].rank};
    var a, b: set<nat> := {0}, {1};
    assert {0, 1} - {2} == a + b;
    NoneBelow(3);
  }

  lemma OpenedPairing(r: Round)
    requires var req := Plain(20, 3, Pairing(), false); ValidRequest(req) && Opened(r, req, {}, {2})
    ensures !Decided(r) && r.seen == {0, 1} && r.world == 3
  {
    PairingIn();
    PlainIsValid(20, 3, Pairing(), false);
  }

  lemma Deserts(s: State)
    requires Everybody(Trio(), 3) && Synced(s, 19, 3, Trio(), false) && Safe(s) && NoneStuck(s)
    ensures Deserted(Step(s, PostEvent(Plain(20, 3, Pairing(), false), NOTHING)))
    ensures Sticks(s, PostEvent(Plain(20, 3, Pairing(), false), NOTHING))
  {
    hide *;
    PairingIn();
    var req := Plain(20, 3, Pairing(), false);
    PlainIsValid(20, 3, Pairing(), false);
    SyncedHas(s, 19, 3, Trio(), false);
    TrioFreeloads(s.run);
    HeardDrops(s.run, req, NOTHING);
    assert {} + {2} == {2};
    FreshPost(s, NOTHING, 20, 3, Pairing(), false);
    PostSteps(s, req);
    OpensPairing(s, Post(s, req, NOTHING), req, Heard(s.run, req, NOTHING));
    DesertedSticks(s, req);
  }

  lemma OpensPairing(s: State, t: State, req: Request, run: Run)
    requires req == Plain(20, 3, Pairing(), false) && ValidRequest(req) && Opens(s, t, req, run) && Sound(t)
    requires s.run.ring.dropped == {} && run.ring.dropped == {2} && KeyOf(req) == Key(20, 0)
    ensures Deserted(t)
  {
    hide Opened, ValidRequest, Plain, Decided, SoundRun, SoundRound;
    OpenedPairing(t.rounds[|s.rounds|]);
  }

  lemma DesertedSticks(s: State, req: Request)
    requires Sound(s) && Safe(s) && NoneStuck(s) && s.run.ring.dropped == {} && Deserted(Post(s, req, NOTHING))
    ensures Sticks(s, PostEvent(req, NOTHING))
  {
    hide *;
    PostKeeps(s, req, NOTHING);
    DesertedLacks(Post(s, req, NOTHING));
    AllSticksIff({}, 2, Post(s, req, NOTHING));
    PostSticksIff(s, req, NOTHING);
    assert PostSticks(s, req, NOTHING) ==> Sticks(s, PostEvent(req, NOTHING)) by { SticksIs(s, req); }
  }

  lemma SticksIs(s: State, req: Request)
    requires Sound(s)
    ensures Sticks(s, PostEvent(req, NOTHING)) <==> PostSticks(s, req, NOTHING)
  {
    hide PostSticks;
  }

  lemma DesertedLacks(s: State)
    requires Deserted(s)
    ensures Sound(s) && s.run.ring.dropped == {} + {2} && SomeLacksOnly({}, 2, s)
  {
    hide SoundRun, SoundRound, Decided;
    var r := s.rounds[s.open[Key(20, 0)]];
    assert 0 in r.seen;
    assert LacksOnly({}, 2, r);
  }

  /** It happens: after nineteen syncs of a ring of three, every round of them decided, two ranks' machine posts the twentieth. The
      refit at that post drops the third as a freeloader; the machine's own round still waits for three, although everyone the ring
      has left is in. */
  lemma FreeloaderDropSticks() returns (events: seq<Event>, e: Event)
    ensures NoneStuck(Exec(Start(), events)) && Sticks(Exec(Start(), events), e) && !NoneStuck(Exec(Start(), events + [e]))
    ensures Exec(Start(), events + [e]).run.ring.dropped == {2}
  {
    hide *;
    PairingIn();
    EverybodyIsIn(Trio(), 3);
    events, e := Warm(19, 3, Trio(), false), PostEvent(Plain(20, 3, Pairing(), false), NOTHING);
    WarmIsSynced(19, 3, Trio(), false);
    var s := Exec(Start(), events);
    SyncedIsFree(s, 19, 3, Trio(), false);
    NobodyWaitsForNobody(events);
    Deserts(s);
    StepSticksIff(s, e);
    OneEventMore(events, e);
    DesertedDrops(Step(s, e));
  }

  lemma DesertedDrops(s: State)
    requires Deserted(s)
    ensures s.run.ring.dropped == {2}
  {
  }

  lemma SyncedIsFree(s: State, n: nat, world: nat, members: seq<Member>, sharded: bool)
    requires Everybody(members, world) && Synced(s, n, world, members, sharded)
    ensures Sound(s) && NoneStuck(s)
  {
  }

  // ---- shares moved while a rank is joining ----

  function Newcomer(): seq<Member> {
    [Member(2, 1.0, 0.0, 8)]
  }

  lemma BothEvery()
    ensures Everybody(Both(), 2) && Both() != [] && Newcomer() != [] && InRing(Newcomer(), 3) && Only(0) != [] && InRing(Only(0), 3)
  {
  }

  /** A rank has been admitted to a ring of two, and is still joining; nothing is known of it yet. */
  ghost predicate Joined(s: State) {
    && Sound(s) && s.run.joins.join.Some? && s.run.joins.loading.None? && s.run.ring.world == 3 && s.run.ring.dropped == {}
    && s.run.aborted.None? && s.run.round == 18 && s.run.lastSeq == 18 && !s.run.mode.released
    && |s.run.ring.weights| == 3 && (s.run.ring.weights[2] == 1.0 || s.run.ring.weights[2] <= 0.5)
    && ReportedBy(s.run.ring.reports, Both(), 2) && (forall k | k in s.open :: k.seqNo <= 18)
  }

  lemma ReachJoined(s: State)
    requires Everybody(Both(), 2) && Synced(s, 18, 2, Both(), true)
    ensures Joined(Step(s, JoinEvent(2, false)))
  {
    SyncedHas(s, 18, 2, Both(), true);
    assert LowestLive({}, 2) == 0 by { assert LowestLive({}, 1) == 0; }
    assert Admissible(s.run, 2);
    assert Step(s, JoinEvent(2, false)) == s.(run := Admit(s.run, 2));
    hide Step, SharesWith, ReportedBy, SoundRound, LowestLive, Everybody, Decided;
    assert Skipped(2, 2) == {};
    assert s.run.ring.dropped + Skipped(2, 2) == {};
    NewcomerShares(s.run.ring.weights);
  }

  lemma NewcomerShares(weights: Vec)
    ensures var v := SharesWith(weights, 2, {}, 3); |v| == 3 && (v[2] == 1.0 || v[2] <= 0.5)
  {
    var base := SharesWithout(if |weights| == 2 then weights else Ones(2), {});
    NewcomerTakesAverage(weights, 2, {}, 3);
    var v, n := SharesWith(weights, 2, {}, 3), Live(base, {});
    hide SharesWith, SharesWithout, Live;
    OneOver(v[2], n);
  }

  lemma OneOver(x: real, n: nat)
    requires x * (n + 1) as real == 1.0
    ensures x == 1.0 || x <= 0.5
  {
    var d := (n + 1) as real;
    assert x == 1.0 / d;
    if n > 0 {
      InverseOrder(1.0, 2.0, d);
    }
  }

  /** The joiner has posted the nineteenth sync, its snapshot sent and its join still open. */
  ghost predicate Measuring(s: State) {
    && Sound(s) && s.run.joins.join.Some? && s.run.ring.world == 3 && s.run.ring.dropped == {}
    && s.run.aborted.None? && s.run.round == 19 && s.run.lastSeq == 19 && !s.run.mode.released
    && |s.run.ring.weights| == 3 && (s.run.ring.weights[2] == 1.0 || s.run.ring.weights[2] <= 0.5)
    && s.run.ring.reports.Keys == {0, 1, 2} && s.run.ring.reports[0] == Report(1.0, 0.0, 1)
    && s.run.ring.reports[1] == Report(1.0, 0.0, 1) && s.run.ring.reports[2] == Report(1.0, 0.0, 8)
    && Key(20, 0) !in s.open
  }

  lemma NewcomerHeard(run: Run)
    requires SoundRun(run) && run.ring.world == 3 && run.ring.dropped == {} && run.round == 18 && run.lastSeq == 18
    requires run.joins.loading.None?
    ensures var req := Plain(19, 3, Newcomer(), true);
      && ValidRequest(req) && Quiet(run, req)
      && var run' := After(run, req);
        && run'.ring == run.ring.(reports := run.ring.reports[2 := Report(1.0, 0.0, 8)]) && run'.joins == run.joins
        && run'.aborted == run.aborted && run'.round == 19 && run'.lastSeq == 19 && run'.mode.released == run.mode.released
  {
    var req := Plain(19, 3, Newcomer(), true);
    PlainIsValid(19, 3, Newcomer(), true);
    var ring := LeadFields(run, req).ring;
    assert Newcomer()[..0] == [] && ObserveAll(ring, []) == ring;
    assert ObserveAll(ring, Newcomer()) == Observe(ring, Newcomer()[0]);
    hide Fitting, Below;
  }

  lemma BothReports(reports: Reports)
    requires Everybody(Both(), 2) && ReportedBy(reports, Both(), 2)
    ensures reports.Keys == {0, 1} && reports[0] == Report(1.0, 0.0, 1) && reports[1] == Report(1.0, 0.0, 1)
  {
    assert UpTo(1) == {0} && UpTo(2) == {0, 1};
  }

  lemma ReachMeasuring(s: State)
    requires Everybody(Both(), 2) && Joined(s)
    ensures Newcomer() != [] && Measuring(Step(s, PostEvent(Plain(19, 3, Newcomer(), true), NOTHING)))
  {
    BothEvery();
    var req := Plain(19, 3, Newcomer(), true);
    assert Sound(s) && Key(19, 0) !in s.open && s.run.aborted.None? && s.run.ring.world == 3 && s.run.ring.dropped == {}
      && s.run.round == 18 && s.run.lastSeq == 18 && s.run.joins.loading.None? && SoundRun(s.run)
      && ReportedBy(s.run.ring.reports, Both(), 2);
    hide *;
    BothReports(s.run.ring.reports);
    NewcomerHeard(s.run);
    NewcomerLeads();
    QuietHeard(s.run, req, NOTHING);
    PlainIsValid(19, 3, Newcomer(), true);
    FreshPost(s, NOTHING, 19, 3, Newcomer(), true);
    PostSteps(s, req);
    Measured20(s, Post(s, req, NOTHING), req);
  }

  lemma NewcomerLeads()
    ensures Newcomer() != [] && Plain(19, 3, Newcomer(), true).shard == 0
  {
  }

  lemma Measured20(s: State, t: State, req: Request)
    requires Joined(s) && Sound(t) && ValidRequest(req) && req.shard == 0 && KeyOf(req) == Key(19, 0)
    requires Opens(s, t, req, After(s.run, req))
    requires s.run.ring.reports.Keys == {0, 1}
      && s.run.ring.reports[0] == Report(1.0, 0.0, 1) && s.run.ring.reports[1] == Report(1.0, 0.0, 1)
    requires var run' := After(s.run, req);
      && run'.ring == s.run.ring.(reports := s.run.ring.reports[2 := Report(1.0, 0.0, 8)]) && run'.joins == s.run.joins
      && run'.aborted == s.run.aborted && run'.round == 19 && run'.lastSeq == 19 && run'.mode.released == s.run.mode.released
    ensures Measuring(t)
  {
    hide After, ReportedBy, SoundRound, SoundRun, Opened, ValidRequest;
  }

  /** The refit moves most of the data to the joiner. */
  lemma NewcomerMoves(run: Run)
    requires |run.ring.weights| == 3 && (run.ring.weights[2] == 1.0 || run.ring.weights[2] <= 0.5) && run.ring.world == 3
    requires var r := run.ring.reports;
      r.Keys == {0, 1, 2} && r[0] == Report(1.0, 0.0, 1) && r[1] == Report(1.0, 0.0, 1) && r[2] == Report(1.0, 0.0, 8)
    ensures Measured(run.ring.reports, 3) && PlanMoves(run) && PlanRebalance(run.ring.reports, run.ring.weights, 3).Refit?
  {
    var r := run.ring.reports;
    NewcomerRates(r);
    var rates := Rates(r, 3);
    var want := Proportional(rates);
    assert want[2] == 0.8 by {
      hide Sum, Rates, SumAt, Measured;
      assert want[2] == Fraction(8000.0, 10000.0);
    }
    assert Abs(want[2] - run.ring.weights[2]) >= MIN_SHIFT;
    hide SumAt, SyncedOf, Measured, Rates, Sum, Proportional;
    assert PlanRebalance(r, run.ring.weights, 3) == Refit(want);
  }

  lemma OneAndEight()
    ensures Rate(Report(1.0, 0.0, 1)) == 1000.0 && Rate(Report(1.0, 0.0, 8)) == 8000.0
  {
  }

  lemma NewcomerRates(r: Reports)
    requires r.Keys == {0, 1, 2} && r[0] == Report(1.0, 0.0, 1) && r[1] == Report(1.0, 0.0, 1) && r[2] == Report(1.0, 0.0, 8)
    ensures Measured(r, 3) && Rates(r, 3) == [1000.0, 1000.0, 8000.0] && Sum(Rates(r, 3)) == 10000.0
    ensures SumAt(SyncedOf(r), r.Keys, 3) == 0.0
  {
    var members := [Member(0, 1.0, 0.0, 1), Member(1, 1.0, 0.0, 1), Member(2, 1.0, 0.0, 8)];
    OneAndEight();
    UpToThree();
    hide Rate, SumAt, UpTo, Rates, Sum, Measured;
    assert Everybody(members, 3) && ReportedBy(r, members, 3);
    hide Everybody, ReportedBy;
    ThreeRates(r, members);
  }

  lemma UpToThree()
    ensures UpTo(3) == {0, 1, 2}
  {
    assert UpTo(1) == {0} && UpTo(2) == {0, 1};
  }

  lemma TwentiethMoves(run: Run)
    requires SoundRun(run) && run.joins.join.Some? && run.ring.world == 3 && run.round == 19 && run.lastSeq == 19
    requires |run.ring.weights| == 3 && (run.ring.weights[2] == 1.0 || run.ring.weights[2] <= 0.5) && !run.mode.released
    requires var r := run.ring.reports;
      r.Keys == {0, 1, 2} && r[0] == Report(1.0, 0.0, 1) && r[1] == Report(1.0, 0.0, 1) && r[2] == Report(1.0, 0.0, 8)
    ensures var req := Plain(20, 3, Only(0), true);
      ValidRequest(req) && ChoiceFits(run, req, NOTHING) && MovesUntold(run, req) && PostDrops(run, req, NOTHING).None?
  {
    var req := Plain(20, 3, Only(0), true);
    PlainIsValid(20, 3, Only(0), true);
    var run0 := LeadFields(run, req);
    assert run0.ring == run.ring && run0.joins.join.Some? && OnCadence(run0) && Advances(run, req) && !Deciding(run0);
    hide PlanRebalance, Measured, Fitting, IsChoice;
    NewcomerMoves(run0);
  }

  lemma Moves(s: State)
    requires Measuring(s)
    ensures var t := Step(s, PostEvent(Plain(20, 3, Only(0), true), NOTHING));
      && t.run.joins.join.Some? && t.run.news == s.run.news
      && t.run.ring.weights != s.run.ring.weights
  {
    BothEvery();
    var req := Plain(20, 3, Only(0), true);
    TwentiethMoves(s.run);
    hide Heard, ChoiceFits, Post, Step, Plain, SoundRound, InRing, ValidRequest, Opened, SoundRun, MovesUntold, Accepts, Only, PostDrops;
    FreshPost(s, NOTHING, 20, 3, Only(0), true);
    PostSteps(s, req);
    PostMovesDuringJoinIff(s, req, NOTHING);
    PostDropped(s, req, NOTHING);
    PostJoin(s, req, NOTHING);
  }

  /** It happens: after eighteen syncs of a ring of two a third rank is admitted, takes its snapshot and posts the nineteenth sync
      before the lead has closed its join; the refit at the twentieth then moves the ring, and no note is published. */
  lemma SharesMoveUntold() returns (events: seq<Event>, e: Event)
    ensures var s, s' := Exec(Start(), events), Exec(Start(), events + [e]);
      && s.run.joins.join.Some? && s'.run.joins.join.Some? && s'.run.news == s.run.news
      && s'.run.ring.weights != s.run.ring.weights
  {
    hide *;
    BothEvery();
    events := Warm(18, 2, Both(), true);
    WarmIsSynced(18, 2, Both(), true);
    OneEventMore(events, JoinEvent(2, false));
    ReachJoined(Exec(Start(), events));
    events := events + [JoinEvent(2, false)];
    OneEventMore(events, PutEvent(2, []));
    SnapshotIn(Exec(Start(), events));
    events := events + [PutEvent(2, [])];
    OneEventMore(events, PostEvent(Plain(19, 3, Newcomer(), true), NOTHING));
    ReachMeasuring(Exec(Start(), events));
    events := events + [PostEvent(Plain(19, 3, Newcomer(), true), NOTHING)];
    e := PostEvent(Plain(20, 3, Only(0), true), NOTHING);
    OneEventMore(events, e);
    Moves(Exec(Start(), events));
    MeasuringJoins(Exec(Start(), events));
  }

  lemma MeasuringJoins(s: State)
    requires Measuring(s)
    ensures s.run.joins.join.Some?
  {
  }

  lemma SnapshotIn(s: State)
    requires Joined(s)
    ensures Joined(Step(s, PutEvent(2, [])))
  {
    hide ReportedBy, SoundRound, SoundRun;
  }

  // ---- a run ended for a rank that is gone ----

  /** One machine's two ranks. */
  function Latter(): seq<Member> {
    [Member(1, 1.0, 0.0, 1), Member(2, 1.0, 0.0, 1)]
  }

  /** The fifth sync of a ring of three has this machine in it, and its handler waits for rank 0. */
  ghost predicate Halfway(s: State) {
    && Sound(s) && s.run.ring.world == 3 && s.run.ring.dropped == {} && s.run.aborted.None? && s.open == map[FIFTH := 0]
    && |s.rounds| == 1 && s.tickets == [Ticket(0, FIFTH, [1, 2], 1, true, Waiting)]
    && var r := s.rounds[0];
      r.world == 3 && !Decided(r) && r.acc.Some? && r.acc.value.count == 1 && r.seen == {1, 2} && !r.opening && !r.held
  }

  lemma LatterIn()
    ensures Latter() != [] && InRing(Latter(), 3) && Latter()[0].rank == 1 && Who(Latter()) == [1, 2] && RanksOf(Latter()) == {1, 2}
    ensures LiveIn({1, 2}, {}) == 2 && Awaited({}, 3) == 3 && LiveIn({1, 2}, {1}) == 1
  {
    assert Who(Latter())[0] == 1 && Who(Latter())[1] == 2;
    assert RanksOf(Latter()) == {Latter()[0].rank, Latter()[1].rank};
    var a, b: set<nat> := {1}, {2};
    assert {1, 2} - {} == a + b && {1, 2} - {1} == b;
    NoneBelow(3);
  }

  lemma LatterOpens(r: Round)
    requires var req := Plain(5, 3, Latter(), false); ValidRequest(req) && Opened(r, req, {}, {})
    ensures r.world == 3 && !Decided(r) && r.acc.Some? && r.acc.value.count == 1 && r.seen == {1, 2} && !r.opening && !r.held
  {
    LatterIn();
    PlainIsValid(5, 3, Latter(), false);
  }

  lemma LatterHeard(run: Run)
    requires run == NewRun() && SoundRun(run)
    ensures var req := Plain(5, 3, Latter(), false);
      && ValidRequest(req) && ChoiceFits(run, req, NOTHING)
      && var r := Heard(run, req, NOTHING);
        r.ring.world == 3 && r.ring.dropped == {} && r.aborted.None?
  {
    hide *;
    LatterIn();
    PlainIsSimple(5, 3, Latter(), false);
    PlainIsValid(5, 3, Latter(), false);
    var req := Plain(5, 3, Latter(), false);
    FirstFields(run, req);
    QuietHeard(run, req, NOTHING);
  }

  lemma FirstFields(run: Run, req: Request)
    requires run == NewRun() && SoundRun(run) && ValidRequest(req) && req.world == 3 && req.shard == 0
    ensures Quiet(run, req)
    ensures var r := After(run, req); r.ring.world == 3 && r.ring.dropped == {} && r.aborted.None?
  {
    hide ObserveAll, Fitting, Below, ValidRequest;
  }

  lemma ReachHalfway(s: State)
    requires s == Start()
    ensures Latter() != [] && Halfway(Step(s, PostEvent(Plain(5, 3, Latter(), false), NOTHING)))
  {
    hide *;
    LatterIn();
    StartFacts();
    var req := Plain(5, 3, Latter(), false);
    LatterHeard(s.run);
    PlainIsValid(5, 3, Latter(), false);
    NewIsUp();
    FreshPost(s, NOTHING, 5, 3, Latter(), false);
    PostSteps(s, req);
    OpensHalfway(s, Post(s, req, NOTHING), Heard(s.run, req, NOTHING));
  }

  lemma NewIsUp()
    ensures NewRun().aborted.None? && SoundRun(NewRun()) && NewRun().ring.dropped == {}
  {
  }

  lemma OpensHalfway(s: State, t: State, run: Run)
    requires s == Start() && Latter() != [] && ValidRequest(Plain(5, 3, Latter(), false)) && Sound(t)
    requires Opens(s, t, Plain(5, 3, Latter(), false), run)
    requires run.ring.world == 3 && run.ring.dropped == {} && run.aborted.None?
    ensures Halfway(t)
  {
    LatterIn();
    PlainIsValid(5, 3, Latter(), false);
    hide Opened, ValidRequest, SoundRun, SoundRound, Decided, InRing;
    LatterOpens(t.rounds[0]);
    assert t.tickets == [Ticket(0, FIFTH, [1, 2], 1, true, Waiting)];
  }

  /** The asking rank has been reported down: two are waited for, and one rank in the round is one the ring still has. */
  ghost predicate Disowned(s: State) {
    && Sound(s) && s.run.ring.dropped == {1} && s.run.ring.world == 3 && s.run.aborted.None? && s.open == map[FIFTH := 0]
    && |s.rounds| == 1 && s.tickets == [Ticket(0, FIFTH, [1, 2], 1, true, Waiting)]
    && var r := s.rounds[0];
      && r.world == 3 && !Decided(r) && r.acc.Some? && r.acc.value.count == 1 && r.seen == {1, 2} && !r.opening && !r.held
      && r.expected == 2
  }

  lemma OneOfThree()
    ensures Awaited({1}, 3) == 2
  {
    var gone: set<nat> := {1};
    assert (set d | d in gone && d < 3) == {1};
  }

  lemma ReachDisowned(s: State)
    requires Halfway(s)
    ensures Disowned(Step(s, DownEvent(1, 3, [FIFTH])))
  {
    var run := DownRun(s.run, 1);
    var s1 := s.(run := run);
    hide *;
    HalfwayHas(s);
    DownOne(s, 1);
    CloseOne(s1, FIFTH);
    LatterIn();
    OneOfThree();
    StillOpen(s1);
  }

  lemma HalfwayHas(s: State)
    requires Halfway(s)
    ensures Sound(s) && s.open.Keys == {FIFTH} && s.run.ring.world == 3 && s.run.ring.dropped == {} && Halfway(s)
  {
    hide Sound;
  }

  function DownRun(run: Run, rank: nat): (r: Run)
    requires SoundRun(run)
    ensures SoundRun(r)
  {
    var run1 := WithoutRank(run, rank);
    Publish(run1, run1.lastSeq + 1, RingNow(run1, Down(rank)))
  }

  lemma DownOne(s: State, rank: nat)
    requires Sound(s) && s.open.Keys == {FIFTH} && s.run.ring.world == 3 && s.run.ring.dropped == {} && rank < 3
    ensures var s1 := s.(run := DownRun(s.run, rank));
      && Sound(s1) && Step(s, DownEvent(rank, 3, [FIFTH])) == CloseAll(s1, [FIFTH])
      && s1.run.ring.dropped == {rank} && s1.run.ring.world == 3 && s1.run.aborted == s.run.aborted
  {
    hide CloseAll, SharesWithout, JoinWithout, Fitting, SoundRound;
    assert Enumerates([FIFTH], s.open.Keys);
    assert {} + {rank} == {rank};
  }

  lemma StillOpen(s: State)
    requires Sound(s) && s.run.ring.dropped == {1} && s.run.ring.world == 3 && s.run.aborted.None? && s.open == map[FIFTH := 0]
    requires |s.rounds| == 1 && s.tickets == [Ticket(0, FIFTH, [1, 2], 1, true, Waiting)]
    requires var r := s.rounds[0];
      r.world == 3 && !Decided(r) && r.acc.Some? && r.acc.value.count == 1 && r.seen == {1, 2} && !r.opening && !r.held
    requires LiveIn({1, 2}, {1}) == 1 && Awaited({1}, 3) == 2
    ensures Disowned(CloseReady(s, FIFTH))
  {
    hide Awaited, LiveIn, SoundRun, Closable;
    assert CloseReady(s, FIFTH) == s.(rounds := [s.rounds[0].(expected := 2)]);
  }

  lemma CloseOne(s: State, key: Key)
    requires Sound(s)
    ensures CloseAll(s, [key]) == CloseReady(s, key)
  {
    assert [key][..0] == [] && CloseAll(s, []) == s;
    hide CloseReady;
  }

  lemma EndsAnyway(s: State)
    requires Disowned(s) && Safe(s)
    ensures var t := Step(s, TimeOutEvent(0, [[FIFTH], [FIFTH], [FIFTH]])); t.run.aborted.Some? && t.run.ring.dropped == {1}
  {
    var orders := [[FIFTH], [FIFTH], [FIFTH]];
    assert OrdersFit(s, FIFTH, orders) by {
      assert s.open.Keys == {FIFTH};
    }
    var r := s.rounds[0];
    assert OneLeft({1}, r) by {
      assert 2 in r.seen && forall j | j in r.seen && j !in {1} :: j == 2;
    }
    TimeOutEndsRunIff(s, FIFTH, 1, orders);
    assert Step(s, TimeOutEvent(0, orders)) == TimeOut(s, 0, orders);
    ExpireRing(s, FIFTH, 1, orders);
    hide Step, Expire, SoundRun, SoundRound, Safe, OneLeft, Enumerates;
  }

  /** Past the first round a timeout leaves the ring alone. */
  lemma ExpireRing(s: State, key: Key, rank: nat, orders: seq<seq<Key>>)
    requires Sound(s) && OrdersFit(s, key, orders) && key in s.open && !s.rounds[s.open[key]].opening
    ensures Expire(s, key, rank, orders).0.run.ring == s.run.ring
  {
    hide DropMissed, Closable, SoundRun, Enumerates, MeanResidual;
  }

  /** It happens: a machine of ranks 1 and 2 is in the fifth sync of a ring of three, and rank 1 is reported down. The machine's
      handler asks for rank 1, and one rank in the round is left to the ring; so its timeout ends the run, although ranks 0 and 2 are
      there and one of them is in. */
  lemma DownedAskerEndsRun() returns (events: seq<Event>, e: Event)
    ensures e.TimeOutEvent? && Exec(Start(), events).run.aborted.None? && Exec(Start(), events + [e]).run.aborted.Some?
    ensures var s := Exec(Start(), events);
      && s.run.ring.world == 3 && s.run.ring.dropped == {1} && |s.rounds| == 1 && s.rounds[0].seen == {1, 2}
      && e.late < |s.tickets| && s.tickets[e.late].rank == 1
  {
    hide *;
    LatterIn();
    StartFacts();
    ExecNone();
    var post := PostEvent(Plain(5, 3, Latter(), false), NOTHING);
    OneEventMore([], post);
    ReachHalfway(Start());
    events := [] + [post];
    OneEventMore(events, DownEvent(1, 3, [FIFTH]));
    ReachDisowned(Exec(Start(), events));
    events := events + [DownEvent(1, 3, [FIFTH])];
    e := TimeOutEvent(0, [[FIFTH], [FIFTH], [FIFTH]]);
    OneEventMore(events, e);
    RunsFromStart(events);
    EndsAnyway(Exec(Start(), events));
    DisownedHas(Exec(Start(), events));
  }

  lemma ExecNone()
    ensures Exec(Start(), []) == Start()
  {
  }

  lemma DisownedHas(s: State)
    requires Disowned(s)
    ensures s.run.aborted.None? && s.run.ring.world == 3 && s.run.ring.dropped == {1} && |s.rounds| == 1
    ensures s.rounds[0].seen == {1, 2} && |s.tickets| == 1 && s.tickets[0].rank == 1
  {
    hide Sound;
  }

  // ---- a machine counted as one rank ----

  /** Two ranks are live in the round: its timeout closes it short, on the machine's one contribution. */
  lemma ClosesShort(run: Run, r: Round)
    requires SoundRun(run) && SoundRound(r) && !Decided(r) && r.acc.value.count == 1 && LiveIn(r.seen, run.ring.dropped) == 2
    ensures var r' := Shut(run, r, 1).1;
      r'.result.Some? && r'.err == r.err && r'.seen == r.seen && r'.opening == r.opening && Headcounts.Said(r') == 1
  {
    hide LiveIn, Closable, MeanResidual;
  }

  lemma ExpireShuts(s: State, key: Key, rank: nat, orders: seq<seq<Key>>)
    requires Sound(s) && OrdersFit(s, key, orders) && key in s.open
    requires var r := s.rounds[s.open[key]]; !Decided(r) && r.acc.value.count > 0 && !r.opening
    ensures Expire(s, key, rank, orders).0.rounds == s.rounds[s.open[key] := Shut(s.run, s.rounds[s.open[key]], rank).1]
  {
    ShutIs(s.run, s.rounds[s.open[key]], rank);
    hide Shut, DropMissed, SoundRun, SoundRound, Enumerates;
  }

  lemma WaitedLong(s: State, i: nat, orders: seq<seq<Key>>)
    requires Sound(s) && i < |s.tickets| && s.tickets[i].wait.Waiting? && OrdersFit(s, s.tickets[i].key, orders)
    ensures Step(s, TimeOutEvent(i, orders)).rounds == Expire(s, s.tickets[i].key, s.tickets[i].rank, orders).0.rounds
  {
    hide Expire, SoundRun, SoundRound, Enumerates;
  }

  lemma ShortHanded(s: State)
    requires Halfway(s)
    ensures var t := Step(s, TimeOutEvent(0, [[FIFTH], [FIFTH], [FIFTH]]));
      && |t.rounds| == 1 && t.rounds[0].result.Some? && t.rounds[0].seen == {1, 2} && Headcounts.Said(t.rounds[0]) == 1
  {
    var orders := [[FIFTH], [FIFTH], [FIFTH]];
    LatterIn();
    assert s.open.Keys == {FIFTH};
    assert OrdersFit(s, FIFTH, orders);
    ClosesShort(s.run, s.rounds[0]);
    ExpireShuts(s, FIFTH, 1, orders);
    WaitedLong(s, 0, orders);
    hide LiveIn, SoundRun, SoundRound, Enumerates, Shut, Headcounts.Said, Step, Expire;
  }

  /** It happens: a machine of ranks 1 and 2 is in the fifth sync of a ring of three, and its timeout gives up on rank 0. The result
      averages two ranks, and the answer says one. */
  lemma MachineCountsOnce() returns (events: seq<Event>)
    ensures var s := Exec(Start(), events);
      && |s.rounds| == 1 && s.rounds[0].result.Some? && |s.rounds[0].seen| == 2 && Headcounts.Said(s.rounds[0]) == 1
  {
    hide *;
    LatterIn();
    StartFacts();
    ExecNone();
    var post := PostEvent(Plain(5, 3, Latter(), false), NOTHING);
    OneEventMore([], post);
    ReachHalfway(Start());
    events := [] + [post];
    OneEventMore(events, TimeOutEvent(0, [[FIFTH], [FIFTH], [FIFTH]]));
    ShortHanded(Exec(Start(), events));
    events := events + [TimeOutEvent(0, [[FIFTH], [FIFTH], [FIFTH]])];
  }
}
