/** How many ranks an answer says its result averages, and how many it does. */
module Headcounts {
  import opened Wrappers
  import opened Counting
  import opened Vectors
  import opened Reduce
  import opened Messages
  import opened Rebalance
  import opened Protocol
  import opened Rounds
  import opened Verdicts
  import Closing

  /** The number an answer gives for its round: the ring's size unless the round closed short-handed. */
  function Said(r: Round): nat {
    if r.partial > 0 then r.partial else r.world
  }

  /** Until a round has a result it is not short-handed. */
  ghost predicate Fresh(r: Round) {
    r.result.None? ==> r.partial == 0
  }

  ghost predicate AllFresh(s: State) {
    forall i | 0 <= i < |s.rounds| :: Fresh(s.rounds[i])
  }

  /** What a step that closes rounds over a change to the ring leaves of a round: if it gave it a result, the number is right. */
  ghost predicate Recounted(r: Round, r': Round) {
    && (r.result.Some? ==> SameVerdict(r, r'))
    && (r.result.None? && r.partial == 0 ==> if r'.result.None? then r'.partial == 0 else Said(r') == |r'.seen|)
    && r'.world == r.world
  }

  ghost predicate AllRecounted(s: State, s': State) {
    |s.rounds| == |s'.rounds| && forall i | 0 <= i < |s.rounds| :: Recounted(s.rounds[i], s'.rounds[i])
  }

  lemma RecountedTrans(a: State, b: State, c: State)
    requires AllRecounted(a, b) && AllRecounted(b, c)
    ensures AllRecounted(a, c)
  {
    forall i | 0 <= i < |a.rounds|
      ensures Recounted(a.rounds[i], c.rounds[i])
    {
      assert Recounted(a.rounds[i], b.rounds[i]) && Recounted(b.rounds[i], c.rounds[i]);
    }
  }

  /** Somebody is in a round with a contribution, and no more than the ring has. */
  lemma SeenSize(dropped: set<nat>, stopped: bool, r: Round)
    requires Healthy(dropped, stopped, r)
    ensures |r.seen| <= r.world
    ensures !Decided(r) && r.acc.value.count > 0 ==> |r.seen| > 0
    ensures !Decided(r) ==> r.acc.Some? && r.acc.value.count == |r.parts|
  {
    assert r.seen <= UpTo(r.world);
    Subsize(r.seen, UpTo(r.world));
    if !Decided(r) && r.acc.value.count > 0 {
      EveryoneHas(r.parts, 0);
      var k :| k in r.parts[0].who;
      assert k in r.seen;
    }
  }

  lemma SettledSays(run: Run, r: Round)
    requires SoundRun(run) && SoundRound(r) && !Decided(r) && Healthy(run.ring.dropped, run.aborted.Some?, r)
    ensures Recounted(r, Settled(run, r).1)
  {
    SeenSize(run.ring.dropped, run.aborted.Some?, r);
    hide MeanResidual, Healthy, LiveIn, Closable;
  }

  lemma CloseReadySays(s: State, key: Key)
    requires Sound(s) && Safe(s)
    ensures AllRecounted(s, CloseReady(s, key))
  {
    hide Settled, SoundRun, SoundRound, Healthy;
    if key in s.open && !Decided(s.rounds[s.open[key]]) {
      SettledSays(s.run, s.rounds[s.open[key]]);
    }
  }

  lemma {:induction false} CloseAllSays(s: State, order: seq<Key>)
    requires Sound(s) && Safe(s)
    ensures AllRecounted(s, CloseAll(s, order))
  {
    if order == [] {
      assert CloseAll(s, order) == s;
    } else {
      var front, key := order[..|order| - 1], order[|order| - 1];
      assert CloseAll(s, order) == CloseReady(CloseAll(s, front), key);
      hide *;
      CloseAllSays(s, front);
      CloseAllKeeps(s, front);
      CloseReadySays(CloseAll(s, front), key);
      RecountedTrans(s, CloseAll(s, front), CloseAll(s, order));
    }
  }

  lemma SameRounds(s: State, s': State)
    requires s'.rounds == s.rounds
    ensures AllRecounted(s, s')
  {
  }

  lemma MarkDownSays(s: State, rank: nat, world: nat, order: seq<Key>)
    requires Sound(s) && Safe(s)
    ensures AllRecounted(s, MarkDown(s, rank, world, order))
  {
    var run := Sized(s.run, world);
    if rank < run.ring.world && rank !in run.ring.dropped {
      var run1 := WithoutRank(run, rank);
      var run2 := Publish(run1, run1.lastSeq + 1, RingNow(run1, Down(rank)));
      var s1 := s.(run := run2);
      assert RunLater(s.run, run2);
      assert MarkDown(s, rank, world, order) == CloseAll(s1, order) && s1.rounds == s.rounds;
      hide *;
      OnlyRun(s, run2);
      CloseAllSays(s1, order);
      SameRounds(s, s1);
      RecountedTrans(s, s1, CloseAll(s1, order));
    } else {
      assert MarkDown(s, rank, world, order).rounds == s.rounds;
      hide *;
      SameRounds(s, MarkDown(s, rank, world, order));
    }
  }

  lemma {:induction false} DropMissingSays(s: State, id: nat, n: nat, orders: seq<seq<Key>>)
    requires Sound(s) && Safe(s) && id < |s.rounds| && n <= |orders|
    ensures AllRecounted(s, DropMissing(s, id, n, orders))
  {
    hide MarkDown, Healthy, SoundRun, SoundRound, Recounted;
    var s' := DropMissing(s, id, n, orders);
    if n == 0 {
      SameRounds(s, s);
    } else {
      var s1 := DropMissing(s, id, n - 1, orders);
      var world, order := s.rounds[id].world, orders[n - 1];
      assert s' == s1 || s' == MarkDown(s1, n - 1, world, order);
      hide *;
      DropMissingSays(s, id, n - 1, orders);
      DropMissingKeeps(s, id, n - 1, orders);
      if s' != s1 {
        MarkDownSays(s1, n - 1, world, order);
        RecountedTrans(s, s1, s');
      }
    }
  }

  /** A round that closes short says how many contributions it has. */
  lemma ShutSays(run: Run, r: Round, rank: nat)
    requires SoundRun(run) && SoundRound(r) && !Decided(r) && r.acc.value.count == |r.parts| > 0
    ensures var r' := Shut(run, r, rank).1;
      && r'.seen == r.seen && r'.parts == r.parts && r'.world == r.world
      && if r'.result.None? then r'.partial == r.partial else Said(r') == |r.parts|
  {
    hide MeanResidual, LiveIn, Closable;
  }

  /** Every round but this one is recounted; this one, if it gets its result, says how many contributions it has. */
  ghost predicate ShutOne(s: State, s': State, id: nat) {
    && |s.rounds| == |s'.rounds| && id < |s.rounds|
    && (forall i | 0 <= i < |s.rounds| && i != id :: Recounted(s.rounds[i], s'.rounds[i]))
    && (s.rounds[id].result.Some? ==> SameVerdict(s.rounds[id], s'.rounds[id]))
    && (s.rounds[id].result.None? && s.rounds[id].partial == 0 ==>
          if s'.rounds[id].result.None? then s'.rounds[id].partial == 0 else Said(s'.rounds[id]) == |s'.rounds[id].parts|)
  }

  lemma ShutOneSays(s: State, id: nat, rank: nat)
    requires Sound(s) && Safe(s) && id < |s.rounds| && !Decided(s.rounds[id]) && s.rounds[id].acc.value.count > 0
    requires exists k | k in s.open :: s.open[k] == id
    ensures var (run, r') := Shut(s.run, s.rounds[id], rank);
      var s1 := s.(run := run, rounds := s.rounds[id := r']);
      && Sound(s1) && Safe(s1) && Decided(r')
      && (s.rounds[id].partial == 0 ==> if r'.result.None? then r'.partial == 0 else Said(r') == |r'.parts|)
  {
    hide Shut, Healthy, Closable, RunLater;
    var r := s.rounds[id];
    var (run, r') := Shut(s.run, r, rank);
    assert Healthy(s.run.ring.dropped, s.run.aborted.Some?, r);
    SeenSize(s.run.ring.dropped, s.run.aborted.Some?, r);
    ShutSays(s.run, r, rank);
    ShutKeeps(s.run, r, rank);
    Closing.ShutDecides(s.run, r, rank);
    OneRound(s, s.(run := run, rounds := s.rounds[id := r']), id, r');
  }

  lemma ExpireSays(s: State, key: Key, rank: nat, orders: seq<seq<Key>>)
    requires Sound(s) && Safe(s) && OrdersFit(s, key, orders)
    ensures var s' := Expire(s, key, rank, orders).0;
      if key in s.open then ShutOne(s, s', s.open[key]) else s' == s
  {
    hide Shut, DropMissing, Healthy, Closable, SoundRun, Enumerates, Said;
    var s' := Expire(s, key, rank, orders).0;
    if s' != s {
      var id := s.open[key];
      var (run, r') := Shut(s.run, s.rounds[id], rank);
      var s1 := s.(run := run, rounds := s.rounds[id := r']);
      ShutOneSays(s, id, rank);
      assert s'.rounds == s1.rounds || (|orders| == r'.world && s'.rounds == DropMissing(s1, id, |orders|, orders).rounds
                                        && r'.result.Some?);
      hide *;
      if s'.rounds != s1.rounds {
        DropMissingSays(s1, id, |orders|, orders);
        SameRecounted(s1, DropMissing(s1, id, |orders|, orders), s');
      }
      ThenRecounted(s, s1, s', id);
    }
  }

  lemma SameRecounted(s: State, a: State, b: State)
    requires AllRecounted(s, a) && b.rounds == a.rounds
    ensures AllRecounted(s, b)
  {
  }

  lemma ThenRecounted(s: State, s1: State, s': State, id: nat)
    requires |s.rounds| == |s1.rounds| && id < |s.rounds| && s1.rounds == s.rounds[id := s1.rounds[id]]
    requires s'.rounds == s1.rounds || (AllRecounted(s1, s') && s1.rounds[id].result.Some?)
    requires s.rounds[id].result.None?
    requires s.rounds[id].partial == 0 ==>
      if s1.rounds[id].result.None? then s1.rounds[id].partial == 0 else Said(s1.rounds[id]) == |s1.rounds[id].parts|
    ensures ShutOne(s, s', id)
  {
  }

  /** A post leaves the number as it is, also when it closes the round. */
  ghost predicate Uncounted(r: Round, r': Round) {
    && (r.result.Some? ==> SameVerdict(r, r')) && r'.world == r.world
    && (r.result.None? ==> r'.partial == r.partial)
  }

  lemma FoldUncounted(r: Round, req: Request)
    requires ValidRequest(req) && SoundRound(r) && !Decided(r)
    ensures var r' := Folded(Checked(r, req), req); r'.partial == r.partial && r'.world == r.world
  {
    hide Contributors, Decode, Add, SameModel;
  }

  lemma ArriveUncounted(run: Run, r: Round, req: Request)
    requires ValidRequest(req) && SoundRun(run) && SoundRound(r)
    ensures Uncounted(r, Arrive(run, r, req).1)
  {
    if !Decided(r) {
      FoldUncounted(r, req);
    }
    hide MeanResidual, SoundRun, LiveIn, ExpectedCount, Folded, Checked;
  }

  lemma PostUncounted(s: State, req: Request, c: Choice)
    requires Sound(s) && AllFresh(s)
    ensures var s' := Post(s, req, c);
      && |s.rounds| <= |s'.rounds| && AllFresh(s')
      && (forall i | 0 <= i < |s.rounds| :: Uncounted(s.rounds[i], s'.rounds[i]))
      && forall i | |s.rounds| <= i < |s'.rounds| :: s'.rounds[i].partial == 0
  {
    hide PostTo, ChoiceFits, SoundRound, SoundRun;
    var s' := Post(s, req, c);
    if s' != s {
      var (s1, id) := RoundFor(s, req).value;
      NewIsFresh(s, req);
      if s' != s1 {
        assert s' == PostTo(s1, id, req, c);
        PostToUncounted(s1, id, req, c);
      }
    }
  }

  lemma NewIsFresh(s: State, req: Request)
    requires Sound(s) && ValidRequest(req) && RoundFor(s, req).Some? && AllFresh(s)
    ensures var s1 := RoundFor(s, req).value.0;
      && |s.rounds| <= |s1.rounds| && AllFresh(s1) && (forall i | 0 <= i < |s.rounds| :: Uncounted(s.rounds[i], s1.rounds[i]))
        && forall i | |s.rounds| <= i < |s1.rounds| :: s1.rounds[i].partial == 0 && s1.rounds[i].result.None?
  {
    hide SoundRound, SoundRun;
  }

  lemma PostToUncounted(s: State, id: nat, req: Request, c: Choice)
    requires Sound(s) && id < |s.rounds| && ValidRequest(req) && ChoiceFits(s.run, req, c) && s.rounds[id].key == KeyOf(req)
    ensures var s' := PostTo(s, id, req, c);
      |s'.rounds| == |s.rounds| && forall i | 0 <= i < |s.rounds| :: Uncounted(s.rounds[i], s'.rounds[i])
  {
    var run1, r1 := Heard(s.run, req, c), s.rounds[id].(expected := Awaited(s.run.ring.dropped, req.world));
    assert SoundRound(r1) && Landed(s.run, s.rounds[id], req, c) == Arrive(run1, r1, req);
    hide Heard, Arrive, ChoiceFits, SoundRun, SoundRound, NewRound, Awaited;
    ArriveUncounted(run1, r1, req);
  }

  // ---- every step ----

  /** This step gave the round its result. */
  ghost predicate Closes(s: State, s': State, i: nat) {
    i < |s'.rounds| && s'.rounds[i].result.Some? && (i < |s.rounds| ==> s.rounds[i].result.None?)
  }

  /** When the number a round closed with is that of the ranks it averages: closed by a post, when the whole ring is in it, dropped
      ranks and all; closed short by its timeout, when every contribution stands for one rank; closed by a down report, always. */
  ghost predicate RightIff(s: State, s': State, e: Event, i: nat)
    requires i < |s'.rounds|
  {
    var r := s'.rounds[i];
    Said(r) == |r.seen| <==>
      match e
      case PostEvent(_, _) => |r.seen| == r.world
      case TimeOutEvent(late, _) =>
        late < |s.tickets| && s.tickets[late].key in s.open && s.open[s.tickets[late].key] == i ==> |r.parts| == |r.seen|
      case _ => true
  }

  ghost predicate StepRight(s: State, s': State, e: Event) {
    AllFresh(s') && forall i | 0 <= i < |s'.rounds| :: Closes(s, s', i) ==> RightIff(s, s', e, i)
  }

  lemma RecountedRight(s: State, s': State, e: Event)
    requires AllFresh(s) && AllRecounted(s, s') && (e.DownEvent? || s'.rounds == s.rounds)
    ensures StepRight(s, s', e)
  {
    forall i | 0 <= i < |s.rounds|
      ensures Fresh(s'.rounds[i]) && (Closes(s, s', i) ==> RightIff(s, s', e, i))
    {
      assert Recounted(s.rounds[i], s'.rounds[i]) && Fresh(s.rounds[i]);
    }
  }

  lemma UncountedRight(s: State, s': State, e: Event)
    requires AllFresh(s) && AllFresh(s') && e.PostEvent? && |s.rounds| <= |s'.rounds|
    requires forall i | 0 <= i < |s.rounds| :: Uncounted(s.rounds[i], s'.rounds[i])
    requires forall i | |s.rounds| <= i < |s'.rounds| :: s'.rounds[i].partial == 0
    ensures StepRight(s, s', e)
  {
    forall i | 0 <= i < |s'.rounds| && Closes(s, s', i)
      ensures RightIff(s, s', e, i)
    {
      assert i < |s.rounds| ==> Fresh(s.rounds[i]) && Uncounted(s.rounds[i], s'.rounds[i]);
    }
  }

  lemma ShutRight(s: State, s': State, i: nat, orders: seq<seq<Key>>)
    requires AllFresh(s) && i < |s.tickets| && s.tickets[i].key in s.open && ShutOne(s, s', s.open[s.tickets[i].key])
    ensures StepRight(s, s', TimeOutEvent(i, orders))
  {
    var id := s.open[s.tickets[i].key];
    forall k | 0 <= k < |s.rounds|
      ensures Fresh(s'.rounds[k]) && (Closes(s, s', k) ==> RightIff(s, s', TimeOutEvent(i, orders), k))
    {
      assert Fresh(s.rounds[k]) && (k != id ==> Recounted(s.rounds[k], s'.rounds[k]));
    }
  }

  lemma StepSays(s: State, e: Event)
    requires Sound(s) && Safe(s) && AllFresh(s)
    ensures StepRight(s, Step(s, e), e)
  {
    var s' := Step(s, e);
    match e
    case PostEvent(req, c) =>
      PostUncounted(s, req, c);
      hide Step, Post, Safe, SoundRun, SoundRound;
      assert s' == Post(s, req, c) by { StepIsPost(s, req, c); }
      UncountedRight(s, s', e);
    case DownEvent(rank, world, order) =>
      hide MarkDown, Safe, SoundRun, SoundRound;
      if s' == s {
        SameRounds(s, s);
      } else {
        MarkDownSays(s, rank, world, order);
      }
      RecountedRight(s, s', e);
    case TimeOutEvent(i, orders) =>
      hide Expire, Safe, SoundRun, SoundRound;
      if s' != s && s.tickets[i].key in s.open {
        ExpireSays(s, s.tickets[i].key, s.tickets[i].rank, orders);
        ShutRight(s, s', i, orders);
      } else {
        if s' != s {
          ExpireSays(s, s.tickets[i].key, s.tickets[i].rank, orders);
        }
        SameRounds(s, s');
        RecountedRight(s, s', e);
      }
    case _ => OtherwiseSame(s, e);
  }

  lemma StepIsPost(s: State, req: Request, c: Choice)
    requires Sound(s)
    ensures Step(s, PostEvent(req, c)) == Post(s, req, c)
  {
    hide Post;
  }

  lemma OtherwiseSame(s: State, e: Event)
    requires Sound(s) && AllFresh(s) && !e.PostEvent? && !e.DownEvent? && !e.TimeOutEvent?
    ensures StepRight(s, Step(s, e), e)
  {
    hide Told, SoundRun, SoundRound, Admit, Taken;
  }

  // ---- over whole runs ----

  /** The n-th event of the run gave this round its result. */
  ghost predicate ClosedAt(events: seq<Event>, n: nat, i: nat) {
    && n < |events| && i < |Exec(Start(), events[..n + 1]).rounds|
    && Closes(Exec(Start(), events[..n]), Exec(Start(), events[..n + 1]), i)
    && RightIff(Exec(Start(), events[..n]), Exec(Start(), events[..n + 1]), events[n], i)
  }

  lemma {:induction false} RunsAreFresh(events: seq<Event>)
    ensures AllFresh(Exec(Start(), events))
  {
    if events == [] {
    } else {
      var front, e := events[..|events| - 1], events[|events| - 1];
      assert Exec(Start(), events) == Step(Exec(Start(), front), e);
      hide *;
      RunsFromStart(front);
      RunsAreFresh(front);
      StepSays(Exec(Start(), front), e);
      RightIsFresh(Exec(Start(), front), Step(Exec(Start(), front), e), e);
    }
  }

  lemma RightIsFresh(s: State, s': State, e: Event)
    requires StepRight(s, s', e)
    ensures AllFresh(s')
    ensures forall i | 0 <= i < |s'.rounds| && Closes(s, s', i) :: RightIff(s, s', e, i)
  {
  }

  lemma ClosedEarlier(front: seq<Event>, e: Event, n: nat, i: nat)
    requires ClosedAt(front, n, i)
    ensures ClosedAt(front + [e], n, i)
  {
    assert (front + [e])[..n] == front[..n] && (front + [e])[..n + 1] == front[..n + 1];
    hide Exec, Closes, RightIff;
  }

  lemma ClosedLast(front: seq<Event>, e: Event, i: nat)
    requires var s, s' := Exec(Start(), front), Step(Exec(Start(), front), e); StepRight(s, s', e) && Closes(s, s', i)
    ensures ClosedAt(front + [e], |front|, i)
  {
    hide *;
    OneEventMore(front, e);
    assert (front + [e])[..|front|] == front && (front + [e])[..|front| + 1] == front + [e];
    ClosedIs(front + [e], |front|, i);
  }

  lemma ClosedIs(events: seq<Event>, n: nat, i: nat)
    requires n < |events| && StepRight(Exec(Start(), events[..n]), Exec(Start(), events[..n + 1]), events[n])
    requires Closes(Exec(Start(), events[..n]), Exec(Start(), events[..n + 1]), i)
    ensures ClosedAt(events, n, i)
  {
    hide Exec, RightIff;
  }

  /** What a round said and whom it averages does not change after. */
  lemma SaidStays(events: seq<Event>, e: Event, i: nat)
    requires i < |Exec(Start(), events).rounds| && Exec(Start(), events).rounds[i].result.Some?
    ensures var r, s' := Exec(Start(), events).rounds[i], Exec(Start(), events + [e]);
      && i < |s'.rounds| && Said(s'.rounds[i]) == Said(r) && s'.rounds[i].seen == r.seen && s'.rounds[i].result.Some?
  {
    hide *;
    RunsFromStart(events);
    StepKeeps(Exec(Start(), events), e);
    OneEventMore(events, e);
    LaterSaid(Exec(Start(), events), Exec(Start(), events + [e]), i);
  }

  lemma LaterSaid(s: State, s': State, i: nat)
    requires Later(s, s') && i < |s.rounds| && s.rounds[i].result.Some?
    ensures i < |s'.rounds| && Said(s'.rounds[i]) == Said(s.rounds[i]) && s'.rounds[i].seen == s.rounds[i].seen
    ensures s'.rounds[i].result.Some?
  {
    assert RoundLater(s.rounds[i], s'.rounds[i]);
  }

  /** Over every interleaving: an answer's number of ranks is that of the ranks its result averages, exactly when the round's ring had
      lost nobody before a post closed it, each of its contributions stood for one rank when its timeout did, or a down report did. */
  lemma {:induction false} SaysHowMany(events: seq<Event>, i: nat) returns (n: nat)
    requires i < |Exec(Start(), events).rounds| && Exec(Start(), events).rounds[i].result.Some?
    ensures ClosedAt(events, n, i)
    ensures var r, r' := Exec(Start(), events).rounds[i], Exec(Start(), events[..n + 1]).rounds[i];
      Said(r) == Said(r') && r.seen == r'.seen
  {
    hide *;
    NothingYet();
    var front, e := events[..|events| - 1], events[|events| - 1];
    assert events == front + [e];
    OneEventMore(front, e);
    if i < |Exec(Start(), front).rounds| && Exec(Start(), front).rounds[i].result.Some? {
      n := SaysHowMany(front, i);
      ClosedEarlier(front, e, n, i);
      SaidStays(front, e, i);
      AtIndex(front, n, i);
      assert events[..n + 1] == front[..n + 1];
    } else {
      n := |front|;
      RunsFromStart(front);
      RunsAreFresh(front);
      StepSays(Exec(Start(), front), e);
      Given(Exec(Start(), front), Exec(Start(), events), i);
      ClosedLast(front, e, i);
      assert events[..n + 1] == events;
    }
  }

  lemma Given(s: State, s': State, i: nat)
    requires i < |s'.rounds| && s'.rounds[i].result.Some? && (i < |s.rounds| ==> s.rounds[i].result.None?)
    ensures Closes(s, s', i)
  {
  }

  lemma AtIndex(events: seq<Event>, n: nat, i: nat)
    requires ClosedAt(events, n, i)
    ensures n < |events|
  {
  }
}
