/** Machines at the lead: what a machine forwards becomes one contribution of the round it is folded into, and a round of such
    contributions closes on the mean over all their ranks. */
module TwoLevel {
  import opened Wrappers
  import opened Vectors
  import opened Reduce
  import opened Messages
  import opened Protocol
  import opened Rounds
  import opened Verdicts
  import Local

  /** The post a machine's forward makes at the lead: the first local arrival's header, with the machine's ranks, their total
      samples and their mean. */
  function AsRequest(hdr: Request, out: Local.Forward): Request
    requires out.members != []
  {
    var req := hdr.(rank := out.members[0].rank, members := out.members, samples := out.samples, step := 0.0, sync := 0.0);
    match out.reply
    case Exact(v) => req.(payload := Numbers(v), scale := 0.0, scales := [])
    case Quantised(q, scales) => req.(payload := Bytes(q), scale := if scales == [] then 0.0 else scales[0], scales := scales)
  }

  lemma ForwardedRanks(hdr: Request, out: Local.Forward)
    requires out.members != [] && Local.DistinctRanks(out.members) && ValidRequest(AsRequest(hdr, out))
    ensures Contributors(AsRequest(hdr, out)) == Local.Ranks(out.members)
  {
    var who, ranks := Who(out.members), Local.Ranks(out.members);
    forall k
      ensures k in who <==> k in ranks
    {
      if k in who {
        var i :| 0 <= i < |who| && who[i] == k;
        assert out.members[i].rank == k;
      }
      if k in ranks {
        var i :| 0 <= i < |out.members| && out.members[i].rank == k;
        assert who[i] == k;
      }
    }
  }

  /** A forward is folded in as one contribution that stands for all of its machine's ranks: it counts their samples and carries
      their mean. */
  lemma ForwardIsFolded(r: Round, hdr: Request, out: Local.Forward, parts: seq<Part>)
    requires SoundRound(r) && r.acc.Some? && r.err.None? && !r.acc.value.dtype.I8?
    requires out.members != [] && Local.DistinctRanks(out.members) && ValidRequest(AsRequest(hdr, out))
    requires out.reply.Exact? && |out.reply.vals| == |r.acc.value.sum| && Local.Ranks(out.members) !! r.seen
    requires Local.Stands(Part(Local.Ranks(out.members), out.reply.vals, SampleWeight(out.samples)), parts)
    ensures var r' := Folded(r, AsRequest(hdr, out));
      && |r'.parts| == |r.parts| + 1 && r'.parts[..|r.parts|] == r.parts && r'.err.None?
      && Local.Stands(r'.parts[|r.parts|], parts) && r'.parts[|r.parts|].who == Local.Ranks(out.members)
      && r'.seen == r.seen + Local.Ranks(out.members)
  {
    var req := AsRequest(hdr, out);
    ForwardedRanks(hdr, out);
    hide Local.Stands, Contributors, Local.Ranks, Axpy, Norm2;
    assert Decode(r.acc.value, req.payload, ScalesOf(req)) == Some(out.reply.vals);
  }

  /** Every contribution of the round stands for some ranks' own: a machine's for all of its ranks, a direct post for itself. */
  ghost predicate StandFor(r: Round, groups: seq<seq<Part>>) {
    |groups| == |r.parts| && forall j | 0 <= j < |groups| :: Local.Stands(r.parts[j], groups[j])
  }

  /** Over every interleaving, a round closes on the mean over all the ranks its contributions stand for, as if each had posted
      directly: exactly, or as the int8 reply that carries that mean. */
  lemma ClosesOnAllRanks(events: seq<Event>, i: nat, groups: seq<seq<Part>>)
    requires i < |Exec(Start(), events).rounds| && Exec(Start(), events).rounds[i].result.Some?
    requires StandFor(Exec(Start(), events).rounds[i], groups)
    ensures var r := Exec(Start(), events).rounds[i];
      && r.closed.Some?
      && var n := |r.closed.value.0.sum|;
        && Uniform(Local.Flat(groups), n) && Mean(r.closed.value.0) == WeightedMean(Local.Flat(groups), n)
        && (!r.closed.value.0.dtype.I8? ==> r.result == Some(Exact(WeightedMean(Local.Flat(groups), n))))
  {
    var r := Exec(Start(), events).rounds[i];
    FoldedExactlyOnce(events, i);
    hide Exec, MeanResidual, WeightedMean, Local.Stands, Local.Flat;
    assert Local.Forwarded(r.parts, groups, |r.closed.value.0.sum|);
    Local.TwoLevelMean(r.parts, groups, |r.closed.value.0.sum|);
  }

  /** A rank that posts directly stands for itself. */
  lemma DirectStandsForItself(r: Round, hdr: Request)
    requires ValidRequest(hdr) && SoundRound(r) && r.acc.Some? && r.err.None? && Contributors(hdr) !! r.seen
    requires Decode(r.acc.value, hdr.payload, ScalesOf(hdr)).Some?
    ensures var r' := Folded(r, hdr); r'.parts != [] && Local.Stands(r'.parts[|r'.parts| - 1], [r'.parts[|r'.parts| - 1]])
  {
    var r' := Folded(r, hdr);
    Local.DirectStands(r'.parts[|r'.parts| - 1]);
    hide Local.Stands, Decode, Contributors;
  }

  // ---- int8 ----

  lemma {:induction false} FirstBadOfGood(scales: seq<real>)
    requires forall i | 0 <= i < |scales| :: scales[i] > 0.0
    ensures FirstBad(scales) == |scales|
  {
    if scales != [] {
      FirstBadOfGood(scales[1..]);
    }
  }

  lemma OneSegment(n: nat, segments: seq<nat>, scales: seq<real>)
    requires segments == [n] && |scales| == 1
    ensures Expand(segments, scales) == Repeat(scales[0], n)
  {
    assert segments[..0] == [] && scales[..0] == [];
  }

  /** The lead decodes an int8 forward to what its machine meant by it. */
  lemma DecodesAsMeant(lead: Acc, a: Acc, before: Vec)
    requires lead.dtype.I8? && a.dtype.I8? && Closable(lead) && Closable(a) && |before| == |a.sum| == |lead.sum|
    requires lead.segments == a.segments
    ensures var reply := MeanResidual(a, before).0;
      && reply.Quantised? && |reply.q| == |a.sum| && |reply.scales| == |Cuts(a)| > 0
      && Decode(lead, Bytes(reply.q), reply.scales) == Some(Decoded(a, reply))
  {
    var t := Target(a, before);
    var q, scales := Levels(t, Cuts(a)), Steps(t, Cuts(a));
    assert MeanResidual(a, before).0 == Quantised(q, scales) && |Cuts(a)| > 0;
    StepsPositive(t, Cuts(a));
    hide MeanResidual, Levels, Steps, Target, Total;
    DecodesBack(lead, a, q, scales);
  }

  lemma DecodesBack(lead: Acc, a: Acc, q: seq<int>, scales: seq<real>)
    requires lead.dtype.I8? && Closable(lead) && Closable(a) && |q| == |a.sum| == |lead.sum| && lead.segments == a.segments
    requires |scales| == |Cuts(a)| > 0 && forall i | 0 <= i < |scales| :: scales[i] > 0.0
    ensures Decode(lead, Bytes(q), scales) == Some(Decoded(a, Quantised(q, scales)))
  {
    FirstBadOfGood(scales);
    if |a.segments| <= 1 {
      LoneCut(a);
      OneSegment(|a.sum|, Cuts(a), scales);
    }
    hide Expand, Dequantise, FirstBad, Total;
  }

  lemma LoneCut(a: Acc)
    requires Closable(a) && |a.segments| <= 1
    ensures Cuts(a) == [|a.sum|]
  {
    if |a.segments| == 1 {
      assert a.segments[..0] == [];
      assert Total(a.segments) == a.segments[0] && a.segments == [a.segments[0]];
    }
  }

  /** An int8 forward is folded in as one contribution of what its machine sent: its ranks' mean and the rounding error the machine
      had kept, less the error it keeps now. */
  lemma Int8ForwardIsFolded(r: Round, hdr: Request, out: Local.Forward, a: Acc, before: Vec)
    requires SoundRound(r) && r.acc.Some? && r.err.None? && r.acc.value.dtype.I8?
    requires a.dtype.I8? && Closable(a) && a.segments == r.acc.value.segments && |before| == |a.sum| == |r.acc.value.sum|
    requires out.members != [] && Local.DistinctRanks(out.members) && ValidRequest(AsRequest(hdr, out))
    requires out.reply == MeanResidual(a, before).0 && Local.Ranks(out.members) !! r.seen
    ensures var r' := Folded(r, AsRequest(hdr, out));
      && |r'.parts| == |r.parts| + 1 && r'.parts[..|r.parts|] == r.parts && r'.err.None?
      && r'.seen == r.seen + Local.Ranks(out.members)
      && var part := r'.parts[|r.parts|];
        && part.who == Local.Ranks(out.members) && part.w == SampleWeight(out.samples) && |part.x| == |a.sum|
        && Plus(part.x, MeanResidual(a, before).1) == Plus(Mean(a), before)
  {
    var req := AsRequest(hdr, out);
    ForwardedRanks(hdr, out);
    DecodesAsMeant(r.acc.value, a, before);
    FeedbackRound(a, before);
    assert ScalesOf(req) == out.reply.scales && req.payload == Bytes(out.reply.q) && req.samples == out.samples;
    hide Contributors, Local.Ranks, Axpy, Norm2, MeanResidual, Decoded, Decode, Cuts, Mean, AsRequest, SampleWeight;
  }

  // ---- every contribution of a round was posted ----

  /** This is what a posted contribution stands for in some round. */
  ghost predicate PartOf(part: Part, req: Request) {
    ValidRequest(req) && exists a: Acc ::
      && WellFormed(a) && Decode(a, req.payload, ScalesOf(req)).Some?
      && part == Part(Contributors(req), Decode(a, req.payload, ScalesOf(req)).value, SampleWeight(req.samples))
  }

  ghost predicate PostedIn(part: Part, events: seq<Event>) {
    exists e | e in events :: e.PostEvent? && PartOf(part, e.req)
  }

  ghost predicate AllPosted(s: State, events: seq<Event>) {
    forall i, j | 0 <= i < |s.rounds| && 0 <= j < |s.rounds[i].parts| :: PostedIn(s.rounds[i].parts[j], events)
  }

  /** No round has got or lost a contribution. */
  ghost predicate SameParts(s: State, s': State) {
    |s'.rounds| == |s.rounds| && forall i | 0 <= i < |s.rounds| :: s'.rounds[i].parts == s.rounds[i].parts
  }

  lemma CloseReadyParts(s: State, key: Key)
    requires Sound(s)
    ensures SameParts(s, CloseReady(s, key))
  {
    hide MeanResidual, SoundRun, Closable;
  }

  lemma {:induction false} CloseAllParts(s: State, order: seq<Key>)
    requires Sound(s)
    ensures SameParts(s, CloseAll(s, order))
  {
    if order != [] {
      CloseAllParts(s, order[..|order| - 1]);
      CloseReadyParts(CloseAll(s, order[..|order| - 1]), order[|order| - 1]);
      hide CloseReady;
    }
  }

  lemma MarkDownParts(s: State, rank: nat, world: nat, order: seq<Key>)
    requires Sound(s)
    ensures SameParts(s, MarkDown(s, rank, world, order))
  {
    hide CloseAll, WithoutRank, SoundRound;
    var run := Sized(s.run, world);
    if rank < run.ring.world && rank !in run.ring.dropped {
      var run1 := WithoutRank(run, rank);
      CloseAllParts(s.(run := Publish(run1, run1.lastSeq + 1, RingNow(run1, Down(rank)))), order);
    }
  }

  lemma {:induction false} DropMissingParts(s: State, id: nat, n: nat, orders: seq<seq<Key>>)
    requires Sound(s) && id < |s.rounds| && n <= |orders|
    ensures SameParts(s, DropMissing(s, id, n, orders))
  {
    hide MarkDown, SoundRun, SoundRound;
    if n > 0 {
      DropMissingParts(s, id, n - 1, orders);
      MarkDownParts(DropMissing(s, id, n - 1, orders), n - 1, s.rounds[id].world, orders[n - 1]);
    }
  }

  lemma ExpireParts(s: State, key: Key, rank: nat, orders: seq<seq<Key>>)
    requires Sound(s) && OrdersFit(s, key, orders)
    ensures SameParts(s, Expire(s, key, rank, orders).0)
  {
    hide DropMissing, Closable, SoundRun, Enumerates, MeanResidual;
    var s' := Expire(s, key, rank, orders).0;
    if s' != s {
      var id := s.open[key];
      var (run, r') := Shut(s.run, s.rounds[id], rank);
      var s1 := s.(run := run, rounds := s.rounds[id := r']);
      assert r'.parts == s.rounds[id].parts;
      hide Shut;
      if s' != s1 {
        DropMissingParts(s1, id, |orders|, orders);
      }
    }
  }

  lemma StepParts(s: State, e: Event)
    requires Sound(s) && !e.PostEvent?
    ensures SameParts(s, Step(s, e))
  {
    hide MarkDown, Expire, SoundRun, SoundRound, Admit, Taken, Told;
    match e
    case TimeOutEvent(i, orders) =>
      if TimeOut(s, i, orders) != s {
        ExpireParts(s, s.tickets[i].key, s.tickets[i].rank, orders);
      }
    case DownEvent(rank, world, order) => MarkDownParts(s, rank, world, order);
    case _ =>
  }

  /** What a post makes of the contributions of its round: nothing, or one more. */
  lemma ArriveParts(run: Run, r: Round, req: Request)
    requires ValidRequest(req) && SoundRun(run) && SoundRound(r)
    ensures var parts := Arrive(run, r, req).1.parts;
      parts == r.parts || exists part: Part :: parts == r.parts + [part] && PartOf(part, req)
  {
    if !Decided(r) {
      var r1 := Folded(Checked(r, req), req);
      assert r1.parts == r.parts || (exists part: Part :: r1.parts == r.parts + [part] && PartOf(part, req)) by {
        FoldedParts(r, req);
      }
      hide Folded, Checked, PartOf, MeanResidual, SoundRun;
    }
  }

  lemma FoldedParts(r: Round, req: Request)
    requires ValidRequest(req) && SoundRound(r) && !Decided(r)
    ensures var parts := Folded(Checked(r, req), req).parts;
      parts == r.parts || exists part: Part :: parts == r.parts + [part] && PartOf(part, req)
  {
    var r1 := Folded(Checked(r, req), req);
    if r1.parts != r.parts {
      var a := r.acc.value;
      var part := Part(Contributors(req), Decode(a, req.payload, ScalesOf(req)).value, SampleWeight(req.samples));
      assert PartOf(part, req);
      assert r1.parts == r.parts + [part];
    }
  }

  lemma PostParts(s: State, req: Request, c: Choice, events: seq<Event>)
    requires Sound(s) && AllPosted(s, events)
    ensures AllPosted(Post(s, req, c), events + [PostEvent(req, c)])
  {
    var all := events + [PostEvent(req, c)];
    assert AllPosted(s, all) by { PostedLater(s, events, PostEvent(req, c)); }
    hide Landed, ChoiceFits, SoundRun, SoundRound, PostedIn;
    if Post(s, req, c) != s {
      var (s1, id) := RoundFor(s, req).value;
      assert AllPosted(s1, all) by { hide Contributors; }
      if Post(s, req, c) != s1 {
        LandedParts(s1.run, s1.rounds[id], req, c, all);
      }
    }
  }

  lemma LandedParts(run: Run, r: Round, req: Request, c: Choice, events: seq<Event>)
    requires ValidRequest(req) && SoundRun(run) && SoundRound(r) && ChoiceFits(run, req, c)
    requires PostEvent(req, c) in events && forall j | 0 <= j < |r.parts| :: PostedIn(r.parts[j], events)
    ensures var parts := Landed(run, r, req, c).1.parts; forall j | 0 <= j < |parts| :: PostedIn(parts[j], events)
  {
    var run1, r1 := Heard(run, req, c), r.(expected := Awaited(run.ring.dropped, req.world));
    assert SoundRound(r1) && Landed(run, r, req, c) == Arrive(run1, r1, req);
    hide Heard, ChoiceFits, Arrive, SoundRun, SoundRound, Landed, PartOf;
    ArriveParts(run1, r1, req);
    var parts := Arrive(run1, r1, req).1.parts;
    if part: Part :| parts == r.parts + [part] && PartOf(part, req) {
      assert PostedIn(part, events);
    }
  }

  lemma PostedLater(s: State, events: seq<Event>, e: Event)
    requires AllPosted(s, events)
    ensures AllPosted(s, events + [e])
  {
    forall i, j | 0 <= i < |s.rounds| && 0 <= j < |s.rounds[i].parts|
      ensures PostedIn(s.rounds[i].parts[j], events + [e])
    {
      assert PostedIn(s.rounds[i].parts[j], events);
      var d :| d in events && d.PostEvent? && PartOf(s.rounds[i].parts[j], d.req);
      assert d in events + [e];
    }
  }

  /** Over every interleaving every contribution in a round was posted. */
  lemma {:induction false} PartsArePosted(events: seq<Event>)
    ensures AllPosted(Exec(Start(), events), events)
  {
    if events == [] {
    } else {
      var front, e := events[..|events| - 1], events[|events| - 1];
      var s := Exec(Start(), front);
      assert Exec(Start(), events) == Step(s, e) && events == front + [e];
      assert e.PostEvent? ==> Step(s, e) == Post(s, e.req, e.choice);
      hide *;
      PartsArePosted(front);
      if e.PostEvent? {
        PostParts(s, e.req, e.choice, front);
      } else {
        PostedLater(s, front, e);
        StepParts(s, e);
        SamePosted(s, Step(s, e), events);
      }
    }
  }

  lemma SamePosted(s: State, s': State, events: seq<Event>)
    requires AllPosted(s, events) && SameParts(s, s')
    ensures AllPosted(s', events)
  {
    hide PostedIn;
  }

  // ---- a run of forwards ----

  /** A post of an exact width that stands for these ranks' own contributions. */
  ghost predicate PostsFor(req: Request, ranks: seq<Part>) {
    ValidRequest(req) ==>
      req.payload.Numbers? && Local.Stands(Part(Contributors(req), req.payload.vals, SampleWeight(req.samples)), ranks)
  }

  lemma PartStands(part: Part, req: Request, ranks: seq<Part>)
    requires PartOf(part, req) && PostsFor(req, ranks)
    ensures Local.Stands(part, ranks) && part.who == Contributors(req)
  {
    hide Local.Stands, Contributors;
  }

  /** The contribution is that of a post of the run, and these are the ranks behind it. */
  ghost predicate GroupOf(part: Part, group: seq<Part>, events: seq<Event>, ranksOf: Request -> seq<Part>) {
    exists e | e in events :: e.PostEvent? && PartOf(part, e.req) && group == ranksOf(e.req)
  }

  ghost predicate GroupsOf(r: Round, groups: seq<seq<Part>>, events: seq<Event>, ranksOf: Request -> seq<Part>) {
    |groups| == |r.parts| && forall j | 0 <= j < |groups| :: GroupOf(r.parts[j], groups[j], events, ranksOf)
  }

  lemma GroupsOfParts(r: Round, events: seq<Event>, ranksOf: Request -> seq<Part>) returns (groups: seq<seq<Part>>)
    requires forall j | 0 <= j < |r.parts| :: PostedIn(r.parts[j], events)
    requires forall e | e in events && e.PostEvent? :: PostsFor(e.req, ranksOf(e.req))
    ensures GroupsOf(r, groups, events, ranksOf) && StandFor(r, groups)
  {
    hide PartOf, PostsFor, Local.Stands;
    groups := [];
    for n := 0 to |r.parts|
      invariant |groups| == n
      invariant forall j | 0 <= j < n :: GroupOf(r.parts[j], groups[j], events, ranksOf)
      invariant forall j | 0 <= j < n :: Local.Stands(r.parts[j], groups[j])
    {
      assert PostedIn(r.parts[n], events);
      var e :| e in events && e.PostEvent? && PartOf(r.parts[n], e.req);
      PartStands(r.parts[n], e.req, ranksOf(e.req));
      assert GroupOf(r.parts[n], ranksOf(e.req), events, ranksOf);
      groups := groups + [ranksOf(e.req)];
    }
    assert |groups| == |r.parts|;
    assert StandFor(r, groups);
  }

  /** Over every interleaving in which every post is a machine's forward or a rank's own, at an exact width: each round with a result
      closed on the mean over all the ranks behind the posts it took in, as if each of them had posted directly. */
  lemma RoundsOfForwards(events: seq<Event>, i: nat, ranksOf: Request -> seq<Part>) returns (groups: seq<seq<Part>>)
    requires forall e | e in events && e.PostEvent? :: PostsFor(e.req, ranksOf(e.req))
    requires i < |Exec(Start(), events).rounds| && Exec(Start(), events).rounds[i].result.Some?
    ensures var r := Exec(Start(), events).rounds[i];
      && GroupsOf(r, groups, events, ranksOf) && r.closed.Some?
      && var n := |r.closed.value.0.sum|;
        Uniform(Local.Flat(groups), n) && Mean(r.closed.value.0) == WeightedMean(Local.Flat(groups), n)
  {
    hide *;
    PartsArePosted(events);
    var r := Exec(Start(), events).rounds[i];
    PostedHere(Exec(Start(), events), i, events);
    groups := GroupsOfParts(r, events, ranksOf);
    ClosesOnAllRanks(events, i, groups);
  }

  lemma PostedHere(s: State, i: nat, events: seq<Event>)
    requires AllPosted(s, events) && i < |s.rounds|
    ensures forall j | 0 <= j < |s.rounds[i].parts| :: PostedIn(s.rounds[i].parts[j], events)
  {
  }

  /** A machine's forward at an exact width is such a post. */
  lemma ForwardPostsFor(hdr: Request, out: Local.Forward, parts: seq<Part>)
    requires out.members != [] && Local.DistinctRanks(out.members) && out.reply.Exact?
    requires Local.Stands(Part(Local.Ranks(out.members), out.reply.vals, SampleWeight(out.samples)), parts)
    ensures PostsFor(AsRequest(hdr, out), parts)
  {
    if ValidRequest(AsRequest(hdr, out)) {
      ForwardedRanks(hdr, out);
      hide Local.Stands, Contributors, Local.Ranks;
    }
  }
}
