/** What stops a round, and what does not: ranks that disagree about the model or about what they send, a payload that does not
    fit, and a ring gone silent. */
module Faults {
  import opened Wrappers
  import opened Counting
  import opened Vectors
  import opened Reduce
  import opened Messages
  import opened Shares
  import opened Rebalance
  import opened Protocol
  import opened Rounds
  import opened Verdicts
  import opened Notes
  import opened Closing

  // ---- what a post says, in its own terms ----

  /** Two descriptions of a model have something apart: a tensor's shape, or its type where both give one. */
  ghost predicate Differ(a: Manifest, b: Manifest) {
    || |a.shapes| != |b.shapes|
    || exists i | 0 <= i < |a.shapes| ::
        a.shapes[i] != b.shapes[i] || (i < |a.dtypes| && i < |b.dtypes| && a.dtypes[i] != b.dtypes[i])
  }

  /** The post is for this rank: its sender's, or one of its machine's. */
  ghost predicate Names(req: Request, k: int) {
    if req.members == [] then k == req.rank else exists i | 0 <= i < |req.members| :: req.members[i].rank == k
  }

  /** None of the post's ranks is in the round. */
  ghost predicate Fresh(r: Round, req: Request) {
    forall k: nat | Names(req, k) :: k !in r.seen
  }

  /** The post comes with another model than the first one the opening round got. */
  ghost predicate OtherModel(r: Round, req: Request) {
    r.opening && req.rank !in r.seen && req.manifest.Some? && r.manifest.Some? && Differ(r.manifest.value, req.manifest.value)
  }

  /** The post sends something else than its round holds, as far as both say what. */
  ghost predicate OtherKind(r: Round, req: Request) {
    Fresh(r, req) && req.kind != r.kind && req.kind != "" && r.kind != ""
  }

  /** The post's payload does not fit its round. */
  ghost predicate Unfit(r: Round, req: Request)
    requires r.acc.Some? && WellFormed(r.acc.value)
  {
    Fresh(r, req) && Decode(r.acc.value, req.payload, if req.scales == [] then [req.scale] else req.scales).None?
  }

  lemma NamesAre(req: Request)
    requires ValidRequest(req)
    ensures forall k: nat :: k in Contributors(req) <==> Names(req, k)
  {
    var who := Who(Reporters(req));
    forall k: nat
      ensures k in who <==> Names(req, k)
    {
      if k in who {
        var i :| 0 <= i < |who| && who[i] == k;
        assert Reporters(req)[i].rank == k;
      }
      if Names(req, k) {
        var i :| 0 <= i < |Reporters(req)| && Reporters(req)[i].rank == k;
        assert who[i] == k;
      }
    }
  }

  lemma FreshIs(r: Round, req: Request)
    requires ValidRequest(req)
    ensures Fresh(r, req) <==> Contributors(req) !! r.seen
  {
    NamesAre(req);
    hide Contributors, Names;
    if Fresh(r, req) {
      forall k | k in Contributors(req)
        ensures k !in r.seen
      {
        assert Names(req, k);
      }
    }
  }

  lemma DifferIs(a: Manifest, b: Manifest)
    ensures Differ(a, b) <==> !SameModel(a, b)
  {
  }

  // ---- what becomes of a post ----

  /** Why a post fails its round, if it does: its model first, then what it sends, then its payload. */
  ghost function Blame(r: Round, req: Request): Option<Fault>
    requires r.acc.Some? && WellFormed(r.acc.value)
  {
    if OtherModel(r, req) then Some(ModelsDiffer)
    else if OtherKind(r, req) then Some(KindsDiffer)
    else if Unfit(r, req) then Some(BadPayload)
    else None
  }

  /** What a post to an undecided round does to it: it fails it exactly when it is to blame, and otherwise is in it if none of its
      ranks was; and the first model given is the one the others are compared with. */
  ghost predicate Received(r: Round, r': Round, req: Request)
    requires r.acc.Some? && WellFormed(r.acc.value)
  {
    && r'.err == Blame(r, req)
    && r'.posts == (if r'.err.None? && Fresh(r, req) then r.posts + [req] else r.posts)
    && r'.manifest == (if r.opening && req.rank !in r.seen && req.manifest.Some? && r.manifest.None? then req.manifest
                       else r.manifest)
    && (if r'.err.None? && Fresh(r, req) then JoinedBy(r, r', req) else r'.parts == r.parts)
  }

  /** One contribution more: for exactly the post's ranks, and weighed by its samples. */
  ghost predicate JoinedBy(r: Round, r': Round, req: Request) {
    && |r'.parts| == |r.parts| + 1 && r'.parts[..|r.parts|] == r.parts
    && (forall k: nat :: k in r'.parts[|r.parts|].who <==> Names(req, k))
    && r'.parts[|r.parts|].w == SampleWeight(req.samples)
  }

  /** What the checks find before a contribution is folded in. */
  lemma CheckedIs(r: Round, req: Request)
    requires ValidRequest(req) && r.err.None?
    ensures var r1 := Checked(r, req);
      && r1.manifest == (if r.opening && req.rank !in r.seen && req.manifest.Some? && r.manifest.None? then req.manifest
                         else r.manifest)
      && r1.err == if OtherModel(r, req) then Some(ModelsDiffer) else if OtherKind(r, req) then Some(KindsDiffer) else None
  {
    FreshIs(r, req);
    if r.manifest.Some? && req.manifest.Some? {
      DifferIs(r.manifest.value, req.manifest.value);
    }
    hide Contributors, SameModel, Differ, Fresh;
  }

  lemma FoldedIs(r: Round, req: Request)
    requires ValidRequest(req) && SoundRound(r) && r.acc.Some? && r.err.None?
    ensures WellFormed(r.acc.value)
    ensures var r' := Folded(r, req);
      && r'.err == (if Unfit(r, req) then Some(BadPayload) else None) && r'.manifest == r.manifest
      && r'.posts == (if r'.err.None? && Fresh(r, req) then r.posts + [req] else r.posts)
      && (if r'.err.None? && Fresh(r, req) then JoinedBy(r, r', req) else r'.parts == r.parts)
  {
    FreshIs(r, req);
    NamesAre(req);
    AddDecodes(r.acc.value, req.payload, ScalesOf(req), req.samples);
    hide Contributors, Names, Fresh, Decode, Add, SampleWeight;
  }

  lemma FoldedIsReceived(r: Round, req: Request)
    requires ValidRequest(req) && SoundRound(r) && !Decided(r)
    ensures WellFormed(r.acc.value) && Received(r, Folded(Checked(r, req), req), req)
  {
    CheckedIs(r, req);
    var r1 := Checked(r, req);
    assert Fresh(r1, req) <==> Fresh(r, req);
    assert WellFormed(r.acc.value) && (Unfit(r1, req) <==> Unfit(r, req));
    if r1.err.None? {
      FoldedIs(r1, req);
      hide Checked, Folded, OtherModel, OtherKind, Unfit, Fresh, SampleWeight, Names;
    } else {
      hide Checked, OtherModel, OtherKind, Unfit, Fresh, SampleWeight, Names;
    }
  }

  lemma AddDecodes(a: Acc, p: Payload, scales: seq<real>, samples: int)
    requires WellFormed(a) && |scales| > 0
    ensures Add(a, p, scales, samples).1 <==> Decode(a, p, scales).Some?
  {
  }

  lemma ArriveIsReceived(run: Run, r: Round, req: Request)
    requires ValidRequest(req) && SoundRun(run) && SoundRound(r) && !Decided(r) && run.aborted.None?
    ensures WellFormed(r.acc.value)
    ensures var (run', r') := Arrive(run, r, req); Received(r, r', req) && run'.aborted == r'.err
  {
    FoldedIsReceived(r, req);
    hide Folded, Checked, Blame, Fresh, MeanResidual, SoundRun, LiveIn, ExpectedCount;
  }

  /** A post the lead takes, to a round still undecided: the round fails, and with it the run, exactly when the post brings another
      model, sends something else, or does not fit; one that agrees and fits is never blamed. */
  lemma PostIsJudged(s: State, req: Request, c: Choice)
    requires Sound(s) && Accepts(s, req, c)
    requires var (s1, id) := RoundFor(s, req).value; !Decided(s1.rounds[id])
    ensures var (s1, id) := RoundFor(s, req).value;
      var r, t := s1.rounds[id], Post(s, req, c);
      && id < |t.rounds| && r.acc.Some? && WellFormed(r.acc.value)
      && Received(r, t.rounds[id], req) && t.run.aborted == Blame(r, req)
  {
    var (s1, id) := RoundFor(s, req).value;
    var r := s1.rounds[id];
    var run1, r1 := Heard(s.run, req, c), r.(expected := Awaited(s.run.ring.dropped, req.world));
    HeardLater(s.run, req, c);
    assert SoundRound(r1) && Landed(s.run, r, req, c) == Arrive(run1, r1, req);
    assert s.run.aborted.None?;
    ArriveIsReceived(run1, r1, req);
    ReceivedAnyway(r, r1, Arrive(run1, r1, req).1, req);
    hide Heard, Arrive, ChoiceFits, SoundRun, SoundRound, Received, Blame, NewRound, Decided;
  }

  /** How many ranks the round waits for has no part in it. */
  lemma ReceivedAnyway(r: Round, r1: Round, r': Round, req: Request)
    requires r.acc.Some? && WellFormed(r.acc.value) && r1 == r.(expected := r1.expected) && Received(r1, r', req)
    ensures Received(r, r', req)
  {
    hide Names, Differ, Decode;
  }

  /** The first sync of a run, which is also its start barrier. */
  ghost predicate IsFirst(req: Request) {
    req.shard == 0 && req.seqNo == 1 && req.kind == "weights"
  }

  /** A round can be begun for this post: it says how many elements of which width, and its segments, if it gives several, add up. */
  ghost predicate CanBegin(req: Request) {
    req.count > 0 && req.dtype.Some?
    && (|req.counts| > 1 ==> (forall i | 0 <= i < |req.counts| :: req.counts[i] > 0) && IntTotal(req.counts) == req.count)
  }

  /** A post is taken exactly when it is well-formed, the ring has not stopped, its rank has not missed the start it comes for, and the
      round it is for is of its ring's size or can be begun; else it changes nothing. */
  lemma PostTakenIff(s: State, req: Request, c: Choice)
    requires Sound(s) && (ValidRequest(req) ==> ChoiceFits(s.run, req, c))
    ensures var key := Key(req.seqNo, if req.shard > 0 then req.shard else 0);
      if ValidRequest(req) && s.run.aborted.None? && !(IsFirst(req) && req.rank in s.run.ring.dropped)
        && (if key in s.open then s.rounds[s.open[key]].world == req.world else CanBegin(req))
      then
        && Accepts(s, req, c) && |Post(s, req, c).tickets| == |s.tickets| + 1
        && Post(s, req, c).tickets[..|s.tickets|] == s.tickets
      else !Accepts(s, req, c) && Post(s, req, c) == s
  {
    hide ChoiceFits, SoundRound, SoundRun, Landed;
    if ValidRequest(req) {
      var key := KeyOf(req);
      BeginsIff(req);
      if key !in s.open {
        assert RoundFor(s, req).Some? <==> NewRound(req).Some?;
      }
      hide NewRound;
      if RoundFor(s, req).Some? {
        FoundOrMade(s, req);
      }
    }
  }

  lemma BeginsIff(req: Request)
    requires ValidRequest(req)
    ensures NewRound(req).Some? <==> CanBegin(req)
  {
  }

  // ---- what no other step does ----

  /** What stays of a round at every step but a post to it; a timeout may end the run. */
  ghost predicate Kept(r: Round, r': Round, late: bool) {
    && r'.parts == r.parts && r'.posts == r.posts && r'.manifest == r.manifest && r'.kind == r.kind && r'.opening == r.opening
    && r'.key == r.key && (r'.err == r.err || (late && r.err.None? && r'.err == Some(PeersGone)))
  }

  ghost predicate AllKept(s: State, s': State, late: bool) {
    |s'.rounds| == |s.rounds| && forall i | 0 <= i < |s.rounds| :: Kept(s.rounds[i], s'.rounds[i], late)
  }

  lemma CloseReadyKept(s: State, key: Key)
    requires Sound(s)
    ensures AllKept(s, CloseReady(s, key), false)
  {
    hide MeanResidual, SoundRun, Closable;
  }

  lemma {:induction false} CloseAllKept(s: State, order: seq<Key>)
    requires Sound(s)
    ensures AllKept(s, CloseAll(s, order), false)
  {
    if order != [] {
      CloseAllKept(s, order[..|order| - 1]);
      CloseReadyKept(CloseAll(s, order[..|order| - 1]), order[|order| - 1]);
      hide CloseReady;
    }
  }

  lemma MarkDownKept(s: State, rank: nat, world: nat, order: seq<Key>)
    requires Sound(s)
    ensures AllKept(s, MarkDown(s, rank, world, order), false)
  {
    hide CloseAll, WithoutRank, SoundRound;
    var run := Sized(s.run, world);
    if rank < run.ring.world && rank !in run.ring.dropped {
      var run1 := WithoutRank(run, rank);
      CloseAllKept(s.(run := Publish(run1, run1.lastSeq + 1, RingNow(run1, Down(rank)))), order);
    }
  }

  lemma {:induction false} DropMissingKept(s: State, id: nat, n: nat, orders: seq<seq<Key>>)
    requires Sound(s) && id < |s.rounds| && n <= |orders|
    ensures AllKept(s, DropMissing(s, id, n, orders), false)
  {
    hide MarkDown, SoundRun, SoundRound;
    if n > 0 {
      DropMissingKept(s, id, n - 1, orders);
      MarkDownKept(DropMissing(s, id, n - 1, orders), n - 1, s.rounds[id].world, orders[n - 1]);
    }
  }

  lemma ShutKept(run: Run, r: Round, rank: nat)
    requires SoundRun(run) && SoundRound(r) && !Decided(r)
    ensures Kept(r, Shut(run, r, rank).1, true)
  {
    hide Closable, SoundRun, MeanResidual, LiveIn;
  }

  lemma ExpireKept(s: State, key: Key, rank: nat, orders: seq<seq<Key>>)
    requires Sound(s) && OrdersFit(s, key, orders)
    ensures AllKept(s, Expire(s, key, rank, orders).0, true)
  {
    hide DropMissing, Closable, SoundRun, Enumerates, Shut;
    var s' := Expire(s, key, rank, orders).0;
    if s' != s {
      var id := s.open[key];
      var (run, r') := Shut(s.run, s.rounds[id], rank);
      var s1 := s.(run := run, rounds := s.rounds[id := r']);
      ShutKept(s.run, s.rounds[id], rank);
      if s' != s1 {
        DropMissingKept(s1, id, |orders|, orders);
      }
    }
  }

  lemma StepKept(s: State, e: Event)
    requires Sound(s) && !e.PostEvent?
    ensures AllKept(s, Step(s, e), e.TimeOutEvent?)
  {
    hide MarkDown, Expire, SoundRun, SoundRound, Admit, Protocol.Taken, Told;
    match e
    case TimeOutEvent(i, orders) =>
      if TimeOut(s, i, orders) != s {
        ExpireKept(s, s.tickets[i].key, s.tickets[i].rank, orders);
      }
    case DownEvent(rank, world, order) => MarkDownKept(s, rank, world, order);
    case _ =>
  }

  // ---- what a post does to the rounds ----

  /** A post leaves every round but its own as it was, and its own too once that is decided. */
  ghost predicate Posted(s: State, s': State, req: Request) {
    && |s.rounds| <= |s'.rounds| <= |s.rounds| + 1
    && (forall i | 0 <= i < |s.rounds| ::
          Kept(s.rounds[i], s'.rounds[i], false)
          || (!Decided(s.rounds[i]) && s.rounds[i].acc.Some? && WellFormed(s.rounds[i].acc.value) && ValidRequest(req)
              && Received(s.rounds[i], s'.rounds[i], req) && SameName(s.rounds[i], s'.rounds[i])))
    && (|s.rounds| < |s'.rounds| ==> ValidRequest(req) && Began(s'.rounds[|s.rounds|], req))
  }

  ghost predicate SameName(r: Round, r': Round) {
    r'.kind == r.kind && r'.opening == r.opening && r'.key == r.key
  }

  /** A round just begun by this post: it opens the run exactly for the first sync of weights, whole or its first shard. */
  ghost predicate Began(r: Round, req: Request)
    requires ValidRequest(req)
  {
    && r.kind == req.kind && r.key.seqNo == req.seqNo
    && (r.opening <==> req.shard == 0 && req.seqNo == 1 && req.kind == "weights")
    && (r.opening ==> r.key == Key(1, 0))
    && exists r0: Round ::
      && r0.acc.Some? && WellFormed(r0.acc.value) && r0.posts == [] && r0.parts == [] && r0.seen == {} && r0.manifest.None?
      && r0.err.None? && SameName(r0, r) && Received(r0, r, req)
  }

  lemma FoundOrMade(s: State, req: Request)
    requires Sound(s) && ValidRequest(req) && RoundFor(s, req).Some?
    ensures var (s1, id) := RoundFor(s, req).value;
      if KeyOf(req) in s.open then s1 == s && id < |s.rounds|
      else (id == |s.rounds| == |s1.rounds| - 1 && !Decided(s1.rounds[id]) && s1.rounds[id].world == req.world
            && s1.rounds[..id] == s.rounds)
  {
    hide SoundRound, SoundRun;
  }

  lemma PostIsPosted(s: State, req: Request, c: Choice)
    requires Sound(s) && Safe(s)
    ensures Posted(s, Post(s, req, c), req)
  {
    hide PostTo, ChoiceFits, SoundRound, SoundRun, NewRound, Received, Began, Healthy, Decided;
    if Post(s, req, c) != s {
      var (s1, id) := RoundFor(s, req).value;
      FoundOrMade(s, req);
      PostToPosted(s1, id, req, c);
      var t := Post(s, req, c);
      assert t == PostTo(s1, id, req, c);
      forall i | 0 <= i < |s.rounds| && i != id
        ensures t.rounds[i] == s.rounds[i]
      {
        assert t.rounds[i] == s1.rounds[i];
        assert id == |s.rounds| ==> s1.rounds[..id][i] == s.rounds[i];
      }
      if id == |s.rounds| {
        NewBegins(s, s1, id, req, t.rounds[id]);
      }
    }
  }

  lemma PostToPosted(s: State, id: nat, req: Request, c: Choice)
    requires Sound(s) && id < |s.rounds| && ValidRequest(req) && ChoiceFits(s.run, req, c)
    requires s.rounds[id].key == KeyOf(req) && s.run.aborted.None?
    ensures var r, t := s.rounds[id], PostTo(s, id, req, c);
      && t.rounds == s.rounds[id := t.rounds[id]] && SameName(r, t.rounds[id])
      && (if Decided(r) then Kept(r, t.rounds[id], false)
          else r.acc.Some? && WellFormed(r.acc.value) && Received(r, t.rounds[id], req))
  {
    var r := s.rounds[id];
    var run1, r1 := Heard(s.run, req, c), r.(expected := Awaited(s.run.ring.dropped, req.world));
    HeardLater(s.run, req, c);
    assert SoundRound(r1) && Landed(s.run, r, req, c) == Arrive(run1, r1, req);
    ArriveSameName(run1, r1, req);
    if !Decided(r) {
      ArriveIsReceived(run1, r1, req);
      ReceivedAnyway(r, r1, Arrive(run1, r1, req).1, req);
    }
    hide Heard, ChoiceFits, SoundRun, Received, Folded, Checked, MeanResidual, Closable, LiveIn;
  }

  lemma FoldSameName(r: Round, req: Request)
    requires ValidRequest(req) && SoundRound(r) && !Decided(r)
    ensures SameName(r, Folded(Checked(r, req), req))
  {
    hide Contributors, Decode, Add, SameModel;
  }

  lemma ArriveSameName(run: Run, r: Round, req: Request)
    requires ValidRequest(req) && SoundRun(run) && SoundRound(r)
    ensures SameName(r, Arrive(run, r, req).1)
  {
    if !Decided(r) {
      FoldSameName(r, req);
    }
    hide MeanResidual, SoundRun, LiveIn, ExpectedCount, Folded, Checked;
  }

  lemma NewBegins(s: State, s1: State, id: nat, req: Request, r': Round)
    requires Sound(s) && ValidRequest(req) && RoundFor(s, req) == Some((s1, id)) && id == |s.rounds| && id < |s1.rounds|
    requires s1.rounds[id].acc.Some? && WellFormed(s1.rounds[id].acc.value) && Received(s1.rounds[id], r', req)
    requires SameName(s1.rounds[id], r')
    ensures |s1.rounds| == |s.rounds| + 1 && s1.rounds[..|s.rounds|] == s.rounds && Began(r', req)
  {
    hide Received, SoundRound, SoundRun;
    var r0 := s1.rounds[id];
    assert r0 == NewRound(req).value;
  }

  // ---- over whole runs ----

  /** Every contribution is that of a post: of its ranks, at its samples' weight. */
  ghost predicate FromPosts(r: Round) {
    && |r.posts| == |r.parts|
    && forall j | 0 <= j < |r.posts| ::
      && (forall k: nat :: k in r.parts[j].who <==> Names(r.posts[j], k))
      && r.parts[j].w == SampleWeight(r.posts[j].samples)
  }

  /** The contributions of the run's first round come with models that agree with the first one given; a post may be for other ranks
      than its sender's, and then its model is its sender's business. */
  ghost predicate OneModel(r: Round) {
    r.opening ==> forall j | 0 <= j < |r.posts| && r.posts[j].manifest.Some? && Names(r.posts[j], r.posts[j].rank) ::
      r.posts[j].rank >= 0 ==> r.manifest.Some? && !Differ(r.manifest.value, r.posts[j].manifest.value)
  }

  /** All contributions are of the kind the round was begun for, as far as they say. */
  ghost predicate OneKind(r: Round) {
    forall j | 0 <= j < |r.posts| :: r.posts[j].kind == "" || r.kind == "" || r.posts[j].kind == r.kind
  }

  /** Only the first sync of weights, whole or its first shard, opens the run. */
  ghost predicate OpeningIsFirst(r: Round) {
    r.opening ==> r.key == Key(1, 0) && r.kind == "weights"
  }

  ghost predicate Agreed(r: Round) {
    FromPosts(r) && OneModel(r) && OneKind(r) && OpeningIsFirst(r)
  }

  ghost predicate AllAgree(s: State) {
    forall i | 0 <= i < |s.rounds| :: Agreed(s.rounds[i])
  }

  lemma KeptAgrees(r: Round, r': Round, late: bool)
    requires Agreed(r) && Kept(r, r', late)
    ensures Agreed(r')
  {
    hide Names, Differ;
  }

  lemma ReceivedAgrees(r: Round, r': Round, req: Request)
    requires r.acc.Some? && WellFormed(r.acc.value) && Received(r, r', req) && SameName(r, r') && Agreed(r)
    ensures Agreed(r')
  {
    ReceivedParts(r, r', req);
    ReceivedModel(r, r', req);
    hide Names, Differ, Received, FromPosts, OneModel;
    assert OneKind(r') by { ReceivedKind(r, r', req); }
  }

  lemma ReceivedParts(r: Round, r': Round, req: Request)
    requires r.acc.Some? && WellFormed(r.acc.value) && Received(r, r', req) && FromPosts(r)
    ensures FromPosts(r')
  {
    hide Names, Blame, Fresh, SampleWeight;
    forall j | 0 <= j < |r'.posts|
      ensures (forall k: nat :: k in r'.parts[j].who <==> Names(r'.posts[j], k)) && r'.parts[j].w == SampleWeight(r'.posts[j].samples)
    {
      if j < |r.posts| {
        assert |r'.parts| > |r.parts| ==> r'.parts[..|r.parts|][j] == r.parts[j];
      }
    }
  }

  lemma ReceivedKind(r: Round, r': Round, req: Request)
    requires r.acc.Some? && WellFormed(r.acc.value) && Received(r, r', req) && SameName(r, r') && OneKind(r)
    ensures OneKind(r')
  {
    hide Names, Differ, Decode, Fresh;
  }

  lemma ReceivedModel(r: Round, r': Round, req: Request)
    requires r.acc.Some? && WellFormed(r.acc.value) && Received(r, r', req) && SameName(r, r') && OneModel(r)
    ensures OneModel(r')
  {
    SameDoesNotDiffer(req.manifest);
    hide Names, Differ, Decode;
    if r'.posts != r.posts && Names(req, req.rank) && req.rank >= 0 {
      var k: nat := req.rank;
      assert Names(req, k) && k !in r.seen;
    }
  }

  lemma SameDoesNotDiffer(m: Option<Manifest>)
    ensures m.Some? ==> !Differ(m.value, m.value)
  {
  }

  lemma BeganAgrees(r: Round, req: Request)
    requires ValidRequest(req) && Began(r, req)
    ensures Agreed(r)
  {
    var r0: Round :|
      && r0.acc.Some? && WellFormed(r0.acc.value) && r0.posts == [] && r0.parts == [] && r0.seen == {} && r0.manifest.None?
      && r0.err.None? && SameName(r0, r) && Received(r0, r, req);
    assert OpeningIsFirst(r0);
    hide Received, Names, Differ;
    ReceivedAgrees(r0, r, req);
  }

  lemma PostAgrees(s: State, s': State, req: Request)
    requires AllAgree(s) && Posted(s, s', req)
    ensures AllAgree(s')
  {
    hide Agreed, Received, Kept, Began, SameName, Decided;
    forall i | 0 <= i < |s'.rounds|
      ensures Agreed(s'.rounds[i])
    {
      if i == |s.rounds| {
        BeganAgrees(s'.rounds[i], req);
      } else if Kept(s.rounds[i], s'.rounds[i], false) {
        KeptAgrees(s.rounds[i], s'.rounds[i], false);
      } else {
        ReceivedAgrees(s.rounds[i], s'.rounds[i], req);
      }
    }
  }

  lemma StepAgrees(s: State, e: Event)
    requires Sound(s) && Safe(s) && AllAgree(s)
    ensures AllAgree(Step(s, e))
  {
    if e.PostEvent? {
      assert Step(s, e) == Post(s, e.req, e.choice);
      PostIsPosted(s, e.req, e.choice);
      hide *;
      PostAgrees(s, Post(s, e.req, e.choice), e.req);
    } else {
      hide Step, Agreed, Safe;
      StepKept(s, e);
      forall i | 0 <= i < |s.rounds|
        ensures Agreed(Step(s, e).rounds[i])
      {
        KeptAgrees(s.rounds[i], Step(s, e).rounds[i], e.TimeOutEvent?);
      }
    }
  }

  /** Over every interleaving: each contribution in a round is a post's, for exactly its ranks; the contributions of the run's first
      round come with models that agree with the first one given; and those of every round are of one kind. */
  lemma {:induction false} RanksAgree(events: seq<Event>)
    ensures AllAgree(Exec(Start(), events))
  {
    if events == [] {
    } else {
      var front, e := events[..|events| - 1], events[|events| - 1];
      assert Exec(Start(), events) == Step(Exec(Start(), front), e);
      hide *;
      RunsFromStart(front);
      RanksAgree(front);
      StepAgrees(Exec(Start(), front), e);
    }
  }

  /** So any two of them have the same shapes, and the same types wherever the first one given has a type. */
  lemma AnyTwoAgree(r: Round, a: nat, b: nat)
    requires OneModel(r) && r.opening && a < |r.posts| && b < |r.posts|
    requires forall j | j == a || j == b :: r.posts[j].manifest.Some? && 0 <= r.posts[j].rank && Names(r.posts[j], r.posts[j].rank)
    ensures var x, y := r.posts[a].manifest.value, r.posts[b].manifest.value;
      && r.manifest.Some? && x.shapes == y.shapes
      && forall i | 0 <= i < |x.shapes| && i < |x.dtypes| && i < |y.dtypes| && i < |r.manifest.value.dtypes| ::
        x.dtypes[i] == y.dtypes[i]
  {
    var m, x, y := r.manifest.value, r.posts[a].manifest.value, r.posts[b].manifest.value;
    assert !Differ(m, x) && !Differ(m, y);
  }

  /** Where it has none the others are not compared: two ranks may then train on tensors of two types. */
  lemma UntypedFirstHidesTypes()
    ensures var first, x, y := Manifest([[4]], []), Manifest([[4]], ["float32"]), Manifest([[4]], ["float64"]);
      !Differ(first, x) && !Differ(first, y) && Differ(x, y)
  {
    var x, y := Manifest([[4]], ["float32"]), Manifest([[4]], ["float64"]);
    assert "float32" != "float64" by { assert "float32"[5] != "float64"[5]; }
    assert x.dtypes[0] != y.dtypes[0];
  }

  // ---- every fault has its cause ----

  /** This event gave the round its fault, for this reason. */
  ghost predicate Causes(s: State, s': State, e: Event, i: nat) {
    && i < |s'.rounds| && s'.rounds[i].err.Some? && (i < |s.rounds| ==> s.rounds[i].err.None?)
    && match s'.rounds[i].err.value
      case PeersGone => e.TimeOutEvent? && i < |s.rounds|
      case ModelsDiffer => e.PostEvent? && i < |s.rounds| && OtherModel(s.rounds[i], e.req)
      case KindsDiffer => e.PostEvent? && i < |s.rounds| && OtherKind(s.rounds[i], e.req)
      case BadPayload => e.PostEvent? && (i < |s.rounds| ==>
        s.rounds[i].acc.Some? && WellFormed(s.rounds[i].acc.value) && Unfit(s.rounds[i], e.req))
  }

  lemma ReceivedFault(r: Round, r': Round, req: Request)
    requires r.acc.Some? && WellFormed(r.acc.value) && Received(r, r', req) && r'.err.Some?
    ensures match r'.err.value
      case PeersGone => false
      case ModelsDiffer => OtherModel(r, req)
      case KindsDiffer => OtherKind(r, req)
      case BadPayload => Unfit(r, req)
  {
    hide OtherModel, OtherKind, Unfit, Fresh;
  }

  /** A round just begun fails only on its payload. */
  lemma BeganFault(r: Round, req: Request)
    requires ValidRequest(req) && Began(r, req) && r.err.Some?
    ensures r.err == Some(BadPayload)
  {
    var r0: Round :|
      && r0.acc.Some? && WellFormed(r0.acc.value) && r0.posts == [] && r0.parts == [] && r0.seen == {} && r0.manifest.None?
      && r0.err.None? && SameName(r0, r) && Received(r0, r, req);
    hide Names, Differ, Fresh, Decode;
  }

  lemma PostCauses(s: State, t: State, e: Event, i: nat)
    requires e.PostEvent? && Posted(s, t, e.req) && i < |t.rounds| && t.rounds[i].err.Some?
    requires i < |s.rounds| ==> s.rounds[i].err.None?
    ensures Causes(s, t, e, i)
  {
    hide Received, Began, OtherModel, OtherKind, Unfit, Decided;
    if i == |s.rounds| {
      BeganFault(t.rounds[i], e.req);
    } else {
      ReceivedFault(s.rounds[i], t.rounds[i], e.req);
    }
  }

  lemma StepCauses(s: State, e: Event, i: nat)
    requires Sound(s) && Safe(s) && i < |Step(s, e).rounds| && Step(s, e).rounds[i].err.Some?
    requires i < |s.rounds| ==> s.rounds[i].err.None?
    ensures Causes(s, Step(s, e), e, i)
  {
    if e.PostEvent? {
      assert Step(s, e) == Post(s, e.req, e.choice);
      hide *;
      PostIsPosted(s, e.req, e.choice);
      PostCauses(s, Post(s, e.req, e.choice), e, i);
    } else {
      hide Step, Safe, OtherModel, OtherKind, Unfit, SoundRun, SoundRound;
      StepKept(s, e);
    }
  }

  /** The n-th event of the run gave this round its fault. */
  ghost predicate CausedAt(events: seq<Event>, n: nat, i: nat) {
    n < |events| && Causes(Exec(Start(), events[..n]), Exec(Start(), events[..n + 1]), events[n], i)
  }

  /** Over every interleaving a failed round was failed by one event: a post with another model than the first one given, a post of
      another kind, a payload that does not fit, or a timeout. */
  lemma {:induction false} FaultsHaveCauses(events: seq<Event>, i: nat) returns (n: nat)
    requires i < |Exec(Start(), events).rounds| && Exec(Start(), events).rounds[i].err.Some?
    ensures CausedAt(events, n, i)
  {
    hide *;
    NothingYet();
    var front, e := events[..|events| - 1], events[|events| - 1];
    assert events == front + [e];
    OneEventMore(front, e);
    if i < |Exec(Start(), front).rounds| && Exec(Start(), front).rounds[i].err.Some? {
      n := FaultsHaveCauses(front, i);
      CausedEarlier(front, e, n, i);
    } else {
      n := |front|;
      RunsFromStart(front);
      StepCauses(Exec(Start(), front), e, i);
      CausedLast(front, e, i);
    }
  }

  lemma CausedEarlier(front: seq<Event>, e: Event, n: nat, i: nat)
    requires CausedAt(front, n, i)
    ensures CausedAt(front + [e], n, i)
  {
    assert (front + [e])[..n] == front[..n] && (front + [e])[..n + 1] == front[..n + 1];
    hide Exec, Causes;
  }

  lemma CausedLast(front: seq<Event>, e: Event, i: nat)
    requires Causes(Exec(Start(), front), Step(Exec(Start(), front), e), e, i)
    ensures CausedAt(front + [e], |front|, i)
  {
    hide *;
    OneEventMore(front, e);
    assert (front + [e])[..|front|] == front && (front + [e])[..|front| + 1] == front + [e];
    CausedIs(front + [e], |front|, i);
  }

  lemma CausedIs(events: seq<Event>, n: nat, i: nat)
    requires n < |events| && Causes(Exec(Start(), events[..n]), Exec(Start(), events[..n + 1]), events[n], i)
    ensures CausedAt(events, n, i)
  {
    hide Exec, Causes;
  }

  // ---- a round its handler gives up on ----

  /** Exactly one rank of the round is one the ring still has. */
  ghost predicate OneLeft(dropped: set<nat>, r: Round) {
    exists k | k in r.seen && k !in dropped :: forall j | j in r.seen && j !in dropped :: j == k
  }

  lemma OneLeftIs(dropped: set<nat>, r: Round)
    ensures OneLeft(dropped, r) <==> LiveIn(r.seen, dropped) == 1
  {
    var live := r.seen - dropped;
    if |live| == 1 {
      var k :| k in live;
      Subsize({k}, live);
      assert k in r.seen && k !in dropped && forall j | j in r.seen && j !in dropped :: j in live;
    }
    if OneLeft(dropped, r) {
      var k :| k in r.seen && k !in dropped && forall j | j in r.seen && j !in dropped :: j == k;
      assert live == {k};
    }
  }

  /** How many the round waits for is the number last set, or its size when that is out of bounds. */
  ghost predicate WaitsForTwo(r: Round) {
    if r.expected <= 0 || r.expected > r.world then r.world >= 2 else r.expected >= 2
  }

  /** A timeout on a round somebody is in: it ends the run exactly when the round is neither the run's first nor held for a handover,
      waits for more than one rank, and has in it the asking rank and exactly one rank the ring still has. Otherwise it closes the
      round with whoever is there, and stops nothing. */
  lemma TimeOutEndsRunIff(s: State, key: Key, rank: nat, orders: seq<seq<Key>>)
    requires Sound(s) && Safe(s) && OrdersFit(s, key, orders) && key in s.open
    requires var r := s.rounds[s.open[key]]; !Decided(r) && r.acc.value.count > 0
    ensures var r, t := s.rounds[s.open[key]], Expire(s, key, rank, orders).0;
      var r' := t.rounds[s.open[key]];
      if !r.opening && !r.held && WaitsForTwo(r) && rank in r.seen && OneLeft(s.run.ring.dropped, r) then
        r'.err == Some(PeersGone) && r'.result.None? && t.run.aborted.Some?
      else r'.err.None? && r'.result.Some? && r'.closing == Short && t.run.aborted == s.run.aborted
  {
    var id := s.open[key];
    var r := s.rounds[id];
    OneLeftIs(s.run.ring.dropped, r);
    ShutIs(s.run, r, rank);
    ExpireIsShut(s, key, rank, orders);
    hide Shut, Expire, OneLeft, LiveIn, WaitsForTwo, Enumerates, Safe, SoundRun, Closable;
  }

  lemma ShutIsSafe(s: State, id: nat, rank: nat)
    requires Sound(s) && Safe(s) && id < |s.rounds| && !Decided(s.rounds[id]) && exists k | k in s.open :: s.open[k] == id
    ensures var (run, r1) := Shut(s.run, s.rounds[id], rank);
      var s1 := s.(run := run, rounds := s.rounds[id := r1]);
      Sound(s1) && Safe(s1) && Decided(r1)
  {
    var r := s.rounds[id];
    var (run, r1) := Shut(s.run, r, rank);
    ShutKeeps(s.run, r, rank);
    ShutIs(s.run, r, rank);
    OneRound(s, s.(run := run, rounds := s.rounds[id := r1]), id, r1);
    hide Shut, MeanResidual, Closable, SoundRun, Healthy, LiveIn;
  }

  /** Dropping the ranks that missed the start changes nothing about how the round was closed. */
  lemma ExpireIsShut(s: State, key: Key, rank: nat, orders: seq<seq<Key>>)
    requires Sound(s) && Safe(s) && OrdersFit(s, key, orders) && key in s.open
    requires var r := s.rounds[s.open[key]]; !Decided(r) && r.acc.value.count > 0
    ensures var id := s.open[key];
      var (run, r1) := Shut(s.run, s.rounds[id], rank);
      var t := Expire(s, key, rank, orders).0;
      && t.run.aborted == run.aborted && t.rounds[id].err == r1.err && t.rounds[id].result == r1.result
      && t.rounds[id].closing == r1.closing
  {
    var id := s.open[key];
    var (run, r1) := Shut(s.run, s.rounds[id], rank);
    var s1 := s.(run := run, rounds := s.rounds[id := r1]);
    ShutIsSafe(s, id, rank);
    hide Shut, Closable, SoundRun, Enumerates, Healthy, Safe, DropMissed;
    if r1.opening && r1.err.None? {
      DropMissedKeeps(s1, id, orders);
      DropMissedAbort(s1, id, orders);
      assert RoundLater(r1, DropMissed(s1, id, orders).rounds[id]);
    }
  }

  lemma ShutIs(run: Run, r: Round, rank: nat)
    requires SoundRun(run) && SoundRound(r) && !Decided(r)
    ensures var (run', r') := Shut(run, r, rank);
      if !r.opening && !r.held && WaitsForTwo(r) && rank in r.seen && LiveIn(r.seen, run.ring.dropped) == 1 then
        r'.err == Some(PeersGone) && r'.result.None? && run'.aborted.Some?
      else r'.err.None? && r'.result.Some? && r'.closing == Short && run'.aborted == run.aborted && r'.opening == r.opening
  {
    hide MeanResidual, LiveIn;
  }

  lemma {:induction false} CloseAllAbort(s: State, order: seq<Key>)
    requires Sound(s)
    ensures CloseAll(s, order).run.aborted == s.run.aborted
  {
    if order != [] {
      CloseAllAbort(s, order[..|order| - 1]);
      hide CloseAll, MeanResidual, SoundRun, SoundRound;
    }
  }

  lemma {:induction false} DropMissingAbort(s: State, id: nat, n: nat, orders: seq<seq<Key>>)
    requires Sound(s) && id < |s.rounds| && n <= |orders|
    ensures DropMissing(s, id, n, orders).run.aborted == s.run.aborted
  {
    hide MarkDown, SoundRun, SoundRound;
    if n > 0 {
      DropMissingAbort(s, id, n - 1, orders);
      MarkDownAbort(DropMissing(s, id, n - 1, orders), n - 1, s.rounds[id].world, orders[n - 1]);
    }
  }

  lemma MarkDownAbort(s: State, rank: nat, world: nat, order: seq<Key>)
    requires Sound(s)
    ensures MarkDown(s, rank, world, order).run.aborted == s.run.aborted
  {
    hide CloseAll, SoundRound, SharesWithout, JoinWithout;
    var run := Sized(s.run, world);
    if rank < run.ring.world && rank !in run.ring.dropped {
      var run1 := WithoutRank(run, rank);
      CloseAllAbort(s.(run := Publish(run1, run1.lastSeq + 1, RingNow(run1, Down(rank)))), order);
    }
  }

  lemma DropMissedAbort(s: State, id: nat, orders: seq<seq<Key>>)
    requires Sound(s) && id < |s.rounds| && |orders| == s.rounds[id].world
    ensures DropMissed(s, id, orders).run.aborted == s.run.aborted
  {
    DropMissingAbort(s, id, |orders|, orders);
    hide DropMissing, SoundRun, SoundRound;
  }

  /** While the asking rank is one of the ring's, a timeout never ends the run of a round another such rank is in. */
  lemma CompanyGoesOn(s: State, key: Key, rank: nat, other: nat, orders: seq<seq<Key>>)
    requires Sound(s) && Safe(s) && OrdersFit(s, key, orders) && key in s.open
    requires var r := s.rounds[s.open[key]];
      && !Decided(r) && r.acc.value.count > 0
      && rank !in s.run.ring.dropped && other in r.seen && other !in s.run.ring.dropped && other != rank
    ensures var t := Expire(s, key, rank, orders).0;
      t.rounds[s.open[key]].result.Some? && t.run.aborted == s.run.aborted
  {
    hide Expire, Safe, SoundRun, SoundRound, WaitsForTwo, Enumerates;
    TimeOutEndsRunIff(s, key, rank, orders);
    hide Sound, OrdersFit;
  }
}
