/** Who hears of a change to the ring, and when: each rank once, and all of them at the same sync. */
module Notes {
  import opened Wrappers
  import opened Vectors
  import opened Reduce
  import opened Messages
  import opened Rebalance
  import opened Protocol
  import opened Rounds
  import opened Verdicts

  // ---- what holds of the notes ----

  /** The note in force is the last one published, and it starts no later than the next sync. */
  ghost predicate NewsFit(run: Run) {
    var p := run.news.published;
    if p == [] then run.news.note.None?
    else run.news.note == Some(p[|p| - 1].note) && run.news.noteSeq == p[|p| - 1].start <= run.lastSeq + 1
  }

  /** The sync the note in force at an answer starts at. */
  function StartOf(run: Run, a: Answer): int {
    if 0 < a.pub <= |run.news.published| then run.news.published[a.pub - 1].start else 0
  }

  /** An answer carries at most the note that was in force, and never before the sync the note starts at. */
  ghost predicate Carries(run: Run, a: Answer) {
    && (a.lead ==> a.seqNo <= run.lastSeq)
    && a.pub <= |run.news.published|
    && (a.note.Some? ==> a.lead && a.pub > 0 && a.note == Some(run.news.published[a.pub - 1].note)
                         && a.seqNo >= StartOf(run, a))
  }

  /** No rank is given a note twice, and the one it is given comes with its first answer from the note's start on. */
  ghost predicate OnceAndFirst(run: Run, answers: seq<Answer>) {
    forall i, j | 0 <= i < j < |answers| && answers[i].rank == answers[j].rank && answers[j].note.Some? ::
      && (answers[i].note.Some? ==> answers[i].pub != answers[j].pub)
      && (answers[i].lead ==> answers[i].seqNo < StartOf(run, answers[j]))
  }

  /** Every rank marked as told has the note in force from one of its answers, the joiners excused from it apart; every
      rank answered since the note's start is marked. */
  ghost predicate ToldFit(run: Run, answers: seq<Answer>) {
    && (forall k | k in run.news.told && k !in run.news.excused :: Has(answers, k, |run.news.published|))
    && (forall i | 0 <= i < |answers| && answers[i].note.Some? && answers[i].pub == |run.news.published| ::
          answers[i].rank in run.news.told)
    && (run.news.published != [] ==>
          forall i | 0 <= i < |answers| && answers[i].lead && answers[i].seqNo >= run.news.noteSeq ::
            answers[i].rank in run.news.told)
  }

  ghost predicate Has(answers: seq<Answer>, k: nat, pub: nat) {
    exists i | 0 <= i < |answers| :: answers[i].rank == k && answers[i].pub == pub && answers[i].note.Some?
  }

  ghost predicate NotesFit(run: Run, answers: seq<Answer>) {
    && NewsFit(run)
    && (forall i | 0 <= i < |answers| :: Carries(run, answers[i]))
    && OnceAndFirst(run, answers)
    && ToldFit(run, answers)
  }

  ghost predicate LeadsKnown(s: State) {
    forall i | 0 <= i < |s.tickets| && s.tickets[i].lead :: s.tickets[i].key.seqNo <= s.run.lastSeq
  }

  // ---- publishing ----

  /** The notes move on: nothing published, or new notes that start after every sync so far and nobody told. */
  ghost predicate NewsLater(run: Run, run': Run) {
    && run.lastSeq <= run'.lastSeq && run.news.published <= run'.news.published
    && (forall i | |run.news.published| <= i < |run'.news.published| :: run'.news.published[i].start > run.lastSeq)
    && (|run'.news.published| == |run.news.published| ==> run'.news == run.news)
    && (|run'.news.published| > |run.news.published| ==> run'.news.told == {} && run'.news.excused == {} && NewsFit(run'))
  }

  lemma NewsTrans(a: Run, b: Run, c: Run)
    requires NewsLater(a, b) && NewsLater(b, c)
    ensures NewsLater(a, c)
  {
  }

  lemma NewsSame(a: Run, b: Run, c: Run)
    requires NewsLater(a, b) && c.news == b.news && c.lastSeq == b.lastSeq
    ensures NewsLater(a, c)
  {
  }

  /** News moving on keeps everything: no answer so far is from the new note's start or later. */
  lemma NewsKeeps(run: Run, run': Run, answers: seq<Answer>)
    requires NotesFit(run, answers) && NewsLater(run, run')
    ensures NotesFit(run', answers)
  {
    forall i | 0 <= i < |answers|
      ensures Carries(run', answers[i])
    {
      assert Carries(run, answers[i]);
    }
    if |run'.news.published| > |run.news.published| {
      forall i | 0 <= i < |answers|
        ensures answers[i].pub < |run'.news.published| && (answers[i].lead ==> answers[i].seqNo < run'.news.noteSeq)
      {
        assert Carries(run, answers[i]);
      }
    }
  }

  // ---- answering ----

  /** One contributor's answer. */
  lemma OneTold(run: Run, told: set<nat>, answers: seq<Answer>, t: Ticket, rank: nat, outcome: Outcome)
    requires NotesFit(run.(news := run.news.(told := told)), answers) && (t.lead ==> t.key.seqNo <= run.lastSeq)
    ensures var now := run.(news := run.news.(told := told));
      var due := t.lead && Due(now, rank, t.key.seqNo);
      var a := Answer(rank, t.key.seqNo, t.lead, t.round, outcome, |run.news.published|, if due then run.news.note else None);
      NotesFit(now.(news := now.news.(told := if due then told + {rank} else told)), answers + [a])
  {
    var now := run.(news := run.news.(told := told));
    var due := t.lead && Due(now, rank, t.key.seqNo);
    var a := Answer(rank, t.key.seqNo, t.lead, t.round, outcome, |run.news.published|, if due then run.news.note else None);
    var later := now.(news := now.news.(told := if due then told + {rank} else told));
    var all := answers + [a];
    forall i | 0 <= i < |all|
      ensures Carries(later, all[i])
    {
      assert i < |answers| ==> Carries(now, answers[i]);
    }
    OnceStays(now, later, answers, a);
    forall k | k in later.news.told && k !in later.news.excused
      ensures Has(all, k, |run.news.published|)
    {
      if k in told {
        assert Has(answers, k, |run.news.published|);
        var i :| 0 <= i < |answers| && answers[i].rank == k && answers[i].pub == |run.news.published| && answers[i].note.Some?;
        assert all[i] == answers[i];
      } else {
        assert all[|answers|] == a;
      }
    }
  }

  lemma OnceStays(now: Run, later: Run, answers: seq<Answer>, a: Answer)
    requires NotesFit(now, answers) && later.news == now.news.(told := later.news.told) && later.lastSeq == now.lastSeq
    requires a.note.Some? ==> a.rank !in now.news.told && a.pub == |now.news.published| > 0
    requires forall i | 0 <= i < |answers + [a]| :: Carries(later, (answers + [a])[i])
    ensures OnceAndFirst(later, answers + [a])
  {
    var all := answers + [a];
    forall i, j | 0 <= i < j < |all| && all[i].rank == all[j].rank && all[j].note.Some?
      ensures all[i].note.Some? ==> all[i].pub != all[j].pub
      ensures all[i].lead ==> all[i].seqNo < StartOf(now, all[j])
    {
      assert all[i] == answers[i];
      if j < |answers| {
        assert all[j] == answers[j];
      }
    }
  }

  lemma {:induction false} ToldKeeps(run: Run, answers: seq<Answer>, t: Ticket, r: Round, who: seq<nat>)
    requires NotesFit(run, answers) && (t.lead ==> t.key.seqNo <= run.lastSeq)
    ensures var (told, said) := Told(run, t, r, who);
      NotesFit(run.(news := run.news.(told := told)), answers + said)
  {
    if who == [] {
      assert answers + [] == answers;
    } else {
      var (told, said) := Told(run, t, r, who[..|who| - 1]);
      ToldKeeps(run, answers, t, r, who[..|who| - 1]);
      OneTold(run, told, answers + said, t, who[|who| - 1], OutcomeOf(r));
      hide NotesFit;
      var last := Told(run, t, r, who).1;
      assert answers + last == (answers + said) + [last[|said|]];
    }
  }

  // ---- every step ----

  lemma SettledNews(run: Run, r: Round)
    requires SoundRun(run) && SoundRound(r) && !Decided(r)
    ensures Settled(run, r).0 == run.(residual := Settled(run, r).0.residual)
  {
    hide MeanResidual;
  }

  lemma CloseReadyNews(s: State, key: Key)
    requires Sound(s)
    ensures CloseReady(s, key).run == s.run.(residual := CloseReady(s, key).run.residual)
  {
    hide Settled, SoundRun, Closable;
    if key in s.open && !Decided(s.rounds[s.open[key]]) {
      SettledNews(s.run, s.rounds[s.open[key]]);
    }
  }

  lemma {:induction false} CloseAllNews(s: State, order: seq<Key>)
    requires Sound(s)
    ensures CloseAll(s, order).run == s.run.(residual := CloseAll(s, order).run.residual)
  {
    if order != [] {
      var front, key := order[..|order| - 1], order[|order| - 1];
      assert CloseAll(s, order) == CloseReady(CloseAll(s, front), key);
      hide *;
      CloseAllNews(s, front);
      CloseReadyNews(CloseAll(s, front), key);
    }
  }

  lemma MarkDownNews(s: State, rank: nat, world: nat, order: seq<Key>)
    requires Sound(s)
    ensures NewsLater(s.run, MarkDown(s, rank, world, order).run)
  {
    hide CloseAll;
    var run := Sized(s.run, world);
    if rank < run.ring.world && rank !in run.ring.dropped {
      var run1 := WithoutRank(run, rank);
      CloseAllNews(s.(run := Publish(run1, run1.lastSeq + 1, RingNow(run1, Down(rank)))), order);
    }
  }

  lemma {:induction false} DropMissingNews(s: State, id: nat, n: nat, orders: seq<seq<Key>>)
    requires Sound(s) && id < |s.rounds| && n <= |orders|
    ensures NewsLater(s.run, DropMissing(s, id, n, orders).run)
  {
    hide MarkDown, SoundRun, SoundRound;
    if n > 0 {
      var s1, s' := DropMissing(s, id, n - 1, orders), DropMissing(s, id, n, orders);
      var world, order := s.rounds[id].world, orders[n - 1];
      assert s' == s1 || s' == MarkDown(s1, n - 1, world, order);
      hide *;
      DropMissingNews(s, id, n - 1, orders);
      if s' != s1 {
        MarkDownNews(s1, n - 1, world, order);
        NewsTrans(s.run, s1.run, s'.run);
      }
    }
  }

  lemma DropMissedNews(s: State, id: nat, orders: seq<seq<Key>>)
    requires Sound(s) && id < |s.rounds| && |orders| == s.rounds[id].world
    ensures NewsLater(s.run, DropMissed(s, id, orders).run)
  {
    hide SoundRun, SoundRound, DropMissing;
    var s1 := DropMissing(s, id, s.rounds[id].world, orders);
    DropMissingNews(s, id, s.rounds[id].world, orders);
    if DropMissed(s, id, orders) != s {
      NewsTrans(s.run, s1.run, DropMissed(s, id, orders).run);
    }
  }

  lemma ExpireNews(s: State, key: Key, rank: nat, orders: seq<seq<Key>>)
    requires Sound(s) && OrdersFit(s, key, orders)
    ensures NewsLater(s.run, Expire(s, key, rank, orders).0.run)
  {
    hide Shut, DropMissed, Closable, SoundRun, Enumerates;
    var s' := Expire(s, key, rank, orders).0;
    if s' != s {
      var id := s.open[key];
      var (run, r') := Shut(s.run, s.rounds[id], rank);
      var s1 := s.(run := run, rounds := s.rounds[id := r']);
      ShutRun(s.run, s.rounds[id], rank);
      if s' != s1 {
        DropMissedNews(s1, id, orders);
        NewsTrans(s.run, s1.run, s'.run);
      }
    }
  }

  lemma LeadNews(run: Run, req: Request, c: Choice)
    requires ValidRequest(req) && SoundRun(run) && ChoiceFits(run, req, c)
    ensures NewsLater(run, LeadPart(run, req, c)) && (req.shard == 0 ==> LeadPart(run, req, c).lastSeq >= req.seqNo)
  {
    if req.shard == 0 && Advances(run, req) {
      RebalanceNews(LeadFields(run, req), c);
    }
    hide RebalanceFor, IsSolo, IsDiLoCo, Fitting;
  }

  lemma RebalanceNews(run: Run, c: Choice)
    requires SoundRun(run) && (OnCadence(run) ==> Offered(run, c))
    ensures RebalanceFor(run, c).0.news == run.news && RebalanceFor(run, c).0.lastSeq == run.lastSeq
  {
    hide PlanRebalance, SoundRun;
  }

  lemma HeardNews(run: Run, req: Request, c: Choice)
    requires ValidRequest(req) && SoundRun(run) && ChoiceFits(run, req, c)
    ensures NewsLater(run, Heard(run, req, c)) && (req.shard == 0 ==> Heard(run, req, c).lastSeq >= req.seqNo)
  {
    LeadNews(run, req, c);
    hide LeadPart, ChoiceFits, Fitting;
  }

  lemma LandedNews(run: Run, r: Round, req: Request, c: Choice)
    requires ValidRequest(req) && SoundRun(run) && SoundRound(r) && ChoiceFits(run, req, c)
    ensures NewsLater(run, Landed(run, r, req, c).0)
    ensures req.shard == 0 ==> Landed(run, r, req, c).0.lastSeq >= req.seqNo
  {
    hide Heard, ChoiceFits, SoundRun, SoundRound, Landed, NewsLater;
    HeardNews(run, req, c);
    LandedRun(run, r, req, c);
    NewsSame(run, Heard(run, req, c), Landed(run, r, req, c).0);
  }

  /** Every step but an answer and the end of a handover. */
  lemma StepNews(s: State, e: Event)
    requires Sound(s) && LeadsKnown(s) && !e.ReplyEvent? && !e.TakenEvent?
    ensures NewsLater(s.run, Step(s, e).run)
  {
    hide SoundRound, SoundRun, MarkDown, Expire, Post, Enumerates;
    match e
    case PostEvent(req, c) =>
      if Post(s, req, c) != s {
        PostNews(s, req, c);
      }
    case PollEvent(i) =>
    case TimeOutEvent(i, orders) =>
      if TimeOut(s, i, orders) != s {
        ExpireNews(s, s.tickets[i].key, s.tickets[i].rank, orders);
      }
    case LeaveEvent(i) =>
    case DownEvent(rank, world, order) => MarkDownNews(s, rank, world, order);
    case JoinEvent(rank, check) =>
    case PutEvent(_, _) =>
  }

  lemma PostNews(s: State, req: Request, c: Choice)
    requires Sound(s)
    ensures NewsLater(s.run, Post(s, req, c).run)
    ensures forall i | |s.tickets| <= i < |Post(s, req, c).tickets| && Post(s, req, c).tickets[i].lead ::
      Post(s, req, c).tickets[i].key.seqNo <= Post(s, req, c).run.lastSeq
  {
    hide Landed, ChoiceFits, SoundRound, SoundRun, NewRound;
    if ValidRequest(req) && !TurnedAway(s.run, req) && ChoiceFits(s.run, req, c) && RoundFor(s, req).Some? {
      var (s1, id) := RoundFor(s, req).value;
      LandedNews(s1.run, s1.rounds[id], req, c);
    }
  }

  // ---- over whole runs ----

  ghost predicate Informed(s: State) {
    NotesFit(s.run, s.answers) && LeadsKnown(s)
  }

  lemma StepLeads(s: State, e: Event)
    requires Sound(s) && LeadsKnown(s)
    ensures LeadsKnown(Step(s, e))
  {
    hide SoundRound, SoundRun, MarkDown, Expire, Post, Told;
    match e
    case PostEvent(req, c) => PostLeads(s, req, c);
    case TimeOutEvent(i, orders) =>
      if TimeOut(s, i, orders) != s {
        ExpireNews(s, s.tickets[i].key, s.tickets[i].rank, orders);
      }
    case DownEvent(rank, world, order) => MarkDownNews(s, rank, world, order);
    case _ =>
  }

  lemma PostLeads(s: State, req: Request, c: Choice)
    requires Sound(s) && LeadsKnown(s)
    ensures LeadsKnown(Post(s, req, c))
  {
    PostNews(s, req, c);
    assert forall i | 0 <= i < |s.tickets| :: i < |Post(s, req, c).tickets| && Post(s, req, c).tickets[i] == s.tickets[i] by {
      hide Landed, ChoiceFits, SoundRound, SoundRun, NewRound, NewsLater;
    }
    hide Post;
  }

  /** The joiner loads the ring as it now is, so the note in force is not news to it. */
  lemma TakenKeeps(run: Run, answers: seq<Answer>, id: nat)
    requires SoundRun(run) && NotesFit(run, answers)
    ensures NotesFit(Taken(run, id), answers)
  {
    assert Taken(run, id).lastSeq == run.lastSeq;
    forall i | 0 <= i < |answers|
      ensures Carries(Taken(run, id), answers[i])
    {
      assert Carries(run, answers[i]);
    }
  }

  lemma StepInforms(s: State, e: Event)
    requires Sound(s) && Informed(s)
    ensures Informed(Step(s, e))
  {
    StepLeads(s, e);
    if e.ReplyEvent? {
      hide SoundRound, SoundRun, Told, NotesFit, LeadsKnown;
      if Step(s, e) != s {
        assert LeadsKnown(s);
        var t := s.tickets[e.ticket];
        var r := Fetched(s.rounds[t.round], t.who);
        LeadAt(s, e.ticket);
        ToldKeeps(s.run, s.answers, t, r, t.who);
      }
    } else if e.TakenEvent? {
      hide LeadsKnown;
      if Step(s, e) != s {
        TakenKeeps(s.run, s.answers, e.join);
      }
    } else {
      hide *;
      StepNews(s, e);
      StepAnswers(s, e);
      NewsKeeps(s.run, Step(s, e).run, s.answers);
      Informs(s, Step(s, e));
    }
  }

  lemma Informs(s: State, s': State)
    requires NotesFit(s'.run, s.answers) && s'.answers == s.answers && LeadsKnown(s')
    ensures Informed(s')
  {
  }

  lemma LeadAt(s: State, i: nat)
    requires LeadsKnown(s) && i < |s.tickets|
    ensures s.tickets[i].lead ==> s.tickets[i].key.seqNo <= s.run.lastSeq
  {
  }

  lemma {:induction false} RunsInform(events: seq<Event>)
    ensures Informed(Exec(Start(), events))
  {
    if events == [] {
    } else {
      var front, e := events[..|events| - 1], events[|events| - 1];
      assert Exec(Start(), events) == Step(Exec(Start(), front), e);
      hide *;
      RunsInform(front);
      StepInforms(Exec(Start(), front), e);
    }
  }

  // ---- what the ranks see ----

  /** What an answer with a note carries, and that no other answer to the same rank carries it. */
  ghost predicate GivenAt(run: Run, answers: seq<Answer>, i: nat)
    requires i < |answers|
  {
    && answers[i].lead && 0 < answers[i].pub <= |run.news.published|
    && answers[i].note == Some(run.news.published[answers[i].pub - 1].note)
    && answers[i].seqNo >= run.news.published[answers[i].pub - 1].start
    && (forall j | 0 <= j < |answers| && j != i && answers[j].note.Some? && answers[j].rank == answers[i].rank ::
          answers[j].pub != answers[i].pub)
  }

  lemma FitGivesOnce(run: Run, answers: seq<Answer>, i: nat)
    requires NotesFit(run, answers) && i < |answers| && answers[i].note.Some?
    ensures GivenAt(run, answers, i)
  {
    hide ToldFit, NewsFit;
    assert Carries(run, answers[i]);
    forall j | 0 <= j < |answers| && j != i && answers[j].note.Some? && answers[j].rank == answers[i].rank
      ensures answers[j].pub != answers[i].pub
    {
      assert i < j || j < i;
    }
  }

  /** Over every interleaving a rank is given a note at most once, and never on an answer to a sync before the note's start
      or to a shard above the first; what it is given is the note that was in force. */
  lemma GivenOnce(events: seq<Event>, i: nat)
    requires i < |Exec(Start(), events).answers| && Exec(Start(), events).answers[i].note.Some?
    ensures GivenAt(Exec(Start(), events).run, Exec(Start(), events).answers, i)
  {
    RunsInform(events);
    hide Exec, NotesFit, LeadsKnown, GivenAt;
    FitGivesOnce(Exec(Start(), events).run, Exec(Start(), events).answers, i);
  }

  /** A note is lost with the ring only: the answer that carries it tells its rank to stop only if the run has been aborted. */
  lemma LostOnlyWithTheRing(events: seq<Event>, i: nat)
    requires i < |Exec(Start(), events).answers| && Exec(Start(), events).answers[i].outcome.Abort?
    ensures Exec(Start(), events).run.aborted.Some?
  {
    hide *;
    AnswersFitAlways(events);
    AbortStops(Exec(Start(), events), i);
  }

  lemma AbortStops(s: State, i: nat)
    requires Safe(s) && AnswersFit(s) && i < |s.answers| && s.answers[i].outcome.Abort?
    ensures s.run.aborted.Some?
  {
    hide Accounted, Summed, Complete, OneVerdict;
    assert AnswerFits(s.rounds, s.answers[i]);
    assert Healthy(s.run.ring.dropped, s.run.aborted.Some?, s.rounds[s.answers[i].round]);
  }

  /** The rank's answers go up by at most one sync at a time from this one on: it never skips a sync. */
  ghost predicate InStep(answers: seq<Answer>, k: nat, from: int) {
    forall i | 0 <= i < |answers| && answers[i].lead && answers[i].rank == k && answers[i].seqNo > from ::
      exists j | 0 <= j < i :: answers[j].lead && answers[j].rank == k && answers[j].seqNo >= answers[i].seqNo - 1
  }

  lemma TakenAtStart(run: Run, answers: seq<Answer>, i: nat, from: int)
    requires NotesFit(run, answers) && i < |answers| && answers[i].note.Some?
    requires InStep(answers, answers[i].rank, from) && from <= StartOf(run, answers[i])
    ensures answers[i].seqNo == StartOf(run, answers[i])
  {
    hide ToldFit, NewsFit;
    var a := answers[i];
    assert Carries(run, a);
  }

  /** A rank that skips no sync is given a note with its answer to the very sync the note starts at, so all such ranks
      take the change at the same sync, whatever else is published before or after. */
  lemma TakenTogether(events: seq<Event>, i: nat, from: int)
    requires i < |Exec(Start(), events).answers| && Exec(Start(), events).answers[i].note.Some?
    requires InStep(Exec(Start(), events).answers, Exec(Start(), events).answers[i].rank, from)
    requires from <= StartOf(Exec(Start(), events).run, Exec(Start(), events).answers[i])
    ensures Exec(Start(), events).answers[i].seqNo == StartOf(Exec(Start(), events).run, Exec(Start(), events).answers[i])
  {
    RunsInform(events);
    hide Exec, NotesFit, InStep, StartOf, LeadsKnown;
    TakenAtStart(Exec(Start(), events).run, Exec(Start(), events).answers, i, from);
  }

  lemma GivenFrom(run: Run, answers: seq<Answer>, k: nat) returns (j: nat)
    requires NotesFit(run, answers) && k in run.news.told && k !in run.news.excused
    ensures j < |answers| && answers[j].rank == k && answers[j].note == run.news.note
    ensures answers[j].pub == |run.news.published| && answers[j].seqNo >= run.news.noteSeq && answers[j].note.Some?
  {
    hide OnceAndFirst;
    assert Has(answers, k, |run.news.published|);
    j :| 0 <= j < |answers| && answers[j].rank == k && answers[j].pub == |run.news.published| && answers[j].note.Some?;
    assert Carries(run, answers[j]);
  }

  lemma ReachedBy(run: Run, answers: seq<Answer>, i: nat) returns (j: nat)
    requires NotesFit(run, answers) && i < |answers| && run.news.published != []
    requires answers[i].lead && answers[i].seqNo >= run.news.noteSeq && answers[i].rank !in run.news.excused
    ensures j <= i && answers[j].rank == answers[i].rank
    ensures answers[j].note == run.news.note && answers[j].pub == |run.news.published|
  {
    j := GivenFrom(run, answers, answers[i].rank);
    hide ToldFit;
  }

  /** Until a newer note replaces it, the note in force has reached every rank answered since its start: each was given it
      with that answer or an earlier one, a joiner that loaded the ring since apart. */
  lemma ReachesEveryone(events: seq<Event>, i: nat) returns (j: nat)
    requires var s := Exec(Start(), events);
      && i < |s.answers| && s.run.news.published != []
      && s.answers[i].lead && s.answers[i].seqNo >= s.run.news.noteSeq && s.answers[i].rank !in s.run.news.excused
    ensures var s := Exec(Start(), events);
      && j <= i && s.answers[j].rank == s.answers[i].rank
      && s.answers[j].note == s.run.news.note && s.answers[j].pub == |s.run.news.published|
  {
    RunsInform(events);
    hide Exec, NotesFit, LeadsKnown;
    j := ReachedBy(Exec(Start(), events).run, Exec(Start(), events).answers, i);
  }

  /** Every rank marked as told has the note in force from an answer of its own, or has loaded the ring since it was made. */
  lemma ToldMeansGiven(events: seq<Event>, k: nat) returns (j: nat)
    requires k in Exec(Start(), events).run.news.told && k !in Exec(Start(), events).run.news.excused
    ensures var s := Exec(Start(), events);
      && j < |s.answers| && s.answers[j].rank == k && s.answers[j].note.Some? && s.answers[j].note == s.run.news.note
      && s.answers[j].pub == |s.run.news.published|
  {
    RunsInform(events);
    hide Exec, NotesFit, LeadsKnown;
    j := GivenFrom(Exec(Start(), events).run, Exec(Start(), events).answers, k);
  }
}
