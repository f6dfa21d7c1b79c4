/** What the ranks hear: one verdict per round, the same bytes for everybody, and the mean of exactly the contributions
    folded in. */
module Verdicts {
  import opened Wrappers
  import opened Vectors
  import opened Reduce
  import opened Messages
  import opened Protocol
  import opened Rounds

  // ---- the verdict ----

  /** Over every interleaving a round gets one verdict, a result or a fault and never both; it is done exactly then, and
      whatever happens afterwards the verdict stays. */
  lemma VerdictIsFinal(events: seq<Event>, more: seq<Event>, i: nat)
    requires i < |Exec(Start(), events).rounds|
    ensures var r := Exec(Start(), events).rounds[i];
      (r.done <==> Decided(r)) && !(r.result.Some? && r.err.Some?)
    ensures var s, s' := Exec(Start(), events), Exec(Exec(Start(), events), more);
      i < |s'.rounds| && (Decided(s.rounds[i]) ==> SameVerdict(s.rounds[i], s'.rounds[i]))
  {
    var s := Exec(Start(), events);
    hide *;
    RunsFromStart(events);
    RunsAreSafe(s, more);
    VerdictAt(s, Exec(s, more), i);
  }

  lemma NothingYet()
    ensures var s := Exec(Start(), []); s.rounds == [] && s.answers == [] && s.run.news.published == []
  {
  }

  lemma OneEventMore(front: seq<Event>, e: Event)
    ensures Exec(Start(), front + [e]) == Step(Exec(Start(), front), e)
  {
    assert (front + [e])[..|front|] == front;
    hide Step;
  }

  lemma RunsFromStart(events: seq<Event>)
    ensures Safe(Exec(Start(), events))
  {
    StartIsSafe();
    hide *;
    RunsAreSafe(Start(), events);
  }

  lemma VerdictAt(s: State, s': State, i: nat)
    requires Safe(s) && Later(s, s') && i < |s.rounds|
    ensures (s.rounds[i].done <==> Decided(s.rounds[i])) && !(s.rounds[i].result.Some? && s.rounds[i].err.Some?)
    ensures i < |s'.rounds| && (Decided(s.rounds[i]) ==> SameVerdict(s.rounds[i], s'.rounds[i]))
  {
    hide Accounted, Summed, Complete, RunLater, OffLater, SameVerdict;
    assert Healthy(s.run.ring.dropped, s.run.aborted.Some?, s.rounds[i]) && RoundLater(s.rounds[i], s'.rounds[i]);
  }

  lemma {:induction false} RanksInASum(parts: seq<Part>, k: nat)
    requires k in Everyone(parts)
    ensures exists i | 0 <= i < |parts| :: k in parts[i].who
  {
    if k in parts[|parts| - 1].who {
    } else {
      RanksInASum(parts[..|parts| - 1], k);
      var i :| 0 <= i < |parts| - 1 && k in parts[..|parts| - 1][i].who;
      assert parts[i] == parts[..|parts| - 1][i];
    }
  }

  /** The result is the weighted mean of the contributions folded in: itself, or as an int8 reply that carries the residual. */
  ghost predicate ClosedOnMean(r: Round)
    requires r.result.Some?
  {
    && r.closed.Some? && Uniform(r.parts, |r.closed.value.0.sum|)
    && Closable(r.closed.value.0) && |r.closed.value.1| == |r.closed.value.0.sum|
    && Mean(r.closed.value.0) == WeightedMean(r.parts, |r.closed.value.0.sum|)
    && r.result.value == MeanResidual(r.closed.value.0, r.closed.value.1).0
    && (!r.closed.value.0.dtype.I8? ==> r.result.value == Exact(WeightedMean(r.parts, |r.closed.value.0.sum|)))
  }

  /** However often a rank or a machine's combined contribution is retried, it is folded in once: the ranks seen are those
      of contributions no two of which share a rank, and the result is the weighted mean of those contributions. */
  lemma FoldedExactlyOnce(events: seq<Event>, i: nat)
    requires i < |Exec(Start(), events).rounds|
    ensures var r := Exec(Start(), events).rounds[i];
      && (forall a, b | 0 <= a < b < |r.parts| :: r.parts[a].who !! r.parts[b].who)
      && (forall k :: k in r.seen <==> exists a | 0 <= a < |r.parts| :: k in r.parts[a].who)
    ensures Exec(Start(), events).rounds[i].result.Some? ==> ClosedOnMean(Exec(Start(), events).rounds[i])
  {
    var s := Exec(Start(), events);
    assert Healthy(s.run.ring.dropped, s.run.aborted.Some?, s.rounds[i]) by {
      hide *;
      RunsFromStart(events);
      HealthyAt(s, i);
    }
    hide Exec;
    FoldedOnce(s.run.ring.dropped, s.run.aborted.Some?, s.rounds[i]);
  }

  lemma HealthyAt(s: State, i: nat)
    requires Safe(s) && i < |s.rounds|
    ensures Healthy(s.run.ring.dropped, s.run.aborted.Some?, s.rounds[i])
  {
  }

  lemma FoldedOnce(dropped: set<nat>, stopped: bool, r: Round)
    requires Healthy(dropped, stopped, r)
    ensures forall a, b | 0 <= a < b < |r.parts| :: r.parts[a].who !! r.parts[b].who
    ensures forall k :: k in r.seen <==> exists a | 0 <= a < |r.parts| :: k in r.parts[a].who
    ensures r.result.Some? ==> ClosedOnMean(r)
  {
    hide MeanResidual;
    forall k
      ensures k in r.seen <==> exists a | 0 <= a < |r.parts| :: k in r.parts[a].who
    {
      if k in r.seen {
        RanksInASum(r.parts, k);
      }
      forall a | 0 <= a < |r.parts| && k in r.parts[a].who
        ensures k in r.seen
      {
        EveryoneHas(r.parts, a);
      }
    }
    assert r.result.Some? && !r.closed.value.0.dtype.I8? ==> r.result.value == Exact(Mean(r.closed.value.0)) by {
      ExactReply(r);
    }
  }

  lemma ExactReply(r: Round)
    requires Summed(r)
    ensures r.result.Some? && !r.closed.value.0.dtype.I8? ==> r.result.value == Exact(Mean(r.closed.value.0))
  {
  }

  /** A round that closed on neither a timeout nor a fault has a contribution from every rank below its size the ring still
      has, and an open one never expects fewer ranks than the ring still has, although the number it expects is cached. */
  lemma FullHasEveryone(events: seq<Event>, i: nat)
    requires i < |Exec(Start(), events).rounds|
    ensures var s := Exec(Start(), events);
      var r := s.rounds[i];
      && (r.result.Some? && !r.closing.Short? ==> forall k: nat | k < r.world && k !in s.run.ring.dropped :: k in r.seen)
      && ExpectedCount(r) >= Awaited(s.run.ring.dropped, r.world)
      && (r.err.Some? ==> s.run.aborted.Some?)
  {
    var s := Exec(Start(), events);
    hide *;
    RunsFromStart(events);
    FullAt(s, i);
  }

  lemma FullAt(s: State, i: nat)
    requires Safe(s) && i < |s.rounds|
    ensures var r := s.rounds[i];
      && (r.result.Some? && !r.closing.Short? ==> forall k: nat | k < r.world && k !in s.run.ring.dropped :: k in r.seen)
      && ExpectedCount(r) >= Awaited(s.run.ring.dropped, r.world)
      && (r.err.Some? ==> s.run.aborted.Some?)
  {
    hide Accounted, Summed;
    assert Healthy(s.run.ring.dropped, s.run.aborted.Some?, s.rounds[i]);
  }

  // ---- what the ranks hear ----

  ghost predicate AnswerFits(rounds: seq<Round>, a: Answer) {
    && a.round < |rounds|
    && match a.outcome {
      case Payload(None) => true
      case Payload(Some(x)) => rounds[a.round].result == Some(x)
      case Abort(why) => rounds[a.round].err == Some(why)
    }
  }

  ghost predicate AnswersFit(s: State) {
    forall i | 0 <= i < |s.answers| :: AnswerFits(s.rounds, s.answers[i])
  }

  ghost predicate TicketsFit(s: State) {
    forall i | 0 <= i < |s.tickets| ::
      s.tickets[i].round < |s.rounds| && s.rounds[s.tickets[i].round].key == s.tickets[i].key && s.tickets[i].who != []
  }

  lemma {:induction false} ToldAnswers(run: Run, t: Ticket, r: Round, who: seq<nat>)
    ensures var said := Told(run, t, r, who).1;
      && |said| == |who|
      && forall i | 0 <= i < |said| :: said[i].rank == who[i] && said[i].round == t.round && said[i].outcome == OutcomeOf(r)
                                       && said[i].seqNo == t.key.seqNo && said[i].lead == t.lead
                                       && said[i].pub == |run.news.published|
                                       && (said[i].note.Some? ==> said[i].note == run.news.note)
  {
    if who != [] {
      ToldAnswers(run, t, r, who[..|who| - 1]);
    }
  }

  /** A reply takes its handler's key off the board exactly when, with it, as many ranks have been answered as the round waited for, or
      the round failed. */
  lemma LeavesIff(s: State, i: nat)
    requires Sound(s) && i < |s.tickets| && Ready(s, s.tickets[i])
    ensures var t := s.tickets[i]; var r := s.rounds[t.round];
      var enough := if 0 < r.expected <= r.world then r.expected else r.world;
      Serve(s, i).open ==
        if |r.fetched + set k | k in t.who| >= enough || r.err.Some? then map key | key in s.open && key != t.key :: s.open[key]
        else s.open
  {
    hide SoundRun, SoundRound, Told;
  }

  lemma AnswersLater(s: State, s': State)
    requires Safe(s) && Later(s, s') && AnswersFit(s)
    ensures forall i | 0 <= i < |s.answers| :: AnswerFits(s'.rounds, s.answers[i])
  {
    hide Healthy, RunLater, OffLater;
    forall i | 0 <= i < |s.answers|
      ensures AnswerFits(s'.rounds, s.answers[i])
    {
      assert AnswerFits(s.rounds, s.answers[i]) && RoundLater(s.rounds[s.answers[i].round], s'.rounds[s.answers[i].round]);
    }
  }

  /** Only a reply adds answers. */
  lemma StepAnswers(s: State, e: Event)
    requires Sound(s) && !e.ReplyEvent?
    ensures Step(s, e).answers == s.answers
  {
    hide MarkDown, Landed, Expire, SoundRun, SoundRound, ChoiceFits, NewRound, Admit, Taken;
  }

  lemma AnswersKeep(s: State, e: Event)
    requires Sound(s) && Safe(s) && AnswersFit(s)
    ensures AnswersFit(Step(s, e))
  {
    var s' := Step(s, e);
    StepKeeps(s, e);
    AnswersLater(s, s');
    if e.ReplyEvent? {
      if s' != s {
        var t := s.tickets[e.ticket];
        ToldAnswers(s.run, t, Fetched(s.rounds[t.round], t.who), t.who);
        hide Healthy, RunLater, OffLater, Told, SoundRun, SoundRound;
      }
    } else {
      StepAnswers(s, e);
    }
  }

  lemma {:induction false} AnswersFitAlways(events: seq<Event>)
    ensures Safe(Exec(Start(), events)) && AnswersFit(Exec(Start(), events))
  {
    if events == [] {
    } else {
      var front, e := events[..|events| - 1], events[|events| - 1];
      assert Exec(Start(), events) == Step(Exec(Start(), front), e);
      hide *;
      AnswersFitAlways(front);
      StepKeeps(Exec(Start(), front), e);
      AnswersKeep(Exec(Start(), front), e);
    }
  }

  lemma AgreeAt(s: State, i: nat, j: nat)
    requires Safe(s) && AnswersFit(s) && i < |s.answers| && j < |s.answers| && s.answers[i].round == s.answers[j].round
    requires s.answers[i].outcome != Payload(None) && s.answers[j].outcome != Payload(None)
    ensures s.answers[i].outcome == s.answers[j].outcome
  {
    hide Accounted, Summed, Complete;
    assert AnswerFits(s.rounds, s.answers[i]) && AnswerFits(s.rounds, s.answers[j]);
    assert Healthy(s.run.ring.dropped, s.run.aborted.Some?, s.rounds[s.answers[i].round]);
  }

  /** All answers served from one round object agree: the same bytes for every rank, or the same fault for every rank. */
  lemma AnswersAgree(events: seq<Event>, i: nat, j: nat)
    requires i < |Exec(Start(), events).answers| && j < |Exec(Start(), events).answers|
    requires Exec(Start(), events).answers[i].round == Exec(Start(), events).answers[j].round
    requires Exec(Start(), events).answers[i].outcome != Payload(None)
    requires Exec(Start(), events).answers[j].outcome != Payload(None)
    ensures Exec(Start(), events).answers[i].outcome == Exec(Start(), events).answers[j].outcome
  {
    hide *;
    AnswersFitAlways(events);
    AgreeAt(Exec(Start(), events), i, j);
  }

  // ---- answers without content ----

  lemma StepTickets(s: State, e: Event)
    requires Sound(s)
    ensures TicketsMove(s, Step(s, e), e)
  {
    hide MarkDown, Landed, Expire, SoundRun, SoundRound, ChoiceFits, NewRound, Admit, Taken, Told;
  }

  /** What a step may do to the handlers, the event's own timeout apart. */
  ghost predicate TicketsMove(s: State, s': State, e: Event) {
    && |s.tickets| <= |s'.tickets|
    && (forall i | 0 <= i < |s.tickets| && s'.tickets[i] != s.tickets[i] ::
          s'.tickets[i].wait.Left? || (e.TimeOutEvent? && e.late == i))
    && (forall i | |s.tickets| <= i < |s'.tickets| :: s'.tickets[i].wait.Waiting? && s'.tickets[i].round < |s'.rounds|
          && s'.rounds[s'.tickets[i].round].key == s'.tickets[i].key && s'.tickets[i].who != [])
  }

  lemma TicketsKeep(s: State, e: Event)
    requires Sound(s) && Safe(s) && TicketsFit(s)
    ensures TicketsFit(Step(s, e)) && Later(s, Step(s, e)) && TicketsMove(s, Step(s, e), e)
  {
    hide *;
    StepKeeps(s, e);
    StepTickets(s, e);
    TicketsMoved(s, Step(s, e), e);
  }

  lemma TicketsMoved(s: State, s': State, e: Event)
    requires TicketsFit(s) && Later(s, s') && TicketsMove(s, s', e)
    ensures TicketsFit(s')
  {
    hide RunLater, OffLater;
    forall i | 0 <= i < |s'.tickets|
      ensures s'.tickets[i].round < |s'.rounds| && s'.rounds[s'.tickets[i].round].key == s'.tickets[i].key
      ensures s'.tickets[i].who != []
    {
      if i < |s.tickets| {
        assert RoundLater(s.rounds[s.tickets[i].round], s'.rounds[s.tickets[i].round]);
        assert TicketLater(s.tickets[i], s'.tickets[i]);
      }
    }
  }

  /** A handler's round is decided, or is still the one under its key. */
  ghost predicate Home(s: State, t: Ticket)
    requires t.round < |s.rounds|
  {
    Decided(s.rounds[t.round]) || !Off(s, t.round)
  }

  /** A handler that times out and goes on to answer has an answer exactly when its round was decided already or is still
      on the board: the timeout settles the round under the handler's key, which may be another one by then. */
  lemma TimeOutAnswersIff(s: State, i: nat, orders: seq<seq<Key>>)
    requires Sound(s) && Safe(s) && TicketsFit(s) && i < |s.tickets| && s.tickets[i].wait.Waiting?
    requires TimeOut(s, i, orders).tickets[i].wait.Woken?
    ensures var s' := TimeOut(s, i, orders);
      s.tickets[i].round < |s'.rounds| && (Decided(s'.rounds[s.tickets[i].round]) <==> Home(s, s.tickets[i]))
  {
    var t, s' := s.tickets[i], TimeOut(s, i, orders);
    var e := Expire(s, t.key, t.rank, orders);
    TimeOutKeeps(s, i, orders);
    ExpireKeeps(s, t.key, t.rank, orders);
    assert s'.rounds == e.0.rounds && e.1;
    if !Off(s, t.round) {
      assert s.open[t.key] == t.round;
      ExpireDecides(s, t.key, t.rank, orders);
    }
    hide Expire, TimeOut, Healthy, RunLater, Sound;
    assert RoundLater(s.rounds[t.round], s'.rounds[t.round]);
  }

  lemma ExpireDecides(s: State, key: Key, rank: nat, orders: seq<seq<Key>>)
    requires Sound(s) && Safe(s) && OrdersFit(s, key, orders) && key in s.open && Expire(s, key, rank, orders).1
    ensures Decided(Expire(s, key, rank, orders).0.rounds[s.open[key]])
  {
    hide DropMissed, Healthy, RoundLater, Closable, SoundRun, Enumerates, RunLater;
    var id := s.open[key];
    var r := s.rounds[id];
    if !Decided(r) {
      var (run, r') := Shut(s.run, r, rank);
      var s1 := s.(run := run, rounds := s.rounds[id := r']);
      ShutKeeps(s.run, r, rank);
      OneRound(s, s1, id, r');
      if r'.opening && r'.err.None? {
        DropMissedKeeps(s1, id, orders);
        assert RoundLater(r', DropMissed(s1, id, orders).rounds[id]);
        DecidedLater(r', DropMissed(s1, id, orders).rounds[id]);
      }
    }
  }

  lemma DecidedLater(r: Round, r': Round)
    requires RoundLater(r, r') && Decided(r)
    ensures Decided(r')
  {
  }

  /** A round that is neither decided nor on the board never gets a verdict, so its handlers only ever have an empty answer. */
  lemma StrayStaysEmpty(s: State, t: Ticket, events: seq<Event>)
    requires Sound(s) && Safe(s) && t.round < |s.rounds| && !Home(s, t)
    ensures var s' := Exec(s, events);
      t.round < |s'.rounds| && !Home(s', t) && OutcomeOf(s'.rounds[t.round]) == Payload(None)
  {
    RunsAreSafe(s, events);
    hide Exec;
  }

  /** A handler woken by its own timeout has a decided round, or one that has left the board. */
  ghost predicate WokenFit(s: State)
    requires TicketsFit(s)
  {
    forall i | 0 <= i < |s.tickets| && s.tickets[i].wait.Woken? :: Home(s, s.tickets[i]) ==> Decided(s.rounds[s.tickets[i].round])
  }

  lemma HomeLater(s: State, s': State, t: Ticket)
    requires Later(s, s') && t.round < |s.rounds|
    requires Home(s, t) ==> Decided(s.rounds[t.round])
    ensures t.round < |s'.rounds| && (Home(s', t) ==> Decided(s'.rounds[t.round]))
  {
    hide RunLater;
    assert RoundLater(s.rounds[t.round], s'.rounds[t.round]);
  }

  lemma WokenKeep(s: State, e: Event)
    requires Sound(s) && Safe(s) && TicketsFit(s) && WokenFit(s)
    ensures TicketsFit(Step(s, e)) && WokenFit(Step(s, e))
  {
    hide *;
    var s' := Step(s, e);
    TicketsKeep(s, e);
    if e.TimeOutEvent? && e.late < |s.tickets| {
      TimeOutStep(s, e);
      LateWoken(s, e.late, e.orders);
    }
    WokenMoved(s, s', e);
  }

  lemma TimeOutStep(s: State, e: Event)
    requires Sound(s) && e.TimeOutEvent?
    ensures Step(s, e) == TimeOut(s, e.late, e.orders)
  {
  }

  lemma LateWoken(s: State, i: nat, orders: seq<seq<Key>>)
    requires Sound(s) && Safe(s) && TicketsFit(s) && WokenFit(s) && i < |s.tickets|
    ensures var s' := TimeOut(s, i, orders);
      && i < |s'.tickets| && s.tickets[i].round < |s'.rounds|
      && (s'.tickets[i].wait.Woken? && Home(s', s.tickets[i]) ==> Decided(s'.rounds[s.tickets[i].round]))
  {
    var t, s' := s.tickets[i], TimeOut(s, i, orders);
    hide Expire, Healthy, SoundRun, SoundRound, Enumerates, Home, Later;
    TimeOutKeeps(s, i, orders);
    if s'.tickets[i].wait.Woken? {
      if t.wait.Waiting? {
        TimeOutAnswersIff(s, i, orders);
        assert Decided(s'.rounds[t.round]) <==> Home(s, t);
        if !Home(s, t) {
          StrayLater(s, s', t);
        }
      } else {
        HomeLater(s, s', t);
      }
    } else {
      assert t.round < |s'.rounds| by { AllThere(s, s', t); }
    }
  }

  lemma AllThere(s: State, s': State, t: Ticket)
    requires Later(s, s') && t.round < |s.rounds|
    ensures t.round < |s'.rounds|
  {
  }

  lemma StrayLater(s: State, s': State, t: Ticket)
    requires Later(s, s') && t.round < |s.rounds| && !Home(s, t)
    ensures t.round < |s'.rounds| && !Home(s', t)
  {
    hide RunLater, RoundLater;
  }

  lemma WokenMoved(s: State, s': State, e: Event)
    requires TicketsFit(s) && WokenFit(s) && Later(s, s') && TicketsMove(s, s', e) && TicketsFit(s')
    requires e.TimeOutEvent? && e.late < |s.tickets| && s'.tickets[e.late].wait.Woken? ==>
               s.tickets[e.late].round < |s'.rounds|
               && (Home(s', s.tickets[e.late]) ==> Decided(s'.rounds[s.tickets[e.late].round]))
    ensures WokenFit(s')
  {
    hide RunLater, OffLater, Home;
    forall i | 0 <= i < |s'.tickets| && s'.tickets[i].wait.Woken?
      ensures Home(s', s'.tickets[i]) ==> Decided(s'.rounds[s'.tickets[i].round])
    {
      assert TicketLater(s.tickets[i], s'.tickets[i]);
      HomeOf(s', s.tickets[i], s'.tickets[i]);
      if s'.tickets[i] == s.tickets[i] {
        HomeLater(s, s', s.tickets[i]);
      }
    }
  }

  /** Where a handler is depends only on its round. */
  lemma HomeOf(s: State, t: Ticket, t': Ticket)
    requires t.round == t'.round < |s.rounds|
    ensures Home(s, t) <==> Home(s, t')
  {
  }

  ghost predicate AllFull(s: State) {
    forall i | 0 <= i < |s.answers| :: s.answers[i].outcome != Payload(None)
  }

  /** A reply of a woken handler whose round is neither decided nor the one under its key. */
  ghost predicate StrayReply(s: State, e: Event) {
    && e.ReplyEvent? && e.ticket < |s.tickets| && s.tickets[e.ticket].wait.Woken?
    && s.tickets[e.ticket].round < |s.rounds| && !Home(s, s.tickets[e.ticket])
  }

  lemma FullKeepIff(s: State, e: Event)
    requires Sound(s) && Safe(s) && TicketsFit(s) && WokenFit(s) && AllFull(s)
    ensures AllFull(Step(s, e)) <==> !StrayReply(s, e)
  {
    if e.ReplyEvent? {
      if Step(s, e) != s {
        var t := s.tickets[e.ticket];
        var r := Fetched(s.rounds[t.round], t.who);
        assert Healthy(s.run.ring.dropped, s.run.aborted.Some?, s.rounds[t.round]);
        assert Decided(r) <==> Home(s, t);
        assert t.wait.Waiting? ==> Decided(r);
        ToldAnswers(s.run, t, r, t.who);
        var s' := Step(s, e);
        hide Told, SoundRun, SoundRound, Healthy, TicketsFit, WokenFit, Home;
        if !Decided(r) {
          assert s'.answers[|s.answers|].outcome == Payload(None);
        }
      } else {
        assert e.ticket < |s.tickets| ==> !s.tickets[e.ticket].wait.Woken?;
      }
    } else {
      StepAnswers(s, e);
    }
  }

  /** No reply of the run is a stray handler's. */
  ghost predicate NoStrayReply(events: seq<Event>) {
    events == [] ||
    (NoStrayReply(events[..|events| - 1]) && !StrayReply(Exec(Start(), events[..|events| - 1]), events[|events| - 1]))
  }

  /** Over every interleaving every rank is answered with content exactly when no handler replies that its timeout woke for
      another round under its key. */
  lemma {:induction false} EveryAnswerHasContentIff(events: seq<Event>)
    ensures var s := Exec(Start(), events); Safe(s) && TicketsFit(s) && WokenFit(s)
    ensures AllFull(Exec(Start(), events)) <==> NoStrayReply(events)
  {
    if events != [] {
      var front, e := events[..|events| - 1], events[|events| - 1];
      var s := Exec(Start(), front);
      assert Exec(Start(), events) == Step(s, e);
      assert NoStrayReply(events) <==> NoStrayReply(front) && !StrayReply(s, e);
      hide *;
      EveryAnswerHasContentIff(front);
      StepKeeps(s, e);
      WokenKeep(s, e);
      FullBefore(s, Step(s, e));
      if AllFull(s) {
        FullKeepIff(s, e);
      }
    }
  }

  lemma FullBefore(s: State, s': State)
    requires Later(s, s')
    ensures AllFull(s') ==> AllFull(s)
  {
    hide RunLater, RoundLater, OffLater, TicketLater;
    assert forall i | 0 <= i < |s.answers| :: s.answers[i] == s'.answers[i];
  }
}
