/** How a job's life goes on, and how it ends, read off what the coordinator did; and which nodes the filters let through. */
module Lives {
  import opened Wrappers
  import opened Coordinator

  // ---- what a log says ----

  /** A run that failed, and not for good: nobody canceled it, its node did not refuse it, and it may go better elsewhere. */
  predicate Crash(e: Record) {
    e.Run? && !e.quit && e.outcome.Crashed? && !e.outcome.refusal && !e.outcome.permanent
  }

  /** A run after which the job is placed again, unless it was the last try. */
  predicate Again(e: Record) {
    e.Run? && !e.quit && e.outcome.Crashed? && (e.outcome.refusal || !e.outcome.permanent)
  }

  function Crashes(log: seq<Record>): nat {
    if log == [] then 0 else Crashes(log[..|log| - 1]) + if Crash(log[|log| - 1]) then 1 else 0
  }

  function CrashesOn(log: seq<Record>, n: Id): nat {
    if log == [] then 0
    else CrashesOn(log[..|log| - 1], n) + if Crash(log[|log| - 1]) && log[|log| - 1].node == n then 1 else 0
  }

  /** What the coordinator remembers: how often the job crashed, and on which node, and who refused it. */
  ghost predicate Remembers(l: Life, refused: set<Id>, tried: map<Id, nat>) {
    && l.failures == Crashes(l.log) && l.refused == refused + Refusers(l.log)
    && forall n :: TriedOn(l.tried, n) == TriedOn(tried, n) + CrashesOn(l.log, n)
  }

  /** How a life has ended: given up at the third crash and not before; with no hope after a failure for good; done with the run that
      succeeded; left running with the run that was detached. Until it ends every run is one to be repeated. */
  ghost predicate EndsAs(l: Life) {
    && Crashes(l.log) <= 3 && (l.ending == Some(GaveUp) <==> Crashes(l.log) == 3)
    && (l.ending == Some(Hopeless) <==> exists e :: e in l.log && ForGood(e))
    && (forall n :: l.ending == Some(Done(n)) <==> exists e :: e in l.log && Succeeds(e, n))
    && (forall n :: l.ending == Some(LeftRunning(n)) <==> exists e :: e in l.log && Detaches(e, n))
    && (l.ending.None? ==> forall e | e in l.log && e.Run? :: Again(e))
  }

  predicate ForGood(e: Record) {
    e.Run? && !e.quit && e.outcome.Crashed? && !e.outcome.refusal && e.outcome.permanent
  }

  predicate Succeeds(e: Record, n: Id) {
    e.Run? && e.outcome.Succeeded? && e.node == n
  }

  predicate Detaches(e: Record, n: Id) {
    e.Run? && e.outcome.Detached? && e.node == n
  }

  // ---- one turn ----

  lemma OneEntry(log: seq<Record>, e: Record)
    ensures forall x :: x in log + [e] <==> x in log || x == e
    ensures Crashes(log + [e]) == Crashes(log) + if Crash(e) then 1 else 0
    ensures forall n :: CrashesOn(log + [e], n) == CrashesOn(log, n) + if Crash(e) && e.node == n then 1 else 0
    ensures Refusers(log + [e]) == Refusers(log) + if e.Run? && !e.quit && e.outcome.Crashed? && e.outcome.refusal then {e.node} else {}
  {
    var all := log + [e];
    assert all[..|log|] == log && all[|log|] == e;
    forall x
      ensures x in all <==> x in log || x == e
    {
    }
  }

  /** The log with a run more, or with none, other entries aside. */
  ghost predicate Grew(log: seq<Record>, log': seq<Record>, run: Option<Record>) {
    && (run.Some? ==> run.value.Run?)
    && (forall e: Record | e.Run? :: e in log' <==> e in log || run == Some(e))
    && Crashes(log') == Crashes(log) + (if run.Some? && Crash(run.value) then 1 else 0)
    && (forall n :: CrashesOn(log', n) == CrashesOn(log, n) + if run.Some? && Crash(run.value) && run.value.node == n then 1 else 0)
    && Refusers(log') ==
      Refusers(log) + if run.Some? && !run.value.quit && run.value.outcome.Crashed? && run.value.outcome.refusal then {run.value.node} else {}
  }

  lemma GrewBy(log: seq<Record>, e: Record)
    ensures Grew(log, log + [e], if e.Run? then Some(e) else None)
  {
    OneEntry(log, e);
    hide Crashes, CrashesOn, Refusers;
  }

  lemma GrewMore(a: seq<Record>, b: seq<Record>, c: seq<Record>, run: Option<Record>)
    requires (Grew(a, b, None) && Grew(b, c, run)) || (Grew(a, b, run) && Grew(b, c, None))
    ensures Grew(a, c, run)
  {
    hide Crash, Crashes, CrashesOn, Refusers;
  }

  /** The run one turn adds, if it adds any. */
  function RunOf(job: Job, l: Life, t: Turn): Option<Record> {
    if l.ending.Some? || t.quitBefore || !t.committed then None
    else
      match Place(job, l.refused, l.tried, t.looks)
      case None => None
      case Some(p) => Some(Run(p.lease, p.node, t.outcome, t.quitDuring))
  }

  lemma TurnGrows(job: Job, l: Life, t: Turn)
    ensures Grew(l.log, TakeTurn(job, l, t).log, RunOf(job, l, t))
  {
    var p := Place(job, l.refused, l.tried, t.looks);
    hide Place;
    NoneGrows(l.log);
    if l.ending.None? && !t.quitBefore && p.Some? {
      var g, c, r := Grant(p.value.lease, p.value.node), Commit(p.value.lease),
                     Run(p.value.lease, p.value.node, t.outcome, t.quitDuring);
      GrewBy(l.log, g);
      if t.committed {
        var log := l.log + [g] + [c] + [r];
        GrewBy(l.log + [g], c);
        GrewBy(l.log + [g] + [c], r);
        GrewMore(l.log, l.log + [g], l.log + [g] + [c], None);
        GrewMore(l.log, l.log + [g] + [c], log, Some(r));
        hide Grew;
        var log' := TakeTurn(job, l, t).log;
        if log' != log {
          CompletesOnly(l, p.value, t, log);
          GrewBy(log, log'[|log|]);
          GrewMore(l.log, log, log', Some(r));
        }
      }
    }
  }

  lemma NoneGrows(log: seq<Record>)
    ensures Grew(log, log, None)
  {
  }

  lemma CompletesOnly(l: Life, p: Placement, t: Turn, log: seq<Record>)
    ensures var log' := AfterRun(l.(log := log), p, t).log;
      log' == log || (|log'| == |log| + 1 && log' == log + [log'[|log|]] && log'[|log|].Complete?)
  {
  }

  /** What a turn does to the rest: how the life ends, and what is remembered of the run. */
  lemma TurnRemembers(job: Job, l: Life, t: Turn, refused: set<Id>, tried: map<Id, nat>)
    requires Remembers(l, refused, tried)
    ensures Remembers(TakeTurn(job, l, t), refused, tried)
  {
    TurnGrows(job, l, t);
    hide Place, Crashes, CrashesOn, Refusers;
  }

  lemma TurnEnds(job: Job, l: Life, t: Turn)
    requires EndsAs(l) && l.failures == Crashes(l.log)
    ensures EndsAs(TakeTurn(job, l, t))
  {
    TurnGrows(job, l, t);
    var l', r := TakeTurn(job, l, t), RunOf(job, l, t);
    if l.ending.None? {
      if r.None? {
        QuietTurn(job, l, t);
        hide TakeTurn, RunOf, Crashes, CrashesOn, Refusers, Place, Again, ForGood, Succeeds, Detaches;
        QuietEnds(l, l');
      } else {
        RunTurn(job, l, t);
        hide TakeTurn, RunOf, Crashes, CrashesOn, Refusers, Place;
        RunEnds(l, l', r.value, t.quitWaiting);
      }
    }
  }

  lemma QuietTurn(job: Job, l: Life, t: Turn)
    requires l.ending.None? && RunOf(job, l, t).None?
    ensures TakeTurn(job, l, t).ending in {None, Some(Quit), Some(NoNode)}
  {
    hide Place;
  }

  /** How the life goes on after a run. */
  ghost predicate GoesOnAs(failures: nat, r: Record, waiting: bool, ending: Option<Ending>)
    requires r.Run?
  {
    if r.outcome.Succeeded? then ending == Some(Done(r.node))
    else if r.outcome.Detached? then ending == Some(LeftRunning(r.node))
    else if r.quit then ending == Some(Quit)
    else if r.outcome.refusal then ending.None?
    else if r.outcome.permanent then ending == Some(Hopeless)
    else ending == if failures >= 2 then Some(GaveUp) else if waiting then Some(Quit) else None
  }

  lemma RunTurn(job: Job, l: Life, t: Turn)
    requires RunOf(job, l, t).Some?
    ensures GoesOnAs(l.failures, RunOf(job, l, t).value, t.quitWaiting, TakeTurn(job, l, t).ending)
  {
    hide Place;
  }

  lemma QuietEnds(l: Life, l': Life)
    requires EndsAs(l) && l.ending.None? && Grew(l.log, l'.log, None) && l'.ending in {None, Some(Quit), Some(NoNode)}
    ensures EndsAs(l')
  {
    hide Crashes, CrashesOn, Refusers;
  }

  lemma RunEnds(l: Life, l': Life, r: Record, waiting: bool)
    requires EndsAs(l) && l.ending.None? && r.Run? && Grew(l.log, l'.log, Some(r))
    requires GoesOnAs(Crashes(l.log), r, waiting, l'.ending)
    ensures EndsAs(l')
  {
    hide Crashes, CrashesOn, Refusers;
    assert r in l'.log;
  }

  lemma Unborn(refused: set<Id>, tried: map<Id, nat>)
    ensures Remembers(NewLife(refused, tried), refused, tried) && EndsAs(NewLife(refused, tried))
  {
  }

  /** Every life ends as its runs say: with the run that succeeded, was detached or failed for good, or at the third crash, whatever
      refusals come between; and all the coordinator remembers is what its log says. */
  lemma {:induction false} LivesEnd(job: Job, refused: set<Id>, tried: map<Id, nat>, turns: seq<Turn>)
    ensures var l := TakeTurns(job, NewLife(refused, tried), turns); Remembers(l, refused, tried) && EndsAs(l)
  {
    if turns == [] {
      Unborn(refused, tried);
    } else {
      var front, t := turns[..|turns| - 1], turns[|turns| - 1];
      var l := TakeTurns(job, NewLife(refused, tried), front);
      assert TakeTurns(job, NewLife(refused, tried), turns) == TakeTurn(job, l, t);
      LivesEnd(job, refused, tried, front);
      assert l.failures == Crashes(l.log);
      hide *;
      TurnRemembers(job, l, t, refused, tried);
      TurnEnds(job, l, t);
    }
  }

  /** Before that, a life goes on from turn to turn: the job is placed, committed and run again, unless the user quits, no node takes
      it, or the run is one that ends it; a crash does so at the third, or when the user quits before the next try. */
  lemma GoesOnIff(job: Job, refused: set<Id>, tried: map<Id, nat>, turns: seq<Turn>, t: Turn)
    requires TakeTurns(job, NewLife(refused, tried), turns).ending.None?
    ensures var l := TakeTurns(job, NewLife(refused, tried), turns);
      var l', p := TakeTurns(job, NewLife(refused, tried), turns + [t]), Place(job, l.refused, l.tried, t.looks);
      && Crashes(l.log) < 3
      && (l'.ending.None? <==>
            && !t.quitBefore && p.Some?
            && (t.committed ==>
                  && t.outcome.Crashed? && !t.quitDuring
                  && (t.outcome.refusal || (!t.outcome.permanent && Crashes(l.log) < 2 && !t.quitWaiting))))
      && (!t.quitBefore && p.Some? && t.committed ==> Run(p.value.lease, p.value.node, t.outcome, t.quitDuring) in l'.log)
  {
    var l := TakeTurns(job, NewLife(refused, tried), turns);
    assert (turns + [t])[..|turns|] == turns;
    assert TakeTurns(job, NewLife(refused, tried), turns + [t]) == TakeTurn(job, l, t);
    LivesEnd(job, refused, tried, turns);
    TurnGrows(job, l, t);
    if RunOf(job, l, t).Some? {
      RunTurn(job, l, t);
    }
    hide TakeTurns, Place, Crashes, CrashesOn, Refusers, Again;
  }

  // ---- who gets the job ----

  /** This node, asked at this look, takes the job. */
  predicate Takes(look: Look, n: Node) {
    n.id != 0 && n.id in look.answers && look.answers[n.id].accepted
  }

  /** Nodes are asked in order until one takes the job; it is placed there, under the lease that node gave and the name it goes by. */
  lemma {:induction false} FirstToTake(look: Look, order: seq<Node>)
    ensures match FirstTaker(look, order)
      case None => forall n | n in order :: !Takes(look, n)
      case Some(p) => exists i | 0 <= i < |order| ::
        && Takes(look, order[i]) && (forall j | 0 <= j < i :: !Takes(look, order[j]))
        && p == Placement(order[i].id, look.answers[order[i].id].resolved, look.answers[order[i].id].lease)
    decreases |order|
  {
    if order != [] {
      var front := order[..|order| - 1];
      FirstToTake(look, front);
      if FirstTaker(look, front).Some? {
        var i :| 0 <= i < |front| && Takes(look, front[i]) && (forall j | 0 <= j < i :: !Takes(look, front[j]))
          && FirstTaker(look, front).value
            == Placement(front[i].id, look.answers[front[i].id].resolved, look.answers[front[i].id].lease);
        assert Takes(look, order[i]) && forall j | 0 <= j < i :: order[j] == front[j];
      } else {
        assert forall j | 0 <= j < |front| :: front[j] in front && order[j] == front[j];
      }
    }
  }

  /** Looks are repeated until one places the job. */
  lemma {:induction false} FirstToPlace(job: Job, refused: set<Id>, tried: map<Id, nat>, looks: seq<Look>)
    ensures match Place(job, refused, tried, looks)
      case None => forall i | 0 <= i < |looks| :: PlaceOnce(job, refused, tried, looks[i]).None?
      case Some(p) => exists i | 0 <= i < |looks| ::
        PlaceOnce(job, refused, tried, looks[i]) == Some(p) && forall j | 0 <= j < i :: PlaceOnce(job, refused, tried, looks[j]).None?
    decreases |looks|
  {
    hide PlaceOnce;
    if looks != [] {
      var front := looks[..|looks| - 1];
      FirstToPlace(job, refused, tried, front);
      assert forall j | 0 <= j < |front| :: looks[j] == front[j];
      if Place(job, refused, tried, front).Some? {
        var i :| 0 <= i < |front| && PlaceOnce(job, refused, tried, front[i]) == Place(job, refused, tried, front)
          && forall j | 0 <= j < i :: PlaceOnce(job, refused, tried, front[j]).None?;
        assert PlaceOnce(job, refused, tried, looks[i]) == Place(job, refused, tried, looks);
      } else {
        assert forall j | 0 <= j < |front| :: PlaceOnce(job, refused, tried, looks[j]).None?;
      }
    }
  }

  lemma TurnPicks(job: Job, eligible: seq<Node>, tried: map<Id, nat>, k: nat)
    requires job.roundRobin && k < |eligible| && |Sort(eligible, ById())| == |eligible|
    ensures Chosen(job, eligible, tried, k) == [Sort(eligible, ById())[k]]
  {
    hide Sort;
    assert k % |eligible| == k;
  }

  lemma InIdOrder(eligible: seq<Node>)
    ensures var order := Sort(eligible, ById());
      && |order| == |eligible| && (forall n :: n in order <==> n in eligible)
      && forall k, l | 0 <= k <= l < |order| :: order[k].id <= order[l].id
  {
    var order := Sort(eligible, ById());
    SortSorts(eligible, ById());
    hide Sort;
    SameMembers(order, eligible);
    assert |order| == |multiset(order)| == |eligible|;
    forall k, l | 0 <= k <= l < |order|
      ensures order[k].id <= order[l].id
    {
      assert ById()(order[k]) <= ById()(order[l]);
    }
  }

  /** Under round-robin one node is asked a look, and in as many looks as there are nodes each of them has its turn. */
  lemma EachHasItsTurn(job: Job, eligible: seq<Node>, tried: map<Id, nat>, n: Node) returns (k: nat)
    requires job.roundRobin && n in eligible
    ensures k < |eligible| && Chosen(job, eligible, tried, k) == [n]
  {
    hide Sort, Chosen;
    InIdOrder(eligible);
    k :| k < |eligible| && Sort(eligible, ById())[k] == n;
    TurnPicks(job, eligible, tried, k);
  }

  /** They have it lowest id first. */
  lemma LowestFirst(job: Job, eligible: seq<Node>, tried: map<Id, nat>, k: nat, l: nat)
    requires job.roundRobin && k <= l < |eligible|
    ensures var a, b := Chosen(job, eligible, tried, k), Chosen(job, eligible, tried, l);
      |a| == 1 == |b| && a[0] in eligible && a[0].id <= b[0].id
  {
    hide Sort, Chosen;
    InIdOrder(eligible);
    TurnPicks(job, eligible, tried, k);
    TurnPicks(job, eligible, tried, l);
  }
}
