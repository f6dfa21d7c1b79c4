/** The submitter's watch over a ring: what each rank's end means for the others, and the run's verdict. */
module Supervisor {
  import opened Wrappers
  import opened Counting

  const MISSED_START_EXIT := 75
  const STOPPED_EXIT := 76
  const RELEASED_EXIT := 77

  /** How a rank's job failed: its script's exit status or -1, whether running it again could help, and whether it only
      ended because it was told to. */
  datatype Failure = Failure(code: int, permanent: bool, canceled: bool)

  /** What the watch may hear next: a rank started mid-run, its own timer, a rank's end, or the user's cancel. */
  datatype Signal =
    | AddedSignal(newcomer: nat)
    | GraceSignal
    | ResultSignal(rank: nat, failure: Option<Failure>)
    | CancelSignal

  datatype Loss = Loss(rank: nat, failure: Failure)

  /** Who is going, who has ended, who is still joining, and who was turned back. announced is history: every rank started
      mid-run. */
  datatype Ranks = Ranks(running: int, ended: set<nat>, joiners: set<nat>, refused: set<nat>, announced: set<nat>)

  /** The grace timer, whether the ranks have been stopped, and whether the user canceled the run. */
  datatype Clock = Clock(grace: bool, stopped: bool, quit: bool)

  /** What has become of the run: how many ranks finished, which failures counted, and what failed it. */
  datatype Score = Score(ok: nat, first: Option<Loss>, others: seq<nat>, died: seq<nat>, fatal: Option<Loss>, fatalFirst: bool)

  /** canceled is every rank told to stop, downs every rank reported lost to the ring. */
  datatype Told = Told(canceled: set<nat>, downs: seq<nat>)

  datatype Watch = Watch(ranks: Ranks, clock: Clock, score: Score, told: Told)

  datatype Verdict = Success | Fatal(why: Loss) | Lost(cause: Loss, also: seq<nat>) | NobodyFinished

  function StartWatch(ranks: nat): Watch {
    Watch(Ranks(ranks, {}, {}, {}, {}), Clock(false, false, false), Score(0, None, [], [], None, false), Told({}, []))
  }

  // ---- one signal ----

  /** The grace timer is set once a rank has finished, or once only joiners are left. */
  function Armed(w: Watch): Watch {
    w.(clock := w.clock.(grace :=
      w.clock.grace || (!w.clock.stopped && (w.score.ok > 0 || (w.ranks.joiners != {} && w.ranks.running == |w.ranks.joiners|)))))
  }

  /** Every rank that can be told to stop and has not ended, joiners included. */
  function StopAll(t: Told, r: Ranks, stop: set<nat>): Told {
    t.(canceled := t.canceled + (r.joiners + (stop - r.ended)))
  }

  function Added(w: Watch, rank: nat): Watch {
    var r := w.ranks.(running := w.ranks.running + 1, announced := w.ranks.announced + {rank});
    if w.score.fatal.Some? then
      w.(ranks := r.(refused := r.refused + {rank}), told := w.told.(canceled := w.told.canceled + {rank}))
    else w.(ranks := r.(joiners := r.joiners + {rank}))
  }

  /** A failure that counts against nobody: a rank the ring released, or one on its way to being stopped. */
  predicate Excused(w: Watch, rank: nat, f: Failure) {
    || (f.code == RELEASED_EXIT && !w.clock.quit)
    || w.score.fatal.Some?
    || ((rank in w.ranks.refused || w.clock.stopped) && f.canceled && !w.clock.quit)
  }

  /** A failure that ends the run: the ring was aborted, the script itself fails, or the machine that leads the ring is lost;
      never a joiner's, and never a rank's that missed the start. */
  predicate EndsRun(rank: nat, f: Failure, joiner: bool) {
    !joiner && f.code != MISSED_START_EXIT && (f.code == STOPPED_EXIT || f.permanent || rank == 0)
  }

  function Counted(s: Score, loss: Loss): Score {
    if s.first.None? then s.(first := Some(loss)) else s.(others := s.others + [loss.rank])
  }

  /** The run has failed, and every rank still going is stopped. */
  function Aborted(w: Watch, stop: set<nat>, why: Loss): Watch {
    w.(score := w.score.(fatal := Some(why), fatalFirst := w.score.others == []),
       clock := w.clock.(stopped := true, grace := false), told := StopAll(w.told, w.ranks, stop))
  }

  /** A failure that counts: the run's first or another one; and unless the user canceled the run, the end of it or one rank
      less. */
  function Failed(w: Watch, stop: set<nat>, loss: Loss, joiner: bool): Watch {
    var w1 := w.(score := Counted(w.score, loss));
    if w.clock.quit then w1
    else
      var w2 := w1.(score := w1.score.(died := w1.score.died + [loss.rank]));
      if EndsRun(loss.rank, loss.failure, joiner) then Aborted(w2, stop, loss)
      else if w.ranks.running > 0 then w2.(told := w2.told.(downs := w2.told.downs + [loss.rank]))
      else w2
  }

  function Without(r: Ranks, rank: nat): Ranks {
    r.(running := r.running - 1, ended := r.ended + {rank}, joiners := r.joiners - {rank})
  }

  function Ended(w: Watch, stop: set<nat>, rank: nat, result: Option<Failure>): Watch {
    var w1 := w.(ranks := Without(w.ranks, rank));
    match result
    case None => w1.(score := w1.score.(ok := w1.score.ok + 1))
    case Some(f) => if Excused(w1, rank, f) then w1 else Failed(w1, stop, Loss(rank, f), rank in w.ranks.joiners)
  }

  function Hear(w: Watch, stop: set<nat>, s: Signal): Watch {
    if w.ranks.running <= 0 then w
    else
      var w1 := Armed(w);
      match s
      case AddedSignal(rank) => Added(w1, rank)
      case GraceSignal =>
        if !w1.clock.grace then w1
        else w1.(clock := w1.clock.(grace := false, stopped := true), told := StopAll(w1.told, w1.ranks, stop))
      case ResultSignal(rank, result) => Ended(w1, stop, rank, result)
      case CancelSignal => w1.(clock := w1.clock.(quit := true))
  }

  function HearAll(w: Watch, stop: set<nat>, script: seq<Signal>): Watch {
    if script == [] then w else Hear(HearAll(w, stop, script[..|script| - 1]), stop, script[|script| - 1])
  }

  function VerdictOf(w: Watch): Verdict {
    var s := w.score;
    if w.clock.quit then (if s.first.Some? then Lost(s.first.value, []) else Success)
    else if s.fatal.Some? && (s.fatalFirst || s.ok > 0) then Fatal(s.fatal.value)
    else if s.ok > 0 then Success
    else if s.first.None? then NobodyFinished
    else Lost(s.first.value, s.others)
  }

  // ---- the loop ----

  /** The watch as it is kept: one field for each of the loop's variables. */
  class Watcher {
    const stop: set<nat>
    var running: int
    var ended: set<nat>
    var finished: bool
    var joiners: set<nat>
    var grace: bool
    var stopped: bool
    var first: Option<Loss>
    var others: seq<nat>
    var died: seq<nat>
    var fatal: Option<Loss>
    var fatalFirst: bool
    var refused: set<nat>
    var ok: nat
    var quit: bool
    var canceled: set<nat>
    var downs: seq<nat>
    ghost var announced: set<nat>

    ghost predicate Valid()
      reads `finished, `ok
    {
      finished <==> ok > 0
    }

    ghost function View(): Watch
      reads this
    {
      Watch(Ranks(running, ended, joiners, refused, announced), Clock(grace, stopped, quit),
            Score(ok, first, others, died, fatal, fatalFirst), Told(canceled, downs))
    }

    constructor (ranks: nat, stop: set<nat>)
      ensures Valid() && View() == StartWatch(ranks) && this.stop == stop
    {
      this.stop := stop;
      running, ended, finished, joiners, grace, stopped := ranks, {}, false, {}, false, false;
      first, others, died, fatal, fatalFirst, refused := None, [], [], None, false, {};
      ok, quit, canceled, downs, announced := 0, false, {}, [], {};
    }

    method Abort(why: Loss)
      modifies `fatal, `stopped, `grace, `fatalFirst, `canceled
      ensures View() == Aborted(old(View()), stop, why)
    {
      fatal, stopped, grace, fatalFirst := Some(why), true, false, others == [];
      canceled := canceled + (joiners + (stop - ended));
    }

    method TakeAdded(rank: nat)
      modifies `running, `announced, `refused, `canceled, `joiners
      ensures View() == Added(old(View()), rank)
    {
      running, announced := running + 1, announced + {rank};
      if fatal.Some? {
        refused, canceled := refused + {rank}, canceled + {rank};
        return;
      }
      joiners := joiners + {rank};
    }

    method TakeFailure(loss: Loss, joiner: bool)
      modifies `first, `others, `died, `downs, `fatal, `stopped, `grace, `fatalFirst, `canceled
      ensures View() == Failed(old(View()), stop, loss, joiner)
    {
      if first.None? {
        first := Some(loss);
      } else {
        others := others + [loss.rank];
      }
      if quit {
        return;
      }
      died := died + [loss.rank];
      if EndsRun(loss.rank, loss.failure, joiner) {
        Abort(loss);
        return;
      }
      if running > 0 {
        downs := downs + [loss.rank];
      }
    }

    method TakeEnd(rank: nat, result: Option<Failure>)
      requires Valid()
      modifies this
      ensures Valid() && View() == Ended(old(View()), stop, rank, result)
    {
      hide Failed;
      var joiner := rank in joiners;
      running, ended, joiners := running - 1, ended + {rank}, joiners - {rank};
      match result
      case None => ok, finished := ok + 1, true;
      case Some(f) =>
        ghost var w1 := View();
        var excused := (f.code == RELEASED_EXIT && !quit) || fatal.Some? || ((rank in refused || stopped) && f.canceled && !quit);
        assert excused <==> Excused(w1, rank, f);
        hide Excused;
        if !excused {
          TakeFailure(Loss(rank, f), joiner);
        }
    }

    method Take(s: Signal)
      requires Valid() && running > 0
      modifies this
      ensures Valid() && View() == Hear(old(View()), stop, s)
    {
      if !grace && !stopped && (finished || (|joiners| > 0 && running == |joiners|)) {
        grace := true;
      }
      hide Added, Ended;
      match s
      case AddedSignal(rank) => TakeAdded(rank);
      case GraceSignal =>
        if grace {
          grace, stopped := false, true;
          canceled := canceled + (joiners + (stop - ended));
        }
      case ResultSignal(rank, result) => TakeEnd(rank, result);
      case CancelSignal => quit := true;
    }

    method Decide() returns (v: Verdict)
      ensures v == VerdictOf(View())
    {
      if quit {
        return if first.Some? then Lost(first.value, []) else Success;
      }
      if fatal.Some? && (fatalFirst || ok > 0) {
        return Fatal(fatal.value);
      }
      if ok == 0 {
        if first.None? {
          return NobodyFinished;
        }
        return Lost(first.value, others);
      }
      return Success;
    }
  }

  /** ddpAwaitRanks on a script of what it hears. It returns once no rank is running; a script that ends earlier leaves it
      waiting. */
  method AwaitRanks(ranks: nat, stop: set<nat>, script: seq<Signal>) returns (verdict: Option<Verdict>)
    ensures var w := HearAll(StartWatch(ranks), stop, script);
      verdict == if w.ranks.running <= 0 then Some(VerdictOf(w)) else None
  {
    var w := new Watcher(ranks, stop);
    var i := 0;
    hide Hear, VerdictOf;
    while i < |script| && w.running > 0
      invariant 0 <= i <= |script| && w.stop == stop && w.Valid()
      invariant w.View() == HearAll(StartWatch(ranks), stop, script[..i])
    {
      assert script[..i + 1][..i] == script[..i];
      w.Take(script[i]);
      i := i + 1;
    }
    if w.running > 0 {
      assert script[..i] == script;
      return None;
    }
    OverIsOver(StartWatch(ranks), stop, script, i);
    var v := w.Decide();
    return Some(v);
  }

  lemma {:induction false} OverIsOver(w: Watch, stop: set<nat>, script: seq<Signal>, i: nat)
    requires i <= |script| && HearAll(w, stop, script[..i]).ranks.running <= 0
    ensures HearAll(w, stop, script) == HearAll(w, stop, script[..i])
    decreases |script|
  {
    if i == |script| {
      assert script[..i] == script;
    } else {
      var front := script[..|script| - 1];
      assert front[..i] == script[..i];
      OverIsOver(w, stop, front, i);
    }
  }

  // ---- what holds over every script ----

  /** The ranks whose jobs are going: started with the ring or announced since, and not ended. */
  function Live(n: nat, r: Ranks): set<nat> {
    UpTo(n) + r.announced - r.ended
  }

  /** A rank is announced once, under a new index, and ends once. */
  predicate InOrder(n: nat, r: Ranks, s: Signal) {
    match s
    case AddedSignal(rank) => rank >= n && rank !in r.announced
    case ResultSignal(rank, _) => rank in Live(n, r)
    case _ => true
  }

  predicate Orderly(n: nat, stop: set<nat>, script: seq<Signal>) {
    script == [] ||
    (Orderly(n, stop, script[..|script| - 1])
     && InOrder(n, HearAll(StartWatch(n), stop, script[..|script| - 1]).ranks, script[|script| - 1]))
  }

  /** The count of running ranks is right, and every rank announced and still going is known as a joiner or as refused. */
  ghost predicate Tallied(n: nat, r: Ranks) {
    && r.running == |Live(n, r)|
    && (forall k | k in r.joiners :: k in r.announced && k !in r.ended)
    && (forall k | k in r.announced && k !in r.ended :: k in r.joiners || k in r.refused)
    && (forall k | k in r.announced :: k >= n) && r.ended <= UpTo(n) + r.announced
  }

  /** Once the run has failed every rank still going has been told to stop, those without a way to be told apart; and what
      failed it was a rank the ring started with. */
  ghost predicate Contained(n: nat, stop: set<nat>, r: Ranks, fatal: Option<Loss>, canceled: set<nat>) {
    && (r.refused != {} ==> fatal.Some?)
    && (fatal.Some? ==>
          && fatal.value.rank < n && fatal.value.rank in r.ended
          && (forall k | k in Live(n, r) :: k in canceled || (k < n && k !in stop)))
  }

  /** The verdict names the earliest failure that counts: it is the fatal one exactly when nothing was counted before. */
  ghost predicate NamesFirst(s: Score) {
    && (s.others != [] ==> s.first.Some?)
    && (s.fatal.Some? ==> s.first.Some? && (s.fatalFirst ==> s.first == s.fatal) && (!s.fatalFirst ==> s.others != []))
  }

  ghost predicate WatchFits(n: nat, stop: set<nat>, w: Watch) {
    Tallied(n, w.ranks) && Contained(n, stop, w.ranks, w.score.fatal, w.told.canceled) && NamesFirst(w.score)
  }

  lemma AddedFits(n: nat, stop: set<nat>, w: Watch, rank: nat)
    requires WatchFits(n, stop, w) && rank >= n && rank !in w.ranks.announced
    ensures WatchFits(n, stop, Added(w, rank))
  {
    var w' := Added(w, rank);
    NewLive(n, w.ranks, w'.ranks, rank);
    hide NamesFirst, Live, UpTo;
    assert Tallied(n, w'.ranks) by { hide Contained; AddedTally(n, w, rank); }
    hide Tallied;
  }

  lemma AddedTally(n: nat, w: Watch, rank: nat)
    requires Tallied(n, w.ranks) && rank >= n && rank !in w.ranks.announced
    ensures Tallied(n, Added(w, rank).ranks)
  {
    var r' := Added(w, rank).ranks;
    NewLive(n, w.ranks, r', rank);
    assert |Live(n, w.ranks) + {rank}| == |Live(n, w.ranks)| + 1;
    hide Live;
  }

  lemma NewLive(n: nat, r: Ranks, r': Ranks, rank: nat)
    requires Tallied(n, r) && rank >= n && rank !in r.announced
    requires r'.announced == r.announced + {rank} && r'.ended == r.ended
    ensures Live(n, r') == Live(n, r) + {rank} && rank !in Live(n, r)
  {
  }

  lemma WithoutFits(n: nat, stop: set<nat>, r: Ranks, fatal: Option<Loss>, canceled: set<nat>, rank: nat)
    requires Tallied(n, r) && Contained(n, stop, r, fatal, canceled) && rank in Live(n, r)
    ensures Tallied(n, Without(r, rank)) && Contained(n, stop, Without(r, rank), fatal, canceled)
  {
    assert Live(n, Without(r, rank)) == Live(n, r) - {rank};
  }

  lemma StoppedFits(n: nat, stop: set<nat>, r: Ranks, t: Told, loss: Loss)
    requires Tallied(n, r) && Contained(n, stop, r, None, t.canceled) && loss.rank < n && loss.rank in r.ended
    ensures Contained(n, stop, r, Some(loss), StopAll(t, r, stop).canceled)
  {
    forall k | k in Live(n, r)
      ensures k in StopAll(t, r, stop).canceled || (k < n && k !in stop)
    {
      assert k in r.announced ==> k in r.announced - r.ended && k in r.joiners;
    }
  }

  lemma FailedFits(n: nat, stop: set<nat>, w: Watch, loss: Loss, joiner: bool)
    requires WatchFits(n, stop, w) && w.score.fatal.None? && loss.rank in w.ranks.ended && (!joiner ==> loss.rank < n)
    ensures WatchFits(n, stop, Failed(w, stop, loss, joiner))
  {
    if EndsRun(loss.rank, loss.failure, joiner) {
      StoppedFits(n, stop, w.ranks, w.told, loss);
    }
    FailedNames(w, stop, loss, joiner);
    hide Tallied, Live, StopAll, NamesFirst, EndsRun;
  }

  lemma FailedNames(w: Watch, stop: set<nat>, loss: Loss, joiner: bool)
    requires NamesFirst(w.score) && w.score.fatal.None?
    ensures NamesFirst(Failed(w, stop, loss, joiner).score)
  {
    hide EndsRun, StopAll;
  }

  lemma HearFits(n: nat, stop: set<nat>, w: Watch, s: Signal)
    requires WatchFits(n, stop, w) && InOrder(n, w.ranks, s)
    ensures WatchFits(n, stop, Hear(w, stop, s))
  {
    hide Tallied, NamesFirst, Live, Added;
    var w1 := Armed(w);
    match s
    case AddedSignal(rank) => AddedFits(n, stop, w1, rank);
    case ResultSignal(rank, result) =>
      WithoutFits(n, stop, w.ranks, w.score.fatal, w.told.canceled, rank);
      FinishedFits(w.score);
      if result.Some? && !Excused(w1.(ranks := Without(w1.ranks, rank)), rank, result.value) {
        OutOfOrder(n, w.ranks, rank);
        FailedFits(n, stop, w1.(ranks := Without(w1.ranks, rank)), Loss(rank, result.value), rank in w.ranks.joiners);
      }
      hide Failed;
    case _ =>
  }

  /** A rank that ends is one the ring started with, or a joiner unless it was turned back. */
  lemma OutOfOrder(n: nat, r: Ranks, rank: nat)
    requires Tallied(n, r) && rank in Live(n, r) && r.refused == {}
    ensures rank !in r.joiners ==> rank < n
  {
  }

  lemma FinishedFits(s: Score)
    requires NamesFirst(s)
    ensures NamesFirst(s.(ok := s.ok + 1))
  {
  }

  lemma {:induction false} WatchAlwaysFits(n: nat, stop: set<nat>, script: seq<Signal>)
    requires Orderly(n, stop, script)
    ensures WatchFits(n, stop, HearAll(StartWatch(n), stop, script))
  {
    if script == [] {
      assert Live(n, StartWatch(n).ranks) == UpTo(n);
    } else {
      var front := script[..|script| - 1];
      WatchAlwaysFits(n, stop, front);
      HearFits(n, stop, HearAll(StartWatch(n), stop, front), script[|script| - 1]);
      hide Hear, WatchFits, InOrder;
    }
  }

  // ---- the verdict and the containment ----

  /** This signal, heard now, is a failure that ends the run: of a rank the ring started with, unless that missed the start, was
      released, or was told to stop; and of the first rank, or with the ring stopped, or for good. */
  predicate FatalSignal(w: Watch, s: Signal) {
    && w.ranks.running > 0 && s.ResultSignal? && s.failure.Some? && !w.clock.quit && w.score.fatal.None?
    && s.rank !in w.ranks.joiners && s.failure.value.code != 75 && s.failure.value.code != 77
    && !(s.failure.value.canceled && (s.rank in w.ranks.refused || w.clock.stopped))
    && (s.rank == 0 || s.failure.value.code == 76 || s.failure.value.permanent)
  }

  predicate FinishSignal(w: Watch, s: Signal) {
    w.ranks.running > 0 && s.ResultSignal? && s.failure.None?
  }

  /** Whether, and how, one signal fails the run: only the first fatal one does. */
  lemma FatalStep(w: Watch, stop: set<nat>, s: Signal)
    ensures Hear(w, stop, s).score.fatal ==
      if FatalSignal(w, s) then Some(Loss(s.rank, s.failure.value)) else w.score.fatal
    ensures FatalSignal(w, s) ==> w.score.fatal.None?
    ensures Hear(w, stop, s).score.ok == if FinishSignal(w, s) then w.score.ok + 1 else w.score.ok
  {
    hide StopAll;
  }

  /** The watch when it hears the i-th signal. */
  function Before(n: nat, stop: set<nat>, script: seq<Signal>, i: nat): Watch
    requires i <= |script|
  {
    HearAll(StartWatch(n), stop, script[..i])
  }

  ghost predicate FatalAt(n: nat, stop: set<nat>, script: seq<Signal>, i: nat)
    requires i < |script|
  {
    FatalSignal(Before(n, stop, script, i), script[i])
  }

  ghost predicate FinishAt(n: nat, stop: set<nat>, script: seq<Signal>, i: nat)
    requires i < |script|
  {
    FinishSignal(Before(n, stop, script, i), script[i])
  }

  lemma SameBefore(n: nat, stop: set<nat>, script: seq<Signal>, i: nat)
    requires i < |script| - 1
    ensures var front := script[..|script| - 1];
      && front[i] == script[i]
      && (FatalAt(n, stop, front, i) <==> FatalAt(n, stop, script, i))
      && (FinishAt(n, stop, front, i) <==> FinishAt(n, stop, script, i))
  {
    assert script[..|script| - 1][..i] == script[..i];
  }

  /** What failed the run is the one fatal signal in the script; a script has at most one. */
  lemma {:induction false} FatalIsHeard(n: nat, stop: set<nat>, script: seq<Signal>)
    ensures var fatal := HearAll(StartWatch(n), stop, script).score.fatal;
      && (fatal.Some? ==> exists i | 0 <= i < |script| :: FatalAt(n, stop, script, i))
      && (forall i | 0 <= i < |script| && FatalAt(n, stop, script, i) ::
            script[i].ResultSignal? && script[i].failure.Some? && fatal == Some(Loss(script[i].rank, script[i].failure.value)))
  {
    if script != [] {
      var k := |script| - 1;
      var front := script[..k];
      var w := HearAll(StartWatch(n), stop, front);
      FatalIsHeard(n, stop, front);
      FatalStep(w, stop, script[k]);
      assert FatalAt(n, stop, script, k) <==> FatalSignal(w, script[k]);
      forall i | 0 <= i < k
        ensures front[i] == script[i] && (FatalAt(n, stop, front, i) <==> FatalAt(n, stop, script, i))
      {
        SameBefore(n, stop, script, i);
      }
      assert FatalSignal(w, script[k]) ==> script[k].ResultSignal? && script[k].failure.Some?;
      hide Hear, FatalSignal, FatalAt;
    }
  }

  lemma {:induction false} FinishIsHeard(n: nat, stop: set<nat>, script: seq<Signal>)
    ensures HearAll(StartWatch(n), stop, script).score.ok > 0 <==> exists i | 0 <= i < |script| :: FinishAt(n, stop, script, i)
  {
    if script != [] {
      var k := |script| - 1;
      var front := script[..k];
      var w := HearAll(StartWatch(n), stop, front);
      FinishIsHeard(n, stop, front);
      FatalStep(w, stop, script[k]);
      assert FinishAt(n, stop, script, k) <==> FinishSignal(w, script[k]);
      forall i | 0 <= i < k
        ensures FinishAt(n, stop, front, i) <==> FinishAt(n, stop, script, i)
      {
        SameBefore(n, stop, script, i);
      }
      hide Hear, FinishSignal, FinishAt;
    }
  }

  lemma QuitStep(w: Watch, stop: set<nat>, s: Signal)
    requires !s.CancelSignal?
    ensures Hear(w, stop, s).clock.quit == w.clock.quit
  {
    hide StopAll, Excused;
  }

  lemma {:induction false} NotQuit(n: nat, stop: set<nat>, script: seq<Signal>)
    requires CancelSignal !in script
    ensures !HearAll(StartWatch(n), stop, script).clock.quit
  {
    if script != [] {
      var front := script[..|script| - 1];
      NotQuit(n, stop, front);
      QuitStep(HearAll(StartWatch(n), stop, front), stop, script[|script| - 1]);
      hide Hear;
    }
  }

  /** A run the user does not cancel succeeds exactly when some rank finished and no failure ended the run. */
  lemma SuccessIff(n: nat, stop: set<nat>, script: seq<Signal>)
    requires CancelSignal !in script && HearAll(StartWatch(n), stop, script).ranks.running <= 0
    ensures VerdictOf(HearAll(StartWatch(n), stop, script)) == Success <==>
      (exists i | 0 <= i < |script| :: FinishAt(n, stop, script, i)) && (forall i | 0 <= i < |script| :: !FatalAt(n, stop, script, i))
  {
    NotQuit(n, stop, script);
    FatalIsHeard(n, stop, script);
    FinishIsHeard(n, stop, script);
    hide HearAll, FatalAt, FinishAt;
  }

  /** With no rank finished, the verdict of a run the user does not cancel names the earliest failure that counted. */
  lemma VerdictNamesFirst(n: nat, stop: set<nat>, script: seq<Signal>)
    requires Orderly(n, stop, script) && CancelSignal !in script
    requires HearAll(StartWatch(n), stop, script).score.ok == 0
    ensures var w := HearAll(StartWatch(n), stop, script);
      match VerdictOf(w)
      case Success => false
      case NobodyFinished => w.score.first.None?
      case Fatal(why) => w.score.first == Some(why)
      case Lost(cause, _) => w.score.first == Some(cause)
  {
    NotQuit(n, stop, script);
    WatchAlwaysFits(n, stop, script);
    hide HearAll, Tallied, Contained;
  }

  /** On every script: the count of running ranks is the ranks started or announced less those ended; and once the run has
      failed every rank still going has been told to stop, those announced afterwards too. */
  lemma FailureIsContained(n: nat, stop: set<nat>, script: seq<Signal>)
    requires Orderly(n, stop, script) && UpTo(n) <= stop
    ensures var w := HearAll(StartWatch(n), stop, script);
      && w.ranks.running == |UpTo(n) + w.ranks.announced - w.ranks.ended|
      && (w.score.fatal.Some? ==> w.score.fatal.value.rank < n && Live(n, w.ranks) <= w.told.canceled)
  {
    WatchAlwaysFits(n, stop, script);
    hide HearAll, NamesFirst;
  }

  /** A rank announced after the grace has run out is not stopped by it: nobody more is told to stop unless the run fails, so
      the watch goes on for as long as that rank does. */
  lemma {:induction false} LateJoinerRunsOn(w: Watch, stop: set<nat>, script: seq<Signal>)
    requires w.clock.stopped && !w.clock.grace && HearAll(w, stop, script).score.fatal.None?
    ensures HearAll(w, stop, script).clock.stopped && !HearAll(w, stop, script).clock.grace
    ensures HearAll(w, stop, script).told.canceled == w.told.canceled
  {
    if script != [] {
      var front := script[..|script| - 1];
      FatalStep(HearAll(w, stop, front), stop, script[|script| - 1]);
      LateJoinerRunsOn(w, stop, front);
      hide StopAll, Excused, HearAll;
      LateStep(HearAll(w, stop, front), stop, script[|script| - 1]);
    }
  }

  lemma LateStep(w: Watch, stop: set<nat>, s: Signal)
    requires w.clock.stopped && !w.clock.grace && Hear(w, stop, s).score.fatal.None?
    ensures var w' := Hear(w, stop, s); w'.clock.stopped && !w'.clock.grace && w'.told.canceled == w.told.canceled
  {
    hide StopAll;
  }

  // ---- which joiners the grace stops ----

  /** The grace timer, if it runs, runs out now. */
  predicate GraceFires(w: Watch, s: Signal) {
    w.ranks.running > 0 && s.GraceSignal? && Armed(w).clock.grace
  }

  /** At the i-th signal the grace runs out, with this rank announced and still going. */
  ghost predicate CaughtAt(n: nat, stop: set<nat>, script: seq<Signal>, i: nat, rank: nat)
    requires i < |script|
  {
    var w := Before(n, stop, script, i);
    GraceFires(w, script[i]) && rank in w.ranks.announced && rank !in w.ranks.ended
  }

  lemma CaughtBefore(n: nat, stop: set<nat>, script: seq<Signal>, i: nat, rank: nat)
    requires i < |script| - 1
    ensures script[..|script| - 1][i] == script[i]
    ensures CaughtAt(n, stop, script[..|script| - 1], i, rank) <==> CaughtAt(n, stop, script, i, rank)
  {
    assert script[..|script| - 1][..i] == script[..i];
  }

  /** The grace ran out at some signal with this rank announced and still going. */
  ghost predicate EverCaught(n: nat, stop: set<nat>, script: seq<Signal>, rank: nat) {
    exists i | 0 <= i < |script| :: CaughtAt(n, stop, script, i, rank)
  }

  lemma EverCaughtNext(n: nat, stop: set<nat>, script: seq<Signal>, rank: nat)
    requires script != []
    ensures var front, s := script[..|script| - 1], script[|script| - 1];
      var w := HearAll(StartWatch(n), stop, front);
      EverCaught(n, stop, script, rank) <==>
        EverCaught(n, stop, front, rank)
        || (GraceFires(w, s) && rank in w.ranks.announced && rank !in w.ranks.ended)
  {
    var k := |script| - 1;
    var front := script[..k];
    assert CaughtAt(n, stop, script, k, rank) <==>
      var w := HearAll(StartWatch(n), stop, front);
      GraceFires(w, script[k]) && rank in w.ranks.announced && rank !in w.ranks.ended;
    hide GraceFires, CaughtAt, HearAll;
    forall i | 0 <= i < k
      ensures CaughtAt(n, stop, front, i, rank) <==> CaughtAt(n, stop, script, i, rank)
    {
      CaughtBefore(n, stop, script, i, rank);
    }
  }

  /** Whom one signal tells to stop, as long as the run has not failed: those still going when the grace runs out. */
  lemma ToldStep(w: Watch, stop: set<nat>, s: Signal)
    requires w.ranks.refused == {} && Hear(w, stop, s).score.fatal.None?
    ensures w.score.fatal.None?
    ensures Hear(w, stop, s).told.canceled ==
      w.told.canceled + if GraceFires(w, s) then w.ranks.joiners + (stop - w.ranks.ended) else {}
  {
    FatalStep(w, stop, s);
    hide Excused, EndsRun;
  }

  /** Whether a rank started mid-run is told to stop by one signal, as long as the run has not failed. */
  lemma JoinerStep(n: nat, stop: set<nat>, w: Watch, s: Signal, rank: nat)
    requires WatchFits(n, stop, w) && stop <= UpTo(n) && rank >= n && Hear(w, stop, s).score.fatal.None?
    ensures w.score.fatal.None?
    ensures rank in Hear(w, stop, s).told.canceled <==>
      rank in w.told.canceled || (GraceFires(w, s) && rank in w.ranks.announced && rank !in w.ranks.ended)
  {
    FatalStep(w, stop, s);
    JoinersAre(n, stop, w);
    ToldStep(w, stop, s);
    hide Hear, WatchFits, GraceFires;
  }

  /** Unless the run fails, a rank started mid-run is told to stop exactly when it was announced before the grace ran out and had not
      ended by then; one announced later is waited for however long it takes. */
  lemma {:induction false} JoinerToldIff(n: nat, stop: set<nat>, script: seq<Signal>, rank: nat)
    requires Orderly(n, stop, script) && stop <= UpTo(n) && rank >= n
    requires HearAll(StartWatch(n), stop, script).score.fatal.None?
    ensures rank in HearAll(StartWatch(n), stop, script).told.canceled <==> EverCaught(n, stop, script, rank)
  {
    if script != [] {
      var front, s := script[..|script| - 1], script[|script| - 1];
      var w := HearAll(StartWatch(n), stop, front);
      assert HearAll(StartWatch(n), stop, script) == Hear(w, stop, s) && Orderly(n, stop, front);
      hide *;
      WatchAlwaysFits(n, stop, front);
      JoinerStep(n, stop, w, s, rank);
      JoinerToldIff(n, stop, front, rank);
      EverCaughtNext(n, stop, script, rank);
    }
  }

  /** While the run has not failed, the joiners are the ranks announced and still going. */
  lemma JoinersAre(n: nat, stop: set<nat>, w: Watch)
    requires WatchFits(n, stop, w) && w.score.fatal.None?
    ensures w.ranks.refused == {}
    ensures forall k :: k in w.ranks.joiners <==> k in w.ranks.announced && k !in w.ranks.ended
  {
    hide Live;
  }

  lemma HearNext(n: nat, stop: set<nat>, script: seq<Signal>, s: Signal)
    ensures HearAll(StartWatch(n), stop, script + [s]) == Hear(HearAll(StartWatch(n), stop, script), stop, s)
    ensures Orderly(n, stop, script + [s]) <==>
      Orderly(n, stop, script) && InOrder(n, HearAll(StartWatch(n), stop, script).ranks, s)
  {
    assert (script + [s])[..|script|] == script;
  }

  /** A watch over a ring of two of which nobody has failed. */
  function Calm(running: int, ended: set<nat>, joiners: set<nat>, grace: bool, stopped: bool, ok: nat, canceled: set<nat>): Watch {
    Watch(Ranks(running, ended, joiners, {}, joiners), Clock(grace, stopped, false), Score(ok, None, [], [], None, false),
          Told(canceled, []))
  }

  lemma CalmSteps()
    ensures Hear(StartWatch(2), {0, 1}, ResultSignal(1, None)) == Calm(1, {1}, {}, false, false, 1, {})
    ensures Hear(Calm(1, {1}, {}, false, false, 1, {}), {0, 1}, GraceSignal) == Calm(1, {1}, {}, false, true, 1, {0})
    ensures Hear(Calm(1, {1}, {}, false, true, 1, {0}), {0, 1}, AddedSignal(2)) == Calm(2, {1}, {2}, false, true, 1, {0})
    ensures Hear(Calm(1, {1}, {}, false, false, 1, {}), {0, 1}, AddedSignal(2)) == Calm(2, {1}, {2}, true, false, 1, {})
    ensures Hear(Calm(2, {1}, {2}, true, false, 1, {}), {0, 1}, GraceSignal) == Calm(2, {1}, {2}, false, true, 1, {0, 2})
  {
    assert {0, 1} - {1} == {0};
    assert {0, 1} - {1, 2} == {0};
  }

  /** It happens: in a ring of two, rank 1 finishes, the grace runs out, and rank 2 is started after all: nobody has told it to stop,
      and the watch goes on for it. Started one signal earlier, it is told. */
  lemma LateJoinerIsMissed()
    ensures var done, late := ResultSignal(1, None), AddedSignal(2);
      var missed := HearAll(StartWatch(2), {0, 1}, [done] + [GraceSignal] + [late]);
      var caught := HearAll(StartWatch(2), {0, 1}, [done] + [late] + [GraceSignal]);
      && Orderly(2, {0, 1}, [done] + [GraceSignal] + [late]) && Orderly(2, {0, 1}, [done] + [late] + [GraceSignal])
      && 2 in missed.ranks.announced && 2 !in missed.ranks.ended && missed.score.fatal.None? && 2 !in missed.told.canceled
      && 2 in caught.told.canceled
  {
    var stop, done, late := {0, 1}, ResultSignal(1, None), AddedSignal(2);
    CalmSteps();
    HearNext(2, stop, [], done);
    assert [] + [done] == [done];
    HearNext(2, stop, [done], GraceSignal);
    HearNext(2, stop, [done], late);
    HearNext(2, stop, [done] + [GraceSignal], late);
    HearNext(2, stop, [done] + [late], GraceSignal);
    assert Orderly(2, stop, []) && HearAll(StartWatch(2), stop, []) == StartWatch(2);
    hide Hear, HearAll, Orderly;
  }
}
