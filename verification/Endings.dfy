/** The verdict of a run its user does not cancel, read off what the watch heard. */
module Endings {
  import opened Wrappers
  import opened Counting
  import opened Supervisor

  // ---- what a script says ----

  ghost predicate Finished(script: seq<Signal>) {
    exists k :: ResultSignal(k, None) in script
  }

  ghost predicate HasEnded(script: seq<Signal>, k: nat) {
    exists f :: ResultSignal(k, f) in script
  }

  /** The rank is one of the ring's, or was started since, and has not ended. */
  ghost predicate Going(n: nat, script: seq<Signal>, k: nat) {
    (k < n || AddedSignal(k) in script) && !HasEnded(script, k)
  }

  ghost predicate SomeGoing(n: nat, script: seq<Signal>) {
    exists k: nat :: (k < n || AddedSignal(k) in script) && !HasEnded(script, k)
  }

  /** Those still going have no run to wait for: some rank has finished, or only joiners are left. */
  ghost predicate Ripe(n: nat, script: seq<Signal>) {
    Finished(script) || ((forall k | 0 <= k < n :: HasEnded(script, k)) && exists k :: AddedSignal(k) in script && !HasEnded(script, k))
  }

  ghost predicate RipeBy(n: nat, script: seq<Signal>, j: nat)
    requires j < |script|
  {
    exists m | 0 <= m <= j :: Ripe(n, script[..m])
  }

  ghost predicate WasRipe(n: nat, script: seq<Signal>) {
    exists m | 0 <= m < |script| :: Ripe(n, script[..m])
  }

  /** They were given their time, and it has run out. */
  ghost predicate TimeIsUp(n: nat, script: seq<Signal>) {
    exists j | 0 <= j < |script| :: script[j] == GraceSignal && RipeBy(n, script, j)
  }

  /** A failure other than a released rank's, and not the end of a rank that was told its time is up. */
  ghost predicate Fails(n: nat, script: seq<Signal>, i: nat) {
    && i < |script| && script[i].ResultSignal? && script[i].failure.Some? && script[i].failure.value.code != 77
    && !(script[i].failure.value.canceled && TimeIsUp(n, script[..i]))
  }

  /** The script itself failed on a rank the ring started with, or was stopped on it, or this was the machine that leads; a rank that
      missed the start hurts nobody. */
  ghost predicate Hurts(n: nat, script: seq<Signal>, i: nat) {
    && Fails(n, script, i) && script[i].rank < n && script[i].failure.value.code != 75
    && (script[i].rank == 0 || script[i].failure.value.code == 76 || script[i].failure.value.permanent)
  }

  ghost predicate FirstHurt(n: nat, script: seq<Signal>, i: nat) {
    Hurts(n, script, i) && forall j | 0 <= j < i :: !Hurts(n, script, j)
  }

  /** A failure counts until one has hurt. */
  ghost predicate Counts(n: nat, script: seq<Signal>, i: nat) {
    Fails(n, script, i) && forall j | 0 <= j < i :: !Hurts(n, script, j)
  }

  ghost predicate FirstCounted(n: nat, script: seq<Signal>, i: nat) {
    Counts(n, script, i) && forall j | 0 <= j < i :: !Counts(n, script, j)
  }

  ghost predicate IsLoss(script: seq<Signal>, i: nat, loss: Loss) {
    i < |script| && script[i].ResultSignal? && script[i].failure == Some(loss.failure) && script[i].rank == loss.rank
  }

  /** The ring goes on without the rank that failed, and is told. */
  ghost predicate Leaves(n: nat, script: seq<Signal>, i: nat, k: nat) {
    && Counts(n, script, i) && !Hurts(n, script, i) && script[i].rank == k
    && SomeGoing(n, script[..i + 1])
  }

  // ---- the watch keeps to it ----

  /** Who is going, and whether any has finished. */
  ghost predicate Known(n: nat, script: seq<Signal>, w: Watch) {
    && !w.clock.quit && (w.score.ok > 0 <==> Finished(script))
    && (w.ranks.running > 0 ==>
          && (forall k :: k in w.ranks.announced <==> AddedSignal(k) in script)
          && (forall k :: k in w.ranks.ended <==> HasEnded(script, k)))
  }

  /** Unless the run has failed: whether the timer is set, whether it has run out, and that nobody is told to stop before. */
  ghost predicate Timed(n: nat, script: seq<Signal>, w: Watch) {
    w.ranks.running > 0 && w.score.fatal.None? ==>
      && (w.clock.stopped <==> TimeIsUp(n, script))
      && (!w.clock.stopped ==>
            w.told.canceled == {} && (w.clock.grace <==> WasRipe(n, script)))
  }

  /** What failed the run, and which failure was the first. */
  ghost predicate Judged(n: nat, script: seq<Signal>, s: Score) {
    && (if s.fatal.None? then forall i | 0 <= i < |script| :: !Hurts(n, script, i)
        else exists i | 0 <= i < |script| ::
          FirstHurt(n, script, i) && IsLoss(script, i, s.fatal.value) && (s.fatalFirst <==> FirstCounted(n, script, i)))
    && (if s.first.None? then forall i | 0 <= i < |script| :: !Counts(n, script, i)
        else exists i | 0 <= i < |script| :: FirstCounted(n, script, i) && IsLoss(script, i, s.first.value))
  }

  /** Of which ranks the ring was told that they are gone. */
  ghost predicate Reported(n: nat, script: seq<Signal>, t: Told) {
    forall k :: k in t.downs <==> exists i | 0 <= i < |script| :: Leaves(n, script, i, k)
  }

  ghost predicate Tracks(n: nat, script: seq<Signal>, w: Watch) {
    Known(n, script, w) && Timed(n, script, w) && Judged(n, script, w.score) && Reported(n, script, w.told)
  }

  lemma OneMore(n: nat, script: seq<Signal>, s: Signal)
    ensures forall k, f :: ResultSignal(k, f) in script + [s] <==> ResultSignal(k, f) in script || s == ResultSignal(k, f)
    ensures forall k :: AddedSignal(k) in script + [s] <==> AddedSignal(k) in script || s == AddedSignal(k)
    ensures forall k :: HasEnded(script + [s], k) <==> HasEnded(script, k) || (s.ResultSignal? && s.rank == k)
    ensures Finished(script + [s]) <==> Finished(script) || (s.ResultSignal? && s.failure.None?)
  {
    var all := script + [s];
    assert all[|script|] == s;
    forall x
      ensures x in all <==> x in script || x == s
    {
    }
    forall k
      ensures HasEnded(all, k) <==> HasEnded(script, k) || (s.ResultSignal? && s.rank == k)
    {
      if HasEnded(script, k) {
        var f :| ResultSignal(k, f) in script;
        assert ResultSignal(k, f) in all;
      }
      if s.ResultSignal? && s.rank == k {
        assert ResultSignal(k, s.failure) in all;
      }
    }
    if Finished(script) {
      var k :| ResultSignal(k, None) in script;
      assert ResultSignal(k, None) in all;
    }
    if s.ResultSignal? && s.failure.None? {
      assert ResultSignal(s.rank, None) in all;
    }
  }

  lemma SameSoFar(n: nat, script: seq<Signal>, s: Signal, i: nat)
    requires i < |script|
    ensures (script + [s])[..i] == script[..i] && (script + [s])[..i + 1] == script[..i + 1] && (script + [s])[i] == script[i]
    ensures Fails(n, script + [s], i) <==> Fails(n, script, i)
    ensures Hurts(n, script + [s], i) <==> Hurts(n, script, i)
  {
    assert (script + [s])[..i] == script[..i] && (script + [s])[..i + 1] == script[..i + 1];
    hide TimeIsUp;
  }

  lemma AllSame(n: nat, script: seq<Signal>, s: Signal)
    ensures var all := script + [s];
      forall i | 0 <= i < |script| ::
        && (Hurts(n, all, i) <==> Hurts(n, script, i)) && (FirstHurt(n, all, i) <==> FirstHurt(n, script, i))
        && (Counts(n, all, i) <==> Counts(n, script, i)) && (FirstCounted(n, all, i) <==> FirstCounted(n, script, i))
        && (forall loss :: IsLoss(all, i, loss) <==> IsLoss(script, i, loss))
        && (forall k :: Leaves(n, all, i, k) <==> Leaves(n, script, i, k))
  {
    forall i | 0 <= i < |script|
      ensures var all := script + [s];
        && all[..i + 1] == script[..i + 1] && all[i] == script[i]
        && (Fails(n, all, i) <==> Fails(n, script, i)) && (Hurts(n, all, i) <==> Hurts(n, script, i))
    {
      SameSoFar(n, script, s, i);
    }
    hide Fails, Hurts, SomeGoing;
  }

  /** What the next signal adds to the script. */
  lemma NextIs(n: nat, script: seq<Signal>, s: Signal)
    ensures var all, i := script + [s], |script|;
      && all[..i] == script && all[..i + 1] == all && all[i] == s
      && (Fails(n, all, i) <==>
            s.ResultSignal? && s.failure.Some? && s.failure.value.code != 77 && !(s.failure.value.canceled && TimeIsUp(n, script)))
      && (Hurts(n, all, i) <==>
            Fails(n, all, i) && s.rank < n && s.failure.value.code != 75
            && (s.rank == 0 || s.failure.value.code == 76 || s.failure.value.permanent))
      && (Counts(n, all, i) <==> Fails(n, all, i) && forall j | 0 <= j < i :: !Hurts(n, script, j))
  {
    var all, i := script + [s], |script|;
    assert all[..i] == script && all[..i + 1] == all && all[i] == s;
    AllSame(n, script, s);
    hide TimeIsUp, FirstHurt, FirstCounted, Leaves;
  }

  // ---- one signal more: who is going ----

  lemma KnownStep(n: nat, stop: set<nat>, script: seq<Signal>, w: Watch, s: Signal)
    requires Known(n, script, w) && s != CancelSignal && (w.ranks.running <= 0 ==> !s.ResultSignal?)
    ensures Known(n, script + [s], Hear(w, stop, s))
  {
    OneMore(n, script, s);
    hide HasEnded, Finished, Excused, Failed, StopAll;
    if s.ResultSignal? && w.ranks.running > 0 {
      EndedRanks(Armed(w), stop, s.rank, s.failure);
      hide Ended;
    }
  }

  lemma EndedRanks(w: Watch, stop: set<nat>, rank: nat, result: Option<Failure>)
    ensures var w' := Ended(w, stop, rank, result);
      && w'.ranks == Without(w.ranks, rank) && w'.clock.quit == w.clock.quit
      && w'.score.ok == if result.None? then w.score.ok + 1 else w.score.ok
  {
    hide Excused, StopAll;
  }

  // ---- one signal more: the verdict ----

  /** A failure the watch counts is one that counts, and it ends the run exactly when it hurts. */
  lemma SameCount(n: nat, stop: set<nat>, script: seq<Signal>, w: Watch, s: Signal)
    requires WatchFits(n, stop, w) && Tracks(n, script, w) && w.ranks.running > 0 && s.ResultSignal? && s.failure.Some?
    requires s.rank in Live(n, w.ranks)
    ensures var w1 := Armed(w).(ranks := Without(w.ranks, s.rank));
      && (!Excused(w1, s.rank, s.failure.value) <==> Counts(n, script + [s], |script|))
      && (Counts(n, script + [s], |script|) ==>
            (EndsRun(s.rank, s.failure.value, s.rank in w.ranks.joiners) <==> Hurts(n, script + [s], |script|)))
  {
    NextIs(n, script, s);
    hide Finished, HasEnded, Reported, NamesFirst, TimeIsUp, FirstCounted, Ripe, Counts, Hurts, Fails;
    if w.score.fatal.None? {
      assert forall j | 0 <= j < |script| :: !Hurts(n, script, j);
      assert w.ranks.refused == {};
    } else {
      var i :| 0 <= i < |script| && FirstHurt(n, script, i) && IsLoss(script, i, w.score.fatal.value)
        && (w.score.fatalFirst <==> FirstCounted(n, script, i));
      assert Hurts(n, script, i);
    }
  }

  /** What a counted failure, and one that hurts, do to the score. */
  ghost predicate Scored(sc: Score, sc': Score, loss: Loss, counts: bool, hurts: bool) {
    if !counts then sc'.fatal == sc.fatal && sc'.first == sc.first && sc'.fatalFirst == sc.fatalFirst
    else
      && sc'.first == (if sc.first.None? then Some(loss) else sc.first)
      && (if hurts then sc'.fatal == Some(loss) && (sc'.fatalFirst <==> sc.first.None?)
          else sc'.fatal == sc.fatal && sc'.fatalFirst == sc.fatalFirst)
  }

  lemma JudgedNext(n: nat, script: seq<Signal>, s: Signal, sc: Score, sc': Score, loss: Loss)
    requires Judged(n, script, sc)
    requires Counts(n, script + [s], |script|) ==> s == ResultSignal(loss.rank, Some(loss.failure))
    requires Scored(sc, sc', loss, Counts(n, script + [s], |script|), Hurts(n, script + [s], |script|))
    ensures Judged(n, script + [s], sc')
  {
    var all, i := script + [s], |script|;
    NextIs(n, script, s);
    AllSame(n, script, s);
    CountsUntilHurt(n, all, i);
    hide Fails, Leaves;
    FatalNext(n, script, s, sc, sc', loss);
    FirstNext(n, script, s, sc, sc', loss);
  }

  lemma CountsUntilHurt(n: nat, script: seq<Signal>, i: nat)
    ensures Hurts(n, script, i) && (forall j | 0 <= j < i :: !Hurts(n, script, j)) ==> Counts(n, script, i)
    ensures Counts(n, script, i) ==> forall j | 0 <= j < i :: !Hurts(n, script, j)
  {
  }

  lemma FatalNext(n: nat, script: seq<Signal>, s: Signal, sc: Score, sc': Score, loss: Loss)
    requires Judged(n, script, sc)
    requires var all, i := script + [s], |script|;
      && (Counts(n, all, i) ==> s == ResultSignal(loss.rank, Some(loss.failure)))
      && Scored(sc, sc', loss, Counts(n, all, i), Hurts(n, all, i))
    ensures var all := script + [s];
      if sc'.fatal.None? then forall i | 0 <= i < |all| :: !Hurts(n, all, i)
      else exists i | 0 <= i < |all| ::
        FirstHurt(n, all, i) && IsLoss(all, i, sc'.fatal.value) && (sc'.fatalFirst <==> FirstCounted(n, all, i))
  {
    var all, i := script + [s], |script|;
    AllSame(n, script, s);
    CountsUntilHurt(n, all, i);
    hide Hurts, Counts, Leaves;
    assert all[i] == s;
    if sc.fatal.Some? {
      var j :| 0 <= j < |script| && FirstHurt(n, script, j) && IsLoss(script, j, sc.fatal.value)
        && (sc.fatalFirst <==> FirstCounted(n, script, j));
      assert FirstHurt(n, all, j) && IsLoss(all, j, sc.fatal.value) && (sc.fatalFirst <==> FirstCounted(n, all, j));
      assert Hurts(n, all, j);
    } else if Counts(n, all, i) && Hurts(n, all, i) {
      assert FirstHurt(n, all, i) && IsLoss(all, i, loss);
      assert FirstCounted(n, all, i) <==> sc.first.None?;
    }
  }

  lemma FirstNext(n: nat, script: seq<Signal>, s: Signal, sc: Score, sc': Score, loss: Loss)
    requires Judged(n, script, sc)
    requires var all, i := script + [s], |script|;
      && (Counts(n, all, i) ==> s == ResultSignal(loss.rank, Some(loss.failure)))
      && Scored(sc, sc', loss, Counts(n, all, i), Hurts(n, all, i))
    ensures var all := script + [s];
      if sc'.first.None? then forall i | 0 <= i < |all| :: !Counts(n, all, i)
      else exists i | 0 <= i < |all| :: FirstCounted(n, all, i) && IsLoss(all, i, sc'.first.value)
  {
    var all, i := script + [s], |script|;
    AllSame(n, script, s);
    hide Hurts, Counts, Leaves, FirstHurt;
    assert all[i] == s;
    if sc.first.Some? {
      var j :| 0 <= j < |script| && FirstCounted(n, script, j) && IsLoss(script, j, sc.first.value);
      assert FirstCounted(n, all, j) && IsLoss(all, j, sc.first.value);
    } else if Counts(n, all, i) {
      assert FirstCounted(n, all, i) && IsLoss(all, i, loss);
    }
  }

  /** What one signal does to the score and to what the ring is told, in the watch's own terms. */
  lemma ScoreStep(w: Watch, stop: set<nat>, s: Signal)
    requires NamesFirst(w.score)
    ensures var w1, w' := Armed(w), Hear(w, stop, s);
      if w.ranks.running <= 0 || !s.ResultSignal? || s.failure.None? then
        Scored(w.score, w'.score, Loss(0, Failure(0, false, false)), false, false) && w'.told.downs == w.told.downs
      else
        var w2, f := w1.(ranks := Without(w1.ranks, s.rank)), s.failure.value;
        var counts, hurts := !Excused(w2, s.rank, f), EndsRun(s.rank, f, s.rank in w.ranks.joiners);
        !w.clock.quit ==>
          && Scored(w.score, w'.score, Loss(s.rank, f), counts, hurts)
          && w'.told.downs == if counts && !hurts && w.ranks.running > 1 then w.told.downs + [s.rank] else w.told.downs
  {
    hide Excused, EndsRun;
  }

  lemma ReportedNext(n: nat, script: seq<Signal>, s: Signal, t: Told, t': Told)
    requires Reported(n, script, t)
    requires s.ResultSignal? && Leaves(n, script + [s], |script|, s.rank) ==> t'.downs == t.downs + [s.rank]
    requires !(s.ResultSignal? && Leaves(n, script + [s], |script|, s.rank)) ==> t'.downs == t.downs
    ensures Reported(n, script + [s], t')
  {
    var all, i := script + [s], |script|;
    AllSame(n, script, s);
    NextIs(n, script, s);
    hide Counts, Hurts, SomeGoing, FirstHurt, FirstCounted, IsLoss, Fails;
    forall k
      ensures k in t'.downs <==> exists j | 0 <= j < |all| :: Leaves(n, all, j, k)
    {
      assert Leaves(n, all, i, k) ==> s.ResultSignal? && s.rank == k by { FailsIsResult(n, all, i); }
      if k in t.downs {
        var j :| 0 <= j < |script| && Leaves(n, script, j, k);
        assert Leaves(n, all, j, k);
      }
    }
  }

  lemma FailsIsResult(n: nat, script: seq<Signal>, i: nat)
    ensures Counts(n, script, i) ==> i < |script| && script[i].ResultSignal? && script[i].failure.Some?
  {
  }

  /** After a rank's end others are going exactly when it was not the last. */
  lemma OthersGo(n: nat, script: seq<Signal>, w: Watch, rank: nat, f: Option<Failure>)
    requires Known(n, script, w) && Tallied(n, w.ranks) && rank in Live(n, w.ranks) && w.ranks.running > 0
    ensures SomeGoing(n, script + [ResultSignal(rank, f)]) <==> w.ranks.running > 1
  {
    var all, live := script + [ResultSignal(rank, f)], Live(n, w.ranks);
    OneMore(n, script, ResultSignal(rank, f));
    hide HasEnded, Finished;
    assert forall k: nat :: k in live - {rank} <==> (k < n || AddedSignal(k) in all) && !HasEnded(all, k);
    assert |live - {rank}| == |live| - 1;
    if |live| > 1 {
      var k :| k in live - {rank};
    }
  }

  /** A signal's part in the verdict. */
  lemma VerdictStep(n: nat, stop: set<nat>, script: seq<Signal>, w: Watch, s: Signal)
    requires WatchFits(n, stop, w) && Tracks(n, script, w) && InOrder(n, w.ranks, s)
    ensures Judged(n, script + [s], Hear(w, stop, s).score) && Reported(n, script + [s], Hear(w, stop, s).told)
  {
    ScoreStep(w, stop, s);
    NextIs(n, script, s);
    FailsIsResult(n, script + [s], |script|);
    hide Hear, Fails, Armed, Without, Hurts, TimeIsUp, Excused, EndsRun, Judged, Reported, Scored;
    if s.ResultSignal? && s.failure.Some? {
      var f := s.failure.value;
      LiveRuns(n, w.ranks, s.rank);
      SameCount(n, stop, script, w, s);
      OthersGo(n, script, w, s.rank, s.failure);
      JudgedNext(n, script, s, w.score, Hear(w, stop, s).score, Loss(s.rank, f));
      assert Leaves(n, script + [s], |script|, s.rank) <==>
        Counts(n, script + [s], |script|) && !Hurts(n, script + [s], |script|) && w.ranks.running > 1;
      hide Leaves, Counts;
      ReportedNext(n, script, s, w.told, Hear(w, stop, s).told);
    } else {
      assert !Counts(n, script + [s], |script|);
      HurtsFails(n, script + [s], |script|);
      JudgedNext(n, script, s, w.score, Hear(w, stop, s).score, Loss(0, Failure(0, false, false)));
      ReportedNext(n, script, s, w.told, Hear(w, stop, s).told);
    }
  }

  lemma HurtsFails(n: nat, script: seq<Signal>, i: nat)
    ensures Hurts(n, script, i) ==> Fails(n, script, i)
  {
  }

  lemma LiveRuns(n: nat, r: Ranks, rank: nat)
    requires Tallied(n, r) && rank in Live(n, r)
    ensures r.running > 0
  {
  }

  // ---- one signal more: the time given ----

  lemma OnlyJoiners(n: nat, script: seq<Signal>, w: Watch)
    requires Known(n, script, w) && Tallied(n, w.ranks) && w.ranks.running > 0 && w.ranks.refused == {}
    ensures (w.score.ok > 0 || (w.ranks.joiners != {} && w.ranks.running == |w.ranks.joiners|)) <==> Ripe(n, script)
  {
    hide HasEnded, Finished;
    var live, joiners := Live(n, w.ranks), w.ranks.joiners;
    assert joiners <= live;
    assert |live - joiners| == |live| - |joiners|;
    assert (forall k | 0 <= k < n :: HasEnded(script, k)) <==> live == joiners;
    assert live == joiners <==> live - joiners == {};
    assert joiners != {} <==> exists k :: AddedSignal(k) in script && !HasEnded(script, k);
  }

  lemma TimeNext(n: nat, script: seq<Signal>, s: Signal)
    ensures WasRipe(n, script + [s]) <==> WasRipe(n, script) || Ripe(n, script)
    ensures TimeIsUp(n, script + [s]) <==> TimeIsUp(n, script) || (s == GraceSignal && WasRipe(n, script + [s]))
  {
    var all, i := script + [s], |script|;
    hide Ripe;
    assert all[..i] == script && all[i] == s;
    forall m | 0 <= m < i
      ensures all[..m] == script[..m] && all[m] == script[m]
    {
    }
    assert WasRipe(n, all) <==> RipeBy(n, all, i);
    forall j | 0 <= j < i
      ensures RipeBy(n, all, j) <==> RipeBy(n, script, j)
    {
      assert forall m | 0 <= m <= j :: all[..m] == script[..m];
    }
    if TimeIsUp(n, script) {
      var j :| 0 <= j < |script| && script[j] == GraceSignal && RipeBy(n, script, j);
      assert all[j] == GraceSignal && RipeBy(n, all, j);
    }
  }

  /** What one signal does to the timer, as long as the run has not failed. */
  lemma ClockStep(w: Watch, stop: set<nat>, s: Signal)
    requires Hear(w, stop, s).score.fatal.None? && w.ranks.running > 0
    ensures w.score.fatal.None?
    ensures var set_ := Armed(w).clock.grace; var w' := Hear(w, stop, s);
      if s == GraceSignal && set_ then w'.clock.stopped
      else w'.clock.stopped == w.clock.stopped && w'.clock.grace == set_ && w'.told.canceled == w.told.canceled
  {
    FatalStep(w, stop, s);
    hide Excused, EndsRun, StopAll;
  }

  lemma TimedStep(n: nat, stop: set<nat>, script: seq<Signal>, w: Watch, s: Signal)
    requires WatchFits(n, stop, w) && Known(n, script, w) && Timed(n, script, w)
    ensures Timed(n, script + [s], Hear(w, stop, s))
  {
    var w' := Hear(w, stop, s);
    RunningStays(w, stop, s);
    TimeNext(n, script, s);
    if w'.ranks.running > 0 && w'.score.fatal.None? {
      ClockStep(w, stop, s);
      assert w.ranks.refused == {};
      OnlyJoiners(n, script, w);
    }
    hide Hear, Known, Tallied, TimeIsUp, WasRipe, Ripe, NamesFirst;
  }

  lemma RunningStays(w: Watch, stop: set<nat>, s: Signal)
    ensures w.ranks.running <= 0 ==> Hear(w, stop, s) == w
  {
  }

  // ---- over whole scripts ----

  lemma {:induction false} WatchTracks(n: nat, stop: set<nat>, script: seq<Signal>)
    requires Orderly(n, stop, script) && CancelSignal !in script
    ensures Tracks(n, script, HearAll(StartWatch(n), stop, script))
  {
    if script == [] {
      Untouched(n);
    } else {
      var front, s := script[..|script| - 1], script[|script| - 1];
      var w := HearAll(StartWatch(n), stop, front);
      assert HearAll(StartWatch(n), stop, script) == Hear(w, stop, s) && Orderly(n, stop, front) && InOrder(n, w.ranks, s);
      assert script == front + [s] && s in script;
      hide *;
      WatchTracks(n, stop, front);
      WatchAlwaysFits(n, stop, front);
      TracksNext(n, stop, front, w, s);
    }
  }

  lemma Untouched(n: nat)
    ensures Tracks(n, [], StartWatch(n))
  {
  }

  lemma TracksNext(n: nat, stop: set<nat>, script: seq<Signal>, w: Watch, s: Signal)
    requires WatchFits(n, stop, w) && Tracks(n, script, w) && InOrder(n, w.ranks, s) && s != CancelSignal
    ensures Tracks(n, script + [s], Hear(w, stop, s))
  {
    if s.ResultSignal? {
      LiveRuns(n, w.ranks, s.rank);
    }
    KnownStep(n, stop, script, w, s);
    TimedStep(n, stop, script, w, s);
    VerdictStep(n, stop, script, w, s);
    hide Hear, Known, Timed, Judged, Reported, WatchFits;
  }

  /** What the verdict of a run says of its script: a success if some rank finished and none was hurt beyond help; the first failure
      that hurt, unless an earlier one counted and nobody finished; and else the first that counted. */
  ghost predicate VerdictFits(n: nat, script: seq<Signal>, v: Verdict) {
    match v
    case Success => Finished(script) && forall i | 0 <= i < |script| :: !Hurts(n, script, i)
    case Fatal(why) => exists i | 0 <= i < |script| ::
      FirstHurt(n, script, i) && IsLoss(script, i, why) && (Finished(script) || FirstCounted(n, script, i))
    case Lost(cause, _) => !Finished(script) && exists i | 0 <= i < |script| ::
      FirstCounted(n, script, i) && IsLoss(script, i, cause) && !FirstHurt(n, script, i)
    case NobodyFinished => !Finished(script) && forall i | 0 <= i < |script| :: !Counts(n, script, i)
  }

  /** A run the user does not cancel ends with the verdict its script asks for. */
  lemma VerdictIs(n: nat, stop: set<nat>, script: seq<Signal>)
    requires Orderly(n, stop, script) && CancelSignal !in script && HearAll(StartWatch(n), stop, script).ranks.running <= 0
    ensures VerdictFits(n, script, VerdictOf(HearAll(StartWatch(n), stop, script)))
  {
    WatchTracks(n, stop, script);
    WatchAlwaysFits(n, stop, script);
    hide HearAll, Known, Timed, Reported, Tallied, Contained, Hurts, Counts;
    var w := HearAll(StartWatch(n), stop, script);
    assert Finished(script) <==> w.score.ok > 0 by { TracksOk(n, script, w); }
    hide Finished;
    JudgedVerdict(n, script, w);
  }

  lemma TracksOk(n: nat, script: seq<Signal>, w: Watch)
    requires Tracks(n, script, w)
    ensures (w.score.ok > 0 <==> Finished(script)) && !w.clock.quit
  {
    hide Timed, Judged, Reported;
  }

  lemma JudgedVerdict(n: nat, script: seq<Signal>, w: Watch)
    requires Judged(n, script, w.score) && NamesFirst(w.score) && !w.clock.quit && (w.score.ok > 0 <==> Finished(script))
    ensures VerdictFits(n, script, VerdictOf(w))
  {
    hide Finished, Hurts, Counts;
    if w.score.fatal.Some? {
      var i :| 0 <= i < |script| && FirstHurt(n, script, i) && IsLoss(script, i, w.score.fatal.value)
        && (w.score.fatalFirst <==> FirstCounted(n, script, i));
      if VerdictOf(w).Lost? {
        var j :| 0 <= j < |script| && FirstCounted(n, script, j) && IsLoss(script, j, w.score.first.value);
        assert i != j;
      }
    }
  }

  /** No script asks for two verdicts. */
  lemma OneVerdictFits(n: nat, script: seq<Signal>, a: Verdict, b: Verdict)
    requires VerdictFits(n, script, a) && VerdictFits(n, script, b)
    ensures a == b || (a.Lost? && b.Lost? && a.cause == b.cause)
  {
    hide Finished, Fails;
  }

  /** Before its end: once a failure has hurt, every rank still going has been told to stop; nobody is told before that, or before
      their time is up; and the ring is told of exactly the ranks whose failure counted, hurt nobody, and left others going. */
  lemma WatchActs(n: nat, stop: set<nat>, script: seq<Signal>)
    requires Orderly(n, stop, script) && CancelSignal !in script && UpTo(n) <= stop
    ensures var w := HearAll(StartWatch(n), stop, script);
      && (forall k :: k in w.told.downs <==> exists i | 0 <= i < |script| :: Leaves(n, script, i, k))
      && (w.ranks.running > 0 ==>
            if exists i | 0 <= i < |script| :: Hurts(n, script, i)
            then forall k: nat | Going(n, script, k) :: k in w.told.canceled
            else !TimeIsUp(n, script) ==> w.told.canceled == {})
  {
    var w := HearAll(StartWatch(n), stop, script);
    WatchTracks(n, stop, script);
    FailureIsContained(n, stop, script);
    hide HearAll, Orderly, HasEnded, Finished, Hurts, Counts, TimeIsUp, WasRipe, Leaves, FirstHurt, FirstCounted;
    if w.ranks.running > 0 {
      forall k: nat | Going(n, script, k)
        ensures k in Live(n, w.ranks)
      {
      }
    }
  }
}
