/** What the lead tells the ring: after every change, the shares the ring now has. */
module Telling {
  import opened Wrappers
  import opened Vectors
  import opened Reduce
  import opened Messages
  import opened Shares
  import opened Rebalance
  import opened Protocol
  import opened Rounds
  import opened Verdicts
  import opened Notes
  import opened Closing
  import Joining

  // ---- what a change does, and what is said of it ----

  /** A note about the ring gives the shares in force, one for each of its ranks, and names the rank on its way in and the one
      handing over to it as long as no snapshot has come. */
  ghost predicate TellsRing(note: Note, run: Run, event: RingEvent) {
    && note.RingNote? && note.event == event && note.shares == run.ring.weights && |note.shares| == run.ring.world
    && (note.join.Some? <==> run.joins.join.Some? && run.joins.join.value.snap.None?)
    && (note.join.Some? ==> note.join.value == (run.joins.join.value.rank, run.joins.join.value.from))
  }

  /** The shares a ring had, or even ones when it has not been told any for its size. */
  ghost predicate SharesBefore(ring: Ring, world: nat, base: Vec) {
    |base| == world && if |ring.weights| == world then base == ring.weights else forall i | 0 <= i < world :: base[i] == 1.0
  }

  /** The ranks that go on have the proportions they had. */
  ghost predicate SameRatios(base: Vec, v: Vec, dropped: set<nat>)
    requires |base| <= |v|
  {
    forall i, j | 0 <= i < |base| && 0 <= j < |base| && i !in dropped && j !in dropped && base[i] >= 0.0 && base[j] >= 0.0 ::
      v[i] * base[j] == v[j] * base[i]
  }

  /** All of the data is moved to the ranks left, in the proportions they had; if none had a positive share, none of it. */
  ghost predicate SharedAmong(base: Vec, v: Vec, dropped: set<nat>) {
    && |v| == |base| && Proper(v, dropped) && SameRatios(base, v, dropped)
    && (Sum(v) == 1.0 <==> exists i | 0 <= i < |base| :: i !in dropped && base[i] > 0.0)
  }

  /** The first live rank below n; -1 when there is none. */
  ghost predicate FirstLeft(dropped: set<nat>, n: nat, k: int) {
    if k < 0 then k == -1 && forall j | 0 <= j < n :: j in dropped
    else k < n && k !in dropped && forall j | 0 <= j < k :: j in dropped
  }

  /** A join loses its joiner, and with it everything; or the rank handing over, and another takes that on. */
  ghost predicate JoinLoses(j: Joins, j': Joins, rank: nat, dropped: set<nat>) {
    && j'.admitted == j.admitted
    && j'.loading == (if j.loading.Some? && j.loading.value.rank == rank then None else j.loading)
    && match j.join
       case None => j'.join.None? && j'.woken == j.woken
       case Some(join) =>
         if join.rank == rank then j'.join.None? && j'.woken == if join.ready then j.woken else j.woken + [join.id]
         else
           && j'.woken == j.woken && j'.join.Some? && j'.join.value == join.(from := j'.join.value.from)
           && if join.from == rank then FirstLeft(dropped, join.oldWorld, j'.join.value.from) else j'.join.value.from == join.from
  }

  /** A rank of the ring is found down: its report is gone, its share moved, its part in a join over. */
  ghost predicate Sidelined(run: Run, run': Run, rank: nat, size: nat) {
    var world := if run.ring.world == 0 then size else run.ring.world;
    && rank < world && rank !in run.ring.dropped
    && run'.ring.world == world && run'.ring.dropped == run.ring.dropped + {rank}
    && run'.ring.reports == run.ring.reports - {rank}
    && (forall base | SharesBefore(run.ring, world, base) :: SharedAmong(base, run'.ring.weights, run'.ring.dropped))
    && JoinLoses(run.joins, run'.joins, rank, run'.ring.dropped)
    && run'.mode == run.mode && run'.lastSeq == run.lastSeq
  }

  /** One note more, from this sync on. */
  ghost predicate Says(run: Run, run': Run, start: int) {
    && |run'.news.published| == |run.news.published| + 1
    && run'.news.published[..|run.news.published|] == run.news.published
    && run'.news.published[|run.news.published|].start == start && NewsFit(run')
  }

  // ---- a rank goes down ----

  lemma RingNowTells(run: Run, event: RingEvent)
    requires |run.ring.weights| == run.ring.world
    ensures TellsRing(RingNow(run, event), run, event)
  {
  }

  lemma JoinWithoutLoses(j: Joins, rank: nat, dropped: set<nat>)
    ensures JoinLoses(j, JoinWithout(j, rank, dropped), rank, dropped)
  {
  }

  lemma WithoutShares(base: Vec, dropped: set<nat>)
    ensures SharedAmong(base, SharesWithout(base, dropped), dropped)
  {
    hide SharesWithout, Proper, Sum;
    var v := SharesWithout(base, dropped);
    WithoutProper(base, dropped);
    forall i, j | 0 <= i < |v| && 0 <= j < |v| && i !in dropped && j !in dropped && base[i] >= 0.0 && base[j] >= 0.0
      ensures v[i] * base[j] == v[j] * base[i]
    {
      WithoutKeepsRatios(base, dropped, i, j);
    }
  }

  lemma BaseIs(ring: Ring, world: nat, base: Vec)
    requires SharesBefore(ring, world, base)
    ensures base == if |ring.weights| == world then ring.weights else Ones(world)
  {
  }

  lemma WithoutSidelines(run: Run, rank: nat, size: nat)
    requires SoundRun(run) && FreshDown(run, rank, size)
    ensures Sidelined(run, WithoutRank(Sized(run, size), rank), rank, size)
    ensures var run' := WithoutRank(Sized(run, size), rank);
      |run'.ring.weights| == run'.ring.world && run'.news == run.news && run'.lastSeq == run.lastSeq
  {
    hide SharesWithout, Proper, Sum, Fitting, JoinWithout, JoinLoses, SharesBefore, SharedAmong;
    var run0 := Sized(run, size);
    JoinWithoutLoses(run.joins, rank, run.ring.dropped + {rank});
    forall base | SharesBefore(run.ring, run0.ring.world, base)
      ensures SharedAmong(base, WithoutRank(run0, rank).ring.weights, run.ring.dropped + {rank})
    {
      BaseIs(run.ring, run0.ring.world, base);
      WithoutShares(base, run.ring.dropped + {rank});
    }
  }

  /** A rank of the ring found down: its share is moved to the others, and the note says what they all have now. Of a rank that is
      already dropped, or that the ring never had, nothing is said. */
  lemma DownTells(s: State, rank: nat, world: nat, order: seq<Key>)
    requires Sound(s)
    ensures var run, run' := s.run, MarkDown(s, rank, world, order).run;
      if rank < (if run.ring.world == 0 then world else run.ring.world) && rank !in run.ring.dropped then
        && Says(run, run', run.lastSeq + 1) && TellsRing(run'.news.published[|run.news.published|].note, run', Down(rank))
        && Sidelined(run, run', rank, world)
      else run'.news == run.news && run'.ring.weights == run.ring.weights && run'.ring.dropped == run.ring.dropped + {rank}
  {
    hide CloseAll, WithoutRank, Sidelined, Fitting, SoundRound;
    if FreshDown(s.run, rank, world) {
      var run0 := Sized(s.run, world);
      var run1 := WithoutRank(run0, rank);
      WithoutSidelines(s.run, rank, world);
      RingNowTells(run1, Down(rank));
      var run2 := Publish(run1, run1.lastSeq + 1, RingNow(run1, Down(rank)));
      CloseAllNews(s.(run := run2), order);
      SidelinedAnyway(s.run, run1, MarkDown(s, rank, world, order).run, rank, world);
    }
  }

  lemma SidelinedAnyway(run: Run, a: Run, b: Run, rank: nat, size: nat)
    requires Sidelined(run, a, rank, size) && b == a.(news := b.news, residual := b.residual)
    ensures Sidelined(run, b, rank, size)
  {
    hide SharesBefore, SharedAmong, JoinLoses;
  }

  // ---- a rank joins ----

  /** The ranks that go on with a positive share. */
  ghost function Holders(base: Vec, dropped: set<nat>): set<nat> {
    set i: nat | i < |base| && base[i] > 0.0 && i !in dropped
  }

  /** Room made for one rank more: everybody else gives up the same part, and the newcomer has what each holder has on average. */
  ghost predicate RoomMade(base: Vec, v: Vec, dropped: set<nat>, rank: nat) {
    && |base| <= rank && |v| == rank + 1 && Sum(v) == 1.0 && SameRatios(base, v, dropped)
    && v[rank] * (|Holders(base, dropped)| + 1) as real == 1.0
    && (forall i | |base| <= i < rank :: v[i] == 0.0)
    && (rank !in dropped ==> Proper(v, dropped))
  }

  /** A rank is admitted: the ring has room for it, and the lowest live rank is to hand over. */
  ghost predicate Welcomed(run: Run, run': Run, rank: nat) {
    && run.ring.world <= rank && run'.ring.world == rank + 1
    && run'.ring.dropped == run.ring.dropped && (forall k | run.ring.world <= k < rank :: k in run.ring.dropped)
    && run'.ring.reports == run.ring.reports
    && (forall base | SharesBefore(run.ring, run.ring.world, base) :: RoomMade(base, run'.ring.weights, run'.ring.dropped, rank))
    && run.joins.join.None? && run'.joins.join.Some? && run'.joins.loading == run.joins.loading
    && run'.joins.join.value == Join(|run.joins.admitted|, rank, run'.joins.join.value.from, run.ring.world, None, false)
    && run'.joins.join.value.from >= 0 && FirstLeft(run.ring.dropped, run.ring.world, run'.joins.join.value.from)
    && run'.joins.admitted == run.joins.admitted + [Admitted(rank, run.ring.world)] && run'.joins.woken == run.joins.woken
    && run'.mode == run.mode && run'.lastSeq == run.lastSeq
  }

  lemma {:induction false} LiveHolders(base: Vec, dropped: set<nat>)
    ensures Live(base, dropped) == |Holders(base, dropped)|
  {
    if base == [] {
      assert Holders(base, dropped) == {};
    } else {
      var k := |base| - 1;
      LiveHolders(base[..k], dropped);
      var front, all := Holders(base[..k], dropped), Holders(base, dropped);
      assert forall i: nat | i < k :: base[..k][i] == base[i];
      assert all == if base[k] > 0.0 && k !in dropped then front + {k} else front;
    }
  }

  lemma SameHolders(base: Vec, dropped: set<nat>)
    ensures Holders(SharesWithout(base, dropped), dropped) == Holders(base, dropped)
  {
    var v, kept := SharesWithout(base, dropped), Zeroed(base, dropped);
    SumNotNegative(kept);
    hide Sum;
    forall i: nat | i < |base| && i !in dropped
      ensures v[i] > 0.0 <==> base[i] > 0.0
    {
      assert kept[i] <= Sum(kept);
    }
  }

  lemma RoomIsMade(ring: Ring, base: Vec, dropped: set<nat>, rank: nat)
    requires SharesBefore(ring, ring.world, base) && ring.world <= rank
    ensures RoomMade(base, SharesWith(ring.weights, ring.world, dropped, rank + 1), dropped, rank)
  {
    hide *;
    BaseIs(ring, ring.world, base);
    SizeIs(ring, base);
    SameRoom(ring.weights, base, ring.world, dropped, rank);
    RoomForOne(base, ring.world, dropped, rank);
  }

  lemma SizeIs(ring: Ring, base: Vec)
    requires SharesBefore(ring, ring.world, base)
    ensures |base| == ring.world
  {
  }

  lemma RoomForOne(base: Vec, size: nat, dropped: set<nat>, rank: nat)
    requires |base| == size <= rank
    ensures RoomMade(base, SharesWith(base, size, dropped, rank + 1), dropped, rank)
  {
    NewcomerShares(base, size, dropped, rank);
    JoinRatios(base, size, dropped, rank);
    hide SharesWith, Sum, Proper, Holders, SameRatios;
  }

  lemma SameRoom(weights: Vec, base: Vec, size: nat, dropped: set<nat>, rank: nat)
    requires size <= rank && base == if |weights| == size then weights else Ones(size)
    ensures SharesWith(base, size, dropped, rank + 1) == SharesWith(weights, size, dropped, rank + 1)
  {
    hide SharesWithout, Live;
  }

  lemma JoinRatios(base: Vec, size: nat, dropped: set<nat>, rank: nat)
    requires |base| == size <= rank
    ensures SameRatios(base, SharesWith(base, size, dropped, rank + 1), dropped)
  {
    hide SharesWith;
    var v := SharesWith(base, size, dropped, rank + 1);
    forall i, j | 0 <= i < |base| && 0 <= j < |base| && i !in dropped && j !in dropped && base[i] >= 0.0 && base[j] >= 0.0
      ensures v[i] * base[j] == v[j] * base[i]
    {
      WithKeepsRatios(base, size, dropped, rank + 1, i, j);
    }
  }

  lemma NewcomerShares(base: Vec, size: nat, dropped: set<nat>, rank: nat)
    requires |base| == size <= rank
    ensures var v := SharesWith(base, size, dropped, rank + 1);
      && Sum(v) == 1.0 && (rank !in dropped ==> Proper(v, dropped))
      && v[rank] * (|Holders(base, dropped)| + 1) as real == 1.0 && forall i | size <= i < rank :: v[i] == 0.0
  {
    hide *;
    WithProperIff(base, size, dropped, rank + 1);
    NewcomerTakesAverage(base, size, dropped, rank + 1);
    LiveHolders(SharesWithout(base, dropped), dropped);
    SameHolders(base, dropped);
  }

  lemma LowestIsFirst(dropped: set<nat>, n: nat)
    ensures FirstLeft(dropped, n, LowestLive(dropped, n))
  {
  }

  /** A rank admitted is given room, and the note says so to all. */
  lemma JoinTells(run: Run, rank: nat)
    requires SoundRun(run) && Admissible(run, rank)
    ensures var run' := Admit(run, rank);
      && Says(run, run', run.lastSeq + 1) && TellsRing(run'.news.published[|run.news.published|].note, run', Joining(rank))
      && Welcomed(run, run', rank)
  {
    var run' := Admit(run, rank);
    hide SharesWith, LowestLive, SharesBefore, RoomMade, FirstLeft, Fitting;
    LowestIsFirst(run.ring.dropped, run.ring.world);
    assert run'.ring.dropped == run.ring.dropped;
    forall base | SharesBefore(run.ring, run.ring.world, base)
      ensures RoomMade(base, run'.ring.weights, run'.ring.dropped, rank)
    {
      RoomIsMade(run.ring, base, run.ring.dropped, rank);
    }
  }

  // ---- ranks miss the start ----

  /** The ring starts without the ranks that are not in its opening round. */
  ghost predicate Started(run: Run, run': Run, seen: set<nat>, world: nat) {
    && run'.ring.world == run.ring.world
    && (forall k :: k in run'.ring.dropped <==> k in run.ring.dropped || (0 <= k < world && k !in seen))
    && run.news.published <= run'.news.published && run'.lastSeq == run.lastSeq && run'.mode == run.mode
    && if run'.ring.dropped == run.ring.dropped then run'.news == run.news && run'.ring.weights == run.ring.weights
       else |run'.ring.weights| == run'.ring.world && Proper(run'.ring.weights, run'.ring.dropped)
  }

  lemma SidelinedShares(run: Run, run': Run, rank: nat, size: nat)
    requires Sidelined(run, run', rank, size)
    ensures |run'.ring.weights| == run'.ring.world && Proper(run'.ring.weights, run'.ring.dropped)
  {
    var world := run'.ring.world;
    var base := if |run.ring.weights| == world then run.ring.weights else Ones(world);
    assert SharesBefore(run.ring, world, base);
    hide SharesBefore, Proper, SameRatios, Sum, JoinLoses;
    assert SharedAmong(base, run'.ring.weights, run'.ring.dropped);
  }

  lemma SidelinedStarts(run: Run, a: Run, b: Run, seen: set<nat>, n: nat)
    requires run.ring.world > n && Started(run, a, seen, n) && n !in seen
    requires Sidelined(a, b, n, run.ring.world) && a.news.published <= b.news.published
    ensures Started(run, b, seen, n + 1)
  {
    SidelinedShares(a, b, n, run.ring.world);
    hide Proper, JoinLoses, SharesBefore, SharedAmong;
    assert n in b.ring.dropped && n !in a.ring.dropped && n !in run.ring.dropped;
    assert forall k :: k in b.ring.dropped <==> k in a.ring.dropped || k == n;
  }

  lemma {:induction false} DropMissingStarts(s: State, id: nat, n: nat, orders: seq<seq<Key>>)
    requires Sound(s) && id < |s.rounds| && n <= |orders| && n <= s.run.ring.world
    ensures Started(s.run, DropMissing(s, id, n, orders).run, s.rounds[id].seen, n)
  {
    hide MarkDown, SoundRun, SoundRound, Sidelined, Proper;
    if n > 0 {
      var s1 := DropMissing(s, id, n - 1, orders);
      DropMissingStarts(s, id, n - 1, orders);
      if n - 1 !in s.rounds[id].seen && n - 1 !in s1.run.ring.dropped {
        DownTells(s1, n - 1, s.rounds[id].world, orders[n - 1]);
        var b := DropMissing(s, id, n, orders).run;
        SidelinedSize(s1.run, b, n - 1, s.rounds[id].world, s.run.ring.world);
        SidelinedStarts(s.run, s1.run, b, s.rounds[id].seen, n - 1);
      }
    }
  }

  lemma SidelinedSize(run: Run, run': Run, rank: nat, size: nat, other: nat)
    requires Sidelined(run, run', rank, size) && run.ring.world > 0
    ensures Sidelined(run, run', rank, other)
  {
    hide SharesBefore, SharedAmong, JoinLoses;
  }

  /** The first rank below n that is in nothing and not yet dropped. */
  ghost predicate FirstGone(seen: set<nat>, dropped: set<nat>, n: nat, first: nat) {
    first < n && first !in seen && first !in dropped && forall k | 0 <= k < first :: k in seen || k in dropped
  }

  lemma {:induction false} MissingIsFirst(seen: set<nat>, dropped: set<nat>, n: nat)
    ensures var k := FirstMissing(seen, dropped, n);
      if k >= 0 then FirstGone(seen, dropped, n, k) else forall j | 0 <= j < n :: j in seen || j in dropped
  {
    if n > 0 {
      MissingIsFirst(seen, dropped, n - 1);
    }
  }

  /** Ranks that missed the start are dropped, all of them; one note names the first and says what the others have now. */
  ghost predicate StartTold(run: Run, run': Run, seen: set<nat>, world: nat) {
    && Started(run, run', seen, world)
    && (run'.ring.dropped == run.ring.dropped || exists first ::
          && FirstGone(seen, run.ring.dropped, world, first) && |run.news.published| < |run'.news.published| && NewsFit(run')
          && run'.news.published[|run'.news.published| - 1].start == run.lastSeq + 1
          && TellsRing(run'.news.published[|run'.news.published| - 1].note, run', MissedStart(first)))
  }

  lemma MissedTells(s: State, id: nat, orders: seq<seq<Key>>)
    requires Sound(s) && id < |s.rounds| && |orders| == s.rounds[id].world <= s.run.ring.world
    ensures StartTold(s.run, DropMissed(s, id, orders).run, s.rounds[id].seen, s.rounds[id].world)
  {
    var r := s.rounds[id];
    MissingIsFirst(r.seen, s.run.ring.dropped, r.world);
    DropMissingStarts(s, id, r.world, orders);
    var first := FirstMissing(r.seen, s.run.ring.dropped, r.world);
    hide DropMissing, FirstMissing, SoundRun, SoundRound, Proper;
    if first < 0 {
      assert DropMissed(s, id, orders) == s;
    } else {
      var run1 := DropMissing(s, id, r.world, orders).run;
      assert first in run1.ring.dropped && first !in s.run.ring.dropped;
      RingNowTells(run1, MissedStart(first));
    }
  }

  // ---- the ring is refitted ----

  /** All of the data is this rank's. */
  ghost predicate AllFor(v: Vec, world: nat, keep: nat) {
    && keep < |v| == world && v[keep] == 1.0 && forall i | 0 <= i < world && i != keep :: v[i] == 0.0
  }

  /** What a refit did, told as it is: the ring let go, its shares moved, a rank dropped, or syncs made rare. */
  ghost predicate Refitted(run: Run, run': Run, note: Note) {
    && (note.RefitNote? || note.RingNote? || run'.ring.weights == run.ring.weights)
    && (note.DropNote? || run'.ring.dropped == run.ring.dropped)
    && match note
       case RingNote(_, _, event) =>
         && event.Release? && TellsRing(note, run', event) && AllFor(run'.ring.weights, run'.ring.world, event.keep)
         && run'.mode.released && !run.mode.released && !run'.mode.fixed && run'.mode.sharded
       case RefitNote(shares) =>
         shares == run'.ring.weights && |shares| == run'.ring.world && Sum(shares) == 1.0 && forall i | 0 <= i < |shares| :: shares[i] > 0.0
       case DropNote(rank) =>
         && rank !in run.ring.dropped && 0 < rank < run'.ring.world && run'.ring.dropped == run.ring.dropped + {rank}
         && !run'.mode.fixed
       case DiLoCoNote(every) =>
         && run'.mode.diloco && !run.mode.diloco && run'.mode.autoSync
         && var live := run'.ring.world - |set k | k in run.ring.dropped && k < run'.ring.world|;
           (live <= 2 && every == 32) || (live == 3 && every == 16) || (live == 4 && every == 4)
  }

  lemma ReleaseTells(run: Run, keep: nat, run': Run)
    requires keep < run.ring.world && run'.ring == run.ring.(weights := Zero(run.ring.world)[keep := 1.0])
    ensures TellsRing(RingNow(run', Release(keep)), run', Release(keep)) && AllFor(run'.ring.weights, run'.ring.world, keep)
  {
  }

  /** One look at the ring: what it decides and what is to be told are the same. */
  lemma SoloTells(run: Run, c: Choice)
    requires SoundRun(run) && Offered(run, c) && (Deciding(run) ==> IsChoice(run, c))
    ensures var (run', note) := SoloFor(run, c);
      if note.Some? then Refitted(run, run', note.value) && run.joins.join.None?
      else run'.ring == run.ring && run'.mode == run.mode
    ensures var run' := SoloFor(run, c).0; run'.joins == run.joins && run'.news == run.news && run'.lastSeq == run.lastSeq
  {
    hide IsSolo, SoloPays, IsLowestCost, Beats, Fitting;
    var (run', note) := SoloFor(run, c);
    if note.Some? && note.value.RingNote? {
      ReleaseTells(run, c.keep, run');
      hide RingNow, AllFor, TellsRing;
    }
  }

  lemma DropIsMember(reports: Reports, current: Vec, world: nat)
    requires PlanRebalance(reports, current, world).Drop?
    ensures 0 < PlanRebalance(reports, current, world).rank < world
  {
    hide Measured, Rate, Sum, SumAt, ShiftedEnough, Divided, AddedCompute, SavedSync;
  }

  lemma RebalanceTells(run: Run, c: Choice)
    requires SoundRun(run) && (OnCadence(run) ==> Offered(run, c)) && (OnCadence(run) && Deciding(run) ==> IsChoice(run, c))
    ensures var (run', note) := RebalanceFor(run, c);
      if note.Some? then Refitted(run, run', note.value)
      else run'.ring == run.ring
    ensures var (run', note) := RebalanceFor(run, c);
      run'.joins == run.joins && run'.news == run.news && run'.lastSeq == run.lastSeq
  {
    hide SoloFor, PlanRebalance, Refitted, Fitting, IsChoice;
    if OnCadence(run) {
      var run0 := run.(round := run.round + 1);
      SameChoice(run, run0, c);
      SoloTells(run0, c);
      var (run1, note) := SoloFor(run0, c);
      if note.Some? {
        RefittedAnyway(run0, run, run1, run1, note.value);
      } else {
        PlanTells(run, run1, RebalanceFor(run, c).0, RebalanceFor(run, c).1);
      }
    }
  }

  lemma PlanTells(run: Run, run1: Run, run': Run, note: Option<Note>)
    requires run1.ring == run.ring && run1.mode == run.mode
    requires var plan := PlanRebalance(run1.ring.reports, run1.ring.weights, run1.ring.world);
      (run', note) == match plan
        case Keep => (run1, None)
        case Drop(rank) =>
          if run1.mode.fixed || rank in run1.ring.dropped then (run1, None)
          else (run1.(ring := run1.ring.(dropped := run1.ring.dropped + {rank})), Some(DropNote(rank)))
        case Refit(shares) => (run1.(ring := run1.ring.(weights := shares)), Some(RefitNote(shares)))
    ensures if note.Some? then Refitted(run, run', note.value) else run'.ring == run.ring
  {
    var ring := run.ring;
    if PlanRebalance(ring.reports, ring.weights, ring.world).Drop? {
      DropIsMember(ring.reports, ring.weights, ring.world);
    } else if PlanRebalance(ring.reports, ring.weights, ring.world).Refit? {
      RefitIsPositive(ring.reports, ring.weights, ring.world);
    }
    hide PlanRebalance, Sum;
  }

  lemma SameChoice(run: Run, run0: Run, c: Choice)
    requires run0 == run.(round := run0.round)
    ensures IsChoice(run, c) <==> IsChoice(run0, c)
  {
    hide IsSolo, IsDiLoCo, IsFastest;
  }

  lemma RefittedAnyway(a: Run, run: Run, b: Run, run': Run, note: Note)
    requires Refitted(a, b, note) && run.ring.weights == a.ring.weights && run.ring.dropped == a.ring.dropped
    requires run.mode.released == a.mode.released && run.mode.diloco == a.mode.diloco
    requires run'.ring == b.ring && run'.mode == b.mode && run'.joins == b.joins
    ensures Refitted(run, run', note)
  {
    hide AllFor, Sum;
  }

  /** What a post has published, if anything: what the refit it brought did, from this very sync on. What it did goes untold only
      while a join is open. */
  ghost predicate PostSays(run: Run, run': Run, req: Request) {
    if run'.news == run.news then
      (run'.ring.weights == run.ring.weights && run'.ring.dropped == run.ring.dropped) || run.joins.join.Some?
    else
      && req.shard == 0 && req.seqNo > run.lastSeq && run.joins.join.None? && Says(run, run', req.seqNo)
      && Refitted(run, run', run'.news.published[|run.news.published|].note)
  }

  lemma LeadTells(run: Run, req: Request, c: Choice)
    requires ValidRequest(req) && SoundRun(run) && ChoiceFits(run, req, c)
    ensures PostSays(run, LeadPart(run, req, c), req)
  {
    hide RebalanceFor, IsSolo, IsDiLoCo, Fitting, Refitted;
    if req.shard == 0 && Advances(run, req) {
      var run0 := LeadFields(run, req);
      assert OnCadence(run0) == OnCadence(run);
      RebalanceTells(run0, c);
      var (run1, note) := RebalanceFor(run0, c);
      if note.Some? {
        RefittedAnyway(run0, run, run1, LeadPart(run, req, c), note.value);
      }
    }
  }

  lemma HeardTells(run: Run, req: Request, c: Choice)
    requires ValidRequest(req) && SoundRun(run) && ChoiceFits(run, req, c)
    ensures PostSays(run, Heard(run, req, c), req)
  {
    LeadTells(run, req, c);
    hide LeadPart, ChoiceFits, Fitting, Refitted;
    var a, b := LeadPart(run, req, c), Heard(run, req, c);
    PostSaysAnyway(run, a, b, req);
  }

  lemma PostSaysAnyway(run: Run, a: Run, b: Run, req: Request)
    requires PostSays(run, a, req) && b.ring == a.ring.(reports := b.ring.reports)
    requires b == a.(ring := b.ring, residual := b.residual, aborted := b.aborted)
    ensures PostSays(run, b, req)
  {
    hide AllFor, Sum;
  }

  lemma PostTells(s: State, req: Request, c: Choice)
    requires Sound(s)
    ensures PostSays(s.run, Post(s, req, c).run, req)
  {
    hide Landed, ChoiceFits, SoundRound, SoundRun, NewRound, Heard, PostSays;
    if Accepts(s, req, c) {
      var (s1, id) := RoundFor(s, req).value;
      LandedRun(s1.run, s1.rounds[id], req, c);
      HeardTells(s.run, req, c);
      PostSaysAnyway(s.run, Heard(s.run, req, c), Post(s, req, c).run, req);
    } else {
      Joining.PostRefused(s, req, c);
      NothingSaid(s.run, req);
    }
  }

  lemma NothingSaid(run: Run, req: Request)
    ensures PostSays(run, run, req)
  {
  }

  // ---- every step ----

  /** What an event that publishes has the ring told: what it did, and the shares the ring has after it. */
  ghost predicate Tells(s: State, s': State, e: Event) {
    var run, run', n := s.run, s'.run, |s.run.news.published|;
    match e
    case DownEvent(rank, size, _) =>
      && Says(run, run', run.lastSeq + 1) && TellsRing(run'.news.published[n].note, run', Down(rank)) && Sidelined(run, run', rank, size)
    case JoinEvent(rank, _) =>
      && Says(run, run', run.lastSeq + 1) && TellsRing(run'.news.published[n].note, run', Joining(rank)) && Welcomed(run, run', rank)
    case TimeOutEvent(i, _) =>
      && i < |s.tickets| && s.tickets[i].key in s.open && s.open[s.tickets[i].key] < |s.rounds|
      && var r := s.rounds[s.open[s.tickets[i].key]];
        r.opening && run'.ring.dropped != run.ring.dropped && StartTold(run, run', r.seen, r.world)
    case PostEvent(req, _) => run'.news != run.news && PostSays(run, run', req)
    case _ => false
  }

  /** An event that publishes nothing leaves the shares as they are, and drops nobody but a rank the ring never had; a refit during
      a join apart. */
  ghost predicate Untold(s: State, s': State, e: Event) {
    && s'.run.news.note == s.run.news.note && s'.run.news.noteSeq == s.run.news.noteSeq
    && (s'.run.ring.weights == s.run.ring.weights || (e.PostEvent? && s.run.joins.join.Some?))
    && (s'.run.ring.dropped == s.run.ring.dropped || (e.PostEvent? && s.run.joins.join.Some?)
        || (e.DownEvent? && e.down >= s.run.ring.world > 0 && s'.run.ring.dropped == s.run.ring.dropped + {e.down}))
  }

  lemma ExpireTells(s: State, i: nat, orders: seq<seq<Key>>)
    requires Sound(s) && Safe(s) && OpeningsTold(s) && TimeOut(s, i, orders) != s
    ensures var s', e := TimeOut(s, i, orders), TimeOutEvent(i, orders);
      if s'.run.news.published == s.run.news.published then Untold(s, s', e) else Tells(s, s', e)
  {
    hide DropMissed, Closable, SoundRun, SoundRound, Enumerates, Shut, Safe, StartTold;
    var key := s.tickets[i].key;
    if key in s.open && Expire(s, key, s.tickets[i].rank, orders).0 != s {
      var id := s.open[key];
      var (run, r') := Shut(s.run, s.rounds[id], s.tickets[i].rank);
      var s1 := s.(run := run, rounds := s.rounds[id := r']);
      ShutRun(s.run, s.rounds[id], s.tickets[i].rank);
      ShutSeen(s.run, s.rounds[id], s.tickets[i].rank);
      if TimeOut(s, i, orders).run != run {
        MissedTells(s1, id, orders);
        StartToldAnyway(s.run, run, DropMissed(s1, id, orders).run, r'.seen, r'.world);
      }
    }
  }

  lemma ShutSeen(run: Run, r: Round, rank: nat)
    requires SoundRun(run) && SoundRound(r) && !Decided(r)
    ensures Shut(run, r, rank).1.seen == r.seen && Shut(run, r, rank).1.opening == r.opening
    ensures Shut(run, r, rank).0 == run.(residual := Shut(run, r, rank).0.residual, aborted := Shut(run, r, rank).0.aborted)
  {
    hide MeanResidual, Closable;
  }

  lemma StartToldAnyway(run: Run, a: Run, run': Run, seen: set<nat>, world: nat)
    requires StartTold(a, run', seen, world) && a == run.(residual := a.residual, aborted := a.aborted)
    ensures StartTold(run, run', seen, world)
    ensures run'.ring.dropped == run.ring.dropped ==> run'.news == run.news && run'.ring.weights == run.ring.weights
    ensures run'.ring.dropped != run.ring.dropped ==> |run.news.published| < |run'.news.published|
  {
    hide Proper;
  }

  lemma TakenIsQuiet(run: Run, id: nat)
    requires SoundRun(run)
    ensures Taken(run, id) == run.(news := Taken(run, id).news, joins := Taken(run, id).joins)
    ensures Taken(run, id).news == run.news.(told := Taken(run, id).news.told, excused := Taken(run, id).news.excused)
  {
  }

  /** Every event, from any state a run can reach: what it publishes tells the ring, one by one of its ranks, what it has become;
      and an event that publishes nothing has not changed the shares, nor dropped one of the ring, unless by a refit during a join. */
  lemma StepTells(s: State, e: Event)
    requires Sound(s) && Safe(s) && OpeningsTold(s)
    ensures if Step(s, e).run.news.published == s.run.news.published then Untold(s, Step(s, e), e) else Tells(s, Step(s, e), e)
  {
    hide MarkDown, TimeOut, Post, Admit, Taken, Told, SoundRun, SoundRound, Sidelined, Welcomed, PostSays, Safe, Enumerates, Admissible;
    match e
    case PostEvent(req, c) =>
      PostTells(s, req, c);
      PostQuiet(s.run, Post(s, req, c).run, req);
    case TimeOutEvent(i, orders) =>
      if TimeOut(s, i, orders) != s {
        ExpireTells(s, i, orders);
      }
    case DownEvent(rank, size, order) => DownTells(s, rank, size, order);
    case JoinEvent(rank, check) =>
      if Step(s, e) != s {
        JoinTells(s.run, rank);
      }
    case TakenEvent(id) => TakenIsQuiet(s.run, id);
    case _ =>
  }

  lemma PostQuiet(run: Run, run': Run, req: Request)
    requires PostSays(run, run', req)
    ensures run'.news == run.news || run'.news.published != run.news.published
    ensures run'.news == run.news ==>
      (run'.ring.weights == run.ring.weights && run'.ring.dropped == run.ring.dropped) || run.joins.join.Some?
  {
    hide Refitted;
  }

  // ---- over whole runs ----

  /** The n-th event published the note that is the p-th of the run, and it tells what the event did. */
  ghost predicate SaidAt(events: seq<Event>, n: nat, p: nat) {
    && n < |events| && |Exec(Start(), events[..n + 1]).run.news.published| == p
    && |Exec(Start(), events[..n]).run.news.published| < p
    && Tells(Exec(Start(), events[..n]), Exec(Start(), events[..n + 1]), events[n])
  }

  lemma SaidEarlier(front: seq<Event>, e: Event, n: nat, p: nat)
    requires SaidAt(front, n, p)
    ensures SaidAt(front + [e], n, p)
  {
    assert (front + [e])[..n] == front[..n] && (front + [e])[..n + 1] == front[..n + 1];
    hide Exec, Tells;
  }

  lemma SaidLast(front: seq<Event>, e: Event)
    requires var s, s' := Exec(Start(), front), Exec(Start(), front + [e]);
      |s.run.news.published| < |s'.run.news.published| && Tells(s, s', e)
    ensures SaidAt(front + [e], |front|, |Exec(Start(), front + [e]).run.news.published|)
  {
    hide *;
    assert (front + [e])[..|front|] == front && (front + [e])[..|front| + 1] == front + [e];
    SaidIs(front + [e], |front|);
  }

  lemma SaidIs(events: seq<Event>, n: nat)
    requires n < |events|
    requires |Exec(Start(), events[..n]).run.news.published| < |Exec(Start(), events[..n + 1]).run.news.published|
    requires Tells(Exec(Start(), events[..n]), Exec(Start(), events[..n + 1]), events[n])
    ensures SaidAt(events, n, |Exec(Start(), events[..n + 1]).run.news.published|)
  {
    hide Exec, Tells;
  }

  lemma TellsMore(s: State, s': State, e: Event)
    requires Tells(s, s', e)
    ensures |s.run.news.published| < |s'.run.news.published|
  {
    hide TellsRing, Sidelined, Welcomed, Refitted, Started, FirstGone;
  }

  /** The note in force was published by one event, and tells what that event did to the ring. */
  lemma {:induction false} NoteHasEvent(events: seq<Event>) returns (n: nat)
    requires Exec(Start(), events).run.news.published != []
    ensures SaidAt(events, n, |Exec(Start(), events).run.news.published|) && n < |events|
    ensures Exec(Start(), events[..n + 1]).run.news.published == Exec(Start(), events).run.news.published
  {
    hide *;
    NothingYet();
    var front, e := events[..|events| - 1], events[|events| - 1];
    assert events == front + [e];
    OneEventMore(front, e);
    NobodyWaitsForNobody(front);
    StepTells(Exec(Start(), front), e);
    if Exec(Start(), events).run.news.published == Exec(Start(), front).run.news.published {
      n := NoteHasEvent(front);
      SaidEarlier(front, e, n, |Exec(Start(), events).run.news.published|);
      assert events[..n + 1] == front[..n + 1];
    } else {
      n := |front|;
      TellsMore(Exec(Start(), front), Exec(Start(), events), e);
      SaidLast(front, e);
      assert events[..n + 1] == events;
    }
  }

  /** A new answer is a reply's, and what it carries is the note in force. */
  lemma NewAnswer(s: State, e: Event, i: nat)
    requires Sound(s) && |s.answers| <= i < |Step(s, e).answers| && Step(s, e).answers[i].note.Some?
    ensures Step(s, e).answers[i].pub == |s.run.news.published| && Step(s, e).answers[i].note == s.run.news.note
  {
    if e.ReplyEvent? {
      hide Told, SoundRun, SoundRound;
      var t := s.tickets[e.ticket];
      ToldAnswers(s.run, t, Fetched(s.rounds[t.round], t.who), t.who);
    } else {
      StepAnswers(s, e);
    }
  }

  lemma OldAnswer(front: seq<Event>, e: Event, i: nat)
    requires i < |Exec(Start(), front).answers|
    ensures i < |Exec(Start(), front + [e]).answers| && Exec(Start(), front + [e]).answers[i] == Exec(Start(), front).answers[i]
  {
    hide *;
    OneEventMore(front, e);
    RunsFromStart(front);
    StepKeeps(Exec(Start(), front), e);
    LaterAnswers(Exec(Start(), front), Step(Exec(Start(), front), e), i);
  }

  lemma LaterAnswers(s: State, s': State, i: nat)
    requires Later(s, s') && i < |s.answers|
    ensures i < |s'.answers| && s'.answers[i] == s.answers[i]
  {
  }

  lemma InForce(events: seq<Event>)
    ensures var news := Exec(Start(), events).run.news;
      news.note.Some? ==> news.published != [] && news.note == Some(news.published[|news.published| - 1].note)
  {
    RunsInform(events);
    hide Exec;
  }

  /** Over every interleaving: a note any rank is given was published by one event of the run, and tells what that event did to the
      ring, with the shares the ring had just after it. */
  lemma {:induction false} EveryNoteTells(events: seq<Event>, i: nat) returns (n: nat)
    requires i < |Exec(Start(), events).answers| && Exec(Start(), events).answers[i].note.Some?
    ensures var a := Exec(Start(), events).answers[i];
      && SaidAt(events, n, a.pub) && n < |events| && var p := Exec(Start(), events[..n + 1]).run.news.published;
        0 < |p| == a.pub && a.note == Some(p[a.pub - 1].note)
  {
    hide *;
    NothingYet();
    var front, e := events[..|events| - 1], events[|events| - 1];
    assert events == front + [e];
    OneEventMore(front, e);
    if i < |Exec(Start(), front).answers| {
      OldAnswer(front, e, i);
      n := EveryNoteTells(front, i);
      SaidEarlier(front, e, n, Exec(Start(), events).answers[i].pub);
    } else {
      NewAnswer(Exec(Start(), front), e, i);
      InForce(front);
      n := NoteHasEvent(front);
      SaidEarlier(front, e, n, Exec(Start(), events).answers[i].pub);
    }
    assert events[..n + 1] == front[..n + 1];
  }
}
