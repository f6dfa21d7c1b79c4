/** The lead daemon's board as the handlers use it: rounds by key and the run they belong to, updated in place under one
    lock. The ghost field now is the protocol's state, and every method says which step of the protocol it takes. */
module Board {
  import opened Wrappers
  import opened Vectors
  import opened Reduce
  import opened Messages
  import opened Shares
  import opened Rebalance
  import opened Protocol
  import opened Rounds
  import opened Verdicts
  import opened Notes
  import Joining
  import opened RunStates
  import opened Entries

  class SyncBoard {
    const run: RunState
    var entries: map<Key, Entry>
    ghost var made: seq<Entry>
    ghost var now: State
    ghost var trace: seq<Event>

    /** made lists every round ever made, also those the map has let go of but a handler still holds. */
    ghost predicate ValidRounds()
      reads `made, `now, `entries, made
    {
      && Sound(now)
      && |made| == |now.rounds| && (forall i | 0 <= i < |made| :: made[i].View() == now.rounds[i])
      && (forall i, j | 0 <= i < j < |made| :: made[i] != made[j])
      && entries.Keys == now.open.Keys && (forall k | k in entries :: entries[k] == made[now.open[k]])
    }

    ghost predicate Valid()
      reads `made, `now, `entries, run, made
    {
      ValidRounds() && run.View() == now.run
    }

    constructor ()
      ensures Ran() && fresh(run) && trace == [] && made == []
    {
      run := new RunState();
      entries, made, now, trace := map[], [], Start(), [];
    }

    /** One round has changed, and perhaps the run. */
    ghost method RoundMoved(id: nat, s': State)
      requires Sound(s') && Sound(now) && id < |made| == |now.rounds| == |s'.rounds|
      requires forall i | 0 <= i < |made| && i != id :: made[i].View() == now.rounds[i]
      requires s'.rounds == now.rounds[id := made[id].View()] && s'.open == now.open && s'.run == run.View()
      requires forall i, j | 0 <= i < j < |made| :: made[i] != made[j]
      requires entries.Keys == now.open.Keys && (forall k | k in entries :: now.open[k] < |made| && entries[k] == made[now.open[k]])
      modifies this`now
      ensures Valid() && now == s'
    {
      hide Sound;
      now := s';
    }

    /** Only handlers and answers have changed. */
    ghost method HandlersMoved(s': State)
      requires Valid() && Sound(s') && s' == now.(tickets := s'.tickets, answers := s'.answers)
      modifies this`now
      ensures Valid() && now == s'
    {
      hide Sound;
      now := s';
    }

    lemma EntryShape(key: Key)
      requires Valid() && key in entries
      ensures Sound(now) && key in now.open && now.open[key] < |made| == |now.rounds| && run.View() == now.run && SoundRun(now.run)
      ensures entries[key] == made[now.open[key]] && entries[key].View() == now.rounds[now.open[key]]
      ensures SoundRound(now.rounds[now.open[key]])
      ensures forall i | 0 <= i < |made| && i != now.open[key] :: made[i] != entries[key] && made[i].View() == now.rounds[i]
      ensures forall i, j | 0 <= i < j < |made| :: made[i] != made[j]
      ensures entries.Keys == now.open.Keys && (forall k | k in entries :: now.open[k] < |made| && entries[k] == made[now.open[k]])
    {
      hide Closable, SoundRun;
    }

    lemma Shape()
      requires Valid()
      ensures Sound(now) && SoundRun(now.run) && entries.Keys == now.open.Keys && run.View() == now.run && ValidRounds()
      ensures forall k | k in entries :: entries[k] in made
    {
    }

    /** The run has changed and no round has. */
    ghost method RunMoved()
      requires ValidRounds() && SoundRun(run.View())
      modifies this`now
      ensures Valid() && now == old(now).(run := run.View())
    {
      now := now.(run := run.View());
    }

    // ---- ranks going down ----

    /** One round of the loop over the board's rounds. */
    method SettleEntry(key: Key)
      requires Valid() && key in entries
      modifies this`now, run`residual, entries[key]
      ensures Valid() && made == old(made) && entries == old(entries)
      ensures Sound(old(now)) && now == CloseReady(old(now), key)
    {
      hide *;
      Shape();
      var e := entries[key];
      EntryShape(key);
      CloseReadyIs(now, key);
      e.Shows();
      if e.result.Some? || e.err.Some? {
        return;
      }
      SettleRound(now.open[key], e, CloseReady(now, key));
    }

    /** One undecided round settled in place. */
    method SettleRound(ghost id: nat, e: Entry, ghost s': State)
      requires Valid() && id < |made| == |now.rounds| && made[id] == e && e.result.None? && e.err.None?
      requires Sound(s') && SoundRun(now.run) && SoundRound(now.rounds[id]) && !Decided(now.rounds[id])
      requires s' == now.(run := Settled(now.run, now.rounds[id]).0, rounds := now.rounds[id := Settled(now.run, now.rounds[id]).1])
      modifies this`now, run`residual, e
      ensures Valid() && now == s'
    {
      AllShape(id);
      RoundShape(id);
      hide *;
      Shape();
      e.Settle(run);
      RoundMoved(id, s');
    }

    /** The loop over the board's rounds, in whatever order the map gives them. */
    method SettleAll() returns (ghost order: seq<Key>)
      requires Valid()
      modifies this`now, run`residual, made
      ensures Valid() && made == old(made) && entries == old(entries)
      ensures Enumerates(order, old(now).open.Keys)
      ensures Sound(old(now)) && now == CloseAll(old(now), order)
    {
      hide *;
      Shape();
      order := [];
      var left := entries.Keys;
      CloseAllNone(now);
      EnumeratesNone(entries.Keys);
      while left != {}
        invariant left <= entries.Keys
        invariant Valid() && made == old(made) && entries == old(entries)
        invariant now == CloseAll(old(now), order)
        invariant Enumerates(order, entries.Keys - left)
      {
        var key :| key in left;
        SettleEntry(key);
        CloseAllSnoc(old(now), order, key);
        EnumeratesSnoc(order, entries.Keys - left, key);
        order := order + [key];
        assert entries.Keys - (left - {key}) == (entries.Keys - left) + {key};
        left := left - {key};
      }
      assert entries.Keys - left == entries.Keys;
    }

    /** markRankDownLocked. */
    method MarkRankDown(rank: nat, world: nat) returns (ghost order: seq<Key>)
      requires Valid()
      modifies this`now, run, made
      ensures Valid() && made == old(made) && entries == old(entries)
      ensures Enumerates(order, old(now).open.Keys)
      ensures Sound(old(now)) && now == MarkDown(old(now), rank, world, order)
    {
      hide *;
      Shape();
      order := SomeOrder(now.open.Keys);
      MarkDownIs(now, rank, world, order);
      ghost var run0 := Sized(now.run, world);
      SizedIs(now.run, world);
      run.Shows();
      if run.ring.world == 0 {
        run.ring := run.ring.(world := world);
      }
      run.Shows();
      assert run.View() == run0;
      if rank >= run.ring.world {
        OutsiderSound(run.View(), rank);
        run.ring := run.ring.(dropped := run.ring.dropped + {rank});
        run.Shows();
        RunMoved();
        return;
      }
      if rank in run.ring.dropped {
        RunMoved();
        return;
      }
      run.LeaveRing(rank);
      run.Shows();
      var note := run.RingFragment(Down(rank));
      ghost var run1 := run.View();
      run.PublishNote(run.lastSeq + 1, note);
      PublishSound(run1, run1.lastSeq + 1, note);
      RunMoved();
      order := SettleAll();
      MarkDownIs(old(now), rank, world, order);
    }
  
    // ---- the start barrier ----

    lemma RoundShape(id: nat)
      requires Valid() && id < |made|
      ensures Sound(now) && |made| == |now.rounds| && made[id].View() == now.rounds[id] && run.View() == now.run
    {
    }

    /** dropMissedStart: ranks absent from the run's first round go down, and one note names them all. */
    method DropMissedStart(ghost id: nat, e: Entry) returns (ghost orders: seq<seq<Key>>)
      requires Valid() && id < |made| && made[id] == e && (e.result.Some? || e.err.Some?)
      modifies this`now, run, made
      ensures Valid() && made == old(made) && entries == old(entries)
      ensures |orders| == e.world && forall i | 0 <= i < |orders| :: Enumerates(orders[i], old(now).open.Keys)
      ensures Sound(old(now)) && id < |old(now).rounds| && old(now).rounds[id].world == e.world
      ensures now == DropMissed(old(now), id, orders)
    {
      hide *;
      RoundShape(id);
      e.Shows();
      run.Shows();
      var first := -1;
      orders := [];
      ghost var r := now.rounds[id];
      assert Decided(r) by { DecidedIs(r); }
      DropMissingNone(now, id);
      for rank := 0 to e.world
        invariant Valid() && made == old(made) && entries == old(entries)
        invariant |orders| == rank && forall i | 0 <= i < |orders| :: Enumerates(orders[i], old(now).open.Keys)
        invariant Sound(old(now)) && id < |old(now).rounds| && old(now).rounds[id] == r
        invariant now == DropMissing(old(now), id, rank, orders)
        invariant first == FirstMissing(r.seen, old(now).run.ring.dropped, rank)
        invariant first < 0 ==> now == old(now)
      {
        DropMissingStays(old(now), id, rank, orders);
        RoundShape(id);
        e.Shows();
        run.Shows();
        ghost var order := SomeOrder(now.open.Keys);
        FirstMissingIs(r.seen, old(now).run.ring.dropped, rank);
        if rank !in e.seen && rank !in run.ring.dropped {
          order := MarkRankDown(rank, e.world);
          if first < 0 {
            first := rank;
          }
        }
        DropMissingSnoc(old(now), id, rank, orders, order);
        orders := orders + [order];
      }
      RoundShape(id);
      run.Shows();
      DropMissedIs(old(now), id, orders);
      if first < 0 {
        return;
      }
      Shape();
      var note := run.RingFragment(MissedStart(first));
      PublishSound(now.run, run.lastSeq + 1, note);
      run.PublishNote(run.lastSeq + 1, note);
      RunMoved();
    }
  
    // ---- timeouts ----

    /** handoverHolds, for a handler whose round is under this key: it waits on while a handover keeps a rank of its round busy,
        unless the round has been held for too long. */
    method HandoverHolds(ghost i: nat, key: Key, overdue: bool) returns (holds: bool)
      requires Valid() && i < |now.tickets| && now.tickets[i].key == key
      modifies this`now, made
      ensures Valid() && made == old(made) && entries == old(entries)
      ensures Sound(old(now)) && now == Poll(old(now), i)
      ensures holds <==> !overdue && Held(old(now), key)
    {
      holds := false;
      hide *;
      Shape();
      PollIs(now, i);
      if key !in entries {
        return;
      }
      var e := entries[key];
      EntryShape(key);
      e.Shows();
      run.Shows();
      DecidedIs(e.View());
      if e.result.Some? || e.err.Some? {
        return;
      }
      var j, handingOver := run.joins.join, true;
      if j.None? {
        j, handingOver := run.joins.loading, false;
      }
      if j.None? {
        NotBusy(now.run, e.View());
        return;
      }
      var busy := (handingOver && (j.value.from < 0 || (j.value.from !in e.seen && j.value.from !in run.ring.dropped)))
                  || (j.value.rank < e.world && j.value.rank !in e.seen && j.value.rank !in run.ring.dropped);
      BusyIs(now.run, e.View());
      if !busy {
        return;
      }
      ghost var id := now.open[key];
      ghost var s' := Poll(now, i);
      e.held := true;
      e.Shows();
      RoundMoved(id, s');
      return !overdue;
    }

    /** completePartial. */
    method CompletePartial(key: Key, rank: nat) returns (answered: bool, ghost orders: seq<seq<Key>>)
      requires Valid()
      modifies this`now, run, made
      ensures Valid() && made == old(made) && entries == old(entries)
      ensures Sound(old(now)) && OrdersFit(old(now), key, orders)
      ensures (now, answered) == Expire(old(now), key, rank, orders)
    {
      hide *;
      Shape();
      orders := AnyOrders(now, key);
      ExpireIs(now, key, rank, orders);
      if key !in entries {
        return false, orders;
      }
      var e := entries[key];
      EntryShape(key);
      e.Shows();
      DecidedIs(e.View());
      if e.result.Some? || e.err.Some? {
        return true, orders;
      }
      if e.acc.value.count == 0 {
        return false, orders;
      }
      ghost var id := now.open[key];
      ghost var s1 := now.(run := Protocol.Shut(now.run, e.View(), rank).0,
                           rounds := now.rounds[id := Protocol.Shut(now.run, e.View(), rank).1]);
      ShutIs(now.run, e.View(), rank);
      e.Shut(run, rank);
      e.Shows();
      RoundMoved(id, s1);
      answered := true;
      if e.opening && e.err.None? {
        orders := DropMissedStart(id, e);
        OrdersAre(old(now), key, orders);
        ExpireIs(old(now), key, rank, orders);
      }
    }

    /** A handler's own timeout. */
    method TimeOutHandler(ghost i: nat, key: Key, rank: nat) returns (answered: bool, ghost orders: seq<seq<Key>>)
      requires Valid() && i < |now.tickets| && now.tickets[i].wait.Waiting?
      requires now.tickets[i].key == key && now.tickets[i].rank == rank
      modifies this`now, run, made
      ensures Valid() && made == old(made) && entries == old(entries)
      ensures Sound(old(now)) && now == TimeOut(old(now), i, orders)
      ensures i < |now.tickets| && (answered <==> now.tickets[i].wait.Woken?)
    {
      answered, orders := CompletePartial(key, rank);
      ghost var t := old(now).tickets[i];
      hide *;
      Shape();
      TimeOutIs(old(now), i, orders);
      HandlersMoved(now.(tickets := now.tickets[i := t.(wait := if answered then Woken else Left)]));
    }
  
    // ---- posts ----

    /** The round under a contribution's key, made and put on the board if there is none. */
    method FindRound(req: Request) returns (e: Entry?, ghost id: nat)
      requires Valid() && ValidRequest(req)
      modifies this`entries, this`made, this`now
      ensures Valid() && Sound(old(now)) && (e == null <==> RoundFor(old(now), req).None?)
      ensures e == null ==> now == old(now) && made == old(made)
      ensures e != null ==> (now, id) == RoundFor(old(now), req).value && id < |made| && made[id] == e
      ensures made == old(made)
        || (|made| == |old(made)| + 1 && made[..|old(made)|] == old(made) && fresh(made[|old(made)|]))
    {
      hide *;
      Shape();
      id := 0;
      var key := KeyOf(req);
      RoundForIs(now, req);
      if key in entries {
        e := entries[key];
        EntryShape(key);
        id := now.open[key];
        return;
      }
      NewRoundIs(req);
      if req.count <= 0 || req.dtype.None? || (|req.counts| > 1 && WithSegments(req.count, req.counts).None?) {
        return null, id;
      }
      e := new Entry(req);
      id := |now.rounds|;
      AllShape(id);
      entries := entries[key := e];
      made := made + [e];
      now := RoundFor(now, req).value.0;
      Filled();
    }

    lemma Filled()
      requires Sound(now) && run.View() == now.run
      requires |made| == |now.rounds| && (forall i | 0 <= i < |made| :: made[i].View() == now.rounds[i])
      requires (forall i, j | 0 <= i < j < |made| :: made[i] != made[j])
      requires entries.Keys == now.open.Keys
      requires forall k | k in entries :: now.open[k] < |made| && entries[k] == made[now.open[k]]
      ensures Valid()
    {
    }

    lemma AllShape(id: nat)
      requires Valid()
      ensures |made| == |now.rounds| && (forall i | 0 <= i < |made| :: made[i].View() == now.rounds[i])
      ensures (forall i, j | 0 <= i < j < |made| :: made[i] != made[j])
      ensures id < |made| ==> forall i | 0 <= i < |made| && i != id :: made[i] != made[id]
      ensures id < |made| ==> SoundRound(now.rounds[id]) && SoundRun(now.run)
      ensures entries.Keys == now.open.Keys
      ensures forall k | k in entries :: now.open[k] < |made| && entries[k] == made[now.open[k]]
    {
    }

    /** A contribution, from its checks to its place in its round. e is the round its handler then waits on, if any. */
    method Accept(req: Request) returns (e: Entry?, ghost c: Choice)
      requires Valid()
      modifies this`entries, this`made, this`now, run, made
      ensures Valid() && Sound(old(now))
      ensures now == Post(old(now), req, c)
      ensures e != null ==> ValidRequest(req) && ChoiceFits(old(now).run, req, c)
      ensures e != null ==> |now.tickets| == |old(now).tickets| + 1
      ensures e != null ==> now.tickets[|old(now).tickets|].round < |made| && made[now.tickets[|old(now).tickets|].round] == e
    {
      hide *;
      Shape();
      run.Shows();
      c := Choice(0, Unmeasured, 0.0, false);
      PostTurned(now, req, c);
      if !ValidRequest(req) || run.aborted.Some? || (OpensRun(req) && req.rank in run.ring.dropped) {
        return null, c;
      }
      ghost var id;
      e, id := FindRound(req);
      if e == null {
        return;
      }
      RoundShape(id);
      e.Shows();
      if e.world != req.world {
        return null, c;
      }
      c := Join(req, e, id);
      PostGoes(old(now), req, c);
    }

    /** A contribution to a round that fits it. */
    method Join(req: Request, e: Entry, ghost id: nat) returns (ghost c: Choice)
      requires Valid() && ValidRequest(req) && id < |made| && made[id] == e
      requires e.key == KeyOf(req) && e.world == req.world
      modifies this`now, run, e
      ensures Valid() && Sound(old(now)) && id < |old(now).rounds| && old(now).rounds[id].key == KeyOf(req)
      ensures ChoiceFits(old(now).run, req, c) && now == PostTo(old(now), id, req, c)
    {
      hide *;
      Shape();
      RoundShape(id);
      AllShape(id);
      e.Shows();
      run.Shows();
      e.ExpectFrom(run);
      c := run.HearPost(req);
      e.Arrive(run, req);
      LandedIs(now.run, now.rounds[id], req, c);
      Posted(id, req, c);
    }

    /** The round and the run have taken a contribution; its handler now waits. */
    ghost method Posted(id: nat, req: Request, c: Choice)
      requires Sound(now) && id < |made| == |now.rounds| && ValidRequest(req) && ChoiceFits(now.run, req, c)
      requires now.rounds[id].key == KeyOf(req)
      requires SoundRun(now.run) && SoundRound(now.rounds[id])
      requires (run.View(), made[id].View()) == Landed(now.run, now.rounds[id], req, c)
      requires forall i | 0 <= i < |made| && i != id :: made[i].View() == now.rounds[i]
      requires forall i, j | 0 <= i < j < |made| :: made[i] != made[j]
      requires entries.Keys == now.open.Keys && (forall k | k in entries :: now.open[k] < |made| && entries[k] == made[now.open[k]])
      modifies this`now
      ensures Valid() && Sound(old(now)) && id < |old(now).rounds| && now == PostTo(old(now), id, req, c)
    {
      hide *;
      PostToIs(now, id, req, c);
      ghost var s' := PostTo(now, id, req, c);
      RoundMoved(id, s'.(tickets := now.tickets));
      HandlersMoved(s');
    }
  
    // ---- answers ----

    /** Each rank a handler stands for has fetched the round, and is given the ring's note if it is its turn. */
    method TellAll(e: Entry, who: seq<nat>, lead: bool, seqNo: int, ghost t: Ticket, ghost r: Round)
        returns (note: Option<Note>)
      requires t.lead == lead && t.key.seqNo == seqNo
      modifies run`news, e`fetched
      ensures e.View() == Fetched(old(e.View()), who)
      ensures run.View() == old(run.View()).(news := old(run.news).(told := Told(old(run.View()), t, r, who).0))
      ensures note == if run.news.told == old(run.news.told) then None else old(run.news.note)
    {
      hide *;
      note := None;
      run.Shows();
      ghost var r0, run0 := e.View(), run.View();
      NoneAnswered(run0, t, r, r0);
      for k := 0 to |who|
        invariant e.View() == Fetched(r0, who[..k])
        invariant run.View() == run0.(news := run0.news.(told := Told(run0, t, r, who[..k]).0))
        invariant run0.news.told <= run.news.told
        invariant note == if run.news.told == run0.news.told then None else run0.news.note
      {
        e.Shows();
        run.Shows();
        e.fetched := e.fetched + {who[k]};
        DueIs(run.View(), who[k], seqNo);
        if lead {
          var told := run.NoteFor(who[k], seqNo);
          if told.Some? {
            note := told;
          }
        }
        OneAnswered(run0, t, r, r0, who, k);
        e.Shows();
        run.Shows();
      }
      assert who[..|who|] == who;
      run.Shows();
    }

    /** A handler with an answer, or one woken by its own timeout, answers from the round it holds: each rank it stands for may
        be given the ring's note, and a round everybody has fetched, or that failed, leaves the board. */
    method AnswerHandler(ghost i: nat, e: Entry, key: Key, who: seq<nat>, lead: bool)
        returns (result: Option<Reply>, err: Option<Fault>, note: Option<Note>)
      requires Valid() && i < |now.tickets| && now.tickets[i].round < |made| && made[now.tickets[i].round] == e
      requires now.tickets[i].key == key && now.tickets[i].who == who && now.tickets[i].lead == lead
      requires now.tickets[i].wait.Woken? || (now.tickets[i].wait.Waiting? && e.done)
      modifies this`now, this`entries, run`news, e`fetched
      ensures Valid() && made == old(made) && Sound(old(now)) && now == Serve(old(now), i)
      ensures result == old(e.result) && err == old(e.err)
      ensures note == if run.news.told == old(run.news.told) then None else old(run.news.note)
    {
      hide *;
      ghost var t := now.tickets[i];
      Shape();
      AllShape(t.round);
      RoundShape(t.round);
      e.Shows();
      run.Shows();
      result, err, note := e.result, e.err, None;
      ServeIs(now, i);
      ghost var s0 := now;
      ghost var r0, r := s0.rounds[t.round], Fetched(s0.rounds[t.round], who);
      note := TellAll(e, who, lead, key.seqNo, t, r);
      e.Shows();
      run.Shows();
      if |e.fetched| >= e.ExpectedHere() || err.Some? {
        entries := entries - {key};
      }
      SpentIs(e.View());
      Served(i, Serve(s0, i));
    }

    /** Everything an answer changes. */
    ghost method Served(i: nat, s': State)
      requires Sound(now) && Sound(s') && i < |now.tickets| && s' == Serve(now, i) && Ready(now, now.tickets[i])
      requires var t := now.tickets[i];
        var r := Fetched(now.rounds[t.round], t.who);
        && t.round < |made| == |now.rounds| && made[t.round].View() == r
        && run.View() == now.run.(news := now.run.news.(told := Told(now.run, t, r, t.who).0))
        && entries.Keys == (if Spent(r) then now.open.Keys - {t.key} else now.open.Keys)
      requires forall j | 0 <= j < |made| && j != now.tickets[i].round :: made[j].View() == now.rounds[j]
      requires forall i, j | 0 <= i < j < |made| :: made[i] != made[j]
      requires forall k | k in entries :: k in now.open && now.open[k] < |made| && entries[k] == made[now.open[k]]
      modifies this`now
      ensures Valid() && now == s'
    {
      hide SoundRun, SoundRound, Told;
      now := s';
    }

    // ---- the handlers ----

    /** Everything that happened so far, and that it led here. */
    ghost predicate Ran()
      reads `made, `now, `entries, `trace, run, made
    {
      Valid() && now == Exec(Start(), trace)
    }

    lemma RanIs()
      requires Ran()
      ensures Valid() && Sound(now) && now == Exec(Start(), trace)
    {
    }

    lemma RunsTo()
      requires Valid() && now == Exec(Start(), trace)
      ensures Ran()
    {
    }

    /** So everything proved of the protocol's runs holds of every board in use: among it, that every round is safe, that
        every answer given fits its round, that the notes went out as they should and that every joiner is woken once. */
    lemma EveryBoardIsSafe()
      requires Ran()
      ensures Safe(now) && AnswersFit(now) && Informed(now) && Joining.RunFits(now.run)
    {
      RanIs();
      hide *;
      AnswersFitAlways(trace);
      RunsInform(trace);
      Joining.JoinsAlwaysFit(trace);
    }

    ghost method Stepped(e: Event, before: State)
      requires Sound(before) && before == Exec(Start(), trace) && Valid() && now == Step(before, e)
      modifies this`trace
      ensures Ran() && trace == old(trace) + [e]
    {
      hide *;
      ExecSnoc(trace, e);
      trace := trace + [e];
      RunsTo();
    }

    method HandleSync(req: Request) returns (e: Entry?, ghost c: Choice)
      requires Ran()
      modifies this, run, made
      ensures Ran() && trace == old(trace) + [PostEvent(req, c)]
      ensures e != null ==> ValidRequest(req) && Sound(old(now)) && ChoiceFits(old(now).run, req, c)
    {
      hide *;
      RanIs();
      e, c := Accept(req);
      StepIs(old(now), PostEvent(req, c));
      Stepped(PostEvent(req, c), old(now));
    }

    method HandlePoll(ghost i: nat, key: Key, overdue: bool) returns (holds: bool)
      requires Ran() && i < |now.tickets| && now.tickets[i].key == key
      modifies this, made
      ensures Ran() && trace == old(trace) + [PollEvent(i)]
      ensures Sound(old(now)) && (holds <==> !overdue && Held(old(now), key))
    {
      hide *;
      RanIs();
      holds := HandoverHolds(i, key, overdue);
      StepIs(old(now), PollEvent(i));
      Stepped(PollEvent(i), old(now));
    }

    method HandleTimeout(ghost i: nat, key: Key, rank: nat) returns (answered: bool, ghost orders: seq<seq<Key>>)
      requires Ran() && i < |now.tickets| && now.tickets[i].wait.Waiting?
      requires now.tickets[i].key == key && now.tickets[i].rank == rank
      modifies this, run, made
      ensures Ran() && trace == old(trace) + [TimeOutEvent(i, orders)]
      ensures i < |now.tickets| && (answered <==> now.tickets[i].wait.Woken?)
    {
      hide *;
      RanIs();
      answered, orders := TimeOutHandler(i, key, rank);
      StepIs(old(now), TimeOutEvent(i, orders));
      Stepped(TimeOutEvent(i, orders), old(now));
    }

    method HandleAnswer(ghost i: nat, e: Entry, key: Key, who: seq<nat>, lead: bool)
        returns (result: Option<Reply>, err: Option<Fault>, note: Option<Note>)
      requires Ran() && i < |now.tickets| && now.tickets[i].round < |made| && made[now.tickets[i].round] == e
      requires now.tickets[i].key == key && now.tickets[i].who == who && now.tickets[i].lead == lead
      requires now.tickets[i].wait.Woken? || (now.tickets[i].wait.Waiting? && e.done)
      modifies this, run, made
      ensures Ran() && trace == old(trace) + [ReplyEvent(i)]
      ensures result == old(e.result) && err == old(e.err)
      ensures note == if run.news.told == old(run.news.told) then None else old(run.news.note)
    {
      hide *;
      RanIs();
      result, err, note := AnswerHandler(i, e, key, who, lead);
      StepIs(old(now), ReplyEvent(i));
      Stepped(ReplyEvent(i), old(now));
    }

    /** The caller hung up, or the last timeout passed: nothing on the board changes. */
    ghost method HandleLeave(i: nat)
      requires Ran()
      modifies this`now, this`trace
      ensures Ran() && trace == old(trace) + [LeaveEvent(i)]
    {
      hide *;
      RanIs();
      LeaveIs(now, i);
      StepIs(now, LeaveEvent(i));
      HandlersMoved(Leave(now, i));
      Stepped(LeaveEvent(i), old(now));
    }

    method HandleDown(rank: int, world: int) returns (ok: bool, ghost order: seq<Key>)
      requires Ran()
      modifies this, run, made
      ensures Ran() && ok == (world >= 2 && 0 <= rank < world)
      ensures trace == if ok then old(trace) + [DownEvent(rank, world, order)] else old(trace)
    {
      hide *;
      RanIs();
      order := [];
      if world < 2 || rank < 0 || rank >= world {
        return false, order;
      }
      ok := true;
      order := MarkRankDown(rank, world);
      StepIs(old(now), DownEvent(rank, world, order));
      Stepped(DownEvent(rank, world, order), old(now));
    }

    /** ddpJoin: vets a joining rank and, unless it only asks, admits it. */
    method HandleJoin(rank: nat, check: bool) returns (ok: bool)
      requires Ran()
      modifies this, run
      ensures Ran() && trace == old(trace) + [JoinEvent(rank, check)]
      ensures ok == (rank >= 1 && old(Admissible(run.View(), rank)))
    {
      hide *;
      RanIs();
      Shape();
      JoinIs(now, rank, check);
      ok := false;
      if rank >= 1 {
        ok := run.MayJoin(rank);
        if ok && !check {
          run.AdmitRank(rank);
          RunMoved();
        }
      }
      Stepped(JoinEvent(rank, check), old(now));
    }

    method HandleSnapshotPut(rank: int, body: seq<int>) returns (ok: bool)
      requires Ran()
      modifies this, run
      ensures Ran() && trace == old(trace) + [PutEvent(rank, body)]
      ensures ok == old(Wanted(run.View(), rank))
    {
      hide *;
      RanIs();
      Shape();
      PutIs(now, rank, body);
      ok := run.PutSnapshot(rank, body);
      RunMoved();
      Stepped(PutEvent(rank, body), old(now));
    }

    /** The snapshot of the join with this id has been written to its joiner whole. */
    method HandleSnapshotSent(id: nat)
      requires Ran()
      modifies this, run
      ensures Ran() && trace == old(trace) + [TakenEvent(id)]
    {
      hide *;
      RanIs();
      Shape();
      TakenIs(now, id);
      run.FinishJoin(id);
      RunMoved();
      Stepped(TakenEvent(id), old(now));
    }
  }

  lemma ExecSnoc(events: seq<Event>, e: Event)
    ensures Exec(Start(), events + [e]) == Step(Exec(Start(), events), e)
  {
    assert (events + [e])[..|events + [e]| - 1] == events;
    hide Step, Sound;
  }

  lemma LeaveIs(s: State, i: nat)
    requires Sound(s)
    ensures Leave(s, i) == s.(tickets := Leave(s, i).tickets) && Sound(Leave(s, i))
  {
  }

  lemma JoinIs(s: State, rank: nat, check: bool)
    requires Sound(s)
    ensures SoundRun(s.run)
    ensures rank >= 1 && Admissible(s.run, rank) && !check ==>
              SoundRun(Admit(s.run, rank)) && Step(s, JoinEvent(rank, check)) == s.(run := Admit(s.run, rank))
    ensures !(rank >= 1 && Admissible(s.run, rank) && !check) ==> Step(s, JoinEvent(rank, check)) == s
  {
    hide SharesWith, Admissible, SoundRound;
  }

  lemma PutIs(s: State, rank: int, body: seq<int>)
    requires Sound(s)
    ensures Wanted(s.run, rank) ==>
              s.run.joins.join.Some? && SoundRun(s.run.(joins := Snapped(s.run.joins, body)))
              && Step(s, PutEvent(rank, body)) == s.(run := s.run.(joins := Snapped(s.run.joins, body)))
    ensures !Wanted(s.run, rank) ==> Step(s, PutEvent(rank, body)) == s
  {
    hide SoundRound;
  }

  lemma TakenIs(s: State, id: nat)
    requires Sound(s)
    ensures SoundRun(s.run) && SoundRun(Taken(s.run, id)) && Step(s, TakenEvent(id)) == s.(run := Taken(s.run, id))
  {
    hide SoundRound;
  }

  /** Which function of the protocol each event is. */
  lemma StepIs(s: State, e: Event)
    requires Sound(s)
    ensures Sound(Step(s, e))
    ensures e.PostEvent? ==> Step(s, e) == Post(s, e.req, e.choice)
    ensures e.ReplyEvent? ==> Step(s, e) == Serve(s, e.ticket)
    ensures e.PollEvent? ==> Step(s, e) == Poll(s, e.polling)
    ensures e.TimeOutEvent? ==> Step(s, e) == TimeOut(s, e.late, e.orders)
    ensures e.LeaveEvent? ==> Step(s, e) == Leave(s, e.leaver)
    ensures e.DownEvent? && e.size >= 2 && e.down < e.size && Enumerates(e.order, s.open.Keys) ==>
              Step(s, e) == MarkDown(s, e.down, e.size, e.order)
    ensures e.DownEvent? && !(e.size >= 2 && e.down < e.size) ==> Step(s, e) == s
  {
    hide Post, Serve, Poll, TimeOut, Leave, MarkDown, Enumerates, Sound;
  }

  lemma NoneAnswered(run: Run, t: Ticket, r: Round, r0: Round)
    ensures Told(run, t, r, []).0 == run.news.told && Fetched(r0, []) == r0
  {
  }

  lemma OneAnswered(run: Run, t: Ticket, r: Round, r0: Round, who: seq<nat>, k: nat)
    requires k < |who|
    ensures var told := Told(run, t, r, who[..k]).0;
      && Told(run, t, r, who[..k + 1]).0 ==
         (if t.lead && Due(run.(news := run.news.(told := told)), who[k], t.key.seqNo) then told + {who[k]} else told)
      && Fetched(r0, who[..k + 1]) == Fetched(r0, who[..k]).(fetched := Fetched(r0, who[..k]).fetched + {who[k]})
  {
    assert who[..k + 1][..k] == who[..k];
    assert forall x :: x in who[..k + 1] <==> x in who[..k] || x == who[k];
  }

  lemma ServeIs(s: State, i: nat)
    requires Sound(s) && i < |s.tickets| && s.tickets[i].round < |s.rounds|
    requires s.tickets[i].wait.Woken? || (s.tickets[i].wait.Waiting? && s.rounds[s.tickets[i].round].done)
    ensures Sound(Serve(s, i)) && Ready(s, s.tickets[i])
  {
  }

  lemma DueIs(run: Run, rank: nat, seqNo: int)
    ensures Due(run, rank, seqNo) ==> run.news.note.Some? && rank !in run.news.told
  {
  }

  lemma SpentIs(r: Round)
    ensures Spent(r) <==> |r.fetched| >= (if 0 < r.expected <= r.world then r.expected else r.world) || r.err.Some?
  {
  }

  lemma RoundForIs(s: State, req: Request)
    requires Sound(s) && ValidRequest(req)
    ensures var key := KeyOf(req);
      && (key in s.open ==> s.open[key] < |s.rounds| && RoundFor(s, req) == Some((s, s.open[key])))
      && (key !in s.open && NewRound(req).None? ==> RoundFor(s, req).None?)
      && (key !in s.open && NewRound(req).Some? ==>
            var s1 := s.(rounds := s.rounds + [NewRound(req).value], open := s.open[key := |s.rounds|]);
            RoundFor(s, req) == Some((s1, |s.rounds|)) && Sound(s1))
  {
    hide NewRound, SoundRun, SoundRound;
  }

  lemma NewRoundIs(req: Request)
    requires ValidRequest(req)
    ensures NewRound(req).None? <==>
      req.count <= 0 || req.dtype.None? || (|req.counts| > 1 && WithSegments(req.count, req.counts).None?)
  {
  }

  lemma PostTurned(s: State, req: Request, c: Choice)
    requires Sound(s)
    ensures !ValidRequest(req) || s.run.aborted.Some? || (OpensRun(req) && req.rank in s.run.ring.dropped) ==> Post(s, req, c) == s
    ensures ValidRequest(req) && RoundFor(s, req).None? ==> Post(s, req, c) == s
    ensures ValidRequest(req) && RoundFor(s, req).Some? && RoundFor(s, req).value.0.rounds[RoundFor(s, req).value.1].world != req.world ==>
              Post(s, req, c) == s == RoundFor(s, req).value.0
  {
    hide SoundRun, SoundRound, ChoiceFits, PostTo;
  }

  lemma PostGoes(s: State, req: Request, c: Choice)
    requires Sound(s) && ValidRequest(req) && ChoiceFits(s.run, req, c) && RoundFor(s, req).Some?
    requires !(s.run.aborted.Some? || (OpensRun(req) && req.rank in s.run.ring.dropped))
    requires RoundFor(s, req).value.0.rounds[RoundFor(s, req).value.1].world == req.world
    ensures Post(s, req, c) == PostTo(RoundFor(s, req).value.0, RoundFor(s, req).value.1, req, c)
    ensures |Post(s, req, c).tickets| == |s.tickets| + 1
    ensures Post(s, req, c).tickets[|s.tickets|].round == RoundFor(s, req).value.1
  {
    hide SoundRun, SoundRound, ChoiceFits, Landed, NewRound;
  }

  lemma PostToIs(s: State, id: nat, req: Request, c: Choice)
    requires Sound(s) && id < |s.rounds| && ValidRequest(req) && ChoiceFits(s.run, req, c) && s.rounds[id].key == KeyOf(req)
    ensures SoundRun(s.run) && SoundRound(s.rounds[id])
    ensures var (run, r) := Landed(s.run, s.rounds[id], req, c);
      var s' := PostTo(s, id, req, c);
      && s' == s.(run := run, rounds := s.rounds[id := r], tickets := s'.tickets) && Sound(s')
      && Sound(s'.(tickets := s.tickets))
  {
    hide Landed, ChoiceFits, Closable, SoundRun;
  }

  lemma LandedIs(run: Run, r: Round, req: Request, c: Choice)
    requires ValidRequest(req) && SoundRun(run) && SoundRound(r) && ChoiceFits(run, req, c) && r.world == req.world
    ensures SoundRun(Heard(run, req, c)) && SoundRound(r.(expected := Awaited(run.ring.dropped, r.world)))
    ensures Landed(run, r, req, c) == Arrive(Heard(run, req, c), r.(expected := Awaited(run.ring.dropped, r.world)), req)
  {
    hide Heard, Arrive, Awaited, ChoiceFits, Closable, SoundRun;
  }

  /** The round under this key is undecided and waits for a rank busy with a handover. */
  ghost predicate Held(s: State, key: Key)
    requires Sound(s)
  {
    key in s.open && !Decided(s.rounds[s.open[key]]) && HandoverBusy(s.run, s.rounds[s.open[key]])
  }

  lemma PollIs(s: State, i: nat)
    requires Sound(s) && i < |s.tickets|
    ensures var key := s.tickets[i].key;
      && Sound(Poll(s, i))
      && (Held(s, key) <==> key in s.open && !Decided(s.rounds[s.open[key]]) && HandoverBusy(s.run, s.rounds[s.open[key]]))
      && (key !in s.open ==> Poll(s, i) == s)
      && (key in s.open && (Decided(s.rounds[s.open[key]]) || !HandoverBusy(s.run, s.rounds[s.open[key]])) ==> Poll(s, i) == s)
      && (key in s.open && !Decided(s.rounds[s.open[key]]) && HandoverBusy(s.run, s.rounds[s.open[key]]) ==>
            Poll(s, i) == s.(rounds := s.rounds[s.open[key] := s.rounds[s.open[key]].(held := true)]))
  {
    hide SoundRun, Closable, HandoverBusy;
  }

  lemma NotBusy(run: Run, r: Round)
    requires run.joins.join.None? && run.joins.loading.None?
    ensures !HandoverBusy(run, r)
  {
  }

  lemma BusyIs(run: Run, r: Round)
    requires run.joins.join.Some? || run.joins.loading.Some?
    ensures var j := if run.joins.join.Some? then run.joins.join.value else run.joins.loading.value;
      HandoverBusy(run, r) <==>
        (run.joins.join.Some? && (j.from < 0 || (j.from !in r.seen && j.from !in run.ring.dropped)))
        || (j.rank < r.world && j.rank !in r.seen && j.rank !in run.ring.dropped)
  {
  }

  lemma {:induction false} ManyOrders(keys: set<Key>, n: nat) returns (orders: seq<seq<Key>>)
    ensures |orders| == n && forall i | 0 <= i < n :: Enumerates(orders[i], keys)
  {
    if n == 0 {
      orders := [];
    } else {
      orders := ManyOrders(keys, n - 1);
      var order := SomeOrder(keys);
      orders := orders + [order];
    }
  }

  lemma AnyOrders(s: State, key: Key) returns (orders: seq<seq<Key>>)
    requires Sound(s)
    ensures OrdersFit(s, key, orders)
  {
    hide Enumerates;
    orders := ManyOrders(s.open.Keys, if key in s.open then s.rounds[s.open[key]].world else 0);
  }

  lemma OrdersAre(s: State, key: Key, orders: seq<seq<Key>>)
    requires Sound(s) && key in s.open
    requires |orders| == s.rounds[s.open[key]].world && forall i | 0 <= i < |orders| :: Enumerates(orders[i], s.open.Keys)
    ensures OrdersFit(s, key, orders)
  {
  }

  lemma ExpireIs(s: State, key: Key, rank: nat, orders: seq<seq<Key>>)
    requires Sound(s) && OrdersFit(s, key, orders)
    ensures var e := Expire(s, key, rank, orders);
      && (key !in s.open ==> e == (s, false))
      && (key in s.open ==>
            var id := s.open[key];
            var r := s.rounds[id];
            && |orders| == r.world && SoundRun(s.run) && SoundRound(r)
            && (Decided(r) ==> e == (s, true))
            && (!Decided(r) ==> r.acc.Some?)
            && (!Decided(r) && r.acc.value.count == 0 ==> e == (s, false))
            && (!Decided(r) && r.acc.value.count != 0 ==>
                  var (run, r') := Shut(s.run, r, rank);
                  var s1 := s.(run := run, rounds := s.rounds[id := r']);
                  && Sound(s1)
                  && e == (if r'.opening && r'.err.None? then DropMissed(s1, id, orders) else s1, true)))
  {
    hide SoundRun, Closable, Shut, DropMissed, Enumerates;
  }

  lemma ShutIs(run: Run, r: Round, rank: nat)
    requires SoundRun(run) && SoundRound(r) && !Decided(r)
    ensures Decided(Shut(run, r, rank).1)
  {
  }

  lemma TimeOutIs(s: State, i: nat, orders: seq<seq<Key>>)
    requires Sound(s) && i < |s.tickets| && s.tickets[i].wait.Waiting? && OrdersFit(s, s.tickets[i].key, orders)
    ensures var t := s.tickets[i];
      var (s1, answered) := Expire(s, t.key, t.rank, orders);
      && |s1.tickets| == |s.tickets| && Sound(TimeOut(s, i, orders))
      && TimeOut(s, i, orders) == s1.(tickets := s1.tickets[i := t.(wait := if answered then Woken else Left)])
  {
    hide Expire, SoundRun, SoundRound;
  }

  lemma DecidedIs(r: Round)
    ensures Decided(r) <==> r.result.Some? || r.err.Some?
  {
  }

  lemma DropMissingNone(s: State, id: nat)
    requires Sound(s) && id < |s.rounds|
    ensures DropMissing(s, id, 0, []) == s
    ensures FirstMissing(s.rounds[id].seen, s.run.ring.dropped, 0) == -1
  {
  }

  lemma FirstMissingIs(seen: set<nat>, dropped: set<nat>, n: nat)
    ensures FirstMissing(seen, dropped, n + 1) ==
      if FirstMissing(seen, dropped, n) >= 0 then FirstMissing(seen, dropped, n) else if n in seen || n in dropped then -1 else n
  {
  }

  lemma {:induction false} DropMissingPrefix(s: State, id: nat, n: nat, orders: seq<seq<Key>>, order: seq<Key>)
    requires Sound(s) && id < |s.rounds| && n <= |orders|
    ensures DropMissing(s, id, n, orders + [order]) == DropMissing(s, id, n, orders)
  {
    hide MarkDown, SoundRun, SoundRound;
    if n > 0 {
      DropMissingPrefix(s, id, n - 1, orders, order);
    }
  }

  lemma DropMissingSnoc(s: State, id: nat, n: nat, orders: seq<seq<Key>>, order: seq<Key>)
    requires Sound(s) && id < |s.rounds| && n == |orders|
    ensures var s1 := DropMissing(s, id, n, orders);
      DropMissing(s, id, n + 1, orders + [order]) ==
        if n in s.rounds[id].seen || n in s1.run.ring.dropped then s1 else MarkDown(s1, n, s.rounds[id].world, order)
  {
    hide MarkDown, SoundRun, SoundRound;
    DropMissingPrefix(s, id, n, orders, order);
  }

  lemma DropMissedIs(s: State, id: nat, orders: seq<seq<Key>>)
    requires Sound(s) && id < |s.rounds| && |orders| == s.rounds[id].world
    ensures var first := FirstMissing(s.rounds[id].seen, s.run.ring.dropped, |orders|);
      var s1 := DropMissing(s, id, |orders|, orders);
      DropMissed(s, id, orders) == if first < 0 then s
        else s1.(run := Publish(s1.run, s1.run.lastSeq + 1, RingNow(s1.run, MissedStart(first))))
  {
    hide DropMissing, SoundRun, SoundRound, FirstMissing;
  }

  /** A decided round does not change while ranks go down, and a rank goes down only when it is marked. */
  lemma {:induction false} CloseAllStays(s: State, order: seq<Key>, id: nat)
    requires Sound(s) && id < |s.rounds| && Decided(s.rounds[id])
    ensures CloseAll(s, order).rounds[id] == s.rounds[id] && CloseAll(s, order).run.ring == s.run.ring
  {
    if order != [] {
      var front, key := order[..|order| - 1], order[|order| - 1];
      assert CloseAll(s, order) == CloseReady(CloseAll(s, front), key);
      hide *;
      CloseAllStays(s, front, id);
      CloseReadyStays(CloseAll(s, front), key, id);
    }
  }

  lemma CloseReadyStays(s: State, key: Key, id: nat)
    requires Sound(s) && id < |s.rounds| && Decided(s.rounds[id])
    ensures CloseReady(s, key).rounds[id] == s.rounds[id] && CloseReady(s, key).run.ring == s.run.ring
  {
    hide SoundRun, Closable, MeanResidual;
  }

  lemma MarkDownStays(s: State, rank: nat, world: nat, order: seq<Key>, id: nat)
    requires Sound(s) && id < |s.rounds| && Decided(s.rounds[id])
    ensures MarkDown(s, rank, world, order).rounds[id] == s.rounds[id]
    ensures forall k | k != rank :: k in MarkDown(s, rank, world, order).run.ring.dropped <==> k in s.run.ring.dropped
  {
    hide CloseAll, Closable, SharesWithout, JoinWithout;
    var run := Sized(s.run, world);
    if rank < run.ring.world && rank !in run.ring.dropped {
      var run1 := WithoutRank(run, rank);
      CloseAllStays(s.(run := Publish(run1, run1.lastSeq + 1, RingNow(run1, Down(rank)))), order, id);
    }
  }

  lemma {:induction false} DropMissingStays(s: State, id: nat, n: nat, orders: seq<seq<Key>>)
    requires Sound(s) && id < |s.rounds| && Decided(s.rounds[id]) && n <= |orders|
    ensures DropMissing(s, id, n, orders).rounds[id] == s.rounds[id]
    ensures forall k: nat | k >= n :: k in DropMissing(s, id, n, orders).run.ring.dropped <==> k in s.run.ring.dropped
  {
    hide MarkDown, SoundRun, SoundRound;
    if n > 0 {
      DropMissingStays(s, id, n - 1, orders);
      MarkDownStays(DropMissing(s, id, n - 1, orders), n - 1, s.rounds[id].world, orders[n - 1], id);
    }
  }

  lemma SizedIs(run: Run, world: nat)
    requires SoundRun(run)
    ensures SoundRun(Sized(run, world))
    ensures Sized(run, world) == if run.ring.world == 0 then run.(ring := run.ring.(world := world)) else run
  {
  }

  lemma OutsiderSound(run: Run, rank: nat)
    requires SoundRun(run)
    ensures SoundRun(run.(ring := run.ring.(dropped := run.ring.dropped + {rank})))
  {
  }

  lemma PublishSound(run: Run, seqNo: int, note: Note)
    requires SoundRun(run)
    ensures SoundRun(Publish(run, seqNo, note))
  {
  }

  lemma MarkDownIs(s: State, rank: nat, world: nat, order: seq<Key>)
    requires Sound(s)
    ensures var run := Sized(s.run, world);
      MarkDown(s, rank, world, order) ==
      if rank >= run.ring.world then s.(run := run.(ring := run.ring.(dropped := run.ring.dropped + {rank})))
      else if rank in run.ring.dropped then s.(run := run)
      else
        var run1 := WithoutRank(run, rank);
        CloseAll(s.(run := Publish(run1, run1.lastSeq + 1, RingNow(run1, Down(rank)))), order)
  {
  }

  lemma CloseReadyIs(s: State, key: Key)
    requires Sound(s) && key in s.open
    ensures var id := s.open[key];
      var r := s.rounds[id];
      && Sound(CloseReady(s, key)) && (Decided(r) <==> r.result.Some? || r.err.Some?)
      && (Decided(r) ==> CloseReady(s, key) == s)
      && (!Decided(r) ==> SoundRun(s.run) && SoundRound(r))
      && (!Decided(r) ==> CloseReady(s, key) == s.(run := Settled(s.run, r).0, rounds := s.rounds[id := Settled(s.run, r).1]))
  {
    hide Settled, SoundRun, Closable;
  }

  lemma CloseAllNone(s: State)
    requires Sound(s)
    ensures CloseAll(s, []) == s
  {
  }

  lemma CloseAllSnoc(s: State, order: seq<Key>, key: Key)
    requires Sound(s)
    ensures CloseAll(s, order + [key]) == CloseReady(CloseAll(s, order), key)
  {
    assert (order + [key])[..|order + [key]| - 1] == order;
  }

  lemma EnumeratesNone(keys: set<Key>)
    ensures Enumerates([], keys - keys)
  {
  }

  lemma EnumeratesSnoc(order: seq<Key>, keys: set<Key>, key: Key)
    requires Enumerates(order, keys) && key !in keys
    ensures Enumerates(order + [key], keys + {key})
  {
  }
}
