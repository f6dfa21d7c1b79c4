/** One sync round on the board, updated in place as contributions, reports and timeouts arrive. */
module Entries {
  import opened Wrappers
  import opened Vectors
  import opened Reduce
  import opened Messages
  import opened Protocol
  import opened RunStates

  class Entry {
    const key: Key
    const world: nat
    const opening: bool
    const kind: string
    var acc: Option<Acc>
    var result: Option<Reply>
    var err: Option<Fault>
    var seen: set<nat>
    var fetched: set<nat>
    var done: bool
    var expected: int
    var partial: nat
    var held: bool
    var manifest: Option<Manifest>
    ghost var parts: seq<Part>
    ghost var posts: seq<Request>
    ghost var closed: Option<(Acc, Vec)>
    ghost var closing: Closing

    ghost function View(): Round
      reads this
    {
      Round(key, world, opening, kind, acc, result, err, seen, fetched, done, expected, partial, held, manifest, parts, posts,
            closed, closing)
    }

    lemma Shows()
      ensures View() == Round(key, world, opening, kind, acc, result, err, seen, fetched, done, expected, partial, held, manifest,
                              parts, posts, closed, closing)
    {
    }

    constructor (req: Request)
      requires ValidRequest(req) && NewRound(req).Some?
      ensures View() == NewRound(req).value
    {
      key, world, opening, kind := KeyOf(req), req.world, OpensRun(req), req.kind;
      var segments: seq<nat> := [];
      if |req.counts| > 1 {
        segments := WithSegments(req.count, req.counts).value;
      }
      acc := Some(NewAcc(req.dtype.value, req.count, segments));
      result, err, seen, fetched, done := None, None, {}, {}, false;
      expected, partial, held, manifest := 0, 0, false, None;
      parts, posts, closed, closing := [], [], None, Open;
    }

    function ExpectedHere(): (n: int)
      reads this`expected
      ensures n == if 0 < expected <= world then expected else world
    {
      if 0 < expected <= world then expected else world
    }

    /** finishLocked: the result from the accumulator, which is let go. An int8 round takes the kept rounding error along and
        leaves the new one. */
    method Finish(run: RunState)
      requires SoundRun(run.View()) && SoundRound(View()) && acc.Some?
      modifies run`residual, this`acc, this`result, this`closed
      ensures SoundRun(old(run.View())) && SoundRound(old(View()))
      ensures run.View() == Protocol.Finish(old(run.View()), old(View())).0
      ensures View() == Protocol.Finish(old(run.View()), old(View())).1
    {
      hide Below, MeanResidual, Closable;
      var a := acc.value;
      var n := ResidualKey(kind, |a.sum|, key.shard);
      var res := Kept(run.residual, n);
      var (reply, left) := MeanResidual(a, res);
      ghost var (run', r') := Protocol.Finish(run.View(), View());
      assert run' == if a.dtype.I8? then run.View().(residual := run.residual[n := left]) else run.View();
      assert r' == View().(acc := None, result := Some(reply), closed := Some((a, res)));
      hide *;
      if a.dtype.I8? {
        run.residual := run.residual[n := left];
      }
      result, closed, acc := Some(reply), Some((a, res)), None;
      assert run.View() == run';
      assert View() == r';
    }

    method Check(req: Request)
      requires ValidRequest(req)
      modifies this`manifest, this`err
      ensures View() == Checked(old(View()), req)
    {
      if req.manifest.Some? && opening && req.rank !in seen {
        if manifest.None? {
          manifest := req.manifest;
        } else if !SameModel(manifest.value, req.manifest.value) {
          err := Some(ModelsDiffer);
        }
      }
      if req.kind != "" && kind != "" && req.kind != kind && Contributors(req) !! seen && err.None? {
        err := Some(KindsDiffer);
      }
    }

    /** A contribution is added unless a rank it stands for is already in the sum. */
    method Fold(req: Request)
      requires ValidRequest(req) && SoundRound(View()) && acc.Some?
      modifies this`acc, this`err, this`seen, this`parts, this`posts
      ensures SoundRound(old(View())) && View() == Folded(old(View()), req)
    {
      var unseen := Contributors(req) !! seen;
      if !unseen || err.Some? {
        return;
      }
      hide Contributors, Decode, SoundRound;
      var a := acc.value;
      var (sum, ok) := Add(a, req.payload, ScalesOf(req), req.samples);
      acc := Some(sum);
      if !ok {
        err := Some(BadPayload);
      } else {
        seen := seen + Contributors(req);
        posts := posts + [req];
        parts := parts + [Part(Contributors(req), Decode(a, req.payload, ScalesOf(req)).value, SampleWeight(req.samples))];
      }
    }
  
    /** Ranks the ring goes on without are not waited for. */
    method ExpectFrom(run: RunState)
      requires SoundRound(View())
      modifies this`expected
      ensures View() == old(View()).(expected := Awaited(run.ring.dropped, world)) && SoundRound(View())
    {
      var gone := run.CountDropsBelow(world);
      expected := if world - gone < 1 then 1 else world - gone;
    }

    method MarkDone(how: Closing)
      modifies this`done, this`closing
      ensures View() == old(View()).(done := true, closing := how)
    {
      done, closing := true, how;
    }

    /** A contribution arrives: folded in unless the answer exists, and the round closed if it is the last. */
    method Arrive(run: RunState, req: Request)
      requires ValidRequest(req) && SoundRun(run.View()) && SoundRound(View())
      modifies run`residual, run`aborted, this
      ensures SoundRun(old(run.View())) && SoundRound(old(View()))
      ensures run.View() == Protocol.Arrive(old(run.View()), old(View()), req).0
      ensures View() == Protocol.Arrive(old(run.View()), old(View()), req).1
    {
      hide Folded, Checked, Protocol.Finish, SoundRun, Closable, LiveIn;
      if result.Some? || err.Some? {
        done := true;
        return;
      }
      Check(req);
      Fold(req);
      var live := run.CountLiveIn(seen);
      if err.Some? {
        run.AbortWith(err.value);
        MarkDone(Failed);
      } else if live >= ExpectedHere() {
        Finish(run);
        MarkDone(Full);
      }
    }

    /** What a change to the ring makes of an undecided round: finished if it now has everyone it will ever get. */
    method Settle(run: RunState)
      requires SoundRun(run.View()) && SoundRound(View()) && result.None? && err.None?
      modifies run`residual, this
      ensures SoundRun(old(run.View())) && SoundRound(old(View()))
      ensures run.View() == Settled(old(run.View()), old(View())).0
      ensures View() == Settled(old(run.View()), old(View())).1
    {
      hide Protocol.Finish, SoundRun, Closable, LiveIn;
      ExpectFrom(run);
      var live := run.CountLiveIn(seen);
      if acc.value.count > 0 && live >= expected {
        ghost var r1 := View();
        Finish(run);
        if 0 < |seen| < world {
          partial := |seen|;
        }
        MarkDone(Full);
      }
    }

    /** completePartial's close of an undecided round somebody is in: with whoever is there, or with the run's end. */
    method Shut(run: RunState, rank: nat)
      requires SoundRun(run.View()) && SoundRound(View()) && result.None? && err.None?
      modifies run`residual, run`aborted, this
      ensures SoundRun(old(run.View())) && SoundRound(old(View()))
      ensures run.View() == Protocol.Shut(old(run.View()), old(View()), rank).0
      ensures View() == Protocol.Shut(old(run.View()), old(View()), rank).1
    {
      hide Protocol.Finish, SoundRun, Closable, LiveIn;
      var live := run.CountLiveIn(seen);
      if !opening && !held && ExpectedHere() >= 2 && live == 1 && rank in seen {
        err, acc := Some(PeersGone), None;
        run.AbortWith(PeersGone);
        MarkDone(Failed);
      } else {
        var count := acc.value.count;
        Finish(run);
        partial := count;
        MarkDone(Short);
      }
    }
  }
}
