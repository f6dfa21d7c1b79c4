# What the sync board keeps

This project models the part of PipedPeer that decides what a training ring computes, and proves what must hold of it over
every run. `dafny verify dfyconfig.toml` checks all of it (Dafny 4.11).

The core is the lead daemon's sync board: ranks post contributions to numbered rounds, a round closes when every live rank is
in, when a rank is reported down or when a timeout gives up on the missing ones, and ranks die, join mid-run and hear of it
through notes on their replies.

- `Protocol` is the board as a state machine. Each step is what one handler does while it holds the board's lock; timers are
  steps that may come at any time, and loops over maps take any order. It keeps every round object ever made, also those the map
  has let go of while a handler still holds them.
- `Rounds`, `Verdicts`, `Closing`, `Feedback`, `Notes`, `Joining` and `Sharing` prove its invariants by induction over all runs of
  events; where the code does not keep one, they prove exactly which runs do, and `Scenarios` and `Unfair` reach runs that do not.
- `Faults`, `Telling`, `Decisions`, `Handovers` and `Headcounts` say what each event does, in terms of the posts, reports and ranks
  themselves: what fails a round, what the ring is told and with which shares, what the reports call for, how a rank gets in, and how
  many ranks an answer says it averages.
- `TwoLevel` joins the machines' own averaging to the lead's rounds.
- `RunStates`, `Entries` and `Board` are the same board as objects updated in place. Each method says which function of the
  protocol it carries out, and `Board.SyncBoard` keeps the run of events that led to its state, so every theorem about runs is one
  about boards.
- `Reduce`, `Accumulating`, `Local`, `Shares` and `Rebalance` are the arithmetic, over reals and vectors of any length, with the
  loops that compute it; `Refits` says what the plans are in milliseconds and samples; `Float16` is the binary16 codec on bit patterns.
- `Supervisor` is the submitter's event loop and `Endings` its verdict read off the script, `Coordinator` the lifecycle of a placed
  job and `Lives` how it goes on and ends, `Watchdog` the memory watchdog's
  worklists, `Stream` the output forwarder.

Where the code and its comments part, the code is modelled:

- A round is looked up by key when a timeout fires, and a late reply of an older round deletes whatever is under its key. A handler
  whose own undecided round has lost its key is answered with an empty payload (Verdicts.EveryAnswerHasContentIff, Scenarios.StrayIsAnswered).
- A refused int8 payload leaves the segments before its bad scale in the sum. At the lead the round has failed by then; in a
  machine-local round the others go on with it (Local.SpoiledMeanIff, Local.ForwardSpoiled).
- The freeloader test is complete except when the slowest rank found is rank 0 (Rebalance.SlowestDecides).
- A timeout ends the run when one live rank is in the round and the asking rank is; that need not be the same rank, since a machine's
  handler goes on asking for a rank of its that was reported down (Faults.TimeOutEndsRunIff, Scenarios.DownedAskerEndsRun).
- The number of ranks an answer gives is the ring's size when a post closed the round, whoever had been dropped, and counts a machine
  as one when its timeout did (Headcounts.SaysHowMany, Scenarios.MachineCountsOnce).
- Models are compared with the first one given, so where that has no types the others' are not compared (Faults.UntypedFirstHidesTypes).
- A rank announced to the submitter after the grace has run out is waited for however long it takes (Supervisor.JoinerToldIff,
  Supervisor.LateJoinerIsMissed).
- A node's refusal is kept under the id it answers with and looked up under the id it is listed with
  (Coordinator.PlacedUnderAnotherName).
- A lead post may name a larger ring than the board knows and thereby grow it (Joining.PostGrowsIff, Scenarios.PostGrowsTheRing).
- A freeloader drop looks at no open round, so a round that lacked only that rank waits for its timeout (Closing.PostSticksIff,
  Scenarios.FreeloaderDropSticks); and it leaves the rank's report, on which a later refit may count and
  give the rank a share (Sharing.DeadStaySilentIff, Unfair.FreeloaderIsShared).
- The lead sends a joiner the whole snapshot before it closes the join, so the joiner can report while it is still open; a refit may
  then move the shares without a note (Joining.PostMovesDuringJoinIff, Scenarios.SharesMoveUntold).
- Admission does not look whether the joiner's own index was reported down (Shares.WithProperIff, Unfair.DeadIndexIsShared).
- A down report of a rank past the size the lead knows looks at no open round (Closing.DownSticksIff, Unfair.DownReportSticks).

## Model

| member | source | states |
|---|---|---|
| `Verdicts.VerdictIsFinal` | src/internal/daemonapi/ddpsync.go:215-284 | over every interleaving a round has one verdict at most, a result or a fault and never both; it is done exactly when it has one; and no later event changes it |
| `Verdicts.FoldedExactlyOnce` | src/internal/daemonapi/ddpsync.go:233-270 | however often a rank or a machine retries, the contributions in a round share no rank, their ranks are exactly `seen`, and the result is the weighted mean of exactly those contributions (exactly, or as the int8 reply that carries the residual) |
| `Verdicts.FullHasEveryone` | src/internal/daemonapi/ddpsync.go:267-284 | a round closed other than by a timeout or a fault has a contribution from every non-dropped rank below its size, although the number it waits for is cached; that number is never below the live count; and a fault stops the run |
| `Verdicts.AnswersAgree` | src/internal/daemonapi/ddpsync.go:334-391 | any two answers with content served from one round object are the same: the same payload or the same fault |
| `Verdicts.TimeOutAnswersIff` | src/internal/daemonapi/ddpsync.go:302-321 | a handler that times out and goes on to answer has something to answer with exactly when its own round is decided or still the one under its key: completePartial looks the round up by key, which may be a newer one by then |
| `Verdicts.StrayStaysEmpty` | src/internal/daemonapi/ddpsync.go:334-391 | a round that has left the board undecided is never decided by any later event, so its handlers can only answer without content |
| `Scenarios.StrayIsAnswered` | src/internal/daemonapi/ddpsync.go:302-391 | a concrete run from the start that ends with rank 0 answered with an empty payload: a late reply takes a new round off the board, and its handler's timeout closes the next one |
| `Verdicts.EveryAnswerHasContentIff` | src/internal/daemonapi/ddpsync.go:285-391 | over every interleaving no rank is ever answered without content exactly when no handler replies that its timeout woke for another round under its key |
| `Verdicts.ToldAnswers` | src/internal/daemonapi/ddpsync.go:361-391 | a reply answers every rank its contribution stands for, once each and in order, from the one round it waited on |
| `Verdicts.LeavesIff` | src/internal/daemonapi/ddpsync.go:361-372 | a reply takes its key off the board exactly when, with it, as many ranks have been answered as the round waited for, or the round failed |
| `Rounds.RunsAreSafe` | src/internal/daemonapi/ddpsync.go:215-284 | every state any run of events reaches from a safe one is safe, and Later than it: verdicts, drops, sizes, notes and joins so far all stay |
| `Rounds.FoldKeeps` | src/internal/daemonapi/ddpsync.go:226-266 | one contribution is folded in if none of its ranks is in the sum, and otherwise leaves sum and ranks alone |
| `Rounds.ArriveKeeps` | src/internal/daemonapi/ddpsync.go:215-284 | a post keeps every invariant of its round, and of the run only the residuals and the fault can change |
| `Rounds.SettledKeeps` | src/internal/daemonapi/ddpdown.go:106-130 | a rank going down keeps every invariant of each open round, closing it only if everyone left is in |
| `Rounds.ShutKeeps` | src/internal/daemonapi/ddpsync.go:543-583 | a partial timeout keeps every invariant of the round it closes |
| `Rounds.FullMeansAll` | src/internal/daemonapi/ddpboard.go:147-159 | counting live contributors up to the expected number means every rank below the size is in or dropped |
| `Rounds.AwaitedFalls` | src/internal/daemonapi/ddpboard.go:126-159 | more drops never raise the number of contributions to wait for |
| `Closing.FreshDownClosesAll` | src/internal/daemonapi/ddpdown.go:51-132 | after a fresh down report of a ring member no round on the board that has all its live ranks stays undecided, in whatever order the map is walked |
| `Closing.NobodyWaitsForNobody` | src/internal/daemonapi/ddpsync.go:150-153 | over every interleaving no round on the board ever has all its live ranks and no verdict exactly when no event of the run sticks: drops a rank with nobody looking that such a round lacked alone |
| `Closing.DropSticksIff` | src/internal/daemonapi/ddppacing.go:125-128 | dropping a rank leaves an undecided round with everyone and no verdict exactly when every other live rank is in it and there is one |
| `Closing.PostSticksIff` | src/internal/daemonapi/ddppacing.go:125-128 | a post leaves a round stuck exactly when it is taken, its refit drops a freeloader, and either an undecided round under another key lacks that rank alone, or its own round, undecided and of a size that counts that rank, takes its contribution without a fault and then lacks that rank alone; all of it seen before the post |
| `Closing.DownSticksIff` | src/internal/daemonapi/ddpdown.go:58-62 | a down report leaves a round stuck exactly when the rank is past the size the lead knows and a round on the board lacks it alone |
| `Unfair.DownReportSticks` | src/internal/daemonapi/ddpdown.go:56-62 | a concrete run: a shard of a ring of three in a ring the lead knows as two, and a report of the third rank, which leaves it with everyone and no verdict |
| `Closing.StepSticksIff` | src/internal/daemonapi/ddpsync.go:267-284 | no other event leaves a round on the board stuck |
| `Closing.SticksOnlyBy` | src/internal/daemonapi/ddppacing.go:122-128 | a ring of a fixed size never gets a stuck round from a post, and a report only leaves one where a round is larger than the lead has been told |
| `Scenarios.FreeloaderDropSticks` | src/internal/daemonapi/ddppacing.go:125-128 | a concrete run: at the twentieth sync of a ring of three the refit drops the third rank, and the other two's own round goes on waiting for three |
| `Closing.ArriveIsFree` | src/internal/daemonapi/ddpsync.go:267-284 | a post that finds its round waiting for the live count either closes it or leaves somebody to wait for |
| `Faults.PostTakenIff` | src/internal/daemonapi/ddpsync.go:56-137 | a post is taken exactly when it is well-formed, the ring has not stopped, its rank has not missed the start it comes for, and its round is of its ring's size or can be begun: a positive count, a width, and segments that add up; else it changes nothing |
| `Faults.PostIsJudged` | src/internal/daemonapi/ddpsync.go:226-284 | a post to an undecided round fails the round and the run exactly when it brings a model other than the first one given, or sends another kind, or its payload does not fit, in that order, and never when it agrees and fits; else it is in, for exactly its ranks and at its samples' weight, if none of them was |
| `Faults.RanksAgree` | src/internal/daemonapi/ddpsync.go:226-238 | over every interleaving each contribution is that of a post, for exactly its ranks; those of the run's first round come with models that do not differ from the first one given in a shape, or in a type both give; and those of every round are of one kind |
| `Faults.AnyTwoAgree` | src/internal/daemonapi/ddprequest.go:149-180 | so any two contributions of the first round have the same shapes, and the same types where the first one given has a type |
| `Faults.UntypedFirstHidesTypes` | src/internal/daemonapi/ddprequest.go:149-180 | where it has none, two models of different types both agree with it |
| `Faults.FaultsHaveCauses` | src/internal/daemonapi/ddpsync.go:226-284 | over every interleaving a failed round was failed by one event: a post with another model, of another kind or with a payload that does not fit that round, or a timeout |
| `Faults.TimeOutEndsRunIff` | src/internal/daemonapi/ddpsync.go:557-574 | a timeout on a round somebody is in ends the run exactly when the round is not the run's first, is not held, waits for more than one rank, and has in it the asking rank and exactly one rank the ring still has; else it closes the round with a result and stops nothing |
| `Faults.CompanyGoesOn` | src/internal/daemonapi/ddpsync.go:557-574 | while the asking rank is one of the ring's, a timeout never ends the run of a round that another such rank is in |
| `Scenarios.DownedAskerEndsRun` | src/internal/daemonapi/ddpsync.go:557-574 | a concrete run: a machine of ranks 1 and 2 waits in a ring of three, rank 1 is reported down, and the timeout of the machine's handler, which asks for rank 1, ends the run although ranks 0 and 2 are there |
| `Headcounts.SaysHowMany` | src/internal/daemonapi/ddpsync.go:352-360 | over every interleaving, the number of ranks an answer gives is that of the ranks its result averages exactly when: the whole ring was in the round, dropped ranks and all, if a post closed it; each contribution stood for one rank, if its own timeout did; always, if a down report or a missed start did |
| `Scenarios.MachineCountsOnce` | src/internal/daemonapi/ddpsync.go:570-573 | a concrete run: a machine of two ranks is closed in short by its timeout, and the answer says one rank where the result averages two |
| `Feedback.NothingIsLost` | src/internal/daemonapi/ddpboard.go:309-332 | over every interleaving, per residual key, what all int8 replies sent plus the residual kept equals the exact means they stood for |
| `Feedback.BookedKeeps` | src/internal/daemonapi/ddpboard.go:309-332 | one round closed under a key keeps every key's account, its own and the others |
| `Feedback.ErrorStaysOneRound` | src/internal/daemonapi/ddpboard.go:309-332 | over every interleaving, per residual key and element, all that was sent is within 1/254 of one round's segment peak of all that was meant, however many rounds there have been: the peak of the round that left the kept residual |
| `Reduce.FeedbackRound` | src/internal/daemonapi/ddpreduce.go:266-319 | one int8 reply plus the residual it leaves is the mean plus the residual it took, and no value leaves -127..127 |
| `Reduce.FeedbackBound` | src/internal/daemonapi/ddpreduce.go:294-317 | each element's residual is at most its own segment's peak/254, so the clamp never alters a value |
| `Reduce.FeedbackTelescopes` | src/internal/daemonapi/ddpreduce.go:261-319 | over any number of rounds on one residual the decoded replies plus the last residual are the means plus the first |
| `Reduce.FeedbackErrorBound` | src/internal/daemonapi/ddpreduce.go:261-319 | after any number of rounds the cumulative error in each element is at most 1/254 of the peak of its own segment in the last round's target |
| `Reduce.LevelIsNearest` | src/internal/daemonapi/ddpreduce.go:302-311 | a value within the peak is rounded to its nearest level, unclamped, and off by at most peak/254 |
| `Reduce.SegmentOf` | src/internal/daemonapi/ddpreduce.go:294-317 | every element's step is that of the segment it lies in |
| `Reduce.AddHolds` | src/internal/daemonapi/ddpreduce.go:131-220 | an accepted contribution joins the weighted sum, the weight, the count and the sum of squares as one more part |
| `Reduce.RefusedLeavesSumIff` | src/internal/daemonapi/ddpreduce.go:145-157 | a refused contribution leaves the accumulator alone exactly when it weighs nothing or every value before its first bad scale is zero: segments before the bad one have been added by then |
| `Reduce.SampleWeight` | src/internal/daemonapi/ddpreduce.go:164-179 | weights are never negative and are zero for pads and only for pads |
| `Reduce.SamplesAdd` | src/internal/daemonapi/ddpreduce.go:164-179 | contributions weigh by their samples, and one that reports none like one of one sample |
| `Reduce.FitsIff` | src/internal/daemonapi/ddpreduce.go:131-146 | a payload fits as many numbers as the round has, or as many bytes with a positive scale for each segment |
| `Reduce.ValueAt` | src/internal/daemonapi/ddpreduce.go:147-157 | a number stands for itself, and a byte for itself times the scale of the segment it lies in |
| `Reduce.DriftSound` | src/internal/daemonapi/ddpreduce.go:222-254 | the streamed drift is the weighted spread around the mean over the mean's square, capped; it is never negative, and zero exactly when all contributions of positive weight are the mean |
| `Reduce.StreamedSpread` | src/internal/daemonapi/ddpreduce.go:244-246 | sumSq/W - ||m||^2 is sum(w_i*||x_i - m||^2)/W |
| `Reduce.AgreementIsTheMean` | src/internal/daemonapi/ddpreduce.go:226-231 | if all positively weighted contributions agree, each is the mean |
| `Reduce.WithSegments` | src/internal/daemonapi/ddpreduce.go:105-118 | declared segment lengths are accepted exactly when all are positive and they add up to what was declared |
| `Accumulating.Accumulator.DeclareSegments` | src/internal/daemonapi/ddpreduce.go:105-118 | segments are taken exactly when all lengths are positive and total the payload |
| `Accumulating.Accumulator.AddSegmented` | src/internal/daemonapi/ddpreduce.go:131-162 | the in-place loops do to the accumulator what Reduce.Add says, on acceptance and on every refusal |
| `Accumulating.Accumulator.AddFlat` | src/internal/daemonapi/ddpreduce.go:181-220 | the flat form: one scale, every width |
| `Accumulating.Accumulator.Drift` | src/internal/daemonapi/ddpreduce.go:231-254 | the drift computed from the sums is the specified one, absent for fewer than two contributions or no weight |
| `Accumulating.Accumulator.TakeMean` | src/internal/daemonapi/ddpreduce.go:266-319 | the reply and the residual left in the caller's array are those of Reduce.MeanResidual |
| `Local.TwoLevelMean` | src/internal/daemonapi/ddplocal.go:129-162 | for any grouping of ranks onto machines the lead's mean over machine means is the mean over all ranks posting directly, vectors of any length |
| `Local.MeanStands` | src/internal/daemonapi/ddplocal.go:148-156 | a machine's mean at its ranks' total weight stands for all of them, weightless when all of them pad |
| `Local.TwoLevelDrift` | src/internal/daemonapi/ddplocal.go:148-162 | after machine-local combining the drift is never larger than the flat ring's |
| `Local.WholeWeight` | src/internal/daemonapi/ddplocal.go:153-156 | a machine's total weight is a whole number, so rounding it to a sample count loses nothing |
| `Local.RefusedPayloadSpoils` | src/internal/daemonapi/ddpreduce.go:145-157 | a concrete refused payload and what it leaves in the machine's sum |
| `Local.SpoiledMeanIff` | src/internal/daemonapi/ddplocal.go:148-156 | a machine forwards its accepted ranks' mean exactly when they weigh nothing or its refused payloads left nothing in the sum |
| `Local.ForwardSpoiled` | src/internal/daemonapi/ddplocal.go:67-162 | a machine round carried through: one payload refused, one accepted, and the forward is [11, 1] where the accepted rank sent [1, 1] |
| `TwoLevel.ForwardIsFolded` | src/internal/daemonapi/ddplocal.go:139-156 | the forward as a post at the lead is folded in as one contribution that stands for all of the machine's ranks |
| `TwoLevel.Int8ForwardIsFolded` | src/internal/daemonapi/ddplocal.go:139-160 | an int8 forward is folded in as what its machine sent: the mean, plus the rounding error kept before, less the one kept now |
| `TwoLevel.ClosesOnAllRanks` | src/internal/daemonapi/ddplocal.go:129-162 | over every interleaving a round of forwards and direct posts closes on the mean over all the ranks they stand for |
| `TwoLevel.PartsArePosted` | src/internal/daemonapi/ddpsync.go:233-266 | over every interleaving every contribution in a round is that of a post of the run |
| `TwoLevel.RoundsOfForwards` | src/internal/daemonapi/ddplocal.go:129-162 | in a run whose posts are all machines' forwards or ranks' own, at exact widths, every round with a result closed on the mean over all the ranks behind its posts |
| `TwoLevel.DirectStandsForItself` | src/internal/daemonapi/ddpsync.go:233-266 | a direct post is folded in as a contribution that stands for itself |
| `Local.LocalRound.Arrive` | src/internal/daemonapi/ddplocal.go:67-91 | a rank is folded in once and only before the forward; a refusal changes nothing but the sum, by the values before its first bad scale; the post that completes the machine starts the one forward |
| `Local.LocalRound.GiveUpWaiting` | src/internal/daemonapi/ddplocal.go:112-121 | the local timeout starts the forward once, with whoever is in |
| `Local.LocalRound.TakeForward` | src/internal/daemonapi/ddplocal.go:134-162 | the forward carries every member, their total samples or -1 when all padded, and their mean, off by exactly what refused payloads left in the sum |
| `Notes.GivenOnce` | src/internal/daemonapi/ddpdown.go:136-151 | over every interleaving a rank is given a note at most once, on a lead answer from the note's first sync on, and it is the note in force |
| `Notes.TakenTogether` | src/internal/daemonapi/ddpsync.go:172-184 | every rank that skips no sync takes a note with its answer to the very sync the note starts at, whatever else is published |
| `Notes.ReachesEveryone` | src/internal/daemonapi/ddpsync.go:361-371 | until a newer note replaces it, the note in force has reached every rank answered from its start on, a joiner that has loaded the ring since apart |
| `Notes.ToldMeansGiven` | src/internal/daemonapi/ddpup.go:282-294 | a rank marked as told was given the note in force with an answer of its own, or has loaded the ring since the note was made |
| `Notes.LostOnlyWithTheRing` | src/internal/daemonapi/ddpsync.go:372-382 | an answer that aborts, with whose note a rank can do nothing, is given only once the run has been stopped |
| `Notes.ToldKeeps` | src/internal/daemonapi/ddpsync.go:361-371 | one reply keeps all that holds of the notes, contributor by contributor |
| `Notes.NewsKeeps` | src/internal/daemonapi/ddpdown.go:136-140 | publishing keeps all that holds of the notes: a new note starts after every sync answered so far |
| `Telling.StepTells` | src/internal/daemonapi/ddpdown.go:94-102 | from any state a run can reach: what an event publishes tells the ring what it did, with the shares then in force, one per rank of the ring, and the rank joining and the one handing over exactly while no snapshot has come; an event that publishes nothing has moved no share and dropped nobody of the ring, a refit during a join apart |
| `Telling.EveryNoteTells` | src/internal/daemonapi/ddpdown.go:136-166 | over every interleaving every note a rank is given was published by one event of the run and tells what that event did, with the shares the ring had just after it |
| `Telling.DownTells` | src/internal/daemonapi/ddpdown.go:68-99 | a fresh down report of a member: its report goes and no other, its share moves to the ranks left in the proportions they had (all of the data unless none of them had any), its join ends or passes to the lowest live rank, and the note names it; any other report says nothing |
| `Telling.JoinTells` | src/internal/daemonapi/ddpup.go:114-127 | an admission: everybody else gives up the same part, the newcomer gets what the holders of shares have on average, the lowest live rank is to hand over, and the note names the joiner |
| `Telling.MissedTells` | src/internal/daemonapi/ddpboard.go:367-393 | a closed first round: exactly the ranks not in it are dropped, the shares are proper for the others, and one note names the first of them |
| `Telling.PostTells` | src/internal/daemonapi/ddpsync.go:160-184 | a post publishes what the refit it brought did, from that very sync on: all the data to one rank, the new shares, the rank dropped, or the interval; what a refit did goes untold only while a join is open |
| `Decisions.PostDecides` | src/internal/daemonapi/ddppacing.go:108-142 | a post publishes, from its sync on, just what the reports call for at every twentieth sync: rare syncs if they pay, one rank alone if that pays, both with nobody on the way in, else a freeloader dropped, else shares in proportion; a ring the user fixed lets nobody go; and nothing while a join is open |
| `Decisions.PostIsHeard` | src/internal/daemonapi/ddpsync.go:154-214 | a lead's post is taken at its word whatever it decides: sharded and fixed stay, the interval and the mode are the last given, and each live rank's report is the last one given that measured a step |
| `Handovers.StepHandsOver` | src/internal/daemonapi/ddpup.go:74-127 | every event, from any state: whether a rank is admitted, and what becomes of the join: its first snapshot kept and the joiner woken, over once the joiner has all of it, loading until its first sync, ended or passed on by a death; nothing else touches it |
| `Handovers.HeldIff` | src/internal/daemonapi/ddpsync.go:489-527 | a handler's look marks the round under its key as held exactly when it is undecided and a rank of it is kept away by a join |
| `Joining.JoinsAlwaysFit` | src/internal/daemonapi/ddpup.go:74-180 | over every interleaving: indices only go up and are never reused, skipped ones are dropped, a joiner is ready exactly when its snapshot is there, every joiner is woken exactly once, by its snapshot or by the end of its join, and the rank handing over is always the lowest the old ring still has, or -1 |
| `Joining.PostKeepsHandover` | src/internal/daemonapi/ddppacing.go:125-128 | a post never loses the handover: a freeloader dropped during a join is never the rank handing over, which is rank 0 then |
| `Joining.OneSnapshot` | src/internal/daemonapi/ddpup.go:212-224 | over every interleaving a join seen again later is the same join with the same snapshot, so one is accepted at most once |
| `Joining.WantedMeansWaiting` | src/internal/daemonapi/ddpup.go:212-224 | over every interleaving a snapshot is accepted only for the rank admitted last and only while it has not been woken, so closing its channel cannot fail |
| `Joining.JoinsLater` | src/internal/daemonapi/ddpup.go:161-180 | between two admissions a join keeps its ranks and its snapshot, and once over does not come back |
| `Joining.NothingDecidedDuringJoin` | src/internal/daemonapi/ddppacing.go:108-142 | while a rank that has not reported is joining, the refit decides nothing: no shares, no drop, no release, no switch |
| `Joining.DecidedDuringJoinIff` | src/internal/daemonapi/ddppacing.go:108-142 | while a join is open a refit moves the ring exactly when it is due, every rank up to the joiner has reported, and its plan is a refit or a drop the ring allows; nothing is ever released or switched |
| `Joining.PostMovesDuringJoinIff` | src/internal/daemonapi/ddpsync.go:172-184 | a post during a join changes shares or drops a rank exactly when it is taken and brings such a refit, and then no note is published |
| `Scenarios.SharesMoveUntold` | src/internal/daemonapi/ddpup.go:277-294 | a concrete run: a joiner posts before the lead has closed its join, and the next refit changes the shares with nobody told |
| `Joining.SharesHeldDuringJoin` | src/internal/daemonapi/ddpup.go:282-294 | while a join is open the shares change only at a death, or at a post that brings such a refit |
| `Joining.GrowsOnlyBy` | src/internal/daemonapi/ddpup.go:114-124 | once it has a size, the ring grows only by the joiner it admits or to the larger size a lead post names |
| `Joining.PostGrowsIff` | src/internal/daemonapi/ddpsync.go:156-158 | a post grows the ring exactly when it is taken, carries the ring's control and names a larger ring, and then to that size |
| `Scenarios.PostGrowsTheRing` | src/internal/daemonapi/ddpsync.go:156-158 | a concrete run in which a post makes a ring of two a ring of three |
| `Joining.WithoutFits` | src/internal/daemonapi/ddpdown.go:84-96 | a rank going down ends the join it was for, or hands the handover to the lowest rank left |
| `Sharing.SharesStayFairIff` | src/internal/daemonapi/ddpdown.go:73-82 | over every interleaving shares are non-negative, dropped ranks hold none and the total is 1 or nobody holds any, exactly when no refit releases the run to a dropped rank, drops a rank whose share is positive or counts on a dropped rank's report, and no joiner is admitted on an index reported down |
| `Sharing.DeadStaySilentIff` | src/internal/daemonapi/ddpboard.go:260-267 | over every interleaving no dropped rank's report is ever left for a refit exactly when no refit drops a freeloader |
| `Sharing.SilentDeadGetNothing` | src/internal/daemonapi/ddprebalance.go:58-122 | while no dropped rank's report is left, a refit gives a dropped rank nothing, and leaves it something only by dropping it |
| `Unfair.FreeloaderIsShared` | src/internal/daemonapi/ddppacing.go:122-136 | a concrete run: a freeloader dropped at the twentieth sync is given a share by the refit at the fortieth |
| `Unfair.DeadIndexIsShared` | src/internal/daemonapi/ddpup.go:79-118 | a concrete run: a joiner admitted on an index reported down is given a share while the ring counts it as dropped |
| `Sharing.RefitProperIff` | src/internal/daemonapi/ddprebalance.go:58-122 | a refit's shares are proper exactly when no rank below the size is dropped |
| `Sharing.RebalanceFairIff` | src/internal/daemonapi/ddppacing.go:108-142 | a refit leaves proper shares proper exactly when it does none of that |
| `Sharing.RebalanceSilentIff` | src/internal/daemonapi/ddppacing.go:122-128 | a refit leaves a dropped rank's report exactly when it drops a freeloader, which a fixed ring never does |
| `Sharing.ReleaseFairIff` | src/internal/daemonapi/ddprebalance.go:305-313 | a release is proper exactly when the rank that gets all of the data has not been dropped |
| `Shares.WithoutProper` | src/internal/daemonapi/ddpdown.go:168-185 | a down leaves proper shares from any shares, all of the data unless no survivor held any |
| `Shares.WithoutKeepsRatios` | src/internal/daemonapi/ddpdown.go:168-185 | a down keeps the survivors' ratios |
| `Shares.WithProperIff` | src/internal/daemonapi/ddpup.go:130-158 | a join's shares total 1, and are proper exactly when the joiner's index has not been dropped |
| `Shares.WithKeepsRatios` | src/internal/daemonapi/ddpup.go:130-158 | a join keeps the survivors' ratios |
| `Shares.NewcomerTakesAverage` | src/internal/daemonapi/ddpup.go:130-158 | the joiner takes an average live rank's share and holes get nothing |
| `Shares.ComputeWithout` | src/internal/daemonapi/ddpdown.go:168-185 | the loops compute SharesWithout |
| `Shares.ComputeWith` | src/internal/daemonapi/ddpup.go:133-158 | the loops compute SharesWith |
| `Rebalance.ProportionalIsBest` | src/internal/daemonapi/ddprebalance.go:97-121 | over all shares that total 1, those proportional to the measured rates give the least slowest-rank time |
| `Rebalance.SlowestDecides` | src/internal/daemonapi/ddprebalance.go:137-182 | testing only the slowest rank is complete: a rank is dropped exactly when, for some rank, the step without it, the others doing its samples and the sync going one hop less, is shorter than with it; unless the slowest is rank 0 |
| `Rebalance.EqualRanksNeverDrop` | src/internal/daemonapi/ddprebalance.go:147-157 | a ring of three equal ranks where dropping one would pay, and none is dropped because the slowest found is rank 0 |
| `Refits.PlanIs` | src/internal/daemonapi/ddprebalance.go:63-122 | from any reports: nothing until every rank and nobody else has reported; a rank is dropped exactly when it is the first slowest, not rank 0, and samples/(total - slow) + sync*(n-2)/(n-1) < samples/total + sync, with rates samples*1000/step and sync the mean of the positive ones in seconds; else shares in proportion to the rates, exactly when one is off by 0.1 |
| `Refits.SlowThirdIsKept` | src/internal/daemonapi/ddprebalance.go:131-136 | three ranks, the last at half the samples: kept at 40 ms a sync, which dropping it would not pay for, and dropped at 60 |
| `Refits.AlonePaysIff` | src/internal/daemonapi/ddprebalance.go:199-223 | one rank alone is on offer exactly when every live rank has reported and, for some rank, 1.1 times the whole step's samples at its pace is less than every rank's step with its share of the sync; the rank offered is such a one |
| `Refits.SpacingPaysIff` | src/internal/daemonapi/ddprebalance.go:240-266 | DiLoCo is taken exactly when up to four ranks are live, all have reported, and some rank's step with a sync every 32, 16 or 4 beats every rank's step as it is, and the fastest alone where that is on offer, by a tenth |
| `Rebalance.RefitIsPositive` | src/internal/daemonapi/ddprebalance.go:97-121 | a refit gives every rank a positive share, 1 in all, and needs a report from each |
| `Rebalance.SwitchLengthensInterval` | src/internal/daemonapi/ddprebalance.go:249-266 | a switch to DiLoCo lengthens the interval in force, and beats the split and the solo time on offer by the margin |
| `Rebalance.ReleaseBeatsSplit` | src/internal/daemonapi/ddprebalance.go:189-223 | a release names a rank of maximal rate whose predicted time alone beats every rank's split step by the margin |
| `Rebalance.ComputeRebalance` | src/internal/daemonapi/ddprebalance.go:63-122 | the loops compute PlanRebalance, which is pinned from the reports by Refits.PlanIs |
| `Rebalance.ComputeFreeloader` | src/internal/daemonapi/ddprebalance.go:140-182 | the loop finds the first slowest rank and compares what dropping it adds and saves; when it drops it is Rebalance.SlowestDecides |
| `Rebalance.ComputeSolo` | src/internal/daemonapi/ddprebalance.go:199-223 | the loop finds a rank of maximal rate, the predicted solo time and the least split step, or no verdict, in any order of the reports |
| `Rebalance.ComputeDiLoCo` | src/internal/daemonapi/ddprebalance.go:256-266 | the loop finds the least DiLoCo step and whether it beats split and solo |
| `RunStates.RunState.CountDropsBelow` | src/internal/daemonapi/ddpboard.go:147-159 | the loop counts the dropped ranks below a size |
| `RunStates.RunState.CountLiveIn` | src/internal/daemonapi/ddpboard.go:239-248 | the loop counts the ranks present that are not dropped |
| `RunStates.RunState.FindLowestLive` | src/internal/daemonapi/ddpup.go:160-168 | the first rank below n not dropped, or -1 |
| `RunStates.RunState.PublishNote` | src/internal/daemonapi/ddpdown.go:136-140 | a note replaces the one before and nobody has been told |
| `RunStates.RunState.NoteFor` | src/internal/daemonapi/ddpdown.go:144-151 | the note, once, to a rank not told yet and not before its sync |
| `RunStates.RunState.ObserveReports` | src/internal/daemonapi/ddpsync.go:188-214 | reports are taken down in order, none from a dropped rank or without a step time |
| `RunStates.RunState.HearLead` | src/internal/daemonapi/ddpsync.go:154-184 | the lead's part of a post: size, modes, the joiner's first sync, and once per sync the refit with its note |
| `RunStates.RunState.DecideRebalance` | src/internal/daemonapi/ddppacing.go:108-142 | the cadence, the mode switch, the freeloader drop and the refit, with their effect on the run |
| `RunStates.RunState.DecideSolo` | src/internal/daemonapi/ddprebalance.go:279-314 | DiLoCo, one rank alone, or nothing; never during a join and a release never twice |
| `RunStates.RunState.LeaveRing` | src/internal/daemonapi/ddpdown.go:68-96 | a member found down: its report gone, the shares renormalised, its join ended or handed on |
| `RunStates.RunState.DropJoin` | src/internal/daemonapi/ddpup.go:170-180 | the join is over and its joiner woken, unless its snapshot has done so |
| `RunStates.RunState.MayJoin` | src/internal/daemonapi/ddpup.go:79-109 | exactly the admission conditions, in order |
| `RunStates.RunState.AdmitRank` | src/internal/daemonapi/ddpup.go:114-127 | the ring grows, the shares make room, and the join is announced; what the ring is told is Telling.StepTells, what becomes of the join Handovers.StepHandsOver |
| `RunStates.RunState.PutSnapshot` | src/internal/daemonapi/ddpup.go:212-224 | taken for the joining rank once, and refused otherwise |
| `RunStates.RunState.FinishJoin` | src/internal/daemonapi/ddpup.go:282-294 | the join ends only if it is the one whose snapshot was sent |
| `Entries.Entry.constructor` | src/internal/daemonapi/ddpsync.go:103-139 | a new round of the request's size, kind and segments, with nothing in it |
| `Entries.Entry.Check` | src/internal/daemonapi/ddpsync.go:226-238 | model and kind mismatches are found before anything is folded in; what they are is Faults.PostIsJudged |
| `Entries.Entry.Fold` | src/internal/daemonapi/ddpsync.go:233-266 | fold once, mark the ranks only on success |
| `Entries.Entry.Finish` | src/internal/daemonapi/ddpboard.go:309-332 | the result from the accumulator, which goes; an int8 round exchanges its residual |
| `Entries.Entry.Arrive` | src/internal/daemonapi/ddpsync.go:215-284 | a post at its round, from any state of it |
| `Entries.Entry.Settle` | src/internal/daemonapi/ddpdown.go:109-130 | a round after a rank went down |
| `Entries.Entry.Shut` | src/internal/daemonapi/ddpsync.go:551-578 | a round closed short, or the run ended when every other rank is silent; exactly when is Faults.TimeOutEndsRunIff |
| `Board.SyncBoard.Accept` | src/internal/daemonapi/ddpsync.go:87-286 | the whole locked part of a post is Protocol.Post: every refusal, the round found or made, the lead's part, the contribution |
| `Board.SyncBoard.AnswerHandler` | src/internal/daemonapi/ddpsync.go:334-391 | the whole locked part of a reply is Protocol.Serve; the note returned is the one in force, exactly when one of the handler's ranks was due it |
| `Board.SyncBoard.MarkRankDown` | src/internal/daemonapi/ddpdown.go:51-132 | the loop over the map, in whatever order, is Protocol.MarkDown along an enumeration of the keys; what it does to the ring and says of it is Telling.DownTells |
| `Board.SyncBoard.DropMissedStart` | src/internal/daemonapi/ddpboard.go:367-393 | the start barrier's loop is Protocol.DropMissed |
| `Board.SyncBoard.CompletePartial` | src/internal/daemonapi/ddpsync.go:543-583 | the partial timeout is Protocol.Expire, and says whether there is an answer; when it ends the run is Faults.TimeOutEndsRunIff |
| `Board.SyncBoard.HandoverHolds` | src/internal/daemonapi/ddpsync.go:489-527 | a handler waits on exactly while a handover keeps a rank of its undecided round busy and the hold has not run out; the round is marked either way |
| `Board.SyncBoard.HandleSync` | src/internal/daemonapi/ddpsync.go:41-286 | a post is one event of the board's run |
| `Board.SyncBoard.HandleJoin` | src/internal/daemonapi/ddpup.go:74-128 | admits, vets or refuses; one event of the board's run |
| `Board.SyncBoard.HandleDown` | src/internal/daemonapi/ddpdown.go:28-48 | refuses impossible reports; otherwise one event of the board's run |
| `Board.SyncBoard.EveryBoardIsSafe` | src/internal/daemonapi/ddpboard.go:105-122 | every board reached through its methods, in any order, has safe rounds, fitting answers, informed ranks and joiners woken once |
| `Supervisor.AwaitRanks` | src/ddpdown.go:102-263 | the event loop computes HearAll and returns its verdict, once no rank is running; which verdict is Endings.VerdictIs |
| `Supervisor.SuccessIff` | src/ddpdown.go:241-262 | a run the user does not cancel succeeds exactly when some rank finished and no failure ended the run: none, while none had, of a rank the ring started with that was stopped (76), failed for good or led the ring, those that missed the start (75), were released (77) or were told to stop apart |
| `Supervisor.FatalIsHeard` | src/ddpdown.go:119-136 | the fatal failure is the one such failure of the script, and a script has at most one |
| `Endings.VerdictIs` | src/ddpdown.go:102-262 | read off an orderly script without a cancel: Success exactly when a rank finished and no failure hurt; Fatal exactly for the first that hurt, if it was the first that counted or a rank finished; Lost for the first that counted otherwise; NobodyFinished when none did. A failure hurts when it is of a rank the ring started with, not 75 or 77 nor of a rank told its time is up, and of rank 0, or 76, or permanent |
| `Endings.OneVerdictFits` | src/ddpdown.go:241-262 | so no script has two verdicts |
| `Endings.WatchActs` | src/ddpdown.go:119-168 | before the end: once a failure has hurt every rank still going has been told to stop; nobody is told before that or before their time is up; and the ring is told of exactly the ranks whose failure counted, hurt nobody and left others going |
| `Supervisor.FailureIsContained` | src/ddpdown.go:91-101 | running is ranks started or announced less those ended; once the run has failed, by a rank it started with, every rank still going has been told to stop, later ones included |
| `Supervisor.VerdictNamesFirst` | src/ddpdown.go:244-258 | with no rank finished the verdict names the earliest failure that counted |
| `Supervisor.JoinerToldIff` | src/ddpdown.go:141-168 | unless the run fails, a rank started mid-run is told to stop exactly when it was announced before the grace ran out and had not ended by then |
| `Supervisor.LateJoinerRunsOn` | src/ddpdown.go:153-168 | once the grace has run out nobody more is told to stop unless the run fails |
| `Supervisor.LateJoinerIsMissed` | src/ddpdown.go:141-168 | a concrete script: a rank announced after the grace is still going and not told, and would have been one signal earlier |
| `Supervisor.WatchAlwaysFits` | src/ddpdown.go:137-240 | counts, joiners, refusals and cancellations agree after every orderly script |
| `Watchdog.WalkIsExact` | src/internal/cgroups/watchdog.go:184-205 | on any parent table, cyclic ones included, the worklist ends having met exactly the daemon's descendants |
| `Watchdog.WalkMeetsOnce` | src/internal/cgroups/watchdog.go:194-203 | no process is met twice and the daemon never |
| `Watchdog.TotalIsTheTrees` | src/internal/cgroups/watchdog.go:250-278 | the total is what the daemon and its descendants hold, each counted once |
| `Watchdog.VictimIsLargest` | src/internal/cgroups/watchdog.go:250-283 | the victim is a descendant, never the daemon, none holds more, and there is one exactly when the ceiling is passed and the first of the largest has a pid other than 0 |
| `Watchdog.TreeIsEnough` | src/internal/cgroups/watchdog.go:184-205 | picking from treeOf's result gives the total, the victim and the verdict of the full table, ties included |
| `Watchdog.ComputeTree` | src/internal/cgroups/watchdog.go:184-205 | the queue loops compute TreeOf |
| `Watchdog.ComputeVictim` | src/internal/cgroups/watchdog.go:252-283 | the queue loops compute PickVictim |
| `Watchdog.ClimbsFarEnough` | src/internal/cgroups/watchdog.go:207-223 | although it takes at most as many steps as there are processes, ancestorsOf finds every ancestor, in a cycle too |
| `Watchdog.ComputeAncestors` | src/internal/cgroups/watchdog.go:207-223 | the loop climbs as Climb says |
| `Watchdog.KillLog.Record` | src/internal/cgroups/watchdog.go:132-141 | the log keeps the latest 32 kills in order |
| `Watchdog.KillLog.Take` | src/internal/cgroups/watchdog.go:145-160 | the loop returns the latest kill of the job and keeps the others' in order |
| `Watchdog.ClaimIsExact` | src/internal/cgroups/watchdog.go:145-160 | a claim takes all of the job's kills and none of another's |
| `Stream.Lossless` | src/internal/daemonapi/execsupervise.go:142-171 | the messages put together are the bytes read, for every chunking |
| `Stream.MessagesAreValid` | src/internal/daemonapi/execsupervise.go:173-185 | if the whole stream is valid text (section 3 of RFC 3629) every message is, for every chunking |
| `Stream.CompleteUtf8` | src/internal/daemonapi/execsupervise.go:175-185 | at most three bytes are carried, so every read has room |
| `Stream.CutIsValid` | src/internal/daemonapi/execsupervise.go:175-185 | a beginning of valid text is cut after its last whole character |
| `Stream.FindCut` | src/internal/daemonapi/execsupervise.go:175-185 | the scan computes the cut |
| `Stream.Forward` | src/internal/daemonapi/execsupervise.go:144-166 | the loop over one buffer, with its carried tail, sends exactly Messages |
| `Float16.PayloadRoundTrip` | src/internal/daemonapi/ddpreduce.go:378-466 | decoding then encoding is the identity on payloads of any length, bit for bit |
| `Float16.RoundTrip` | src/internal/daemonapi/ddpreduce.go:378-466 | all 65536 patterns survive: zeros, subnormals, normals, infinities and NaNs |
| `Float16.EncodesNearestEven` | src/internal/daemonapi/ddpreduce.go:407-466 | every finite binary32 is encoded as the nearest binary16, ties to even, subnormals, carries and overflow to infinity included (sections 3.4 and 4.3.1 of IEEE 754-2019) |
| `Float16.DecodedValue` | src/internal/daemonapi/ddpreduce.go:381-405 | decoding a finite value is exact |
| `Float16.DecodeHalf` | src/internal/daemonapi/ddpreduce.go:381-405 | the loop that normalises a subnormal computes Decode |
| `Coordinator.LeasesAreSettled` | src/internal/coordinator/execute.go:62-100 | counted over the whole log, lease by lease: as many runs as commits, as many completions of each status as runs with that outcome, none for a job left running, and no step before the one it needs |
| `Coordinator.EachLeaseOnce` | src/internal/coordinator/execute.go:62-100 | when no lease is granted twice, a committed lease has one run and one completion of its outcome's status, none if its job was left running; one not committed has neither |
| `Coordinator.RetriesAreBounded` | src/internal/coordinator/execute.go:104-137 | with stable node ids a node that refused the closure never runs the job again, and there are at most MaxExecAttempts more runs than nodes run on |
| `Lives.LivesEnd` | src/internal/coordinator/execute.go:100-157 | every life ends as its log says: given up exactly at the third crash that is neither a refusal, permanent nor cancelled, hopeless exactly after a permanent one, done or left running exactly with that run; and what is remembered of nodes is what the log says |
| `Lives.GoesOnIff` | src/internal/coordinator/execute.go:32-157 | before that a turn goes on exactly when the user does not quit, a node takes the job, and the run, if committed, crashed and was refused, or crashed for the first or second time and not for good; and every placed and committed turn runs the job |
| `Lives.FirstToTake` | src/internal/coordinator/place.go:118-135 | nodes are asked in order, and the first that takes the job has it, under its own lease and name |
| `Lives.FirstToPlace` | src/internal/coordinator/place.go:27-134 | looks are repeated until one places the job |
| `Lives.EachHasItsTurn` | src/internal/coordinator/find.go:157-190 | under round-robin every standing node has its turn within as many looks as there are |
| `Lives.LowestFirst` | src/internal/coordinator/find.go:157-190 | and they have it lowest id first, one a look |
| `Coordinator.PlacedUnderAnotherName` | src/internal/coordinator/find.go:60-68 | a node that refused is placed again only when it was listed under another id than it turns out to have |
| `Coordinator.AliasIsPlacedAgain` | src/internal/coordinator/place.go:144-158 | a concrete look at which that happens: tryCandidate takes the id the node answers with, the filter the one it was listed under |
| `Coordinator.StandsIff` | src/internal/coordinator/find.go:60-155 | a node stands exactly when it is listed, allowed, has not refused, has no role, is of the architecture and has the GPU, cores and video memory asked for as far as known, and has the memory; or has not, is idle, and no listed node that suits has it |
| `Coordinator.AllFitOrNoneDoes` | src/internal/coordinator/find.go:145-155 | the nodes standing all have the memory, or none has and all are idle; none stands exactly when no listed node that suits has the memory or is idle |
| `Coordinator.JudgeAll` | src/internal/coordinator/find.go:60-155 | the in-place passes give every candidate the first reason it fails, and readmit idle ones |
| `Coordinator.Dispatcher.FindNode` | src/internal/coordinator/find.go:43-155 | the exclusion, the passes and the collection in place leave exactly the standing nodes, in order |
| `Coordinator.LeastTriedFirst` | src/internal/coordinator/place.go:79-123 | the node asked first has failed least of all that may take the job, and none as little tried goes before it by score or by the GPU preference |
| `Coordinator.SortIsStable` | src/internal/coordinator/place.go:94-116 | nodes of one key keep their order |
| `Coordinator.Dispatcher.ExecuteWithRetry` | src/internal/coordinator/execute.go:32-157 | the retry loop computes the specified life on every script of answers, failures and cancels; each branch completes its own lease, and the log is settled at every turn |
| `Coordinator.Dispatcher.PlaceWithRetry` | src/internal/coordinator/place.go:27-135 | the first look with a taker, and its first taker in order |
| `Coordinator.Backoff` | src/internal/coordinator/execute.go:209-225 | the wait, in nanoseconds, is the base doubled once per further failure, and at most two minutes |

## Left out

- Several runs on one board: one group is modelled. `markRankDownLocked` selects a group's rounds by the prefix `group + "/"`, so a group whose name continues another's with a slash would be swept along with it.
- Protocol.Fault: faults are kinds, not the texts a rank is shown.
- Wall-clock time: the partial, hard, hold, grace and start timers may fire at any time; `sweep`, which forgets old rounds and runs, is not modelled.
- Blackboard modes (JSON and frames), duplicate-work fingerprints, `pacedBy`, the step times and the agreed interval in a reply, and the drift it quotes (Reduce.DriftSound is about the accumulator).
- Entries.Entry.Fold: the round's accumulator is a value here; the loops that update it in place are Accumulating.Accumulator's, proved equal to the same function.
- RunStates.RunState.FinishJoin: the source compares joins by identity; here each join has a number.
- Reduce.Add: float64 sums are exact reals, so rounding, infinities and NaNs in a payload are not modelled; payloads arrive decoded, and a payload of the wrong length in bytes is one of the wrong length in values.
- Reduce.DriftSquared: the drift is squared, there being no square root in exact arithmetic; the cap is squared with it.
- Float16.PayloadRoundTrip: the payload is a sequence of 16-bit patterns; the byte order they are read in is not modelled.
- Notes.TakenTogether: that ranks skip no sync is the shim's doing and is taken as a premise.
- Scenarios.FreeloaderDropSticks: a round left so is closed by its own timeout, which may come at any time here.
- TwoLevel.RoundsOfForwards: for the exact widths; an int8 forward carries its machine's mean within the machine's own error feedback (TwoLevel.Int8ForwardIsFolded).
- Local.LocalRound.TakeForward: the forward's post to the lead and the copying of the lead's bytes back are calls; the header fields merged from later arrivals (interval, sharded, fixed) are left out.
- Supervisor.AwaitRanks: what is printed and the texts of errors; a rank's index in `stop` and whether it can be told to stop are one set.
- Coordinator.Dispatcher.PlaceWithRetry: discovery, merging of sources, score weights, `neverFits` and the health endpoint's load figures; what a node lists and answers is a script.
- Watchdog.KillLog.Record: reading process memory, the ceiling's sources and the kill itself.
- HTTP, JSON, headers, logging, the Python shim, containers, networks and the command line.
