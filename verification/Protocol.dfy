/** The lead daemon's sync board for one training run, as a state machine: every step is what one handler does while it
    holds the board's lock. Timers are events that may come at any time. */
module Protocol {
  import opened Wrappers
  import opened Vectors
  import opened Reduce
  import opened Messages
  import opened Shares
  import opened Rebalance

  // ---- state ----

  /** Why a ring cannot go on. */
  datatype Fault = ModelsDiffer | KindsDiffer | BadPayload | PeersGone

  /** What a note tells a rank. Notes about the ring carry the shares, which give its size, and the join in progress. */
  datatype Note =
    | RingNote(shares: Vec, join: Option<(nat, int)>, event: RingEvent)
    | RefitNote(refitted: Vec)
    | DropNote(drop: nat)
    | DiLoCoNote(every: int)

  datatype RingEvent = Down(rank: nat) | MissedStart(first: nat) | Joining(joiner: nat) | Release(keep: nat)

  datatype Join = Join(id: nat, rank: nat, from: int, oldWorld: nat, snap: Option<seq<int>>, ready: bool)

  datatype ResidualKey = ResidualKey(kind: string, n: nat, shard: int)

  /** The ring as the lead knows it: its size, who is gone, the shares in force and the ranks' last reports. */
  datatype Ring = Ring(world: nat, dropped: set<nat>, weights: Vec, reports: Reports)

  /** A note and the first sync whose answers carry it. */
  datatype Notice = Notice(start: int, note: Note)

  /** The note in force and who has it. published and excused are history: every note so far, and the joiners that count
      as told without an answer. */
  datatype News = News(note: Option<Note>, noteSeq: int, told: set<nat>, published: seq<Notice>, excused: set<nat>)

  /** A joiner and the size of the ring it joined. */
  datatype Admitted = Admitted(rank: nat, oldWorld: nat)

  /** The join in progress and the joiner still loading. admitted and woken are history: every joiner so far, in order, and
      every join whose waiting joiner has been woken. */
  datatype Joins = Joins(join: Option<Join>, loading: Option<Join>, admitted: seq<Admitted>, woken: seq<nat>)

  /** What the ranks said about the run and what was decided for it. */
  datatype Mode = Mode(sharded: bool, fixed: bool, released: bool, autoSync: bool, diloco: bool, syncEvery: int)

  /** The int8 replies' rounding errors, carried from one round to the next. */
  type Residuals = map<ResidualKey, Vec>

  /** What the lead keeps of one training run. */
  datatype Run = Run(ring: Ring, news: News, joins: Joins, mode: Mode, residual: Residuals, round: nat, lastSeq: int,
                     aborted: Option<Fault>)

  datatype Key = Key(seqNo: int, shard: int)

  /** How a round was decided. */
  datatype Closing = Open | Full | Short | Failed

  /** One sync round. parts, posts and closed are history: what was folded in, the posts that brought it, and the accumulator and
      residual it closed on. */
  datatype Round = Round(
    key: Key, world: nat, opening: bool, kind: string, acc: Option<Acc>, result: Option<Reply>, err: Option<Fault>,
    seen: set<nat>, fetched: set<nat>, done: bool, expected: int, partial: nat, held: bool, manifest: Option<Manifest>,
    parts: seq<Part>, posts: seq<Request>, closed: Option<(Acc, Vec)>, closing: Closing)

  /** A handler waits until its round is done, is woken by its own timeout once there is an answer under its key, or has
      left, with an answer or without. */
  datatype Wait = Waiting | Woken | Left

  /** A request whose handler has been admitted to a round. */
  datatype Ticket = Ticket(round: nat, key: Key, who: seq<nat>, rank: nat, lead: bool, wait: Wait)

  datatype Outcome = Payload(result: Option<Reply>) | Abort(why: Fault)

  /** One rank's answer: the round it was served from and, when it was this rank's turn, the run's note. */
  datatype Answer = Answer(rank: nat, seqNo: int, lead: bool, round: nat, outcome: Outcome, pub: nat, note: Option<Note>)

  /** rounds holds every round object ever made; open is the board's map from keys to the current ones. */
  datatype State = State(run: Run, rounds: seq<Round>, open: map<Key, nat>, tickets: seq<Ticket>, answers: seq<Answer>)

  function NewRun(): Run {
    Run(Ring(0, {}, [], map[]), News(None, 0, {}, [], {}), Joins(None, None, [], []),
        Mode(false, false, false, false, false, 0), map[], 0, 0, None)
  }

  function Start(): (s: State)
    ensures Sound(s)
  {
    State(NewRun(), [], map[], [], [])
  }

  ghost predicate Decided(r: Round) {
    r.result.Some? || r.err.Some?
  }

  /** What every function below needs to be well defined. */
  ghost predicate SoundRound(r: Round) {
    && (r.acc.Some? ==> Closable(r.acc.value))
    && (r.acc.None? ==> Decided(r))
  }

  ghost predicate SoundRun(run: Run) {
    Below(run.ring) && Fitting(run.residual)
  }

  ghost predicate Below(ring: Ring) {
    forall k | k in ring.reports :: k < ring.world
  }

  ghost predicate Fitting(residual: Residuals) {
    forall k | k in residual :: |residual[k]| == k.n
  }

  ghost predicate Sound(s: State) {
    && SoundRun(s.run)
    && (forall i | 0 <= i < |s.rounds| :: SoundRound(s.rounds[i]))
    && (forall k | k in s.open :: s.open[k] < |s.rounds| && s.rounds[s.open[k]].key == k)
    && (forall i | 0 <= i < |s.tickets| :: s.tickets[i].round < |s.rounds|)
  }

  // ---- counting ranks ----

  /** The ranks of a ring of this size the run goes on without. */
  function DropsBelow(dropped: set<nat>, world: nat): nat {
    |set d | d in dropped && d < world|
  }

  function LiveIn(seen: set<nat>, dropped: set<nat>): nat {
    |seen - dropped|
  }

  /** How many contributions a round of this size waits for. */
  function Awaited(dropped: set<nat>, world: nat): int {
    var n := world - DropsBelow(dropped, world);
    if n < 1 then 1 else n
  }

  function ExpectedCount(r: Round): int {
    if 0 < r.expected <= r.world then r.expected else r.world
  }

  /** The lowest rank below n that is not dropped; -1 when all of them are. */
  function LowestLive(dropped: set<nat>, n: nat): (k: int)
    ensures -1 <= k < n
    ensures k >= 0 ==> k !in dropped && forall j | 0 <= j < k :: j in dropped
    ensures k < 0 ==> forall j | 0 <= j < n :: j in dropped
  {
    if n == 0 then -1
    else
      var k := LowestLive(dropped, n - 1);
      if k >= 0 then k else if n - 1 in dropped then -1 else n - 1
  }

  // ---- notes ----

  function Publish(run: Run, seqNo: int, note: Note): Run {
    run.(news := News(Some(note), seqNo, {}, run.news.published + [Notice(seqNo, note)], {}))
  }

  /** Whether this rank's answer to this sync carries the note. */
  predicate Due(run: Run, rank: nat, seqNo: int) {
    run.news.note.Some? && seqNo >= run.news.noteSeq && rank !in run.news.told
  }

  function RingNow(run: Run, event: RingEvent): Note {
    RingNote(run.ring.weights,
             if run.joins.join.Some? && run.joins.join.value.snap.None? then Some((run.joins.join.value.rank, run.joins.join.value.from)) else None,
             event)
  }

  // ---- closing a round ----

  function ResidualOf(r: Round): ResidualKey
    requires r.acc.Some?
  {
    ResidualKey(r.kind, |r.acc.value.sum|, r.key.shard)
  }

  /** The rounding error kept under a key, zeros before the first. */
  function Kept(residual: Residuals, k: ResidualKey): (v: Vec)
    requires Fitting(residual)
    ensures |v| == k.n
  {
    if k in residual then residual[k] else Zero(k.n)
  }

  /** finishLocked: the round's result from its accumulator, carrying the int8 reply's rounding error to the next. */
  ghost function Finish(run: Run, r: Round): (f: (Run, Round))
    requires SoundRun(run) && SoundRound(r) && r.acc.Some?
    ensures SoundRun(f.0) && SoundRound(f.1)
    ensures f.1.result.Some? && f.1.err == r.err
  {
    var a, k := r.acc.value, ResidualOf(r);
    var res := Kept(run.residual, k);
    var (reply, left) := MeanResidual(a, res);
    var run' := if a.dtype.I8? then run.(residual := run.residual[k := left]) else run;
    (run', r.(acc := None, result := Some(reply), closed := Some((a, res))))
  }

  /** abortLocked: the first fault is the run's. */
  function AbortRun(run: Run, why: Fault): Run {
    if run.aborted.Some? then run else run.(aborted := Some(why))
  }

  // ---- posting ----

  function ScalesOf(req: Request): (s: seq<real>)
    ensures |s| > 0
  {
    if req.scales == [] then [req.scale] else req.scales
  }

  predicate ValidRequest(req: Request) {
    && req.world >= 1 && 0 <= req.rank < req.world
    && (req.shards > 0 ==> 0 <= req.shard < req.shards <= req.world)
    && (forall i | 0 <= i < |req.members| :: 0 <= req.members[i].rank < req.world)
  }

  /** The ranks a contribution stands for, each with its own report. */
  function Reporters(req: Request): seq<Member> {
    if req.members == [] then [Member(req.rank, req.step, req.sync, req.samples)] else req.members
  }

  function Who(members: seq<Member>): (w: seq<nat>)
    requires forall i | 0 <= i < |members| :: members[i].rank >= 0
    ensures |w| == |members|
  {
    seq(|members|, i requires 0 <= i < |members| => members[i].rank)
  }

  function Contributors(req: Request): (w: set<nat>)
    requires ValidRequest(req)
    ensures w != {} && forall k | k in w :: k < req.world
  {
    var who := Who(Reporters(req));
    assert who[0] in who;
    assert forall k | k in who :: k < req.world by {
      forall k | k in who
        ensures k < req.world
      {
        var i :| 0 <= i < |who| && who[i] == k;
      }
    }
    var w := set k | k in who;
    assert who[0] in w;
    w
  }

  function KeyOf(req: Request): Key {
    Key(req.seqNo, if req.shard > 0 then req.shard else 0)
  }

  /** The run's first round, which is also its start barrier. */
  predicate OpensRun(req: Request) {
    req.shard == 0 && req.kind == "weights" && req.seqNo == 1
  }

  function NewRound(req: Request): (r: Option<Round>)
    requires ValidRequest(req)
    ensures r.Some? ==> SoundRound(r.value)
  {
    if req.count <= 0 || req.dtype.None? then None
    else
      var n: nat := req.count;
      var segments := if |req.counts| > 1 then WithSegments(n, req.counts) else Some([]);
      if segments.None? then None
      else
        Some(Round(KeyOf(req), req.world, OpensRun(req), req.kind, Some(NewAcc(req.dtype.value, n, segments.value)), None, None,
                   {}, {}, false, 0, 0, false, None, [], [], None, Open))
  }

  /** What a lead contribution says about its run, before any refit. */
  function LeadFields(run: Run, req: Request): (r: Run)
    requires ValidRequest(req) && SoundRun(run)
    ensures SoundRun(r)
  {
    run.(ring := run.ring.(world := if req.world > run.ring.world then req.world else run.ring.world),
         mode := run.mode.(sharded := run.mode.sharded || req.sharded,
                           fixed := run.mode.fixed || req.fixed,
                           autoSync := req.auto,
                           syncEvery := if req.syncEvery > 0 then req.syncEvery else run.mode.syncEvery),
         joins := LoadedBy(run.joins, req.rank),
         lastSeq := if req.seqNo > run.lastSeq then req.seqNo else run.lastSeq)
  }

  /** The joiner's first sync, or its death, ends its loading. */
  function LoadedBy(j: Joins, rank: int): Joins {
    if j.loading.Some? && j.loading.value.rank == rank then j.(loading := None) else j
  }

  const REBALANCE_EVERY: nat := 20

  /** What the solo and DiLoCo plans found, and which of the fastest ranks the scan met first. */
  datatype Choice = Choice(keep: nat, solo: Solo, fast: real, diloco: bool)

  function LiveCount(run: Run): int {
    run.ring.world - DropsBelow(run.ring.dropped, run.ring.world)
  }

  /** Whether the ring may be released or switched at all: not while a rank is on its way in. */
  predicate Deciding(run: Run) {
    !run.mode.released && run.joins.join.None? && run.joins.loading.None?
  }

  ghost predicate IsChoice(run: Run, c: Choice) {
    && IsSolo(run.ring.reports, LiveCount(run), run.mode.syncEvery, run.ring.world, c.solo)
    && (SoloPays(c.solo) ==> IsFastest(run.ring.reports, c.keep))
    && (run.mode.autoSync && !run.mode.diloco ==>
          match c.solo
          case Unmeasured => !c.diloco
          case Compared(solo, split) =>
            IsDiLoCo(run.ring.reports, LiveCount(run), if run.mode.fixed then None else Some(solo), split, c.fast, c.diloco))
  }

  /** The rank a release would keep is one of the ring's. */
  predicate Offered(run: Run, c: Choice) {
    Deciding(run) && SoloPays(c.solo) ==> c.keep in run.ring.reports
  }

  /** soloFor: DiLoCo, or one rank alone, or nothing. */
  function SoloFor(run: Run, c: Choice): (r: (Run, Option<Note>))
    requires SoundRun(run) && Offered(run, c)
    ensures SoundRun(r.0) && r.0.ring.world == run.ring.world
  {
    if !Deciding(run) then (run, None)
    else if run.mode.autoSync && !run.mode.diloco && c.diloco then
      (run.(mode := run.mode.(diloco := true)), Some(DiLoCoNote(DiLoCoEvery(LiveCount(run)))))
    else if run.mode.fixed || !SoloPays(c.solo) || !run.mode.sharded then (run, None)
    else
      var run' := run.(mode := run.mode.(released := true), ring := run.ring.(weights := Zero(run.ring.world)[c.keep := 1.0]));
      (run', Some(RingNow(run', Release(c.keep))))
  }

  /** Whether this sync is one the refit looks at. */
  predicate OnCadence(run: Run) {
    !run.mode.released && (run.round + 1) % REBALANCE_EVERY == 0
  }

  /** rebalanceFor: the refit's effect on the run and what to tell the ring. */
  function RebalanceFor(run: Run, c: Choice): (r: (Run, Option<Note>))
    requires SoundRun(run) && (OnCadence(run) ==> Offered(run, c))
    ensures SoundRun(r.0) && r.0.ring.world == run.ring.world
  {
    hide SoloFor, PlanRebalance, Fitting;
    var run0 := run.(round := run.round + 1);
    if !OnCadence(run) then (run0, None)
    else
      var (run1, note) := SoloFor(run0, c);
      if note.Some? then (run1, note)
      else
        match PlanRebalance(run1.ring.reports, run1.ring.weights, run1.ring.world)
        case Keep => (run1, None)
        case Drop(rank) =>
          if run1.mode.fixed || rank in run1.ring.dropped then (run1, None)
          else (run1.(ring := run1.ring.(dropped := run1.ring.dropped + {rank})), Some(DropNote(rank)))
        case Refit(shares) => (run1.(ring := run1.ring.(weights := shares)), Some(RefitNote(shares)))
  }

  predicate Advances(run: Run, req: Request) {
    req.seqNo > run.lastSeq
  }

  ghost predicate ChoiceFits(run: Run, req: Request, c: Choice)
    requires ValidRequest(req) && SoundRun(run)
  {
    req.shard == 0 && Advances(run, req) && OnCadence(run) && Deciding(LeadFields(run, req)) ==> IsChoice(LeadFields(run, req), c)
  }

  /** The lead's part of a post: once per sync the ring is looked at again, and told unless a join's note would be lost. */
  ghost function LeadPart(run: Run, req: Request, c: Choice): (r: Run)
    requires ValidRequest(req) && SoundRun(run) && ChoiceFits(run, req, c)
    ensures SoundRun(r) && (req.shard == 0 ==> r.ring.world >= req.world)
  {
    hide RebalanceFor, Fitting, IsSolo, IsDiLoCo;
    if req.shard != 0 then run
    else if !Advances(run, req) then LeadFields(run, req)
    else
      var (run1, note) := RebalanceFor(LeadFields(run, req), c);
      if note.Some? && run1.joins.join.None? then Publish(run1, req.seqNo, note.value) else run1
  }

  /** A report is taken down unless it measured nothing or its rank is dropped. */
  function Observe(ring: Ring, m: Member): Ring {
    if m.step <= 0.0 || m.samples < 0 || m.rank < 0 || m.rank in ring.dropped then ring
    else ring.(reports := ring.reports[m.rank := Report(m.step, m.sync, m.samples)])
  }

  function ObserveAll(ring: Ring, members: seq<Member>): (r: Ring)
    requires Below(ring) && forall i | 0 <= i < |members| :: members[i].rank < ring.world
    ensures Below(r) && r == ring.(reports := r.reports)
  {
    if members == [] then ring
    else Observe(ObserveAll(ring, members[..|members| - 1]), members[|members| - 1])
  }

  /** The faults found before a contribution is folded in. */
  function Checked(r: Round, req: Request): (r': Round)
    requires ValidRequest(req)
    ensures r' == r.(manifest := r'.manifest, err := r'.err)
  {
    var r1 :=
      if req.manifest.Some? && r.opening && req.rank !in r.seen then
        if r.manifest.None? then r.(manifest := req.manifest)
        else if !SameModel(r.manifest.value, req.manifest.value) then r.(err := Some(ModelsDiffer))
        else r
      else r;
    if req.kind != "" && r.kind != "" && req.kind != r.kind && Contributors(req) !! r.seen && r1.err.None? then
      r1.(err := Some(KindsDiffer))
    else r1
  }

  /** One contribution folded in, unless a rank it stands for is already in the sum. */
  ghost function Folded(r: Round, req: Request): (r': Round)
    requires ValidRequest(req) && SoundRound(r) && r.acc.Some?
    ensures r'.acc.Some? && SoundRound(r')
  {
    if !(Contributors(req) !! r.seen) || r.err.Some? then r
    else
      var a := r.acc.value;
      var (a', ok) := Add(a, req.payload, ScalesOf(req), req.samples);
      if !ok then r.(acc := Some(a'), err := Some(BadPayload))
      else
        r.(acc := Some(a'), seen := r.seen + Contributors(req),
           parts := r.parts + [Part(Contributors(req), Decode(a, req.payload, ScalesOf(req)).value, SampleWeight(req.samples))],
           posts := r.posts + [req])
  }

  /** A contribution arrives at its round: folded in unless the answer exists, and the round closed if it is the last. */
  ghost function Arrive(run: Run, r: Round, req: Request): (f: (Run, Round))
    requires ValidRequest(req) && SoundRun(run) && SoundRound(r)
    ensures SoundRun(f.0) && SoundRound(f.1) && f.1.key == r.key
  {
    if Decided(r) then (run, r.(done := true))
    else
      var r1 := Folded(Checked(r, req), req);
      if r1.err.Some? then (AbortRun(run, r1.err.value), r1.(done := true, closing := Failed))
      else if LiveIn(r1.seen, run.ring.dropped) >= ExpectedCount(r1) then
        var (run', r2) := Finish(run, r1);
        (run', r2.(done := true, closing := Full))
      else (run, r1)
  }

  /** The round a post goes to, made if there is none. */
  function RoundFor(s: State, req: Request): (r: Option<(State, nat)>)
    requires Sound(s) && ValidRequest(req)
    ensures r.Some? ==> Sound(r.value.0) && r.value.1 < |r.value.0.rounds|
    ensures r.Some? ==> r.value.0 == s.(rounds := r.value.0.rounds, open := r.value.0.open)
    ensures r.Some? ==> KeyOf(req) in r.value.0.open && r.value.0.open[KeyOf(req)] == r.value.1
  {
    var key := KeyOf(req);
    if key in s.open then Some((s, s.open[key]))
    else
      var r := NewRound(req);
      if r.None? then None
      else Some((s.(rounds := s.rounds + [r.value], open := s.open[key := |s.rounds|]), |s.rounds|))
  }

  /** A post the handler turns away before touching any round: the ring has stopped, or this rank missed its start. */
  predicate TurnedAway(run: Run, req: Request)
    requires ValidRequest(req)
  {
    run.aborted.Some? || (OpensRun(req) && req.rank in run.ring.dropped)
  }

  /** The run once the lead's part is done and the ranks' own reports are taken down. */
  ghost function Heard(run: Run, req: Request, c: Choice): (r: Run)
    requires ValidRequest(req) && SoundRun(run) && ChoiceFits(run, req, c)
    ensures SoundRun(r)
  {
    hide LeadPart, ChoiceFits, Fitting;
    if req.shard != 0 then run
    else
      var run1 := LeadPart(run, req, c);
      run1.(ring := ObserveAll(run1.ring, Reporters(req)))
  }

  /** A contribution to a round that fits it. */
  ghost function Landed(run: Run, r: Round, req: Request, c: Choice): (f: (Run, Round))
    requires ValidRequest(req) && SoundRun(run) && SoundRound(r) && ChoiceFits(run, req, c)
    ensures SoundRun(f.0) && SoundRound(f.1) && f.1.key == r.key
  {
    hide Heard, Arrive, Awaited, ChoiceFits, Below, Fitting, Closable, SoundRun;
    Arrive(Heard(run, req, c), r.(expected := Awaited(run.ring.dropped, req.world)), req)
  }

  /** A post whose round is found and fits. */
  ghost function PostTo(s: State, id: nat, req: Request, c: Choice): (t: State)
    requires Sound(s) && id < |s.rounds| && ValidRequest(req) && ChoiceFits(s.run, req, c)
    requires s.rounds[id].key == KeyOf(req)
    ensures Sound(t)
  {
    hide Landed, ChoiceFits, SoundRun, SoundRound;
    var (run, r) := Landed(s.run, s.rounds[id], req, c);
    var ticket := Ticket(id, KeyOf(req), Who(Reporters(req)), req.rank, req.shard == 0, Waiting);
    s.(run := run, rounds := s.rounds[id := r], tickets := s.tickets + [ticket])
  }

  ghost function Post(s: State, req: Request, c: Choice): (t: State)
    requires Sound(s)
    ensures Sound(t)
  {
    if !ValidRequest(req) || TurnedAway(s.run, req) || !ChoiceFits(s.run, req, c) then s
    else
      match RoundFor(s, req)
      case None => s
      case Some((s1, id)) => if s1.rounds[id].world != req.world then s1 else PostTo(s1, id, req, c)
  }

  // ---- answering ----

  function OutcomeOf(r: Round): Outcome {
    if r.err.Some? then Abort(r.err.value) else Payload(r.result)
  }

  /** The answers to a contribution's ranks: the note goes to each once, on its first lead answer from the agreed sync on. */
  ghost function Told(run: Run, t: Ticket, r: Round, who: seq<nat>): (n: (set<nat>, seq<Answer>))
  {
    if who == [] then (run.news.told, [])
    else
      var (told, said) := Told(run, t, r, who[..|who| - 1]);
      var rank := who[|who| - 1];
      var due := t.lead && Due(run.(news := run.news.(told := told)), rank, t.key.seqNo);
      (if due then told + {rank} else told,
       said + [Answer(rank, t.key.seqNo, t.lead, t.round, OutcomeOf(r), |run.news.published|, if due then run.news.note else None)])
  }

  /** Whether a handler has something to answer with, or thinks it has. */
  predicate Ready(s: State, t: Ticket)
    requires t.round < |s.rounds|
  {
    t.wait.Woken? || (t.wait.Waiting? && s.rounds[t.round].done)
  }

  function Fetched(r: Round, who: seq<nat>): Round {
    r.(fetched := r.fetched + set k | k in who)
  }

  /** A round leaves the board once every rank it waited for has its result, or once it failed. */
  predicate Spent(r: Round) {
    |r.fetched| >= ExpectedCount(r) || r.err.Some?
  }

  ghost function Serve(s: State, i: nat): (s': State)
    requires Sound(s)
    ensures Sound(s')
  {
    hide SoundRun, SoundRound, Told, ExpectedCount;
    if i >= |s.tickets| || !Ready(s, s.tickets[i]) then s
    else
      var t := s.tickets[i];
      var r := Fetched(s.rounds[t.round], t.who);
      var (told, said) := Told(s.run, t, r, t.who);
      assert SoundRound(r) by { SoundFetched(s.rounds[t.round], t.who); }
      assert SoundRun(s.run.(news := s.run.news.(told := told))) by { SoundTold(s.run, told); }
      s.(run := s.run.(news := s.run.news.(told := told)), rounds := s.rounds[t.round := r],
         open := if Spent(r) then s.open - {t.key} else s.open,
         tickets := s.tickets[i := t.(wait := Left)], answers := s.answers + said)
  }

  lemma SoundFetched(r: Round, who: seq<nat>)
    requires SoundRound(r)
    ensures SoundRound(Fetched(r, who))
  {
  }

  lemma SoundTold(run: Run, told: set<nat>)
    requires SoundRun(run)
    ensures SoundRun(run.(news := run.news.(told := told)))
  {
  }

  // ---- timeouts ----

  /** The ranks a join handover keeps busy, and whether one of them has yet to reach this round. */
  predicate HandoverBusy(run: Run, r: Round) {
    var j := if run.joins.join.Some? then run.joins.join else run.joins.loading;
    j.Some?
    && ((run.joins.join.Some? && (j.value.from < 0 || (j.value.from !in r.seen && j.value.from !in run.ring.dropped)))
        || (j.value.rank < r.world && j.value.rank !in r.seen && j.value.rank !in run.ring.dropped))
  }

  /** handoverHolds: a round waiting on a handover is marked, so that it never ends the run when it closes short. */
  ghost function Poll(s: State, i: nat): (s': State)
    requires Sound(s)
    ensures Sound(s')
  {
    if i >= |s.tickets| || s.tickets[i].key !in s.open then s
    else
      var id := s.open[s.tickets[i].key];
      var r := s.rounds[id];
      if Decided(r) || !HandoverBusy(s.run, r) then s
      else s.(rounds := s.rounds[id := r.(held := true)])
  }

  /** Past the start and not held for a handover, a round of several nobody but the asking rank has reached. */
  predicate Abandoned(run: Run, r: Round, rank: nat) {
    !r.opening && !r.held && ExpectedCount(r) >= 2 && LiveIn(r.seen, run.ring.dropped) == 1 && rank in r.seen
  }

  /** What completePartial makes of an undecided round somebody is in. */
  ghost function Shut(run: Run, r: Round, rank: nat): (f: (Run, Round))
    requires SoundRun(run) && SoundRound(r) && !Decided(r)
    ensures SoundRun(f.0) && SoundRound(f.1) && f.1.key == r.key && f.1.world == r.world
    ensures f.0.ring == run.ring
  {
    if Abandoned(run, r, rank) then
      (AbortRun(run, PeersGone), r.(err := Some(PeersGone), acc := None, done := true, closing := Failed))
    else
      var (run', r') := Finish(run, r);
      (run', r'.(partial := r.acc.value.count, done := true, closing := Short))
  }

  /** The loops over the board's map go in some order. */
  ghost predicate OrdersFit(s: State, key: Key, orders: seq<seq<Key>>)
    requires Sound(s)
  {
    key in s.open ==> Orders(s, s.rounds[s.open[key]], orders)
  }

  /** completePartial on the round under a key; the flag says whether there is an answer now. */
  ghost function Expire(s: State, key: Key, rank: nat, orders: seq<seq<Key>>): (e: (State, bool))
    requires Sound(s) && OrdersFit(s, key, orders)
    ensures Sound(e.0) && e.0.tickets == s.tickets && e.0.answers == s.answers && |e.0.rounds| == |s.rounds|
  {
    hide SoundRun, Closable, Shut, DropMissed, Enumerates;
    if key !in s.open then (s, false)
    else
      var id := s.open[key];
      var r := s.rounds[id];
      if Decided(r) then (s, true)
      else if r.acc.value.count == 0 then (s, false)
      else
        var (run, r') := Shut(s.run, r, rank);
        var s1 := s.(run := run, rounds := s.rounds[id := r']);
        if r'.opening && r'.err.None? then (DropMissed(s1, id, orders), true) else (s1, true)
  }

  /** A handler's own timeout: it settles the round under its key and then answers from its own, or leaves empty-handed. */
  ghost function TimeOut(s: State, i: nat, orders: seq<seq<Key>>): (s': State)
    requires Sound(s)
    ensures Sound(s')
  {
    hide Expire, SoundRun, SoundRound;
    if i >= |s.tickets| || !s.tickets[i].wait.Waiting? || !OrdersFit(s, s.tickets[i].key, orders) then s
    else
      var t := s.tickets[i];
      var (s1, answered) := Expire(s, t.key, t.rank, orders);
      s1.(tickets := s1.tickets[i := t.(wait := if answered then Woken else Left)])
  }

  /** A handler whose caller hung up, or whose last timeout passed. */
  ghost function Leave(s: State, i: nat): (s': State)
    requires Sound(s)
    ensures Sound(s')
  {
    hide SoundRun, SoundRound;
    if i < |s.tickets| then s.(tickets := s.tickets[i := s.tickets[i].(wait := Left)]) else s
  }

  // ---- ranks going down ----

  /** An order in which a loop over the board's map may meet its keys. */
  ghost predicate Enumerates(order: seq<Key>, keys: set<Key>) {
    && (forall k :: k in order <==> k in keys)
    && (forall i, j | 0 <= i < j < |order| :: order[i] != order[j])
  }

  ghost predicate Orders(s: State, r: Round, orders: seq<seq<Key>>) {
    |orders| == r.world && forall i | 0 <= i < |orders| :: Enumerates(orders[i], s.open.Keys)
  }

  /** An undecided round after the ring changed: finished if it now has everyone it will ever get. */
  ghost function Settled(run: Run, r: Round): (f: (Run, Round))
    requires SoundRun(run) && SoundRound(r) && !Decided(r)
    ensures SoundRun(f.0) && SoundRound(f.1) && f.1.key == r.key
  {
    var r1 := r.(expected := Awaited(run.ring.dropped, r.world));
    if r.acc.value.count > 0 && LiveIn(r.seen, run.ring.dropped) >= r1.expected then
      var (run', r2) := Finish(run, r1);
      (run', r2.(partial := if 0 < |r.seen| < r.world then |r.seen| else r.partial, done := true, closing := Full))
    else (run, r1)
  }

  ghost function CloseReady(s: State, key: Key): (s': State)
    requires Sound(s)
    ensures Sound(s') && s'.open == s.open && s'.tickets == s.tickets && s'.answers == s.answers && |s'.rounds| == |s.rounds|
  {
    hide SoundRun, Closable, Settled;
    if key !in s.open || Decided(s.rounds[s.open[key]]) then s
    else
      var (run, r) := Settled(s.run, s.rounds[s.open[key]]);
      s.(run := run, rounds := s.rounds[s.open[key] := r])
  }

  ghost function CloseAll(s: State, order: seq<Key>): (s': State)
    requires Sound(s)
    ensures Sound(s') && s'.open == s.open && s'.tickets == s.tickets && s'.answers == s.answers && |s'.rounds| == |s.rounds|
  {
    if order == [] then s else CloseReady(CloseAll(s, order[..|order| - 1]), order[|order| - 1])
  }

  /** endJoin: the joiner, if it still waits, is woken to learn that there is no join any more. */
  function EndJoin(j: Joins): Joins {
    if j.join.None? then j
    else j.(join := None, woken := if j.join.value.ready then j.woken else j.woken + [j.join.value.id])
  }

  /** A join without its joiner is over; one without the rank handing over turns to the lowest rank left. */
  function JoinWithout(j: Joins, rank: nat, dropped: set<nat>): Joins {
    var j' := LoadedBy(j, rank);
    if j.join.None? then j'
    else if j.join.value.rank == rank then EndJoin(j')
    else if j.join.value.from == rank then
      j'.(join := Some(j.join.value.(from := LowestLive(dropped, j.join.value.oldWorld))))
    else j'
  }

  /** The ring after a member is found down: its report gone, and its share moved to the others. */
  function RingWithout(ring: Ring, rank: nat): (r: Ring)
    requires Below(ring)
    ensures Below(r)
  {
    var dropped := ring.dropped + {rank};
    ring.(dropped := dropped, reports := ring.reports - {rank},
          weights := SharesWithout(if |ring.weights| == ring.world then ring.weights else Ones(ring.world), dropped))
  }

  function WithoutRank(run: Run, rank: nat): (r: Run)
    requires SoundRun(run)
    ensures SoundRun(r)
  {
    run.(ring := RingWithout(run.ring, rank), joins := JoinWithout(run.joins, rank, run.ring.dropped + {rank}))
  }

  function Sized(run: Run, world: nat): (r: Run)
    requires SoundRun(run)
    ensures SoundRun(r)
  {
    if run.ring.world == 0 then run.(ring := run.ring.(world := world)) else run
  }

  /** Whether a down report is news about a rank of the ring. */
  predicate FreshDown(run: Run, rank: nat, world: nat)
    requires SoundRun(run)
  {
    rank < Sized(run, world).ring.world && rank !in run.ring.dropped
  }

  /** markRankDownLocked. */
  ghost function MarkDown(s: State, rank: nat, world: nat, order: seq<Key>): (s': State)
    requires Sound(s)
    ensures Sound(s') && s'.open == s.open && s'.tickets == s.tickets && s'.answers == s.answers && |s'.rounds| == |s.rounds|
  {
    var run := Sized(s.run, world);
    if rank >= run.ring.world then s.(run := run.(ring := run.ring.(dropped := run.ring.dropped + {rank})))
    else if rank in run.ring.dropped then s.(run := run)
    else
      var run1 := WithoutRank(run, rank);
      CloseAll(s.(run := Publish(run1, run1.lastSeq + 1, RingNow(run1, Down(rank)))), order)
  }

  /** Every rank below n that never reached the round and is not yet dropped goes down, lowest first. */
  ghost function DropMissing(s: State, id: nat, n: nat, orders: seq<seq<Key>>): (s': State)
    requires Sound(s) && id < |s.rounds| && n <= |orders|
    ensures Sound(s') && s'.open == s.open && s'.tickets == s.tickets && s'.answers == s.answers && |s'.rounds| == |s.rounds|
  {
    if n == 0 then s
    else
      var s1 := DropMissing(s, id, n - 1, orders);
      if n - 1 in s.rounds[id].seen || n - 1 in s1.run.ring.dropped then s1
      else MarkDown(s1, n - 1, s.rounds[id].world, orders[n - 1])
  }

  function FirstMissing(seen: set<nat>, dropped: set<nat>, n: nat): int {
    if n == 0 then -1
    else
      var k := FirstMissing(seen, dropped, n - 1);
      if k >= 0 then k else if n - 1 in seen || n - 1 in dropped then -1 else n - 1
  }

  /** dropMissedStart: the ring starts without the ranks that missed its opening round, and says so in one note. */
  ghost function DropMissed(s: State, id: nat, orders: seq<seq<Key>>): (s': State)
    requires Sound(s) && id < |s.rounds| && |orders| == s.rounds[id].world
    ensures Sound(s') && s'.open == s.open && s'.tickets == s.tickets && s'.answers == s.answers && |s'.rounds| == |s.rounds|
  {
    var r := s.rounds[id];
    var first := FirstMissing(r.seen, s.run.ring.dropped, r.world);
    if first < 0 then s
    else
      var s1 := DropMissing(s, id, r.world, orders);
      s1.(run := Publish(s1.run, s1.run.lastSeq + 1, RingNow(s1.run, MissedStart(first))))
  }

  // ---- joins ----

  /** ddpJoin's checks, in its order. */
  predicate Admissible(run: Run, rank: nat) {
    && run.lastSeq != 0 && run.aborted.None? && !run.mode.released && run.mode.sharded && run.joins.join.None?
    && rank >= run.ring.world
    && (forall k | run.ring.world <= k < rank :: k in run.ring.dropped)
    && LowestLive(run.ring.dropped, run.ring.world) >= 0
  }

  /** The indices between the ring's size and a joiner's own. */
  function Skipped(world: nat, rank: nat): (s: set<nat>)
    ensures forall k :: k in s <==> world <= k < rank
  {
    var all := seq(rank, i => i);
    assert forall k: nat :: k in all <==> k < rank by {
      forall k: nat
        ensures k in all <==> k < rank
      {
        assert k < rank ==> all[k] == k;
      }
    }
    set k | k in all && k >= world
  }

  function Admit(run: Run, rank: nat): (r: Run)
    requires SoundRun(run) && Admissible(run, rank)
    ensures SoundRun(r)
  {
    var dropped := run.ring.dropped + Skipped(run.ring.world, rank);
    var join := Join(|run.joins.admitted|, rank, LowestLive(run.ring.dropped, run.ring.world), run.ring.world, None, false);
    var run1 := run.(
      ring := run.ring.(dropped := dropped, weights := SharesWith(run.ring.weights, run.ring.world, dropped, rank + 1),
                        world := rank + 1),
      joins := run.joins.(join := Some(join), admitted := run.joins.admitted + [Admitted(rank, run.ring.world)]));
    Publish(run1, run1.lastSeq + 1, RingNow(run1, Joining(rank)))
  }

  /** A snapshot is taken only for the rank that is joining, and only the first. */
  predicate Wanted(run: Run, rank: int) {
    run.joins.join.Some? && run.joins.join.value.rank == rank && run.joins.join.value.snap.None?
  }

  function Snapped(j: Joins, body: seq<int>): Joins
    requires j.join.Some?
  {
    j.(join := Some(j.join.value.(snap := Some(body), ready := true)), woken := j.woken + [j.join.value.id])
  }

  /** The joiner has the whole snapshot this join was given: the join is over, and its own note is not news to it. */
  function Taken(run: Run, id: nat): (r: Run)
    requires SoundRun(run)
    ensures SoundRun(r)
  {
    if run.joins.join.Some? && run.joins.join.value.id == id && run.joins.join.value.snap.Some? then
      run.(news := run.news.(told := run.news.told + {run.joins.join.value.rank},
                             excused := run.news.excused + {run.joins.join.value.rank}),
           joins := run.joins.(join := None, loading := run.joins.join))
    else run
  }

  // ---- runs of the whole board ----

  datatype Event =
    | PostEvent(req: Request, choice: Choice)
    | ReplyEvent(ticket: nat)
    | PollEvent(polling: nat)
    | TimeOutEvent(late: nat, orders: seq<seq<Key>>)
    | LeaveEvent(leaver: nat)
    | DownEvent(down: nat, size: nat, order: seq<Key>)
    | JoinEvent(joiner: nat, check: bool)
    | PutEvent(forRank: int, body: seq<int>)
    | TakenEvent(join: nat)

  ghost function Step(s: State, e: Event): (s': State)
    requires Sound(s)
    ensures Sound(s')
  {
    match e
    case PostEvent(req, c) => Post(s, req, c)
    case ReplyEvent(i) => Serve(s, i)
    case PollEvent(i) => Poll(s, i)
    case TimeOutEvent(i, orders) => TimeOut(s, i, orders)
    case LeaveEvent(i) => Leave(s, i)
    case DownEvent(rank, world, order) =>
      if world >= 2 && rank < world && Enumerates(order, s.open.Keys) then MarkDown(s, rank, world, order) else s
    case JoinEvent(rank, check) =>
      if rank >= 1 && Admissible(s.run, rank) && !check then s.(run := Admit(s.run, rank)) else s
    case PutEvent(rank, body) =>
      if Wanted(s.run, rank) then
        s.(run := s.run.(joins := Snapped(s.run.joins, body)))
      else s
    case TakenEvent(id) => s.(run := Taken(s.run, id))
  }

  /** The state after a run of events, from the first to the last. */
  ghost function Exec(s: State, events: seq<Event>): (s': State)
    requires Sound(s)
    ensures Sound(s')
  {
    if events == [] then s else Step(Exec(s, events[..|events| - 1]), events[|events| - 1])
  }
}
