/** A job's life on the cluster: which nodes may take it, in what order they are asked, and how its lease is placed,
    committed, run, completed and, when the run fails, placed again. Nodes answer as they like. */
module Coordinator {
  import opened Wrappers

  type Id = nat

  // ---- which nodes may take a job ----

  /** A candidate node as its owner or the network reported it. Zero or empty means unknown. */
  datatype Node = Node(id: Id, machine: nat, role: string, arch: string, gpu: bool, freeCores: real, gpuCount: nat, bestVram: int,
                       freeMem: int, jobs: nat, score: real)

  datatype Job = Job(self: Id, noSelf: bool, apartFrom: nat, arch: string, requireGpu: bool, preferGpu: bool, roundRobin: bool,
                     cores: int, vram: int, mem: int)

  datatype Reason = RefusedClosure | HasRole | WrongArch | NoGpu | FewCores | LittleVram | LittleMemory

  datatype Candidate = Candidate(node: Node, rejected: Option<Reason>)

  /** Nodes the job must not run on at all: the submitter's own machine when it asked for others. */
  predicate Excluded(job: Job, n: Node) {
    (job.noSelf && n.id == job.self) || (job.apartFrom != 0 && n.machine == job.apartFrom)
  }

  predicate ShortOfMemory(job: Job, n: Node) {
    job.mem > 0 && 0 < n.freeMem < job.mem
  }

  /** Why a node is turned down: the first of the filters it does not pass. */
  function Rejection(job: Job, refused: set<Id>, n: Node): Option<Reason> {
    if n.id in refused then Some(RefusedClosure)
    else if n.role != "" then Some(HasRole)
    else if n.arch != "" && n.arch != job.arch then Some(WrongArch)
    else if job.requireGpu && !n.gpu then Some(NoGpu)
    else if job.cores > 0 && 0.0 < n.freeCores < job.cores as real then Some(FewCores)
    else if job.vram > 0 && n.gpuCount > 0 && n.bestVram < job.vram then Some(LittleVram)
    else if ShortOfMemory(job, n) then Some(LittleMemory)
    else None
  }

  /** An estimate that fits nowhere does not keep a job from a node that is idle. */
  predicate IdleShort(job: Job, refused: set<Id>, n: Node) {
    Rejection(job, refused, n) == Some(LittleMemory) && n.jobs == 0
  }

  predicate FitsSomewhere(job: Job, refused: set<Id>, nodes: seq<Node>) {
    exists k | 0 <= k < |nodes| :: Rejection(job, refused, nodes[k]).None?
  }

  /** What FindNode makes of a node among the others. */
  function Judged(job: Job, refused: set<Id>, nodes: seq<Node>, n: Node): Candidate {
    Candidate(n, if IdleShort(job, refused, n) && !FitsSomewhere(job, refused, nodes) then None else Rejection(job, refused, n))
  }

  ghost predicate AllJudged(job: Job, refused: set<Id>, nodes: seq<Node>, candidates: seq<Candidate>) {
    |candidates| == |nodes| && forall k | 0 <= k < |nodes| :: candidates[k] == Judged(job, refused, nodes, nodes[k])
  }

  // ---- the filter passes, in place ----

  function RefusedOnly(refused: set<Id>, n: Node): Option<Reason> {
    if n.id in refused then Some(RefusedClosure) else None
  }

  method RejectRefused(list: array<Candidate>, refused: set<Id>, ghost nodes: seq<Node>)
    requires list.Length == |nodes| && forall k | 0 <= k < |nodes| :: list[k] == Candidate(nodes[k], None)
    modifies list
    ensures forall k | 0 <= k < |nodes| :: list[k] == Candidate(nodes[k], RefusedOnly(refused, nodes[k]))
  {
    for i := 0 to list.Length
      invariant forall k | 0 <= k < i :: list[k] == Candidate(nodes[k], RefusedOnly(refused, nodes[k]))
      invariant forall k | i <= k < |nodes| :: list[k] == Candidate(nodes[k], None)
    {
      if list[i].node.id in refused {
        list[i] := list[i].(rejected := Some(RefusedClosure));
      }
    }
  }

  /** Roles, architecture and the GPU, on nodes not turned down yet. */
  method RejectUnfit(list: array<Candidate>, job: Job, refused: set<Id>, ghost nodes: seq<Node>)
    requires list.Length == |nodes|
    requires forall k | 0 <= k < |nodes| :: list[k] == Candidate(nodes[k], RefusedOnly(refused, nodes[k]))
    modifies list
    ensures forall k | 0 <= k < |nodes| :: list[k] == Candidate(nodes[k], Unfit(job, refused, nodes[k]))
  {
    for i := 0 to list.Length
      invariant forall k | 0 <= k < i :: list[k] == Candidate(nodes[k], Unfit(job, refused, nodes[k]))
      invariant forall k | i <= k < |nodes| :: list[k] == Candidate(nodes[k], RefusedOnly(refused, nodes[k]))
    {
      var n := list[i].node;
      if list[i].rejected.None? && n.role != "" {
        list[i] := Candidate(n, Some(HasRole));
      }
      if list[i].rejected.None? && n.arch != "" && n.arch != job.arch {
        list[i] := Candidate(n, Some(WrongArch));
      }
      if list[i].rejected.None? && job.requireGpu && !n.gpu {
        list[i] := Candidate(n, Some(NoGpu));
      }
    }
  }

  function Unfit(job: Job, refused: set<Id>, n: Node): Option<Reason> {
    if n.id in refused then Some(RefusedClosure)
    else if n.role != "" then Some(HasRole)
    else if n.arch != "" && n.arch != job.arch then Some(WrongArch)
    else if job.requireGpu && !n.gpu then Some(NoGpu)
    else None
  }

  /** Cores, video memory and memory; idleShort lists the nodes that only lack memory and run nothing. */
  method RejectShort(list: array<Candidate>, job: Job, refused: set<Id>, ghost nodes: seq<Node>) returns (idleShort: seq<nat>)
    requires list.Length == |nodes|
    requires forall k | 0 <= k < |nodes| :: list[k] == Candidate(nodes[k], Unfit(job, refused, nodes[k]))
    modifies list
    ensures forall k | 0 <= k < |nodes| :: list[k] == Candidate(nodes[k], Rejection(job, refused, nodes[k]))
    ensures forall k: nat :: k in idleShort <==> k < |nodes| && IdleShort(job, refused, nodes[k])
  {
    idleShort := [];
    for i := 0 to list.Length
      invariant forall k | 0 <= k < i :: list[k] == Candidate(nodes[k], Rejection(job, refused, nodes[k]))
      invariant forall k | i <= k < |nodes| :: list[k] == Candidate(nodes[k], Unfit(job, refused, nodes[k]))
      invariant forall k: nat :: k in idleShort <==> k < i && IdleShort(job, refused, nodes[k])
    {
      if list[i].rejected.Some? {
        continue;
      }
      var n := list[i].node;
      if job.cores > 0 && 0.0 < n.freeCores < job.cores as real {
        list[i] := Candidate(n, Some(FewCores));
        continue;
      }
      if job.vram > 0 && n.gpuCount > 0 && n.bestVram < job.vram {
        list[i] := Candidate(n, Some(LittleVram));
        continue;
      }
      if job.mem > 0 && n.freeMem > 0 && n.freeMem < job.mem {
        list[i] := Candidate(n, Some(LittleMemory));
        if n.jobs == 0 {
          idleShort := idleShort + [i];
        }
      }
    }
  }

  /** FindNode's judgement of the candidates, pass by pass over one list. */
  method JudgeAll(nodes: seq<Node>, job: Job, refused: set<Id>) returns (list: array<Candidate>)
    ensures fresh(list) && AllJudged(job, refused, nodes, list[..])
  {
    list := new Candidate[|nodes|](k requires 0 <= k < |nodes| => Candidate(nodes[k], None));
    RejectRefused(list, refused, nodes);
    RejectUnfit(list, job, refused, nodes);
    var idleShort := RejectShort(list, job, refused, nodes);
    var fits := false;
    for i := 0 to list.Length
      invariant fits <==> exists k | 0 <= k < i :: Rejection(job, refused, nodes[k]).None?
    {
      fits := fits || list[i].rejected.None?;
    }
    assert fits <==> FitsSomewhere(job, refused, nodes);
    if !fits {
      Readmit(list, job, refused, nodes, idleShort);
    }
  }

  method Readmit(list: array<Candidate>, job: Job, refused: set<Id>, ghost nodes: seq<Node>, idleShort: seq<nat>)
    requires list.Length == |nodes|
    requires forall k | 0 <= k < |nodes| :: list[k] == Candidate(nodes[k], Rejection(job, refused, nodes[k]))
    requires forall k: nat :: k in idleShort <==> k < |nodes| && IdleShort(job, refused, nodes[k])
    modifies list
    ensures forall k | 0 <= k < |nodes| ::
      list[k] == Candidate(nodes[k], if IdleShort(job, refused, nodes[k]) then None else Rejection(job, refused, nodes[k]))
  {
    for i := 0 to |idleShort|
      invariant forall k | 0 <= k < |nodes| ::
        list[k] == Candidate(nodes[k], if k in idleShort[..i] then None else Rejection(job, refused, nodes[k]))
    {
      var at := idleShort[i];
      assert at in idleShort;
      assert idleShort[..i + 1] == idleShort[..i] + [at];
      list[at] := list[at].(rejected := None);
    }
    assert idleShort[..|idleShort|] == idleShort;
  }

  /** The nodes a job may run on at all. */
  function Allowed(job: Job): Node -> bool {
    (n: Node) => !Excluded(job, n)
  }

  /** The nodes the filters leave standing. */
  function Standing(job: Job, refused: set<Id>, nodes: seq<Node>): Node -> bool {
    (n: Node) => Judged(job, refused, nodes, n).rejected.None?
  }

  // ---- the order nodes are asked in ----

  function TriedOn(tried: map<Id, nat>, id: Id): nat {
    if id in tried then tried[id] else 0
  }

  function Insert(list: seq<Node>, n: Node, key: Node -> real): seq<Node> {
    if list == [] || key(list[|list| - 1]) <= key(n) then list + [n]
    else Insert(list[..|list| - 1], n, key) + [list[|list| - 1]]
  }

  /** A stable sort, least key first. */
  function Sort(list: seq<Node>, key: Node -> real): seq<Node> {
    if list == [] then [] else Insert(Sort(list[..|list| - 1], key), list[|list| - 1], key)
  }

  function ByScore(): Node -> real {
    (n: Node) => -n.score
  }

  function ByTried(tried: map<Id, nat>): Node -> real {
    (n: Node) => TriedOn(tried, n.id) as real
  }

  function Where(list: seq<Node>, p: Node -> bool): seq<Node> {
    if list == [] then []
    else
      var front, n := Where(list[..|list| - 1], p), list[|list| - 1];
      if p(n) then front + [n] else front
  }

  /** The candidates FindNode leaves standing. */
  function Eligible(job: Job, refused: set<Id>, listed: seq<Node>): seq<Node> {
    var nodes := Where(listed, Allowed(job));
    Where(nodes, Standing(job, refused, nodes))
  }

  /** By score, with the nodes that have a GPU first when one is preferred and alone when one is required. */
  function ByMerit(job: Job, eligible: seq<Node>): seq<Node> {
    var gpus := Sort(Where(eligible, (n: Node) => n.gpu), ByScore());
    var others := Sort(Where(eligible, (n: Node) => !n.gpu), ByScore());
    if job.requireGpu then gpus else if job.preferGpu then gpus + others else Sort(gpus + others, ByScore())
  }

  /** On merit among nodes the job has failed on equally often, the least often first. */
  function Order(job: Job, eligible: seq<Node>, tried: map<Id, nat>): seq<Node> {
    Sort(ByMerit(job, eligible), ByTried(tried))
  }

  /** Whether the first goes before the second on merit. */
  predicate Before(job: Job, a: Node, b: Node) {
    if job.preferGpu && !job.requireGpu && a.gpu != b.gpu then a.gpu else a.score >= b.score
  }

  ghost predicate Sorted(list: seq<Node>, key: Node -> real) {
    forall i, j | 0 <= i < j < |list| :: key(list[i]) <= key(list[j])
  }

  lemma {:induction false} InsertSorts(list: seq<Node>, n: Node, key: Node -> real)
    requires Sorted(list, key)
    ensures Sorted(Insert(list, n, key), key)
  {
    if list != [] && key(list[|list| - 1]) > key(n) {
      var front, last := list[..|list| - 1], list[|list| - 1];
      InsertSorts(front, n, key);
      InsertBelow(front, n, key, key(last));
    }
  }

  lemma {:induction false} InsertAdds(list: seq<Node>, n: Node, key: Node -> real)
    ensures multiset(Insert(list, n, key)) == multiset(list) + multiset{n}
  {
    if list != [] && key(list[|list| - 1]) > key(n) {
      var front, last := list[..|list| - 1], list[|list| - 1];
      InsertAdds(front, n, key);
      assert list == front + [last];
    }
  }

  lemma {:induction false} InsertBelow(list: seq<Node>, n: Node, key: Node -> real, top: real)
    requires key(n) <= top && forall k | 0 <= k < |list| :: key(list[k]) <= top
    ensures |Insert(list, n, key)| == |list| + 1 && forall k | 0 <= k <= |list| :: key(Insert(list, n, key)[k]) <= top
  {
    if list != [] && key(list[|list| - 1]) > key(n) {
      InsertBelow(list[..|list| - 1], n, key, top);
    }
  }

  lemma {:induction false} SortSorts(list: seq<Node>, key: Node -> real)
    ensures Sorted(Sort(list, key), key) && multiset(Sort(list, key)) == multiset(list)
  {
    if list != [] {
      var front, n := list[..|list| - 1], list[|list| - 1];
      SortSorts(front, key);
      InsertSorts(Sort(front, key), n, key);
      InsertAdds(Sort(front, key), n, key);
      assert list == front + [n];
    }
  }

  function Having(list: seq<Node>, key: Node -> real, k: real): seq<Node> {
    Where(list, (n: Node) => key(n) == k)
  }

  lemma {:induction false} WhereConcat(a: seq<Node>, b: seq<Node>, p: Node -> bool)
    ensures Where(a + b, p) == Where(a, p) + Where(b, p)
  {
    if b == [] {
      assert a + b == a;
    } else {
      WhereConcat(a, b[..|b| - 1], p);
      assert (a + b)[..|a + b| - 1] == a + b[..|b| - 1];
    }
  }

  lemma {:induction false} InsertKeepsOrder(list: seq<Node>, n: Node, key: Node -> real, k: real)
    requires Sorted(list, key)
    ensures Having(Insert(list, n, key), key, k) == Having(list + [n], key, k)
  {
    var p := (m: Node) => key(m) == k;
    if list != [] && key(list[|list| - 1]) > key(n) {
      var front, last := list[..|list| - 1], list[|list| - 1];
      InsertKeepsOrder(front, n, key, k);
      assert list + [n] == front + [last] + [n];
      WhereConcat(Insert(front, n, key), [last], p);
      WhereConcat(front + [last], [n], p);
      WhereConcat(front, [last], p);
      WhereConcat(front, [n], p);
      assert Where([last], p) == (if p(last) then [last] else []) && Where([n], p) == (if p(n) then [n] else []);
      assert !(p(last) && p(n));
    }
  }

  /** Nodes of one key stay in the order they were in. */
  lemma {:induction false} SortIsStable(list: seq<Node>, key: Node -> real, k: real)
    ensures Having(Sort(list, key), key, k) == Having(list, key, k)
  {
    if list != [] {
      var front, n := list[..|list| - 1], list[|list| - 1];
      var p := (m: Node) => key(m) == k;
      SortIsStable(front, key, k);
      SortSorts(front, key);
      InsertKeepsOrder(Sort(front, key), n, key, k);
      WhereConcat(Sort(front, key), [n], p);
      WhereConcat(front, [n], p);
      assert list == front + [n];
    }
  }

  lemma {:induction false} WhereAre(list: seq<Node>, p: Node -> bool)
    ensures forall n :: n in Where(list, p) <==> n in list && p(n)
  {
    if list != [] {
      WhereAre(list[..|list| - 1], p);
    }
  }

  /** The job may run on this node: it is not the submitter's own where that is ruled out. */
  ghost predicate Open(job: Job, n: Node) {
    (job.noSelf ==> n.id != job.self) && (job.apartFrom == 0 || n.machine != job.apartFrom)
  }

  /** The node has no role, and is of the architecture and has the GPU, the cores and the video memory the job asks for, as far as
      they are known. */
  ghost predicate Suits(job: Job, n: Node) {
    && n.role == "" && (n.arch == "" || n.arch == job.arch) && (job.requireGpu ==> n.gpu)
    && (job.cores <= 0 || n.freeCores <= 0.0 || n.freeCores >= job.cores as real)
    && (job.vram <= 0 || n.gpuCount == 0 || n.bestVram >= job.vram)
  }

  ghost predicate HasRoom(job: Job, n: Node) {
    job.mem <= 0 || n.freeMem <= 0 || n.freeMem >= job.mem
  }

  lemma RejectionIs(job: Job, refused: set<Id>, n: Node)
    ensures Excluded(job, n) <==> !Open(job, n)
    ensures Rejection(job, refused, n).None? <==> n.id !in refused && Suits(job, n) && HasRoom(job, n)
    ensures IdleShort(job, refused, n) <==> n.id !in refused && Suits(job, n) && !HasRoom(job, n) && n.jobs == 0
  {
  }

  /** A node stands exactly when it is listed, the job may run there, it has not refused the closure, it suits the job, and it has the
      memory; or it has not, is idle, and no listed node that suits has it either. */
  lemma StandsIff(job: Job, refused: set<Id>, listed: seq<Node>, n: Node)
    ensures n in Eligible(job, refused, listed) <==>
      && n in listed && Open(job, n) && n.id !in refused && Suits(job, n)
      && (HasRoom(job, n)
          || (n.jobs == 0
              && forall m | m in listed && Open(job, m) && m.id !in refused && Suits(job, m) :: !HasRoom(job, m)))
  {
    var nodes := Where(listed, Allowed(job));
    WhereAre(listed, Allowed(job));
    WhereAre(nodes, Standing(job, refused, nodes));
    forall m
      ensures Excluded(job, m) <==> !Open(job, m)
      ensures Rejection(job, refused, m).None? <==> m.id !in refused && Suits(job, m) && HasRoom(job, m)
      ensures IdleShort(job, refused, m) <==> m.id !in refused && Suits(job, m) && !HasRoom(job, m) && m.jobs == 0
    {
      RejectionIs(job, refused, m);
    }
    hide Where, Excluded, Rejection, IdleShort, Open, Suits, HasRoom;
    assert FitsSomewhere(job, refused, nodes) <==> exists m | m in nodes :: Rejection(job, refused, m).None? by {
      if m :| m in nodes && Rejection(job, refused, m).None? {
        var k :| 0 <= k < |nodes| && nodes[k] == m;
      }
    }
  }

  /** Readmission is all or nothing: the nodes left standing all have the memory, or none of them has and all are idle. Nothing stands
      exactly when no listed node that suits has the memory or is idle. */
  lemma AllFitOrNoneDoes(job: Job, refused: set<Id>, listed: seq<Node>)
    ensures var e := Eligible(job, refused, listed);
      (forall n | n in e :: HasRoom(job, n)) || (forall n | n in e :: !HasRoom(job, n) && n.jobs == 0)
    ensures Eligible(job, refused, listed) == [] <==>
      forall n | n in listed && Open(job, n) && n.id !in refused && Suits(job, n) :: !HasRoom(job, n) && n.jobs > 0
  {
    var e := Eligible(job, refused, listed);
    forall n
      ensures n in e <==>
        && n in listed && Open(job, n) && n.id !in refused && Suits(job, n)
        && (HasRoom(job, n)
            || (n.jobs == 0
                && forall m | m in listed && Open(job, m) && m.id !in refused && Suits(job, m) :: !HasRoom(job, m)))
    {
      StandsIff(job, refused, listed, n);
    }
    hide Eligible, Open, Suits, HasRoom;
    assert e != [] ==> e[0] in e;
  }

  /** The first of those that pass stands before every other that does. */
  lemma {:induction false} FirstWhere(list: seq<Node>, p: Node -> bool) returns (i: nat)
    requires Where(list, p) != []
    ensures i < |list| && list[i] == Where(list, p)[0] && p(list[i]) && forall j | 0 <= j < i :: !p(list[j])
  {
    var front, n := list[..|list| - 1], list[|list| - 1];
    if Where(front, p) == [] {
      i := |list| - 1;
      WhereAre(front, p);
      forall j | 0 <= j < i
        ensures !p(list[j])
      {
        assert front[j] in front;
      }
    } else {
      i := FirstWhere(front, p);
    }
  }

  ghost predicate Ranked(job: Job, list: seq<Node>) {
    forall i, j | 0 <= i < j < |list| :: Before(job, list[i], list[j])
  }

  lemma MeritRanks(job: Job, eligible: seq<Node>)
    ensures Ranked(job, ByMerit(job, eligible))
    ensures forall n :: n in ByMerit(job, eligible) <==> n in eligible && (job.requireGpu ==> n.gpu)
  {
    hide Sort, Where;
    var g, o := Where(eligible, (n: Node) => n.gpu), Where(eligible, (n: Node) => !n.gpu);
    var gpus, others := Sort(g, ByScore()), Sort(o, ByScore());
    SortSorts(g, ByScore());
    SortSorts(o, ByScore());
    WhereAre(eligible, (n: Node) => n.gpu);
    WhereAre(eligible, (n: Node) => !n.gpu);
    SameMembers(gpus, g);
    SameMembers(others, o);
    if !job.requireGpu && !job.preferGpu {
      SortSorts(gpus + others, ByScore());
      SameMembers(Sort(gpus + others, ByScore()), gpus + others);
    }
    assert forall k | 0 <= k < |gpus| :: gpus[k] in gpus;
    assert forall k | 0 <= k < |others| :: others[k] in others;
  }

  lemma SameMembers(a: seq<Node>, b: seq<Node>)
    requires multiset(a) == multiset(b)
    ensures forall n :: n in a <==> n in b
  {
    forall n
      ensures n in a <==> n in b
    {
      assert n in a <==> n in multiset(a);
    }
  }

  /** The node asked first has been tried least of all that may take the job, and none of those tried as little comes before it
      on merit. */
  lemma LeastTriedFirst(job: Job, eligible: seq<Node>, tried: map<Id, nat>, n: Node)
    requires n in eligible && (job.requireGpu ==> n.gpu)
    ensures var order := Order(job, eligible, tried);
      && order != [] && order[0] in eligible && n in order
      && TriedOn(tried, order[0].id) <= TriedOn(tried, n.id)
      && (TriedOn(tried, order[0].id) == TriedOn(tried, n.id) ==> order[0] == n || Before(job, order[0], n))
  {
    hide Sort, ByMerit, Where, Before, TriedOn;
    var merit, key := ByMerit(job, eligible), ByTried(tried);
    var order := Sort(merit, key);
    MeritRanks(job, eligible);
    SortSorts(merit, key);
    SameMembers(order, merit);
    assert n in order;
    var at :| 0 <= at < |order| && order[at] == n;
    var k := key(order[0]);
    SortIsStable(merit, key, k);
    if key(n) == k {
      var p := (m: Node) => key(m) == k;
      WhereAre(order, p);
      assert order[0] in Where(order, p);
      var i := FirstWhere(order, p);
      assert i == 0;
      var j := FirstWhere(merit, p);
      var l :| 0 <= l < |merit| && merit[l] == n;
      assert !(l < j);
      assert merit[j] == order[0];
    }
  }

  // ---- placing ----

  /** What a node says when it is asked: who it turns out to be, and whether it takes the job. */
  datatype Answer = Answer(resolved: Id, accepted: bool, lease: nat)

  /** One look for a node: what the network lists, what each listed node answers, and round-robin's turn. */
  datatype Look = Look(listed: seq<Node>, answers: map<Id, Answer>, turn: nat)

  datatype Placement = Placement(listed: Id, node: Id, lease: nat)

  function Ask(look: Look, n: Node): Option<Placement> {
    if n.id != 0 && n.id in look.answers && look.answers[n.id].accepted then
      Some(Placement(n.id, look.answers[n.id].resolved, look.answers[n.id].lease))
    else None
  }

  /** The first of these nodes to accept. */
  function FirstTaker(look: Look, order: seq<Node>): Option<Placement>
    decreases |order|
  {
    if order == [] then None
    else
      var front := FirstTaker(look, order[..|order| - 1]);
      if front.Some? then front else Ask(look, order[|order| - 1])
  }

  function ById(): Node -> real {
    (n: Node) => n.id as real
  }

  /** The nodes one look asks, in order: round-robin asks one, with no fallback. */
  function Chosen(job: Job, eligible: seq<Node>, tried: map<Id, nat>, turn: nat): seq<Node> {
    if !job.roundRobin then Order(job, eligible, tried)
    else if eligible == [] then []
    else
      SortSorts(eligible, ById());
      assert |Sort(eligible, ById())| == |multiset(Sort(eligible, ById()))| == |eligible|;
      [Sort(eligible, ById())[turn % |eligible|]]
  }

  function Asked(job: Job, refused: set<Id>, tried: map<Id, nat>, look: Look): seq<Node> {
    Chosen(job, Eligible(job, refused, look.listed), tried, look.turn)
  }

  function PlaceOnce(job: Job, refused: set<Id>, tried: map<Id, nat>, look: Look): Option<Placement> {
    FirstTaker(look, Asked(job, refused, tried, look))
  }

  /** Looking until a node takes the job; the looks end when the placement window does. */
  function Place(job: Job, refused: set<Id>, tried: map<Id, nat>, looks: seq<Look>): Option<Placement> {
    if looks == [] then None
    else
      var front := Place(job, refused, tried, looks[..|looks| - 1]);
      if front.Some? then front else PlaceOnce(job, refused, tried, looks[|looks| - 1])
  }

  // ---- the lifecycle ----

  datatype Outcome = Succeeded | Detached | Crashed(refusal: bool, permanent: bool)

  /** One turn of the retry loop, as the nodes and the user make it. */
  datatype Turn = Turn(quitBefore: bool, looks: seq<Look>, committed: bool, outcome: Outcome, quitDuring: bool, quitWaiting: bool)

  datatype Status = Success | Failure | Cancelled

  /** What the coordinator did with its leases, in order: a node granted one, it was committed, the job ran under it, it was
      completed. */
  datatype Record =
    | Grant(lease: nat, at: Id)
    | Commit(lease: nat)
    | Run(lease: nat, node: Id, outcome: Outcome, quit: bool)
    | Complete(lease: nat, status: Status)

  datatype Ending = Done(node: Id) | LeftRunning(node: Id) | Quit | NoNode | Hopeless | GaveUp

  datatype Life = Life(refused: set<Id>, tried: map<Id, nat>, failures: nat, log: seq<Record>, ending: Option<Ending>)

  const MAX_EXEC_ATTEMPTS: nat := 3

  function Logged(l: Life, e: Record): Life {
    l.(log := l.log + [e])
  }

  /** After a run that failed and was not canceled: what is remembered of the node, and whether the job is placed again. */
  function AfterFailure(l: Life, node: Id, refusal: bool, permanent: bool, quitWaiting: bool): Life {
    if refusal then l.(refused := l.refused + {node})
    else if permanent then l.(ending := Some(Hopeless))
    else
      l.(tried := l.tried[node := TriedOn(l.tried, node) + 1], failures := l.failures + 1,
         ending := if l.failures + 1 >= MAX_EXEC_ATTEMPTS then Some(GaveUp) else if quitWaiting then Some(Quit) else None)
  }

  /** After a run: the lease is completed by the branch its outcome takes, or left to the node. */
  function AfterRun(l: Life, p: Placement, t: Turn): Life {
    match t.outcome
    case Succeeded => Logged(l, Complete(p.lease, Success)).(ending := Some(Done(p.node)))
    case Detached => l.(ending := Some(LeftRunning(p.node)))
    case Crashed(refusal, permanent) =>
      if t.quitDuring then Logged(l, Complete(p.lease, Cancelled)).(ending := Some(Quit))
      else AfterFailure(Logged(l, Complete(p.lease, Failure)), p.node, refusal, permanent, t.quitWaiting)
  }

  function TakeTurn(job: Job, l: Life, t: Turn): Life {
    if l.ending.Some? then l
    else if t.quitBefore then l.(ending := Some(Quit))
    else
      match Place(job, l.refused, l.tried, t.looks)
      case None => l.(ending := Some(NoNode))
      case Some(p) =>
        var l1 := Logged(l, Grant(p.lease, p.node));
        if !t.committed then l1
        else AfterRun(Logged(Logged(l1, Commit(p.lease)), Run(p.lease, p.node, t.outcome, t.quitDuring)), p, t)
  }

  function TakeTurns(job: Job, l: Life, turns: seq<Turn>): Life {
    if turns == [] then l else TakeTurn(job, TakeTurns(job, l, turns[..|turns| - 1]), turns[|turns| - 1])
  }

  function NewLife(refused: set<Id>, tried: map<Id, nat>): Life {
    Life(refused, tried, 0, [], None)
  }

  // ---- every lease is completed once ----

  /** The status a run's lease is owed: what its outcome was, or nothing when its job was left running. */
  function StatusOf(outcome: Outcome, quit: bool): Option<Status> {
    match outcome
    case Succeeded => Some(Success)
    case Detached => None
    case Crashed(_, _) => Some(if quit then Cancelled else Failure)
  }

  function Grants(log: seq<Record>, lease: nat): nat {
    if log == [] then 0
    else Grants(log[..|log| - 1], lease) + if log[|log| - 1].Grant? && log[|log| - 1].lease == lease then 1 else 0
  }

  function Commits(log: seq<Record>, lease: nat): nat {
    if log == [] then 0 else Commits(log[..|log| - 1], lease) + if log[|log| - 1] == Commit(lease) then 1 else 0
  }

  /** How many runs under this lease are owed this. */
  function Owed(log: seq<Record>, lease: nat, status: Option<Status>): nat {
    if log == [] then 0
    else
      var e := log[|log| - 1];
      Owed(log[..|log| - 1], lease, status)
        + if e.Run? && e.lease == lease && StatusOf(e.outcome, e.quit) == status then 1 else 0
  }

  function Completes(log: seq<Record>, lease: nat, status: Status): nat {
    if log == [] then 0
    else Completes(log[..|log| - 1], lease, status) + if log[|log| - 1] == Complete(lease, status) then 1 else 0
  }

  function Ran(log: seq<Record>, lease: nat): nat {
    Owed(log, lease, None) + Owed(log, lease, Some(Success)) + Owed(log, lease, Some(Failure)) + Owed(log, lease, Some(Cancelled))
  }

  function Completed(log: seq<Record>, lease: nat): nat {
    Completes(log, lease, Success) + Completes(log, lease, Failure) + Completes(log, lease, Cancelled)
  }

  /** No lease is committed before it is granted, run under before it is committed, or completed before it is run under. */
  ghost predicate InTime(log: seq<Record>, lease: nat) {
    forall n | 0 <= n <= |log| ::
      Completed(log[..n], lease) + Owed(log[..n], lease, None) <= Ran(log[..n], lease)
      && Ran(log[..n], lease) <= Commits(log[..n], lease) <= Grants(log[..n], lease)
  }

  /** Every commit is followed by its run, and every run has got the completion it is owed. */
  ghost predicate Settled(log: seq<Record>, lease: nat) {
    && Commits(log, lease) == Ran(log, lease) && InTime(log, lease)
    && forall s: Status :: Completes(log, lease, s) == Owed(log, lease, Some(s))
  }

  ghost predicate AllSettled(log: seq<Record>) {
    forall lease: nat :: Settled(log, lease)
  }

  lemma Counted(log: seq<Record>, e: Record, lease: nat)
    ensures var all := log + [e];
      && Grants(all, lease) == Grants(log, lease) + (if e.Grant? && e.lease == lease then 1 else 0)
      && Commits(all, lease) == Commits(log, lease) + (if e == Commit(lease) then 1 else 0)
      && (forall s :: Owed(all, lease, s) == Owed(log, lease, s)
           + if e.Run? && e.lease == lease && StatusOf(e.outcome, e.quit) == s then 1 else 0)
      && (forall s :: Completes(all, lease, s) == Completes(log, lease, s) + if e == Complete(lease, s) then 1 else 0)
  {
    assert (log + [e])[..|log|] == log;
  }

  /** One more entry keeps the order when the counts after it do. */
  lemma InTimeNext(log: seq<Record>, e: Record, lease: nat)
    requires InTime(log, lease)
    requires var all := log + [e];
      Completed(all, lease) + Owed(all, lease, None) <= Ran(all, lease) <= Commits(all, lease) <= Grants(all, lease)
    ensures InTime(log + [e], lease)
  {
    var all := log + [e];
    hide Completed, Owed, Ran, Commits, Grants;
    forall n | 0 <= n <= |all|
      ensures Completed(all[..n], lease) + Owed(all[..n], lease, None) <= Ran(all[..n], lease)
      ensures Ran(all[..n], lease) <= Commits(all[..n], lease) <= Grants(all[..n], lease)
    {
      if n <= |log| {
        assert all[..n] == log[..n];
      } else {
        assert all[..n] == all;
      }
    }
  }

  /** The books of a lease between its grant and its run: grants not yet committed, commits not yet run under. */
  ghost predicate Pending(log: seq<Record>, lease: nat, granted: nat, committed: nat) {
    && InTime(log, lease) && Grants(log, lease) >= Commits(log, lease) + granted
    && Commits(log, lease) == Ran(log, lease) + committed
    && forall s: Status :: Completes(log, lease, s) == Owed(log, lease, Some(s))
  }

  lemma GrantPends(log: seq<Record>, lease: nat, node: Id, other: nat)
    requires Settled(log, other)
    ensures Pending(log + [Grant(lease, node)], other, if other == lease then 1 else 0, 0)
  {
    assert log[..|log|] == log;
    Counted(log, Grant(lease, node), other);
    hide Grants, Commits, Owed, Completes;
    InTimeNext(log, Grant(lease, node), other);
  }

  lemma CommitPends(log: seq<Record>, lease: nat, other: nat)
    requires Pending(log, other, if other == lease then 1 else 0, 0)
    ensures Pending(log + [Commit(lease)], other, 0, if other == lease then 1 else 0)
  {
    Counted(log, Commit(lease), other);
    hide Grants, Commits, Owed, Completes;
    assert log[..|log|] == log;
    InTimeNext(log, Commit(lease), other);
  }

  lemma RunPends(log: seq<Record>, lease: nat, node: Id, outcome: Outcome, quit: bool, other: nat)
    requires Pending(log, other, 0, if other == lease then 1 else 0)
    ensures Owing(log + [Run(lease, node, outcome, quit)], lease, StatusOf(outcome, quit), other)
  {
    var r := Run(lease, node, outcome, quit);
    Counted(log, r, other);
    RanNext(log, r, other);
    hide Grants, Commits, Owed, Completes, Ran;
    assert log[..|log|] == log;
    InTimeNext(log, r, other);
  }

  lemma RanNext(log: seq<Record>, e: Record, lease: nat)
    ensures Ran(log + [e], lease) == Ran(log, lease) + if e.Run? && e.lease == lease then 1 else 0
    ensures Owed(log + [e], lease, None) <= Owed(log, lease, None) + if e.Run? && e.lease == lease then 1 else 0
  {
    Counted(log, e, lease);
    hide Owed;
  }

  /** A lease that is granted and goes no further owes nothing. */
  lemma GrantSettles(log: seq<Record>, lease: nat, node: Id)
    requires AllSettled(log)
    ensures AllSettled(log + [Grant(lease, node)])
  {
    hide InTime, Ran, Owed, Completes, Commits, Grants;
    forall other: nat
      ensures Settled(log + [Grant(lease, node)], other)
    {
      assert Settled(log, other);
      GrantPends(log, lease, node, other);
    }
  }

  /** The books once a run is over: this lease's last run is owed this. */
  ghost predicate Owing(log: seq<Record>, lease: nat, status: Option<Status>, other: nat) {
    && Commits(log, other) == Ran(log, other) && InTime(log, other)
    && (forall s: Status ::
          Owed(log, other, Some(s)) == Completes(log, other, s) + if other == lease && status == Some(s) then 1 else 0)
  }

  ghost predicate AllOwing(log: seq<Record>, lease: nat, status: Option<Status>) {
    forall other: nat :: Owing(log, lease, status, other)
  }

  lemma RunOwes(log: seq<Record>, lease: nat, node: Id, outcome: Outcome, quit: bool)
    requires AllSettled(log)
    ensures AllOwing(log + [Grant(lease, node)] + [Commit(lease)] + [Run(lease, node, outcome, quit)], lease,
                     StatusOf(outcome, quit))
  {
    var g, c, r := Grant(lease, node), Commit(lease), Run(lease, node, outcome, quit);
    hide Settled, Pending, Owing, StatusOf;
    forall other: nat
      ensures Owing(log + [g] + [c] + [r], lease, StatusOf(outcome, quit), other)
    {
      assert Settled(log, other);
      GrantPends(log, lease, node, other);
      CommitPends(log + [g], lease, other);
      RunPends(log + [g] + [c], lease, node, outcome, quit, other);
    }
  }

  lemma CompletePends(log: seq<Record>, lease: nat, status: Status, other: nat)
    requires Owing(log, lease, Some(status), other)
    ensures Settled(log + [Complete(lease, status)], other)
  {
    var e := Complete(lease, status);
    Counted(log, e, other);
    RanNext(log, e, other);
    assert log[..|log|] == log;
    hide Grants, Commits, Owed, Completes, Ran;
    InTimeNext(log, e, other);
  }

  /** Completing the lease with what its run is owed, and nothing else, settles it. */
  lemma CompleteSettles(log: seq<Record>, lease: nat, status: Status)
    requires AllOwing(log, lease, Some(status))
    ensures AllSettled(log + [Complete(lease, status)])
  {
    hide Settled, Owing;
    forall other: nat
      ensures Settled(log + [Complete(lease, status)], other)
    {
      assert Owing(log, lease, Some(status), other);
      CompletePends(log, lease, status, other);
    }
  }

  lemma DetachedSettles(log: seq<Record>, lease: nat)
    requires AllOwing(log, lease, None)
    ensures AllSettled(log)
  {
    hide InTime, Ran, Owed, Completes, Commits;
    forall other: nat
      ensures Settled(log, other)
    {
      assert Owing(log, lease, None, other);
    }
  }

  lemma StatusIs(outcome: Outcome, quit: bool)
    ensures outcome.Succeeded? ==> StatusOf(outcome, quit) == Some(Success)
    ensures outcome.Detached? ==> StatusOf(outcome, quit) == None
    ensures outcome.Crashed? ==> StatusOf(outcome, quit) == Some(if quit then Cancelled else Failure)
  {
  }

  lemma TurnSettles(job: Job, l: Life, t: Turn)
    requires AllSettled(l.log)
    ensures AllSettled(TakeTurn(job, l, t).log)
  {
    hide AllSettled, AllOwing, Place;
    var p := Place(job, l.refused, l.tried, t.looks);
    if l.ending.None? && !t.quitBefore && p.Some? {
      var lease, node := p.value.lease, p.value.node;
      if !t.committed {
        GrantSettles(l.log, lease, node);
      } else {
        var log := l.log + [Grant(lease, node)] + [Commit(lease)] + [Run(lease, node, t.outcome, t.quitDuring)];
        RunOwes(l.log, lease, node, t.outcome, t.quitDuring);
        match StatusOf(t.outcome, t.quitDuring) {
          case Some(s) => CompleteSettles(log, lease, s);
          case None => DetachedSettles(log, lease);
        }
      }
    }
  }

  /** In every life, counted over the whole log and lease by lease: as many runs as commits, as many completions of each status as
      runs owed it, none for a job left running, and never a step before the one it needs. */
  lemma {:induction false} LeasesAreSettled(job: Job, refused: set<Id>, tried: map<Id, nat>, turns: seq<Turn>)
    ensures AllSettled(TakeTurns(job, NewLife(refused, tried), turns).log)
  {
    if turns == [] {
    } else {
      var front, t := turns[..|turns| - 1], turns[|turns| - 1];
      assert TakeTurns(job, NewLife(refused, tried), turns) == TakeTurn(job, TakeTurns(job, NewLife(refused, tried), front), t);
      hide *;
      LeasesAreSettled(job, refused, tried, front);
      TurnSettles(job, TakeTurns(job, NewLife(refused, tried), front), t);
    }
  }

  /** No two grants are of one lease. */
  ghost predicate DistinctGrants(log: seq<Record>) {
    forall i, j | 0 <= i < j < |log| && log[i].Grant? && log[j].Grant? :: log[i].lease != log[j].lease
  }

  lemma {:induction false} GrantedOnce(log: seq<Record>, lease: nat)
    requires DistinctGrants(log)
    ensures Grants(log, lease) <= 1
    ensures Grants(log, lease) == 1 ==> exists i | 0 <= i < |log| :: log[i].Grant? && log[i].lease == lease
  {
    if log != [] {
      var front := log[..|log| - 1];
      GrantedOnce(front, lease);
      if Grants(front, lease) == 1 {
        var i :| 0 <= i < |front| && front[i].Grant? && front[i].lease == lease;
        assert log[i] == front[i];
      }
    }
  }

  lemma {:induction false} CommittedCounts(log: seq<Record>, lease: nat)
    ensures Commit(lease) in log <==> Commits(log, lease) >= 1
  {
    if log != [] {
      CommittedCounts(log[..|log| - 1], lease);
    }
  }

  /** When nodes never grant a lease twice, every lease committed has exactly one run and exactly one completion, of the status
      its run is owed; none when its job was left running, and none without a commit. */
  lemma EachLeaseOnce(job: Job, refused: set<Id>, tried: map<Id, nat>, turns: seq<Turn>, lease: nat)
    requires DistinctGrants(TakeTurns(job, NewLife(refused, tried), turns).log)
    ensures var log := TakeTurns(job, NewLife(refused, tried), turns).log;
      if Commit(lease) !in log then Ran(log, lease) == 0 && Completed(log, lease) == 0
      else
        && Commits(log, lease) == 1 && Ran(log, lease) == 1
        && Completed(log, lease) == 1 - Owed(log, lease, None)
        && (forall s: Status :: Completes(log, lease, s) == Owed(log, lease, Some(s)))
  {
    var log := TakeTurns(job, NewLife(refused, tried), turns).log;
    hide *;
    LeasesAreSettled(job, refused, tried, turns);
    OnceSettled(log, lease);
  }

  lemma OnceSettled(log: seq<Record>, lease: nat)
    requires AllSettled(log) && DistinctGrants(log)
    ensures if Commit(lease) !in log then Ran(log, lease) == 0 && Completed(log, lease) == 0
      else
        && Commits(log, lease) == 1 && Ran(log, lease) == 1
        && Completed(log, lease) == 1 - Owed(log, lease, None)
        && (forall s: Status :: Completes(log, lease, s) == Owed(log, lease, Some(s)))
  {
    assert Settled(log, lease);
    GrantedOnce(log, lease);
    CommittedCounts(log, lease);
    assert log[..|log|] == log;
    assert Commits(log, lease) <= Grants(log, lease);
    hide Commits, Owed, Completes, Grants;
  }

  // ---- a refusal is final, and the runs are bounded ----

  /** Every node is who the listing says it is. */
  ghost predicate StableIds(looks: seq<Look>) {
    forall i, id | 0 <= i < |looks| && id in looks[i].answers :: looks[i].answers[id].resolved == id
  }

  lemma {:induction false} TakerIsAsked(look: Look, order: seq<Node>)
    ensures var p := FirstTaker(look, order);
      && (p.Some? ==> p.value.listed in look.answers && look.answers[p.value.listed].resolved == p.value.node)
      && (p.Some? ==> exists n | n in order :: n.id == p.value.listed)
    decreases |order|
  {
    if order != [] {
      TakerIsAsked(look, order[..|order| - 1]);
    }
  }

  lemma EligibleIsNotRefused(job: Job, refused: set<Id>, listed: seq<Node>)
    ensures forall n | n in Eligible(job, refused, listed) :: n.id !in refused
  {
    forall n | n in Eligible(job, refused, listed)
      ensures n.id !in refused
    {
      StandsIff(job, refused, listed, n);
    }
  }

  lemma AskedIsEligible(job: Job, refused: set<Id>, tried: map<Id, nat>, look: Look)
    ensures forall n | n in Asked(job, refused, tried, look) :: n in Eligible(job, refused, look.listed)
  {
    hide Sort, ByMerit, Eligible;
    var eligible := Eligible(job, refused, look.listed);
    if !job.roundRobin {
      MeritRanks(job, eligible);
      SortSorts(ByMerit(job, eligible), ByTried(tried));
      SameMembers(Order(job, eligible, tried), ByMerit(job, eligible));
    } else if eligible != [] {
      SortSorts(eligible, ById());
      SameMembers(Sort(eligible, ById()), eligible);
      assert |Sort(eligible, ById())| == |multiset(Sort(eligible, ById()))| == |eligible|;
      assert Sort(eligible, ById())[look.turn % |eligible|] in Sort(eligible, ById());
    }
  }

  /** A node the job was placed on was not listed under the id of one that refused it; so a refused node can be placed again only
      under another name, when it turns out to be a node other than the one listed. */
  lemma {:induction false} PlacedUnderAnotherName(job: Job, refused: set<Id>, tried: map<Id, nat>, looks: seq<Look>)
    ensures var p := Place(job, refused, tried, looks);
      p.Some? ==> p.value.listed !in refused && (p.value.node in refused ==> p.value.listed != p.value.node)
    ensures var p := Place(job, refused, tried, looks);
      p.Some? && StableIds(looks) ==> p.value.node == p.value.listed
  {
    if looks != [] {
      var look := looks[|looks| - 1];
      PlacedUnderAnotherName(job, refused, tried, looks[..|looks| - 1]);
      var order := Asked(job, refused, tried, look);
      AskedIsEligible(job, refused, tried, look);
      EligibleIsNotRefused(job, refused, look.listed);
      TakerIsAsked(look, order);
      hide Asked, FirstTaker, Eligible;
    }
  }

  /** It does happen: a peer listed under a provisional id that turns out to be the node that refused is asked again. */
  lemma AliasIsPlacedAgain(refused: Id, alias: Id, lease: nat)
    requires refused != alias && alias != 0
    ensures var n := Node(alias, 0, "", "", false, 0.0, 0, 0, 0, 0, 0.0);
      var job := Job(0, false, 0, "", false, false, false, 0, 0, 0);
      PlaceOnce(job, {refused}, map[], Look([n], map[alias := Answer(refused, true, lease)], 0)) == Some(Placement(alias, refused, lease))
  {
    var n := Node(alias, 0, "", "", false, 0.0, 0, 0, 0, 0, 0.0);
    var job := Job(0, false, 0, "", false, false, false, 0, 0, 0);
    var look := Look([n], map[alias := Answer(refused, true, lease)], 0);
    assert Rejection(job, {refused}, n).None?;
    hide Sort, ByMerit, FirstTaker;
    One(n, Allowed(job));
    One(n, Standing(job, {refused}, [n]));
    assert Eligible(job, {refused}, [n]) == [n];
    hide Eligible, Judged, Rejection;
    One(n, (m: Node) => m.gpu);
    One(n, (m: Node) => !m.gpu);
    assert [] + Sort([n], ByScore()) == Sort([n], ByScore()) == [n];
    assert Asked(job, {refused}, map[], look) == [n];
    hide Asked;
    assert FirstTaker(look, [n]) == Ask(look, n);
  }

  lemma One(n: Node, p: Node -> bool)
    ensures Where([n], p) == if p(n) then [n] else []
    ensures forall key: Node -> real :: Sort([n], key) == [n]
    ensures forall key: Node -> real :: Sort([], key) == []
  {
    assert [n][..0] == [];
    assert Where([], p) == [];
    forall key: Node -> real
      ensures Sort([n], key) == [n]
    {
      assert Sort([], key) == [];
      assert Insert([], n, key) == [n];
    }
  }

  /** The nodes that refused the closure in this log. */
  function Refusers(log: seq<Record>): set<Id> {
    if log == [] then {}
    else
      var e := log[|log| - 1];
      Refusers(log[..|log| - 1])
        + if e.Run? && !e.quit && e.outcome.Crashed? && e.outcome.refusal then {e.node} else {}
  }

  function RunsIn(log: seq<Record>): nat {
    if log == [] then 0 else RunsIn(log[..|log| - 1]) + if log[|log| - 1].Run? then 1 else 0
  }

  /** No node runs the job after refusing it. */
  ghost predicate RefusalsAreFinal(log: seq<Record>) {
    forall j | 0 <= j < |log| && log[j].Run? :: log[j].node !in Refusers(log[..j])
  }

  /** How many runs there have been: one for every failure counted and every refusal, and at most one more that ended it all. */
  ghost predicate Bounded(l: Life, refused: set<Id>) {
    && l.refused == refused + Refusers(l.log) && Refusers(l.log) !! refused
    && RunsIn(l.log) <= l.failures + |Refusers(l.log)| + (if l.ending.Some? && l.ending != Some(GaveUp) then 1 else 0)
    && l.failures <= MAX_EXEC_ATTEMPTS && (l.failures == MAX_EXEC_ATTEMPTS ==> l.ending == Some(GaveUp))
    && RefusalsAreFinal(l.log)
  }

  lemma RunCounts(log: seq<Record>, e: Record)
    ensures RunsIn(log + [e]) == RunsIn(log) + if e.Run? then 1 else 0
    ensures Refusers(log + [e]) ==
      Refusers(log) + if e.Run? && !e.quit && e.outcome.Crashed? && e.outcome.refusal then {e.node} else {}
    ensures RefusalsAreFinal(log) && (e.Run? ==> e.node !in Refusers(log)) ==> RefusalsAreFinal(log + [e])
  {
    var all := log + [e];
    assert all[..|log|] == log;
    forall j | 0 <= j < |all| && all[j].Run? && RefusalsAreFinal(log) && (e.Run? ==> e.node !in Refusers(log))
      ensures all[j].node !in Refusers(all[..j])
    {
      if j < |log| {
        assert all[..j] == log[..j] && log[j] == all[j];
      }
    }
  }

  lemma TurnBounded(job: Job, l: Life, t: Turn, refused: set<Id>)
    requires Bounded(l, refused)
    requires var p := Place(job, l.refused, l.tried, t.looks); p.Some? ==> p.value.node !in l.refused
    ensures Bounded(TakeTurn(job, l, t), refused)
  {
    hide RunsIn, RefusalsAreFinal, Refusers, Place;
    var p := Place(job, l.refused, l.tried, t.looks);
    if l.ending.None? && !t.quitBefore && p.Some? {
      var g, c, r := Grant(p.value.lease, p.value.node), Commit(p.value.lease),
                     Run(p.value.lease, p.value.node, t.outcome, t.quitDuring);
      RunCounts(l.log, g);
      RunCounts(l.log + [g], c);
      RunCounts(l.log + [g] + [c], r);
      if t.committed {
        RunBounded(l, l.log + [g] + [c] + [r], p.value, t, refused);
      }
    }
  }

  /** What a run leaves behind, its log apart. */
  ghost predicate Followed(l: Life, l': Life, p: Placement, refuses: bool) {
    if refuses then l' == l.(log := l'.log, refused := l.refused + {p.node})
    else
      && l'.refused == l.refused
      && (l'.failures == MAX_EXEC_ATTEMPTS ==> l'.ending == Some(GaveUp))
      && ((l'.failures == l.failures && l'.ending.Some? && l'.ending != Some(GaveUp))
          || (l'.failures == l.failures + 1 <= MAX_EXEC_ATTEMPTS))
  }

  lemma RunFollowed(l: Life, log: seq<Record>, p: Placement, t: Turn)
    requires l.ending.None? && l.failures < MAX_EXEC_ATTEMPTS
    ensures var l' := AfterRun(l.(log := log), p, t);
      && Followed(l, l', p, !t.quitDuring && t.outcome.Crashed? && t.outcome.refusal)
      && (l'.log == log || exists s: Status :: l'.log == log + [Complete(p.lease, s)])
  {
  }

  lemma RunBounded(l: Life, log: seq<Record>, p: Placement, t: Turn, refused: set<Id>)
    requires Bounded(l, refused) && l.ending.None? && p.node !in l.refused
    requires RunsIn(log) == RunsIn(l.log) + 1 && RefusalsAreFinal(log)
    requires Refusers(log) ==
      Refusers(l.log) + if !t.quitDuring && t.outcome.Crashed? && t.outcome.refusal then {p.node} else {}
    ensures Bounded(AfterRun(l.(log := log), p, t), refused)
  {
    hide RunsIn, RefusalsAreFinal, Refusers;
    var l' := AfterRun(l.(log := log), p, t);
    var refuses := !t.quitDuring && t.outcome.Crashed? && t.outcome.refusal;
    RunFollowed(l, log, p, t);
    assert RunsIn(l'.log) == RunsIn(log) && Refusers(l'.log) == Refusers(log) && RefusalsAreFinal(l'.log) by {
      if s: Status :| l'.log == log + [Complete(p.lease, s)] {
        hide AfterRun, Followed, Bounded;
        RunCounts(log, Complete(p.lease, s));
      }
    }
    hide *;
    FollowedBounded(l, l', p, refuses, refused);
  }

  lemma FollowedBounded(l: Life, l': Life, p: Placement, refuses: bool, refused: set<Id>)
    requires Bounded(l, refused) && l.ending.None? && p.node !in l.refused && Followed(l, l', p, refuses)
    requires RunsIn(l'.log) == RunsIn(l.log) + 1 && RefusalsAreFinal(l'.log)
    requires Refusers(l'.log) == Refusers(l.log) + if refuses then {p.node} else {}
    ensures Bounded(l', refused)
  {
    hide RunsIn, RefusalsAreFinal, Refusers;
    if refuses {
      assert |Refusers(l.log) + {p.node}| == |Refusers(l.log)| + 1;
      assert l.refused + {p.node} == refused + (Refusers(l.log) + {p.node});
    } else {
      assert Refusers(l'.log) == Refusers(l.log);
    }
  }

  ghost predicate AllStable(turns: seq<Turn>) {
    forall i | 0 <= i < |turns| :: StableIds(turns[i].looks)
  }

  lemma {:induction false} RunsAreBounded(job: Job, refused: set<Id>, tried: map<Id, nat>, turns: seq<Turn>)
    requires AllStable(turns)
    ensures Bounded(TakeTurns(job, NewLife(refused, tried), turns), refused)
  {
    if turns == [] {
    } else {
      var front, t := turns[..|turns| - 1], turns[|turns| - 1];
      var l := TakeTurns(job, NewLife(refused, tried), front);
      assert TakeTurns(job, NewLife(refused, tried), turns) == TakeTurn(job, l, t);
      assert forall i | 0 <= i < |front| :: front[i] == turns[i];
      RunsAreBounded(job, refused, tried, front);
      PlacedUnderAnotherName(job, l.refused, l.tried, t.looks);
      assert StableIds(t.looks);
      hide *;
      TurnBounded(job, l, t, refused);
    }
  }

  /** The nodes the job has run on. */
  function NodesIn(log: seq<Record>): set<Id> {
    if log == [] then {}
    else NodesIn(log[..|log| - 1]) + if log[|log| - 1].Run? then {log[|log| - 1].node} else {}
  }

  lemma {:induction false} RefusersRan(log: seq<Record>)
    ensures Refusers(log) <= NodesIn(log) && |Refusers(log)| <= |NodesIn(log)|
  {
    if log != [] {
      RefusersRan(log[..|log| - 1]);
    }
    assert NodesIn(log) == Refusers(log) + (NodesIn(log) - Refusers(log));
  }

  /** With stable ids, a node that refused the closure never runs the job again, and the job runs at most MaxExecAttempts times
      more often than there are nodes it ran on. */
  lemma RetriesAreBounded(job: Job, refused: set<Id>, tried: map<Id, nat>, turns: seq<Turn>)
    requires AllStable(turns)
    ensures var log := TakeTurns(job, NewLife(refused, tried), turns).log;
      RefusalsAreFinal(log) && RunsIn(log) <= MAX_EXEC_ATTEMPTS + |NodesIn(log)|
  {
    RunsAreBounded(job, refused, tried, turns);
    hide TakeTurns, RefusalsAreFinal, Refusers, RunsIn, NodesIn;
    RefusersRan(TakeTurns(job, NewLife(refused, tried), turns).log);
  }

  // ---- the loops ----

  /** The coordinator's own memory: which nodes refused this job, and how often it failed on which. */
  class Dispatcher {
    const job: Job
    var refused: set<Id>
    var tried: map<Id, nat>

    constructor (job: Job)
      ensures this.job == job && refused == {} && tried == map[]
    {
      this.job, refused, tried := job, {}, map[];
    }

    method AskInOrder(look: Look, order: seq<Node>) returns (p: Option<Placement>)
      ensures p == FirstTaker(look, order)
    {
      p := None;
      for i := 0 to |order|
        invariant p == FirstTaker(look, order[..i]) == None
      {
        assert order[..i + 1][..i] == order[..i];
        p := Ask(look, order[i]);
        if p.Some? {
          TakerStays(look, order, i + 1);
          return;
        }
      }
      assert order[..|order|] == order;
    }

    /** FindNode's candidates, in the order they are listed: those the job may run on, judged in place, and the ones turned down
        left out. */
    method FindNode(listed: seq<Node>) returns (eligible: seq<Node>)
      ensures eligible == Eligible(job, refused, listed)
    {
      var nodes: seq<Node> := [];
      for i := 0 to |listed|
        invariant nodes == Where(listed[..i], Allowed(job))
      {
        assert listed[..i + 1][..i] == listed[..i];
        if !Excluded(job, listed[i]) {
          nodes := nodes + [listed[i]];
        }
      }
      assert listed[..|listed|] == listed;
      var list := JudgeAll(nodes, job, refused);
      eligible := [];
      for i := 0 to list.Length
        invariant eligible == Where(nodes[..i], Standing(job, refused, nodes))
      {
        assert nodes[..i + 1][..i] == nodes[..i];
        assert list[..][i] == Judged(job, refused, nodes, nodes[i]);
        if list[i].rejected.None? {
          eligible := eligible + [list[i].node];
        }
      }
      assert nodes[..|nodes|] == nodes;
    }

    method PlaceWithRetry(looks: seq<Look>) returns (p: Option<Placement>)
      ensures p == Place(job, refused, tried, looks)
    {
      p := None;
      for i := 0 to |looks|
        invariant p == Place(job, refused, tried, looks[..i]) == None
      {
        assert looks[..i + 1][..i] == looks[..i];
        var eligible := FindNode(looks[i].listed);
        p := AskInOrder(looks[i], Chosen(job, eligible, tried, looks[i].turn));
        if p.Some? {
          PlacementStays(job, refused, tried, looks, i + 1);
          return;
        }
      }
      assert looks[..|looks|] == looks;
    }

    /** ExecuteWithRetry, on a script of what the nodes and the user do. Whatever happens, every lease is settled when it
        returns. */
    method ExecuteWithRetry(turns: seq<Turn>) returns (ending: Option<Ending>, log: seq<Record>)
      modifies this
      ensures var l := TakeTurns(job, NewLife(old(refused), old(tried)), turns);
        ending == l.ending && log == l.log && refused == l.refused && tried == l.tried
      ensures AllSettled(log)
    {
      ending, log := None, [];
      var failures := 0;
      ghost var l := NewLife(refused, tried);
      for i := 0 to |turns|
        invariant ending == None && l == Life(refused, tried, failures, log, None)
        invariant l == TakeTurns(job, NewLife(old(refused), old(tried)), turns[..i])
        invariant AllSettled(log)
      {
        var t := turns[i];
        assert turns[..i + 1][..i] == turns[..i];
        l := TakeTurn(job, l, t);
        LifeStays(job, NewLife(old(refused), old(tried)), turns, i + 1);
        hide TakeTurns, Place, AllSettled, AllOwing, AfterFailure, TriedOn, StatusOf;
        StatusIs(t.outcome, t.quitDuring);
        if t.quitBefore {
          return Some(Quit), log;
        }
        var p := PlaceWithRetry(t.looks);
        if p.None? {
          return Some(NoNode), log;
        }
        var node, lease := p.value.node, p.value.lease;
        GrantSettles(log, lease, node);
        RunOwes(log, lease, node, t.outcome, t.quitDuring);
        log := log + [Grant(lease, node)];
        if !t.committed {
          continue;
        }
        log := log + [Commit(lease)];
        log := log + [Run(lease, node, t.outcome, t.quitDuring)];
        if t.outcome.Succeeded? {
          CompleteSettles(log, lease, Success);
          log := log + [Complete(lease, Success)];
          return Some(Done(node)), log;
        }
        if t.outcome.Detached? {
          DetachedSettles(log, lease);
          return Some(LeftRunning(node)), log;
        }
        if t.quitDuring {
          CompleteSettles(log, lease, Cancelled);
          log := log + [Complete(lease, Cancelled)];
          return Some(Quit), log;
        }
        CompleteSettles(log, lease, Failure);
        log := log + [Complete(lease, Failure)];
        ending, failures := NoteFailure(node, t, failures, log);
        if ending.Some? {
          return;
        }
      }
      assert turns[..|turns|] == turns;
    }

    /** What is remembered of a node the run failed on, and how the life ends if it does. */
    method NoteFailure(node: Id, t: Turn, before: nat, ghost log: seq<Record>) returns (ending: Option<Ending>, failures: nat)
      requires t.outcome.Crashed?
      modifies this`refused, this`tried
      ensures Life(refused, tried, failures, log, ending) ==
        AfterFailure(Life(old(refused), old(tried), before, log, None), node, t.outcome.refusal, t.outcome.permanent, t.quitWaiting)
    {
      ending, failures := None, before;
      if t.outcome.refusal {
        refused := refused + {node};
        return;
      }
      if t.outcome.permanent {
        return Some(Hopeless), failures;
      }
      tried := tried[node := TriedOn(tried, node) + 1];
      failures := failures + 1;
      if failures >= MAX_EXEC_ATTEMPTS {
        return Some(GaveUp), failures;
      }
      if t.quitWaiting {
        return Some(Quit), failures;
      }
    }
  }

  lemma {:induction false} TakerStays(look: Look, order: seq<Node>, i: nat)
    requires i <= |order| && FirstTaker(look, order[..i]).Some?
    ensures FirstTaker(look, order) == FirstTaker(look, order[..i])
    decreases |order|
  {
    if i == |order| {
      assert order[..i] == order;
    } else {
      assert order[..|order| - 1][..i] == order[..i];
      TakerStays(look, order[..|order| - 1], i);
    }
  }

  lemma {:induction false} PlacementStays(job: Job, refused: set<Id>, tried: map<Id, nat>, looks: seq<Look>, i: nat)
    requires i <= |looks| && Place(job, refused, tried, looks[..i]).Some?
    ensures Place(job, refused, tried, looks) == Place(job, refused, tried, looks[..i])
    decreases |looks|
  {
    if i == |looks| {
      assert looks[..i] == looks;
    } else {
      assert looks[..|looks| - 1][..i] == looks[..i];
      PlacementStays(job, refused, tried, looks[..|looks| - 1], i);
    }
  }

  lemma {:induction false} LifeStays(job: Job, l: Life, turns: seq<Turn>, i: nat)
    requires i <= |turns|
    ensures TakeTurns(job, l, turns[..i]).ending.Some? ==> TakeTurns(job, l, turns) == TakeTurns(job, l, turns[..i])
    decreases |turns|
  {
    if i == |turns| {
      assert turns[..i] == turns;
    } else {
      assert turns[..|turns| - 1][..i] == turns[..i];
      LifeStays(job, l, turns[..|turns| - 1], i);
    }
  }

  // ---- waiting between retries ----

  // in nanoseconds
  const MAX_BACKOFF: nat := 120_000_000_000
  const DEFAULT_BACKOFF: nat := 2_000_000_000

  function Doubled(base: nat, times: nat): nat {
    if times == 0 then base else 2 * Doubled(base, times - 1)
  }

  lemma {:induction false} DoublingGrows(base: nat, a: nat, b: nat)
    requires a <= b
    ensures Doubled(base, a) <= Doubled(base, b)
  {
    if a < b {
      DoublingGrows(base, a, b - 1);
    }
  }

  /** The wait doubles with every failure in a row, up to a ceiling; a loop that stops doubling at the ceiling gives the same. */
  method Backoff(base: int, failures: nat) returns (d: nat)
    ensures var from: nat := if base <= 0 then DEFAULT_BACKOFF else base;
      var grown := Doubled(from, if failures == 0 then 0 else failures - 1);
      d == if grown <= MAX_BACKOFF then grown else MAX_BACKOFF
    ensures d <= 120_000_000_000 && (base <= 0 && failures <= 1 ==> d == 2_000_000_000)
  {
    var from: nat := if base <= 0 then DEFAULT_BACKOFF else base;
    d := from;
    var i := 1;
    while i < failures && d < MAX_BACKOFF
      invariant 1 <= i && (failures > 0 ==> i <= failures) && (failures == 0 ==> i == 1) && d == Doubled(from, i - 1)
      decreases failures - i
    {
      d := 2 * d;
      i := i + 1;
    }
    if i < failures {
      DoublingGrows(from, i - 1, failures - 1);
    }
    assert i >= failures ==> i - 1 == if failures == 0 then 0 else failures - 1;
    if d > MAX_BACKOFF {
      d := MAX_BACKOFF;
    }
  }
}
