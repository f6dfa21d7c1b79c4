/** The memory watchdog: which processes belong to the daemon, what they hold together, and which one to kill. Process
    tables come from a scan that is not atomic, so nothing is assumed of their parent links: they may even be cyclic. */
module Watchdog {
  import opened Wrappers
  import opened Counting

  datatype Proc = Proc(pid: int, ppid: int, rss: nat)

  // ---- the walk, as a function ----

  function PidsOf(procs: seq<Proc>): set<int> {
    if procs == [] then {} else PidsOf(procs[..|procs| - 1]) + {procs[|procs| - 1].pid}
  }

  function Listed(procs: seq<Proc>): (q: seq<int>)
    ensures |q| == |procs| && forall k | 0 <= k < |q| :: q[k] == procs[k].pid
  {
    seq(|procs|, k requires 0 <= k < |procs| => procs[k].pid)
  }

  function Children(procs: seq<Proc>, pid: int): seq<Proc> {
    if procs == [] then []
    else
      var p := procs[|procs| - 1];
      var front := Children(procs[..|procs| - 1], pid);
      if p.ppid == pid then front + [p] else front
  }

  function Selves(procs: seq<Proc>, self: int): seq<Proc> {
    if procs == [] then []
    else
      var p := procs[|procs| - 1];
      var front := Selves(procs[..|procs| - 1], self);
      if p.pid == self then front + [p] else front
  }

  /** The processes of a list not met before, each met once. */
  function Unmet(list: seq<Proc>, seen: set<int>): seq<Proc> {
    if list == [] then []
    else
      var front, p := Unmet(list[..|list| - 1], seen), list[|list| - 1];
      if p.pid in seen || p.pid in PidsOf(front) then front else front + [p]
  }

  /** What one process taken off the worklist adds to it. */
  function Met(procs: seq<Proc>, pid: int, seen: set<int>): seq<Proc> {
    Unmet(Children(procs, pid), seen)
  }

  /** Everything the worklist meets, in the order it does. */
  function Walk(procs: seq<Proc>, queue: seq<int>, seen: set<int>): (out: seq<Proc>)
    decreases |PidsOf(procs) - seen|, |queue|
  {
    if queue == [] then []
    else
      var f := Met(procs, queue[0], seen);
      if f == [] then Walk(procs, queue[1..], seen)
      else
        Fewer(procs, queue[0], seen);
        f + Walk(procs, queue[1..] + Listed(f), seen + PidsOf(f))
  }

  /** The daemon and its descendants. */
  function TreeOf(procs: seq<Proc>, self: int): seq<Proc> {
    Selves(procs, self) + Walk(procs, [self], {self})
  }

  lemma {:induction false} PidsAre(procs: seq<Proc>)
    ensures forall p | p in procs :: p.pid in PidsOf(procs)
    ensures forall x | x in PidsOf(procs) :: exists p | p in procs :: p.pid == x
  {
    if procs != [] {
      PidsAre(procs[..|procs| - 1]);
    }
  }

  lemma PidsSnoc(procs: seq<Proc>, p: Proc)
    ensures PidsOf(procs + [p]) == PidsOf(procs) + {p.pid}
  {
    assert (procs + [p])[..|procs|] == procs;
  }

  lemma {:induction false} ChildrenAre(procs: seq<Proc>, pid: int)
    ensures forall p :: p in Children(procs, pid) <==> p in procs && p.ppid == pid
  {
    if procs != [] {
      ChildrenAre(procs[..|procs| - 1], pid);
    }
  }

  lemma {:induction false} UnmetIn(list: seq<Proc>, seen: set<int>)
    ensures forall p | p in Unmet(list, seen) :: p in list && p.pid !in seen
  {
    if list != [] {
      UnmetIn(list[..|list| - 1], seen);
    }
  }

  lemma {:induction false} UnmetPids(list: seq<Proc>, seen: set<int>)
    ensures PidsOf(Unmet(list, seen)) == PidsOf(list) - seen
  {
    if list != [] {
      UnmetPids(list[..|list| - 1], seen);
      PidsSnoc(Unmet(list[..|list| - 1], seen), list[|list| - 1]);
    }
  }

  lemma {:induction false} UnmetOnce(list: seq<Proc>, seen: set<int>)
    ensures Once(Unmet(list, seen))
  {
    if list != [] {
      var front, p := list[..|list| - 1], list[|list| - 1];
      var f := Unmet(front, seen);
      UnmetOnce(front, seen);
      assert Unmet(list, seen) == if p.pid in seen || p.pid in PidsOf(f) then f else f + [p];
      hide *;
      PidsHas(f);
      if p.pid !in PidsOf(f) {
        OnceMore(f, p);
      }
    }
  }

  lemma UnmetAre(list: seq<Proc>, seen: set<int>)
    ensures forall p | p in Unmet(list, seen) :: p in list && p.pid !in seen
    ensures PidsOf(Unmet(list, seen)) == PidsOf(list) - seen
    ensures Once(Unmet(list, seen))
  {
    hide *;
    UnmetIn(list, seen);
    UnmetPids(list, seen);
    UnmetOnce(list, seen);
  }

  lemma PidsHas(procs: seq<Proc>)
    ensures forall p | p in procs :: p.pid in PidsOf(procs)
  {
    PidsAre(procs);
  }

  lemma OnceMore(f: seq<Proc>, p: Proc)
    requires Once(f) && forall q | q in f :: q.pid != p.pid
    ensures Once(f + [p])
  {
    assert forall k | 0 <= k < |f| :: f[k] in f;
  }

  ghost predicate Once(list: seq<Proc>) {
    forall i, j | 0 <= i < j < |list| :: list[i].pid != list[j].pid
  }

  lemma Fewer(procs: seq<Proc>, pid: int, seen: set<int>)
    requires Met(procs, pid, seen) != []
    ensures |PidsOf(procs) - (seen + PidsOf(Met(procs, pid, seen)))| < |PidsOf(procs) - seen|
  {
    var f := Met(procs, pid, seen);
    UnmetAre(Children(procs, pid), seen);
    ChildrenAre(procs, pid);
    PidsAre(procs);
    PidsAre(f);
    assert f[0] in f && f[0] in Children(procs, pid) && f[0] in procs;
    var x := f[0].pid;
    var a, b := PidsOf(procs) - (seen + PidsOf(f)), PidsOf(procs) - seen;
    hide PidsOf, Unmet, Children, Met;
    assert x in b && a <= b - {x};
    Subsize(a, b - {x});
  }

  // ---- what the walk meets ----

  lemma MetAre(procs: seq<Proc>, pid: int, seen: set<int>)
    ensures var f := Met(procs, pid, seen);
      && (forall p | p in f :: p in procs && p.ppid == pid && p.pid !in seen && p.pid in PidsOf(f))
      && (forall p | p in procs && p.ppid == pid :: p.pid in seen + PidsOf(f))
      && (forall x :: x in PidsOf(f) <==> x in Listed(f))
      && Once(f) && PidsOf(f) !! seen
  {
    var c := Children(procs, pid);
    var f := Met(procs, pid, seen);
    UnmetAre(c, seen);
    ChildrenAre(procs, pid);
    PidsAre(c);
    PidsAre(f);
    assert f == Unmet(c, seen);
    hide PidsOf, Unmet, Children, Met, Listed;
    forall x
      ensures x in PidsOf(f) <==> x in Listed(f)
    {
      ListedHas(f, x);
    }
  }

  lemma ListedHas(f: seq<Proc>, x: int)
    ensures x in PidsOf(f) <==> x in Listed(f)
  {
    PidsAre(f);
    if x in PidsOf(f) {
      var p :| p in f && p.pid == x;
      var k :| 0 <= k < |f| && f[k] == p;
      assert Listed(f)[k] == x;
    }
    if x in Listed(f) {
      var k :| 0 <= k < |f| && Listed(f)[k] == x;
      assert f[k] in f;
    }
  }

  /** One turn of the worklist. */
  lemma TakesOne(procs: seq<Proc>, queue: seq<int>, seen: set<int>)
    requires queue != []
    ensures var f := Met(procs, queue[0], seen);
      var queue', seen' := queue[1..] + Listed(f), seen + PidsOf(f);
      && Walk(procs, queue, seen) == f + Walk(procs, queue', seen')
      && (|PidsOf(procs) - seen'| < |PidsOf(procs) - seen|
          || (|PidsOf(procs) - seen'| == |PidsOf(procs) - seen| && |queue'| < |queue|))
  {
    var f := Met(procs, queue[0], seen);
    if f == [] {
      assert queue[1..] + Listed(f) == queue[1..] && seen + PidsOf(f) == seen;
    } else {
      Fewer(procs, queue[0], seen);
    }
  }

  predicate Parent(procs: seq<Proc>, a: int, b: int) {
    exists p | p in procs :: p.ppid == a && p.pid == b
  }

  /** A chain of parent links from the daemon down. */
  ghost predicate Chain(procs: seq<Proc>, path: seq<int>, self: int, pid: int) {
    && path != [] && path[0] == self && path[|path| - 1] == pid
    && forall k | 0 <= k < |path| - 1 :: Parent(procs, path[k], path[k + 1])
  }

  ghost predicate Descends(procs: seq<Proc>, self: int, pid: int) {
    exists path: seq<int> :: Chain(procs, path, self, pid)
  }

  lemma SelfDescends(procs: seq<Proc>, self: int)
    ensures Descends(procs, self, self)
  {
    assert Chain(procs, [self], self, self);
  }

  lemma ChildDescends(procs: seq<Proc>, self: int, p: Proc)
    requires p in procs && Descends(procs, self, p.ppid)
    ensures Descends(procs, self, p.pid)
  {
    var path: seq<int> :| Chain(procs, path, self, p.ppid);
    assert Parent(procs, p.ppid, p.pid);
    assert Chain(procs, path + [p.pid], self, p.pid);
  }

  ghost predicate AllDescend(procs: seq<Proc>, self: int, queue: seq<int>) {
    forall x | x in queue :: Descends(procs, self, x)
  }

  lemma ChildrenDescend(procs: seq<Proc>, self: int, queue: seq<int>, seen: set<int>)
    requires queue != [] && AllDescend(procs, self, queue)
    ensures var f := Met(procs, queue[0], seen);
      && (forall p | p in f :: p in procs && Descends(procs, self, p.pid))
      && AllDescend(procs, self, queue[1..] + Listed(f))
  {
    hide Descends, Met, PidsOf;
    var f := Met(procs, queue[0], seen);
    MetAre(procs, queue[0], seen);
    assert queue[0] in queue;
    forall p | p in f
      ensures Descends(procs, self, p.pid)
    {
      ChildDescends(procs, self, p);
    }
    assert forall k | 0 <= k < |f| :: f[k] in f;
  }

  /** The worklist meets only descendants. */
  lemma {:induction false} WalkDescends(procs: seq<Proc>, self: int, queue: seq<int>, seen: set<int>)
    requires AllDescend(procs, self, queue)
    ensures forall p | p in Walk(procs, queue, seen) :: p in procs && Descends(procs, self, p.pid)
    decreases |PidsOf(procs) - seen|, |queue|
  {
    if queue != [] {
      var f := Met(procs, queue[0], seen);
      TakesOne(procs, queue, seen);
      ChildrenDescend(procs, self, queue, seen);
      hide *;
      WalkDescends(procs, self, queue[1..] + Listed(f), seen + PidsOf(f));
    }
  }

  /** Every process whose parent has been taken off the worklist has been met. */
  ghost predicate ClosedBut(procs: seq<Proc>, seen: set<int>, queue: seq<int>) {
    && (forall x | x in queue :: x in seen)
    && (forall p | p in procs && p.ppid in seen && p.ppid !in queue :: p.pid in seen)
  }

  lemma StaysClosed(procs: seq<Proc>, queue: seq<int>, seen: set<int>)
    requires queue != [] && ClosedBut(procs, seen, queue)
    ensures var f := Met(procs, queue[0], seen);
      ClosedBut(procs, seen + PidsOf(f), queue[1..] + Listed(f))
  {
    MetAre(procs, queue[0], seen);
    hide Met, PidsOf, Listed;
    assert queue == [queue[0]] + queue[1..];
  }

  lemma {:induction false} WalkCloses(procs: seq<Proc>, queue: seq<int>, seen: set<int>)
    requires ClosedBut(procs, seen, queue)
    ensures var all := seen + PidsOf(Walk(procs, queue, seen));
      forall p | p in procs && p.ppid in all :: p.pid in all
    decreases |PidsOf(procs) - seen|, |queue|
  {
    if queue != [] {
      var f := Met(procs, queue[0], seen);
      var queue', seen' := queue[1..] + Listed(f), seen + PidsOf(f);
      TakesOne(procs, queue, seen);
      StaysClosed(procs, queue, seen);
      hide *;
      PidsConcat(f, Walk(procs, queue', seen'));
      WalkCloses(procs, queue', seen');
      assert seen + PidsOf(Walk(procs, queue, seen)) == seen' + PidsOf(Walk(procs, queue', seen'));
    }
  }

  lemma {:induction false} PidsConcat(a: seq<Proc>, b: seq<Proc>)
    ensures PidsOf(a + b) == PidsOf(a) + PidsOf(b)
  {
    if b == [] {
      assert a + b == a;
    } else {
      PidsConcat(a, b[..|b| - 1]);
      assert (a + b)[..|a + b| - 1] == a + b[..|b| - 1];
    }
  }

  lemma {:induction false} ChainStays(procs: seq<Proc>, path: seq<int>, self: int, pid: int, all: set<int>)
    requires Chain(procs, path, self, pid) && self in all && forall p | p in procs && p.ppid in all :: p.pid in all
    ensures pid in all
    decreases |path|
  {
    if |path| > 1 {
      var front := path[..|path| - 1];
      ChainStays(procs, front, self, front[|front| - 1], all);
      assert Parent(procs, path[|path| - 2], path[|path| - 1]);
    }
  }

  /** The worklist, which ends on any table, meets exactly the daemon's descendants. */
  lemma WalkIsExact(procs: seq<Proc>, self: int, pid: int)
    ensures pid in {self} + PidsOf(Walk(procs, [self], {self})) <==> Descends(procs, self, pid)
  {
    hide Walk, PidsOf, Chain;
    SelfDescends(procs, self);
    if Descends(procs, self, pid) {
      var path: seq<int> :| Chain(procs, path, self, pid);
      WalkCloses(procs, [self], {self});
      ChainStays(procs, path, self, pid, {self} + PidsOf(Walk(procs, [self], {self})));
    }
    hide Descends;
    PidsAre(Walk(procs, [self], {self}));
    WalkDescends(procs, self, [self], {self});
  }

  lemma OnceConcat(a: seq<Proc>, b: seq<Proc>, seen: set<int>)
    requires Once(a) && Once(b) && (forall p | p in a :: p.pid !in seen) && (forall p | p in b :: p.pid !in seen + PidsOf(a))
    ensures Once(a + b) && (forall p | p in a + b :: p.pid !in seen)
  {
    PidsAre(a);
    assert forall i | 0 <= i < |b| :: b[i] in b;
    assert forall i | 0 <= i < |a| :: a[i] in a;
    hide PidsOf;
  }

  /** No process is met twice, and the daemon never. */
  lemma {:induction false} WalkMeetsOnce(procs: seq<Proc>, queue: seq<int>, seen: set<int>)
    ensures forall p | p in Walk(procs, queue, seen) :: p.pid !in seen
    ensures Once(Walk(procs, queue, seen))
    decreases |PidsOf(procs) - seen|, |queue|
  {
    if queue != [] {
      var f := Met(procs, queue[0], seen);
      var queue', seen' := queue[1..] + Listed(f), seen + PidsOf(f);
      TakesOne(procs, queue, seen);
      MetAre(procs, queue[0], seen);
      hide *;
      WalkMeetsOnce(procs, queue', seen');
      OnceConcat(f, Walk(procs, queue', seen'), seen);
    }
  }

  // ---- the total and the victim ----

  function SumRss(list: seq<Proc>): nat {
    if list == [] then 0 else SumRss(list[..|list| - 1]) + list[|list| - 1].rss
  }

  const NOBODY := Proc(0, 0, 0)

  /** The first of the largest, if anything is held at all. */
  function Victim(list: seq<Proc>): Proc {
    if list == [] then NOBODY
    else
      var v, p := Victim(list[..|list| - 1]), list[|list| - 1];
      if p.rss > v.rss then p else v
  }

  lemma {:induction false} VictimIs(list: seq<Proc>)
    ensures forall p | p in list :: p.rss <= Victim(list).rss
    ensures (Victim(list) in list && Victim(list).rss > 0) || Victim(list) == NOBODY
  {
    if list != [] {
      VictimIs(list[..|list| - 1]);
    }
  }

  function PickVictim(procs: seq<Proc>, self: int, ceiling: int): (Proc, nat, bool) {
    var met := Walk(procs, [self], {self});
    var total, v := SumRss(Selves(procs, self)) + SumRss(met), Victim(met);
    if total <= ceiling || v.pid == 0 then (NOBODY, total, false) else (v, total, true)
  }

  /** What these processes of a table hold together. */
  function HeldBy(procs: seq<Proc>, pids: set<int>): nat {
    if procs == [] then 0
    else
      var p := procs[|procs| - 1];
      HeldBy(procs[..|procs| - 1], pids) + if p.pid in pids then p.rss else 0
  }

  lemma {:induction false} HeldTogether(procs: seq<Proc>, a: set<int>, b: set<int>)
    requires a !! b
    ensures HeldBy(procs, a + b) == HeldBy(procs, a) + HeldBy(procs, b)
  {
    if procs != [] {
      HeldTogether(procs[..|procs| - 1], a, b);
    }
  }

  lemma {:induction false} HeldByNone(procs: seq<Proc>, pids: set<int>)
    requires forall k | 0 <= k < |procs| :: procs[k].pid !in pids
    ensures HeldBy(procs, pids) == 0
  {
    if procs != [] {
      HeldByNone(procs[..|procs| - 1], pids);
    }
  }

  lemma {:induction false} HeldByOne(procs: seq<Proc>, k: nat)
    requires Once(procs) && k < |procs|
    ensures HeldBy(procs, {procs[k].pid}) == procs[k].rss
  {
    var front := procs[..|procs| - 1];
    if k == |procs| - 1 {
      HeldByNone(front, {procs[k].pid});
    } else {
      HeldByOne(front, k);
    }
  }

  lemma {:induction false} SumIsHeld(procs: seq<Proc>, list: seq<Proc>)
    requires Once(procs) && Once(list) && forall p | p in list :: p in procs
    ensures SumRss(list) == HeldBy(procs, PidsOf(list))
  {
    if list == [] {
      HeldByNone(procs, {});
    } else {
      var front, p := list[..|list| - 1], list[|list| - 1];
      assert p in list;
      var k :| 0 <= k < |procs| && procs[k] == p;
      PidsAre(front);
      SumIsHeld(procs, front);
      HeldByOne(procs, k);
      assert p.pid !in PidsOf(front);
      HeldTogether(procs, PidsOf(front), {p.pid});
    }
  }

  lemma {:induction false} SelfIsHeld(procs: seq<Proc>, self: int)
    ensures SumRss(Selves(procs, self)) == HeldBy(procs, {self})
  {
    if procs != [] {
      var front, p := procs[..|procs| - 1], procs[|procs| - 1];
      SelfIsHeld(front, self);
      if p.pid == self {
        assert Selves(procs, self)[..|Selves(procs, self)| - 1] == Selves(front, self);
      } else {
        assert Selves(procs, self) == Selves(front, self);
      }
    }
  }

  lemma WalkOfSelf(procs: seq<Proc>, self: int)
    ensures var met := Walk(procs, [self], {self});
      && Once(met) && (forall p | p in met :: p in procs && p.pid != self && Descends(procs, self, p.pid))
      && self !in PidsOf(met)
  {
    hide Walk, Descends, PidsOf, Once;
    SelfDescends(procs, self);
    WalkDescends(procs, self, [self], {self});
    WalkMeetsOnce(procs, [self], {self});
    PidsAre(Walk(procs, [self], {self}));
  }

  /** The total is what the daemon and its descendants hold, each counted once. */
  lemma TotalIsTheTrees(procs: seq<Proc>, self: int, ceiling: int, tree: set<int>)
    requires Once(procs) && forall pid :: pid in tree <==> Descends(procs, self, pid)
    ensures PickVictim(procs, self, ceiling).1 == HeldBy(procs, tree)
  {
    hide Walk, Descends, PidsOf, SumRss, Selves, Victim, HeldBy, Once;
    var met := Walk(procs, [self], {self});
    forall pid
      ensures pid in {self} + PidsOf(met) <==> pid in tree
    {
      WalkIsExact(procs, self, pid);
    }
    assert tree == {self} + PidsOf(met);
    WalkOfSelf(procs, self);
    SumIsHeld(procs, met);
    SelfIsHeld(procs, self);
    HeldTogether(procs, {self}, PidsOf(met));
  }

  /** The victim is a descendant, never the daemon, and none holds more. There is one exactly when the tree is over its
      ceiling and some descendant holds anything, unless the first of the largest has pid 0, which stands for none. */
  lemma VictimIsLargest(procs: seq<Proc>, self: int, ceiling: int)
    ensures var (victim, total, over) := PickVictim(procs, self, ceiling);
      var met := Walk(procs, [self], {self});
      && (over ==> victim in procs && victim.pid != self && Descends(procs, self, victim.pid))
      && (over ==> forall p | p in met :: p.rss <= victim.rss)
      && (over <==> total > ceiling && Victim(met).pid != 0)
      && (Victim(met) == NOBODY <==> forall p | p in met :: p.rss == 0)
  {
    hide Walk, Descends, PidsOf, SumRss, Selves, Victim, Once;
    WalkOfSelf(procs, self);
    VictimIs(Walk(procs, [self], {self}));
  }

  // ---- reading memory for the tree only ----

  function NotSelf(list: seq<Proc>, self: int): seq<Proc> {
    if list == [] then []
    else
      var p := list[|list| - 1];
      var front := NotSelf(list[..|list| - 1], self);
      if p.pid == self then front else front + [p]
  }

  lemma {:induction false} ChildrenConcat(a: seq<Proc>, b: seq<Proc>, pid: int)
    ensures Children(a + b, pid) == Children(a, pid) + Children(b, pid)
  {
    if b == [] {
      assert a + b == a;
    } else {
      ChildrenConcat(a, b[..|b| - 1], pid);
      assert (a + b)[..|a + b| - 1] == a + b[..|b| - 1];
    }
  }

  lemma {:induction false} NotSelfConcat(a: seq<Proc>, b: seq<Proc>, self: int)
    ensures NotSelf(a + b, self) == NotSelf(a, self) + NotSelf(b, self)
  {
    if b == [] {
      assert a + b == a;
    } else {
      NotSelfConcat(a, b[..|b| - 1], self);
      assert (a + b)[..|a + b| - 1] == a + b[..|b| - 1];
    }
  }

  lemma {:induction false} NotSelfTwice(list: seq<Proc>, self: int)
    ensures NotSelf(NotSelf(list, self), self) == NotSelf(list, self)
  {
    if list != [] {
      var front, p := list[..|list| - 1], list[|list| - 1];
      NotSelfTwice(front, self);
      if p.pid != self {
        NotSelfConcat(NotSelf(front, self), [p], self);
        assert NotSelf([p], self) == [p];
      }
    }
  }

  lemma {:induction false} OnlySelf(procs: seq<Proc>, self: int, pid: int)
    ensures NotSelf(Children(Selves(procs, self), pid), self) == []
  {
    if procs != [] {
      var front, p := procs[..|procs| - 1], procs[|procs| - 1];
      OnlySelf(front, self, pid);
      if p.pid == self {
        ChildrenConcat(Selves(front, self), [p], pid);
        NotSelfConcat(Children(Selves(front, self), pid), Children([p], pid), self);
        assert Children([p], pid) == [] || Children([p], pid) == [p];
      }
    }
  }

  /** The daemon, always met already, makes no difference to what is met next. */
  lemma {:induction false} UnmetNotSelf(list: seq<Proc>, self: int, seen: set<int>)
    requires self in seen
    ensures Unmet(NotSelf(list, self), seen) == Unmet(list, seen)
  {
    if list != [] {
      var front, p := list[..|list| - 1], list[|list| - 1];
      UnmetNotSelf(front, self, seen);
      if p.pid != self {
        assert NotSelf(list, self)[..|NotSelf(list, self)| - 1] == NotSelf(front, self);
      }
      hide PidsOf;
    }
  }

  lemma {:induction false} UnmetAll(list: seq<Proc>, self: int, seen: set<int>)
    requires Once(list) && self in seen && forall k | 0 <= k < |list| :: list[k].pid == self || list[k].pid !in seen
    ensures Unmet(list, seen) == NotSelf(list, self)
  {
    if list != [] {
      var front, p := list[..|list| - 1], list[|list| - 1];
      UnmetAll(front, self, seen);
      UnmetAre(front, seen);
      PidsAre(front);
      assert p.pid !in PidsOf(front);
      hide PidsOf;
    }
  }

  lemma {:induction false} ChildrenOnce(procs: seq<Proc>, pid: int)
    requires Once(procs)
    ensures Once(Children(procs, pid))
  {
    if procs != [] {
      var front, p := procs[..|procs| - 1], procs[|procs| - 1];
      ChildrenOnce(front, pid);
      ChildrenAre(front, pid);
      var c := Children(front, pid);
      forall k | 0 <= k < |c|
        ensures c[k].pid != p.pid
      {
        assert c[k] in front;
        var j :| 0 <= j < |front| && front[j] == c[k];
        assert procs[j] == c[k];
      }
    }
  }

  /** Where the worklist stands on a table of distinct processes: everything met but the daemon has a parent already taken off,
      and nothing is on the list twice. */
  ghost predicate Under(procs: seq<Proc>, self: int, queue: seq<int>, seen: set<int>) {
    && self in seen && (forall x | x in queue :: x in seen)
    && (forall i, j | 0 <= i < j < |queue| :: queue[i] != queue[j])
    && (forall p | p in procs && p.pid in seen && p.pid != self :: p.ppid in seen && p.ppid !in queue)
  }

  lemma UnderMeetsAll(procs: seq<Proc>, self: int, queue: seq<int>, seen: set<int>)
    requires Once(procs) && queue != [] && Under(procs, self, queue, seen)
    ensures Met(procs, queue[0], seen) == NotSelf(Children(procs, queue[0]), self)
  {
    var c := Children(procs, queue[0]);
    ChildrenOnce(procs, queue[0]);
    ChildrenAre(procs, queue[0]);
    forall k | 0 <= k < |c|
      ensures c[k].pid == self || c[k].pid !in seen
    {
      assert c[k] in c && queue[0] in queue;
    }
    UnmetAll(c, self, seen);
  }

  lemma SamePid(procs: seq<Proc>, p: Proc, q: Proc)
    requires Once(procs) && p in procs && q in procs && p.pid == q.pid
    ensures p == q
  {
    var i :| 0 <= i < |procs| && procs[i] == p;
    var j :| 0 <= j < |procs| && procs[j] == q;
    assert !(i < j) && !(j < i);
  }

  lemma UnderStays(procs: seq<Proc>, self: int, queue: seq<int>, seen: set<int>)
    requires Once(procs) && queue != [] && Under(procs, self, queue, seen)
    ensures var f := Met(procs, queue[0], seen);
      Under(procs, self, queue[1..] + Listed(f), seen + PidsOf(f))
  {
    hide Met, PidsOf, Listed, Once;
    var f := Met(procs, queue[0], seen);
    MetAre(procs, queue[0], seen);
    PidsAre(f);
    forall p | p in procs && p.pid in seen + PidsOf(f) && p.pid != self
      ensures p.ppid in seen + PidsOf(f) && p.ppid !in queue[1..] + Listed(f)
    {
      if p.pid in PidsOf(f) {
        var q :| q in f && q.pid == p.pid;
        SamePid(procs, p, q);
        FirstOnce(queue);
      } else {
        StillUnder(procs, self, queue, seen, p);
      }
    }
    NoneTwice(queue, f, seen);
  }

  lemma FirstOnce(queue: seq<int>)
    requires queue != [] && forall i, j | 0 <= i < j < |queue| :: queue[i] != queue[j]
    ensures queue[0] in queue && queue[0] !in queue[1..]
  {
  }

  lemma StillUnder(procs: seq<Proc>, self: int, queue: seq<int>, seen: set<int>, p: Proc)
    requires queue != [] && Under(procs, self, queue, seen) && p in procs && p.pid in seen && p.pid != self
    ensures p.ppid in seen && p.ppid !in queue[1..]
  {
    assert p.ppid in queue[1..] ==> p.ppid in queue;
  }

  lemma NoneTwice(queue: seq<int>, f: seq<Proc>, seen: set<int>)
    requires queue != [] && Once(f) && (forall x | x in queue :: x in seen) && (forall p | p in f :: p.pid !in seen)
    requires forall i, j | 0 <= i < j < |queue| :: queue[i] != queue[j]
    ensures var queue' := queue[1..] + Listed(f); forall i, j | 0 <= i < j < |queue'| :: queue'[i] != queue'[j]
  {
    assert forall k | 0 <= k < |f| :: f[k] in f;
    assert forall k | 0 <= k < |queue| :: queue[k] in queue;
  }

  /** The children a walk leaves behind, in order: all of a process it meets or has listed, none of one taken off before. */
  lemma {:induction false} ChildrenOfWalk(procs: seq<Proc>, self: int, queue: seq<int>, seen: set<int>, pid: int)
    requires Once(procs) && Under(procs, self, queue, seen)
    ensures pid in seen && pid !in queue ==> Children(Walk(procs, queue, seen), pid) == []
    ensures pid in queue || pid in PidsOf(Walk(procs, queue, seen)) ==>
              Children(Walk(procs, queue, seen), pid) == NotSelf(Children(procs, pid), self)
    decreases |PidsOf(procs) - seen|, |queue|
  {
    hide *;
    WalkOver(procs, seen, pid);
    if queue != [] {
      var f := Met(procs, queue[0], seen);
      var queue', seen' := queue[1..] + Listed(f), seen + PidsOf(f);
      TakesOne(procs, queue, seen);
      UnderStays(procs, self, queue, seen);
      UnderMeetsAll(procs, self, queue, seen);
      Moves(procs, queue, seen, self, pid);
      var rest := Walk(procs, queue', seen');
      ChildrenOfWalk(procs, self, queue', seen', pid);
      ChildrenConcat(f, rest, pid);
      PidsConcat(f, rest);
      assert f + [] == f && [] + Children(rest, pid) == Children(rest, pid);
    }
  }

  lemma WalkOver(procs: seq<Proc>, seen: set<int>, pid: int)
    ensures Walk(procs, [], seen) == [] && Children([], pid) == [] && PidsOf([]) == {}
  {
  }

  /** Where one process stands before and after a turn. */
  lemma Moves(procs: seq<Proc>, queue: seq<int>, seen: set<int>, self: int, pid: int)
    requires queue != [] && Under(procs, self, queue, seen)
    ensures var f := Met(procs, queue[0], seen);
      var queue', seen' := queue[1..] + Listed(f), seen + PidsOf(f);
      && Children(f, pid) == (if pid == queue[0] then f else [])
      && queue[0] in queue && queue[0] in seen' && queue[0] !in queue'
      && (pid != queue[0] && pid in queue ==> pid in queue')
      && (pid in PidsOf(f) ==> pid in queue')
      && (pid in seen && pid !in queue ==> pid in seen' && pid !in queue' && pid != queue[0] && pid !in PidsOf(f))
  {
    var f := Met(procs, queue[0], seen);
    MetAre(procs, queue[0], seen);
    AllOrNone(f, queue[0], pid);
    hide Met, PidsOf, Children, Listed, Once;
    assert queue == [queue[0]] + queue[1..];
    assert queue[0] in queue;
  }

  lemma {:induction false} AllOrNone(f: seq<Proc>, parent: int, pid: int)
    requires forall p | p in f :: p.ppid == parent
    ensures Children(f, pid) == if pid == parent then f else []
  {
    if f != [] {
      assert f[|f| - 1] in f;
      assert forall p | p in f[..|f| - 1] :: p in f;
      AllOrNone(f[..|f| - 1], parent, pid);
    }
  }

  /** Two tables with the same children for every process the walk meets are walked alike. */
  lemma {:induction false} WalkSame(table: seq<Proc>, procs: seq<Proc>, self: int, queue: seq<int>, seen: set<int>, pids: set<int>)
    requires self in seen && (forall x | x in queue :: x in pids)
    requires PidsOf(Walk(procs, queue, seen)) <= pids
    requires forall x | x in pids :: NotSelf(Children(table, x), self) == NotSelf(Children(procs, x), self)
    ensures Walk(table, queue, seen) == Walk(procs, queue, seen)
    decreases |PidsOf(procs) - seen|, |queue|
  {
    if queue != [] {
      var q := queue[0];
      assert q in queue;
      var f := Met(procs, q, seen);
      var queue', seen' := queue[1..] + Listed(f), seen + PidsOf(f);
      UnmetNotSelf(Children(procs, q), self, seen);
      UnmetNotSelf(Children(table, q), self, seen);
      assert Met(table, q, seen) == f;
      TakesOne(procs, queue, seen);
      TakesOne(table, queue, seen);
      MetAre(procs, q, seen);
      hide *;
      PidsConcat(f, Walk(procs, queue', seen'));
      WalkSame(table, procs, self, queue', seen', pids);
    }
  }

  lemma {:induction false} SelvesConcat(a: seq<Proc>, b: seq<Proc>, self: int)
    ensures Selves(a + b, self) == Selves(a, self) + Selves(b, self)
  {
    if b == [] {
      assert a + b == a;
    } else {
      SelvesConcat(a, b[..|b| - 1], self);
      assert (a + b)[..|a + b| - 1] == a + b[..|b| - 1];
    }
  }

  lemma {:induction false} SelvesTwice(procs: seq<Proc>, self: int)
    ensures Selves(Selves(procs, self), self) == Selves(procs, self)
  {
    if procs != [] {
      var front, p := procs[..|procs| - 1], procs[|procs| - 1];
      SelvesTwice(front, self);
      if p.pid == self {
        SelvesConcat(Selves(front, self), [p], self);
        assert Selves([p], self) == [p];
      }
    }
  }

  lemma {:induction false} SelvesNone(a: seq<Proc>, self: int)
    requires forall p | p in a :: p.pid != self
    ensures Selves(a, self) == []
  {
    if a != [] {
      assert a[|a| - 1] in a;
      assert forall p | p in a[..|a| - 1] :: p in a;
      SelvesNone(a[..|a| - 1], self);
    }
  }

  /** Picking the victim from the daemon's tree alone gives what the whole table would: the same total, the same victim, the
      same verdict, down to which of two equally large processes is taken. */
  lemma TreeIsEnough(procs: seq<Proc>, self: int, ceiling: int)
    requires Once(procs)
    ensures PickVictim(TreeOf(procs, self), self, ceiling) == PickVictim(procs, self, ceiling)
  {
    hide Walk, Selves, SumRss, Victim, Children, NotSelf, PidsOf, Once, Descends;
    var selves, met := Selves(procs, self), Walk(procs, [self], {self});
    var table := selves + met;
    WalkOfSelf(procs, self);
    forall x | x in {self} + PidsOf(met)
      ensures NotSelf(Children(table, x), self) == NotSelf(Children(procs, x), self)
    {
      ChildrenOfWalk(procs, self, [self], {self}, x);
      ChildrenConcat(selves, met, x);
      NotSelfConcat(Children(selves, x), Children(met, x), self);
      OnlySelf(procs, self, x);
      NotSelfTwice(Children(procs, x), self);
      assert [] + NotSelf(Children(met, x), self) == NotSelf(Children(met, x), self);
    }
    WalkSame(table, procs, self, [self], {self}, {self} + PidsOf(met));
    SelvesConcat(selves, met, self);
    SelvesTwice(procs, self);
    SelvesNone(met, self);
    assert selves + [] == selves;
  }

  // ---- the loops that compute them ----

  function ChildrenIn(m: map<int, seq<Proc>>, pid: int): seq<Proc> {
    if pid in m then m[pid] else []
  }

  ghost predicate Indexes(m: map<int, seq<Proc>>, procs: seq<Proc>) {
    forall pid: int :: ChildrenIn(m, pid) == Children(procs, pid)
  }

  method IndexChildren(procs: seq<Proc>, self: int) returns (children: map<int, seq<Proc>>, selves: seq<Proc>)
    ensures Indexes(children, procs) && selves == Selves(procs, self)
  {
    children, selves := map[], [];
    for i := 0 to |procs|
      invariant Indexes(children, procs[..i]) && selves == Selves(procs[..i], self)
    {
      var p := procs[i];
      assert procs[..i + 1][..i] == procs[..i];
      var before := children;
      children := children[p.ppid := ChildrenIn(children, p.ppid) + [p]];
      forall pid: int
        ensures ChildrenIn(children, pid) == Children(procs[..i + 1], pid)
      {
        assert ChildrenIn(before, pid) == Children(procs[..i], pid);
      }
      if p.pid == self {
        selves := selves + [p];
      }
    }
    assert procs[..|procs|] == procs;
  }

  /** What has been met of a list so far. */
  lemma UnmetNext(list: seq<Proc>, seen: set<int>, j: nat)
    requires j < |list|
    ensures var f, p := Unmet(list[..j], seen), list[j];
      && Unmet(list[..j + 1], seen) == (if p.pid in seen + PidsOf(f) then f else f + [p])
      && PidsOf(f + [p]) == PidsOf(f) + {p.pid} && Listed(f + [p]) == Listed(f) + [p.pid]
  {
    assert list[..j + 1][..j] == list[..j];
    PidsSnoc(Unmet(list[..j], seen), list[j]);
  }

  /** The inner loop of treeOf: the children not met yet join the tree and the worklist. */
  method MeetAll(list: seq<Proc>, seen0: set<int>, queue0: seq<int>, out0: seq<Proc>)
      returns (seen: set<int>, queue: seq<int>, out: seq<Proc>)
    ensures var f := Unmet(list, seen0);
      seen == seen0 + PidsOf(f) && out == out0 + f && queue == queue0 + Listed(f)
  {
    hide *;
    seen, queue, out := seen0, queue0, out0;
    ghost var f: seq<Proc> := [];
    NoneMet(list, seen0, out0);
    for j := 0 to |list|
      invariant f == Unmet(list[..j], seen0)
      invariant seen == seen0 + PidsOf(f) && queue == queue0 + Listed(f) && out == out0 + f
    {
      UnmetNext(list, seen0, j);
      var c := list[j];
      if c.pid !in seen {
        assert out0 + (f + [c]) == out0 + f + [c];
        seen, out, queue := seen + {c.pid}, out + [c], queue + [c.pid];
        f := f + [c];
      }
    }
    assert list[..|list|] == list;
  }

  method ComputeTree(procs: seq<Proc>, self: int) returns (out: seq<Proc>)
    ensures out == TreeOf(procs, self)
  {
    var children, selves := IndexChildren(procs, self);
    out := selves;
    var seen, queue := {self}, [self];
    hide Unmet, Children, PidsOf, Selves;
    while queue != []
      invariant out + Walk(procs, queue, seen) == TreeOf(procs, self)
      decreases |PidsOf(procs) - seen|, |queue|
    {
      TakesOne(procs, queue, seen);
      hide Walk, TreeOf;
      ghost var f, out0 := Met(procs, queue[0], seen), out;
      assert ChildrenIn(children, queue[0]) == Children(procs, queue[0]);
      seen, queue, out := MeetAll(ChildrenIn(children, queue[0]), seen, queue[1..], out);
      assert out0 + (f + Walk(procs, queue, seen)) == out + Walk(procs, queue, seen);
    }
    assert out + [] == out;
  }

  /** The inner loop of pickVictim: what has been met and what it holds, with the largest so far. */
  method MeetHeaviest(list: seq<Proc>, seen0: set<int>, queue0: seq<int>, total0: nat, victim0: Proc, ghost met0: seq<Proc>)
      returns (seen: set<int>, queue: seq<int>, total: nat, victim: Proc)
    requires victim0 == Victim(met0)
    ensures var f := Unmet(list, seen0);
      && seen == seen0 + PidsOf(f) && queue == queue0 + Listed(f)
      && total == total0 + SumRss(f) && victim == Victim(met0 + f)
  {
    hide *;
    seen, queue, total, victim := seen0, queue0, total0, victim0;
    ghost var f: seq<Proc> := [];
    NoneMet(list, seen0, met0);
    for j := 0 to |list|
      invariant f == Unmet(list[..j], seen0)
      invariant seen == seen0 + PidsOf(f) && queue == queue0 + Listed(f)
      invariant total == total0 + SumRss(f) && victim == Victim(met0 + f)
    {
      UnmetNext(list, seen0, j);
      var c := list[j];
      if c.pid !in seen {
        Heavier(f, c);
        Heavier(met0 + f, c);
        assert met0 + (f + [c]) == met0 + f + [c];
        seen, queue, total := seen + {c.pid}, queue + [c.pid], total + c.rss;
        if c.rss > victim.rss {
          victim := c;
        }
        f := f + [c];
      }
    }
    assert list[..|list|] == list;
  }

  lemma NoneMet(list: seq<Proc>, seen: set<int>, met: seq<Proc>)
    ensures Unmet(list[..0], seen) == [] && PidsOf([]) == {} && Listed([]) == [] && SumRss([]) == 0 && met + [] == met
  {
  }

  method Sum(list: seq<Proc>) returns (total: nat)
    ensures total == SumRss(list)
  {
    total := 0;
    for i := 0 to |list|
      invariant total == SumRss(list[..i])
    {
      assert list[..i + 1][..i] == list[..i];
      total := total + list[i].rss;
    }
    assert list[..|list|] == list;
  }

  method ComputeVictim(procs: seq<Proc>, self: int, ceiling: int) returns (victim: Proc, total: nat, over: bool)
    ensures (victim, total, over) == PickVictim(procs, self, ceiling)
  {
    hide *;
    var children, selves := IndexChildren(procs, self);
    total := Sum(selves);
    victim := NOBODY;
    var seen, queue := {self}, [self];
    ghost var met: seq<Proc> := [];
    NothingMet(procs, seen, queue);
    while queue != []
      invariant met + Walk(procs, queue, seen) == Walk(procs, [self], {self})
      invariant total == SumRss(selves) + SumRss(met) && victim == Victim(met)
      decreases |PidsOf(procs) - seen|, |queue|
    {
      TakesOne(procs, queue, seen);
      ghost var f := Met(procs, queue[0], seen);
      ListOf(children, procs, queue[0], seen);
      seen, queue, total, victim := MeetHeaviest(ChildrenIn(children, queue[0]), seen, queue[1..], total, victim, met);
      SumConcat(met, f);
      assert met + (f + Walk(procs, queue, seen)) == met + f + Walk(procs, queue, seen);
      met := met + f;
    }
    WalkOver(procs, seen, self);
    assert met + [] == met;
    PickIs(procs, self, ceiling);
    if total <= ceiling || victim.pid == 0 {
      return NOBODY, total, false;
    }
    over := true;
  }

  lemma NothingMet(procs: seq<Proc>, seen: set<int>, queue: seq<int>)
    ensures SumRss([]) == 0 && Victim([]) == NOBODY && [] + Walk(procs, queue, seen) == Walk(procs, queue, seen)
  {
  }

  lemma ListOf(children: map<int, seq<Proc>>, procs: seq<Proc>, pid: int, seen: set<int>)
    requires Indexes(children, procs)
    ensures Unmet(ChildrenIn(children, pid), seen) == Met(procs, pid, seen)
  {
  }

  lemma PickIs(procs: seq<Proc>, self: int, ceiling: int)
    ensures var met := Walk(procs, [self], {self});
      var total, v := SumRss(Selves(procs, self)) + SumRss(met), Victim(met);
      PickVictim(procs, self, ceiling) == if total <= ceiling || v.pid == 0 then (NOBODY, total, false) else (v, total, true)
  {
    hide Walk, Victim, SumRss, Selves;
  }

  lemma {:induction false} SumConcat(a: seq<Proc>, b: seq<Proc>)
    ensures SumRss(a + b) == SumRss(a) + SumRss(b)
  {
    if b == [] {
      assert a + b == a;
    } else {
      SumConcat(a, b[..|b| - 1]);
      assert (a + b)[..|a + b| - 1] == a + b[..|b| - 1];
    }
  }

  lemma Heavier(met: seq<Proc>, c: Proc)
    ensures SumRss(met + [c]) == SumRss(met) + c.rss
    ensures Victim(met + [c]) == if c.rss > Victim(met).rss then c else Victim(met)
  {
    assert (met + [c])[..|met|] == met;
  }

  // ---- whose process was killed ----

  /** A process's parent in the tree; of two records for one process the later counts. */
  function ParentOf(tree: seq<Proc>, pid: int): Option<int> {
    if tree == [] then None
    else
      var p := tree[|tree| - 1];
      if p.pid == pid then Some(p.ppid) else ParentOf(tree[..|tree| - 1], pid)
  }

  /** At most n steps up from a process, as far as the tree says. */
  function Climb(tree: seq<Proc>, pid: int, n: nat): seq<int>
    decreases n
  {
    if n == 0 then []
    else
      match ParentOf(tree, pid)
      case None => []
      case Some(pp) => [pp] + Climb(tree, pp, n - 1)
  }

  /** The process n steps up, if there is one. */
  function UpBy(tree: seq<Proc>, pid: int, n: nat): Option<int> {
    if n == 0 then Some(pid)
    else
      var x := UpBy(tree, pid, n - 1);
      if x.Some? then ParentOf(tree, x.value) else None
  }

  lemma {:induction false} UpOne(tree: seq<Proc>, pid: int, n: nat)
    ensures UpBy(tree, pid, n + 1) == if ParentOf(tree, pid).Some? then UpBy(tree, ParentOf(tree, pid).value, n) else None
  {
    if n > 0 {
      UpOne(tree, pid, n - 1);
    } else {
      assert UpBy(tree, pid, 0) == Some(pid);
    }
  }

  lemma {:induction false} ClimbIs(tree: seq<Proc>, pid: int, n: nat)
    ensures var up := Climb(tree, pid, n);
      && |up| <= n
      && (forall i: nat | 1 <= i <= |up| :: UpBy(tree, pid, i) == Some(up[i - 1]))
      && (|up| < n ==> UpBy(tree, pid, |up| + 1).None?)
    decreases n
  {
    if n > 0 && ParentOf(tree, pid).Some? {
      var pp := ParentOf(tree, pid).value;
      var rest := Climb(tree, pp, n - 1);
      ClimbIs(tree, pp, n - 1);
      forall i: nat | 1 <= i <= |rest| + 1
        ensures UpBy(tree, pid, i) == Some(([pp] + rest)[i - 1])
      {
        UpOne(tree, pid, i - 1);
        assert UpBy(tree, pp, 0) == Some(pp);
      }
      UpOne(tree, pid, |rest| + 1);
    } else {
      UpOne(tree, pid, 0);
    }
  }

  lemma {:induction false} Pigeonhole(list: seq<int>, holes: set<int>) returns (i: nat, j: nat)
    requires |list| > |holes| && forall k | 0 <= k < |list| :: list[k] in holes
    ensures i < j < |list| && list[i] == list[j]
  {
    var last := list[|list| - 1];
    if k: nat :| k < |list| - 1 && list[k] == last {
      i, j := k, |list| - 1;
    } else {
      i, j := Pigeonhole(list[..|list| - 1], holes - {last});
    }
  }

  lemma {:induction false} ParentIsListed(tree: seq<Proc>, pid: int)
    ensures ParentOf(tree, pid).Some? ==> pid in PidsOf(tree)
    ensures |PidsOf(tree)| <= |tree|
  {
    if tree != [] {
      ParentIsListed(tree[..|tree| - 1], pid);
    }
  }

  /** Two places on the way up that are the same process are followed by the same ones. */
  lemma {:induction false} SameFrom(tree: seq<Proc>, pid: int, i: nat, j: nat, m: nat)
    requires UpBy(tree, pid, i) == UpBy(tree, pid, j)
    ensures UpBy(tree, pid, i + m) == UpBy(tree, pid, j + m)
  {
    if m > 0 {
      SameFrom(tree, pid, i, j, m - 1);
    }
  }

  lemma {:induction false} UpBefore(tree: seq<Proc>, pid: int, k: nat, n: nat)
    requires k <= n && UpBy(tree, pid, n).Some?
    ensures UpBy(tree, pid, k).Some?
  {
    if k < n {
      UpBefore(tree, pid, k, n - 1);
    }
  }

  /** A way up longer than the tree comes by some process twice. */
  lemma ComesBack(tree: seq<Proc>, pid: int, n: nat) returns (i: nat, j: nat)
    requires n > |tree| && UpBy(tree, pid, n).Some?
    ensures i < j <= |tree| && UpBy(tree, pid, i) == UpBy(tree, pid, j)
  {
    var way := seq(|tree| + 1, k requires 0 <= k < |tree| + 1 => UpBy(tree, pid, k).GetOr(0));
    ParentIsListed(tree, pid);
    forall k | 0 <= k < |way|
      ensures UpBy(tree, pid, k) == Some(way[k]) && way[k] in PidsOf(tree)
    {
      UpBefore(tree, pid, k, n);
      UpBefore(tree, pid, k + 1, n);
      ParentIsListed(tree, way[k]);
    }
    hide PidsOf, UpBy;
    i, j := Pigeonhole(way, PidsOf(tree));
  }

  /** An ancestor any number of steps up is also one at most as many steps up as there are processes. */
  lemma {:induction false} NearEnough(tree: seq<Proc>, pid: int, n: nat) returns (m: nat)
    requires n > 0 && UpBy(tree, pid, n).Some?
    ensures 0 < m <= |tree| && UpBy(tree, pid, m) == UpBy(tree, pid, n)
    decreases n
  {
    hide UpBy;
    if n <= |tree| {
      m := n;
    } else {
      var i, j := ComesBack(tree, pid, n);
      SameFrom(tree, pid, i, j, n - j);
      m := NearEnough(tree, pid, i + (n - j));
    }
  }

  /** Although it climbs no more steps than the tree has processes, even in a cycle, ancestorsOf finds every ancestor. */
  lemma ClimbsFarEnough(tree: seq<Proc>, pid: int, x: int)
    ensures x in Climb(tree, pid, |tree|) <==> exists n: nat :: n > 0 && UpBy(tree, pid, n) == Some(x)
  {
    hide UpBy, Climb;
    var up := Climb(tree, pid, |tree|);
    ClimbIs(tree, pid, |tree|);
    if x in up {
      var i :| 0 <= i < |up| && up[i] == x;
      assert UpBy(tree, pid, i + 1) == Some(x);
    }
    if n: nat :| n > 0 && UpBy(tree, pid, n) == Some(x) {
      var m := NearEnough(tree, pid, n);
      if m > |up| {
        UpBefore(tree, pid, |up| + 1, m);
      }
      assert up[m - 1] == x;
    }
  }

  /** A kill the watchdog made, with the processes the victim was under. */
  datatype Kill = Kill(victim: Proc, total: nat, ceiling: int, ancestors: seq<int>)

  predicate Of(k: Kill, root: int) {
    k.victim.pid == root || root in k.ancestors
  }

  function Others(kills: seq<Kill>, root: int): seq<Kill> {
    if kills == [] then []
    else
      var front, k := Others(kills[..|kills| - 1], root), kills[|kills| - 1];
      if Of(k, root) then front else front + [k]
  }

  function Latest(kills: seq<Kill>, root: int): Option<Kill> {
    if kills == [] then None
    else if Of(kills[|kills| - 1], root) then Some(kills[|kills| - 1])
    else Latest(kills[..|kills| - 1], root)
  }

  const KILLS_KEPT := 32

  /** The kills no job has claimed yet. */
  class KillLog {
    var list: seq<Kill>

    constructor ()
      ensures list == []
    {
      list := [];
    }

    method Record(k: Kill)
      requires |list| <= KILLS_KEPT
      modifies this
      ensures |list| <= KILLS_KEPT
      ensures list == (if |old(list)| == KILLS_KEPT then old(list)[1..] else old(list)) + [k]
    {
      if |list| >= KILLS_KEPT {
        list := list[1..];
      }
      list := list + [k];
    }

    /** The latest kill of a job's processes, which is forgotten with the earlier ones of the same job. */
    method Take(root: int) returns (found: Option<Kill>)
      modifies this
      ensures found == Latest(old(list), root) && list == Others(old(list), root)
    {
      found := None;
      var kept := [];
      for i := 0 to |list|
        invariant list == old(list)
        invariant found == Latest(list[..i], root) && kept == Others(list[..i], root)
      {
        assert list[..i + 1][..i] == list[..i];
        if Of(list[i], root) {
          found := Some(list[i]);
        } else {
          kept := kept + [list[i]];
        }
      }
      assert list[..|list|] == list;
      list := kept;
    }
  }

  /** A job's claim takes every kill of its own and none of another's, in the order they were made. */
  lemma {:induction false} ClaimIsExact(kills: seq<Kill>, root: int)
    ensures forall k :: k in Others(kills, root) <==> k in kills && !Of(k, root)
    ensures Latest(kills, root).None? <==> forall k | k in kills :: !Of(k, root)
    ensures Latest(kills, root).Some? ==> Latest(kills, root).value in kills && Of(Latest(kills, root).value, root)
    ensures Latest(Others(kills, root), root).None?
  {
    if kills != [] {
      var front, k := kills[..|kills| - 1], kills[|kills| - 1];
      ClaimIsExact(front, root);
      hide Of;
      assert Others(kills, root) == Others(front, root)
        || (Others(kills, root) == Others(front, root) + [k] && (Others(front, root) + [k])[..|Others(front, root)|] == Others(front, root));
    }
  }

  method ComputeAncestors(tree: seq<Proc>, pid: int) returns (out: seq<int>)
    ensures out == Climb(tree, pid, |tree|)
  {
    var parent: map<int, int> := map[];
    for i := 0 to |tree|
      invariant forall x: int :: (x in parent <==> ParentOf(tree[..i], x).Some?)
      invariant forall x: int :: x in parent ==> ParentOf(tree[..i], x) == Some(parent[x])
    {
      assert tree[..i + 1][..i] == tree[..i];
      parent := parent[tree[i].pid := tree[i].ppid];
    }
    assert tree[..|tree|] == tree;
    out := [];
    var at := pid;
    for seen := 0 to |tree|
      invariant out + Climb(tree, at, |tree| - seen) == Climb(tree, pid, |tree|)
    {
      if at !in parent {
        assert out + [] == out;
        return;
      }
      assert out + ([parent[at]] + Climb(tree, parent[at], |tree| - seen - 1))
        == out + [parent[at]] + Climb(tree, parent[at], |tree| - seen - 1);
      out := out + [parent[at]];
      at := parent[at];
    }
    assert out + [] == out;
  }
}
