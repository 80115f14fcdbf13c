/** What a finish time rewritten in place does to retention: if it no longer fits between the parent and
    the children of its place, the higher of the two records out of order is bound to be evicted before
    an older one (internal/taskstore/memory.go:230-279 and 374-386). */
module LostOrder {
  import opened Tasks
  import opened TerminalHeap
  import opened StoreSpec
  import opened StoreLaws
  import opened Retention

  // ---------- the heap ----------

  /** Place p holds r, every edge but those below p is in order, and some child of p is older than r. */
  ghost predicate Doomed(h: seq<Slot>, p: nat, r: Slot) {
    && p < |h| && h[p] == r
    && (forall c :: 0 < c < |h| && Parent(c) != p ==> h[Parent(c)].at <= h[c].at)
    && exists c :: 0 < c < |h| && Parent(c) == p && h[c].at < r.at
  }

  /** What is above a doomed place is in order, so the root is not newer than r. */
  lemma DoomedRoot(h: seq<Slot>, p: nat, r: Slot)
    requires Doomed(h, p, r)
    ensures h[0].at <= r.at
  {
    DoomedChain(h, p, r, p);
  }

  lemma {:induction false} DoomedChain(h: seq<Slot>, p: nat, r: Slot, k: nat)
    requires Doomed(h, p, r) && k <= p
    ensures h[0].at <= h[k].at
    decreases k
  {
    if k > 0 {
      assert h[Parent(k)].at <= h[k].at;
      DoomedChain(h, p, r, Parent(k));
    }
  }

  /** A newer slot added last changes nothing. */
  lemma DoomedGrows(h: seq<Slot>, p: nat, r: Slot, s: Slot)
    requires Doomed(h, p, r) && forall k :: 0 <= k < |h| ==> h[k].at <= s.at
    ensures Doomed(h + [s], p, r)
  {
    var c :| 0 < c < |h| && Parent(c) == p && h[c].at < r.at;
    assert (h + [s])[c] == h[c];
  }

  /** Sift-down in progress on the first n places: place j holds e, newer than all; r is at p. The older
      child is still below p, or it is next below j and j is itself below p. */
  ghost predicate Sifting(h: seq<Slot>, n: nat, j: nat, p: nat, r: Slot, e: Slot)
    requires n <= |h|
  {
    && j < n && p < n && j != p && h[j] == e && h[p] == r && r.at < e.at
    && (forall k :: 0 <= k < n ==> h[k].at <= e.at)
    && (forall c :: 0 < c < n && Parent(c) != j && Parent(c) != p ==> h[Parent(c)].at <= h[c].at)
    && (forall c :: 0 < c < n && Parent(c) == j && j > 0 && Parent(j) != p ==> h[Parent(j)].at <= h[c].at)
    && HasOlder(h, n, j, p, r)
  }

  ghost predicate HasOlder(h: seq<Slot>, n: nat, j: nat, p: nat, r: Slot)
    requires n <= |h|
  {
    exists q :: 0 < q < n && OlderBelow(h, q, j, p, r)
  }

  ghost predicate OlderBelow(h: seq<Slot>, q: nat, j: nat, p: nat, r: Slot)
    requires 0 < q < |h|
  {
    q != j && h[q].at < r.at && (Parent(q) == p || (Parent(q) == j && j > 0 && Parent(j) == p))
  }

  /** The smaller child moves up past e. If it is r, then r moves up and j is below it. */
  lemma SiftMoves(h: seq<Slot>, n: nat, j: nat, p: nat, r: Slot, e: Slot)
    requires n <= |h| && Sifting(h, n, j, p, r, e) && 2 * j + 1 < n
    requires h[SmallerChild(h, j, n)].at < e.at
    ensures var c := SmallerChild(h, j, n);
            Sifting(Swapped(h, j, c), n, c, if c == p then j else p, r, e)
  {
    var c := SmallerChild(h, j, n);
    var g := Swapped(h, j, c);
    ChildIs(c, j);
    MovesOrder(h, n, j, p, r, e);
    MovesOlder(h, n, j, p, r, e);
  }

  lemma MovesOrder(h: seq<Slot>, n: nat, j: nat, p: nat, r: Slot, e: Slot)
    requires n <= |h| && Sifting(h, n, j, p, r, e) && 2 * j + 1 < n
    requires h[SmallerChild(h, j, n)].at < e.at
    ensures var c := SmallerChild(h, j, n);
            var g, q := Swapped(h, j, c), if c == p then j else p;
            && (forall x :: 0 < x < n && Parent(x) != c && Parent(x) != q ==> g[Parent(x)].at <= g[x].at)
            && (forall x :: 0 < x < n && Parent(x) == c && Parent(c) != q ==> g[Parent(c)].at <= g[x].at)
  {
    var c := SmallerChild(h, j, n);
    var g, q := Swapped(h, j, c), if c == p then j else p;
    ChildIs(c, j);
    forall x | 0 < x < n
      ensures Parent(x) != c && Parent(x) != q ==> g[Parent(x)].at <= g[x].at
      ensures Parent(x) == c && Parent(c) != q ==> g[Parent(c)].at <= g[x].at
    {
      MovesEdge(h, n, j, p, r, e, x);
    }
  }

  /** One edge of the heap after the smaller child has moved up. */
  lemma MovesEdge(h: seq<Slot>, n: nat, j: nat, p: nat, r: Slot, e: Slot, x: nat)
    requires n <= |h| && Sifting(h, n, j, p, r, e) && 2 * j + 1 < n && 0 < x < n
    requires h[SmallerChild(h, j, n)].at < e.at
    ensures var c := SmallerChild(h, j, n);
            var g, q := Swapped(h, j, c), if c == p then j else p;
            && (Parent(x) != c && Parent(x) != q ==> g[Parent(x)].at <= g[x].at)
            && (Parent(x) == c && Parent(c) != q ==> g[Parent(c)].at <= g[x].at)
  {
    hide Sifting;
    var c := SmallerChild(h, j, n);
    ChildIs(c, j);
    ChildIs(x, j);
    ChildIs(x, c);
    SiftingAt(h, n, j, p, r, e, x);
    SiftingAt(h, n, j, p, r, e, c);
    if j > 0 {
      SiftingAt(h, n, j, p, r, e, j);
    }
  }

  /** What Sifting says of one place. */
  lemma SiftingAt(h: seq<Slot>, n: nat, j: nat, p: nat, r: Slot, e: Slot, x: nat)
    requires n <= |h| && Sifting(h, n, j, p, r, e) && 0 < x < n
    ensures j < n && p < n && j != p && h[j] == e && h[p] == r && r.at < e.at && h[x].at <= e.at
    ensures Parent(x) != j && Parent(x) != p ==> h[Parent(x)].at <= h[x].at
    ensures Parent(x) == j && j > 0 && Parent(j) != p ==> h[Parent(j)].at <= h[x].at
  {
    hide HasOlder;
  }

  lemma MovesOlder(h: seq<Slot>, n: nat, j: nat, p: nat, r: Slot, e: Slot)
    requires n <= |h| && Sifting(h, n, j, p, r, e) && 2 * j + 1 < n
    requires h[SmallerChild(h, j, n)].at < e.at
    ensures var c := SmallerChild(h, j, n);
            HasOlder(Swapped(h, j, c), n, c, if c == p then j else p, r)
  {
    var c := SmallerChild(h, j, n);
    var g := Swapped(h, j, c);
    ChildIs(c, j);
    var q :| 0 < q < n && OlderBelow(h, q, j, p, r);
    ChildIs(q, j);
    if Parent(q) == j {
      assert OlderBelow(g, j, c, p, r);
    } else {
      assert OlderBelow(g, q, c, if c == p then j else p, r);
    }
  }

  lemma SiftEnds(h: seq<Slot>, n: nat, j: nat, p: nat, r: Slot, e: Slot)
    requires n <= |h| && Sifting(h, n, j, p, r, e)
    requires 2 * j + 1 < n ==> h[SmallerChild(h, j, n)].at >= e.at
    ensures Doomed(h[..n], p, r)
  {
    var q :| 0 < q < n && OlderBelow(h, q, j, p, r);
    EndsOrder(h, n, j, p, r, e);
    ChildIs(q, j);
    hide Sifting;
    assert h[..n][q] == h[q];
  }

  lemma EndsOrder(h: seq<Slot>, n: nat, j: nat, p: nat, r: Slot, e: Slot)
    requires n <= |h| && Sifting(h, n, j, p, r, e)
    requires 2 * j + 1 < n ==> h[SmallerChild(h, j, n)].at >= e.at
    ensures forall c :: 0 < c < n && Parent(c) != p ==> h[Parent(c)].at <= h[c].at
    ensures forall c :: 0 < c < n && Parent(c) == j ==> h[c].at >= e.at
    ensures p < n && h[p] == r && r.at < e.at
  {
    hide HasOlder, SmallerChild;
    forall c | 0 < c < n
      ensures Parent(c) == j ==> h[c].at >= e.at
      ensures Parent(c) != p ==> h[Parent(c)].at <= h[c].at
    {
      EndsEdge(h, n, j, p, r, e, c);
    }
  }

  lemma EndsEdge(h: seq<Slot>, n: nat, j: nat, p: nat, r: Slot, e: Slot, c: nat)
    requires n <= |h| && Sifting(h, n, j, p, r, e) && 0 < c < n
    requires 2 * j + 1 < n ==> h[SmallerChild(h, j, n)].at >= e.at
    ensures Parent(c) == j ==> h[c].at >= e.at
    ensures Parent(c) != p ==> h[Parent(c)].at <= h[c].at
  {
    hide HasOlder;
    ChildIs(c, j);
  }

  lemma {:induction false} SiftKeepsDoomed(h: seq<Slot>, n: nat, j: nat, p: nat, r: Slot, e: Slot)
    requires n <= |h| && Sifting(h, n, j, p, r, e)
    ensures exists x :: Doomed(SiftDown(h, j, n)[..n], x, r)
    decreases n - j
  {
    hide Doomed, SmallerChild, Swapped, HasOlder;
    SiftDownStep(h, j, n);
    if 2 * j + 1 < n && h[SmallerChild(h, j, n)].at < e.at {
      var c := SmallerChild(h, j, n);
      SiftMoves(h, n, j, p, r, e);
      SiftKeepsDoomed(Swapped(h, j, c), n, c, if c == p then j else p, r, e);
    } else {
      SiftEnds(h, n, j, p, r, e);
      assert Doomed(SiftDown(h, j, n)[..n], p, r);
    }
  }

  /** Until r is the root, a newer arrival and the eviction it causes leave r doomed. */
  lemma EvictionKeepsDoomed(h: seq<Slot>, p: nat, r: Slot, s: Slot)
    requires Doomed(h, p, r) && p > 0 && r.at < s.at && forall k :: 0 <= k < |h| ==> h[k].at <= s.at
    ensures exists x :: Doomed(PopRest(Push(h, s)), x, r)
  {
    PushLateStaysLast(h, s);
    var g := Swapped(h + [s], 0, |h|);
    EvictionSifts(h, p, r, s);
    hide Sifting, Swapped, SiftDown, Doomed;
    SiftKeepsDoomed(g, |h|, 0, p, r, s);
    assert PopRest(Push(h, s)) == SiftDown(g, 0, |h|)[..|h|];
  }

  lemma EvictionSifts(h: seq<Slot>, p: nat, r: Slot, s: Slot)
    requires Doomed(h, p, r) && p > 0 && r.at < s.at && forall k :: 0 <= k < |h| ==> h[k].at <= s.at
    ensures Sifting(Swapped(h + [s], 0, |h|), |h|, 0, p, r, s)
  {
    var g := Swapped(h + [s], 0, |h|);
    var c :| 0 < c < |h| && Parent(c) == p && h[c].at < r.at;
    assert OlderBelow(g, c, 0, p, r);
    assert HasOlder(g, |h|, 0, p, r);
  }

  /** A time above a child's dooms the record at place i. */
  lemma RaiseDooms(h: seq<Slot>, i: nat, at: Time, c: nat)
    requires Ordered(h) && NoDup(h) && i < |h| && (i > 0 ==> h[Parent(i)].at <= at)
    requires 0 < c < |h| && Parent(c) == i && h[c].at < at
    ensures Doomed(Retimed(h, h[i].id, at), i, Slot(h[i].id, at))
  {
    var g := Retimed(h, h[i].id, at);
    RetimedOnly(h, i, at);
    forall k | 0 < k < |g| && Parent(k) != i
      ensures g[Parent(k)].at <= g[k].at
    {
      assert h[Parent(k)].at <= h[k].at;
    }
    assert g[c] == h[c];
  }

  /** A time below the parent's dooms the parent. */
  lemma LowerDooms(h: seq<Slot>, i: nat, at: Time)
    requires Ordered(h) && NoDup(h) && 0 < i < |h| && at < h[Parent(i)].at
    ensures Doomed(Retimed(h, h[i].id, at), Parent(i), h[Parent(i)])
  {
    var g := Retimed(h, h[i].id, at);
    RetimedOnly(h, i, at);
    forall k | 0 < k < |g| && Parent(k) != Parent(i)
      ensures g[Parent(k)].at <= g[k].at
    {
      assert h[Parent(k)].at <= h[k].at;
      assert h[Parent(i)].at <= h[i].at;
    }
    assert g[i].at == at;
  }

  lemma RetimedOnly(h: seq<Slot>, i: nat, at: Time)
    requires NoDup(h) && i < |h|
    ensures forall k :: 0 <= k < |h| ==> Retimed(h, h[i].id, at)[k] == if k == i then Slot(h[i].id, at) else h[k]
  {
    forall k | 0 <= k < |h| && k != i
      ensures h[k].id != h[i].id
    {
      assert h[if k < i then k else i].id != h[if k < i then i else k].id;
    }
  }

  // ---------- the store ----------

  /** The heap shows the recorded times, and the store is open and admits a task. */
  ghost predicate Ready(m: Mem, ever: map<TaskID, Time>) {
    && MemValid(m) && !m.closed && m.queued < m.maxQueue
    && (forall s :: s in m.heap ==> s.id in ever && ever[s.id] == s.at)
    && (forall x :: x in ever && x in m.entries ==> m.entries[x].task.state.IsTerminal())
  }

  /** Whatever becomes terminal finishes after everything retained. */
  ghost predicate EntersLater(m: Mem, op: Op) {
    Entering(m, op).Some? ==> forall s :: s in m.heap ==> s.at < Entering(m, op).value.at
  }

  ghost predicate RunLater(m: Mem, ops: seq<Op>)
    decreases |ops|
  {
    ops == [] || (EntersLater(m, ops[0]) && RunLater(Apply(m, ops[0]).mem, ops[1..]))
  }

  /** A new task is submitted and at once cancelled. */
  function FinishOne(id: TaskID, at: Time): seq<Op> {
    [SubmitOp(id, GenerateImage, "", at), CancelOp(id, at)]
  }

  /** The heap after one more arrival. */
  function Arrived(h: seq<Slot>, s: Slot, k: nat): seq<Slot> {
    if |Push(h, s)| <= k then Push(h, s) else PopRest(Push(h, s))
  }

  lemma AdmitNew(m: Mem, ever: map<TaskID, Time>, id: TaskID, at: Time)
    requires Ready(m, ever) && id != "" && id !in m.entries && id !in m.released && id !in ever
    ensures var op := SubmitOp(id, GenerateImage, "", at);
            var n := Apply(m, op).mem;
            && OpOk(m, op) && Entering(m, op) == None && Rewriting(m, op) == None && Fresh(op, ever)
            && MemValid(n) && !n.closed && n.heap == m.heap && n.maxRet == m.maxRet && n.pid == m.pid
            && n.queued == m.queued + 1 && n.maxQueue == m.maxQueue
            && n.entries == m.entries[id := n.entries[id]] && id in n.entries
            && n.entries[id].task.state == Queued && n.entries[id].task.pid == n.pid && n.entries[id].task.id == id
  {
    hide MemValid;
    SubmitValid(m, id, GenerateImage, "", at);
  }

  lemma FinishNew(m: Mem, id: TaskID, at: Time)
    requires MemValid(m) && !m.closed && id != "" && id in m.entries
    requires m.entries[id].task.state == Queued && m.entries[id].task.pid == m.pid && m.entries[id].task.id == id
    ensures var op := CancelOp(id, at);
            var n := Apply(m, op).mem;
            && OpOk(m, op) && Entering(m, op) == Some(Slot(id, at)) && Rewriting(m, op) == None
            && MemValid(n) && !n.closed && n.heap == Arrived(m.heap, Slot(id, at), m.maxRet) && n.maxRet == m.maxRet
            && n.queued == m.queued - 1 && n.maxQueue == m.maxQueue
            && (id in n.entries ==> n.entries[id].task.state.IsTerminal())
            && forall x :: x in n.entries && x != id ==> x in m.entries && n.entries[x] == m.entries[x]
  {
    hide MemValid, Trimmed, TrimmedIds, Push, PopRest;
    var op := CancelOp(id, at);
    StepKeepsValid(m, op);
    var t := op.fn(m.entries[id].task).task;
    var f := Entered(Left(m, Queued), id, t, m.entries[id].cancel);
    assert Apply(m, op).mem == Trimmed(f);
    HeapFits(m);
    TrimmedOnce(f);
  }

  lemma HeapFits(m: Mem)
    requires MemValid(m)
    ensures |m.heap| <= m.maxRet && m.maxRet > 0 && NoDup(m.heap)
  {
  }

  lemma OneFinishes(m: Mem, ever: map<TaskID, Time>, id: TaskID, at: Time)
    requires Ready(m, ever) && id != "" && id !in m.entries && id !in m.released && id !in ever
    requires forall s :: s in m.heap ==> s.at < at
    ensures var ops := FinishOne(id, at);
            var n := Run(m, ops);
            && RunTame(m, ops, ever) && RunLater(m, ops) && EverOf(m, ops, ever) == ever[id := at]
            && Ready(n, ever[id := at]) && n.heap == Arrived(m.heap, Slot(id, at), m.maxRet) && n.maxRet == m.maxRet
  {
    var a, b := SubmitOp(id, GenerateImage, "", at), CancelOp(id, at);
    AdmitNew(m, ever, id, at);
    var m1 := Apply(m, a).mem;
    FinishNew(m1, id, at);
    hide Apply, OpOk, MemValid, Arrived, Entering, Rewriting, CancelOp, Ids, MemOrdered, Ready;
    StillReady(m, m1, Apply(m1, b).mem, ever, id, at);
    TwoSteps(m, ever, a, b);
    hide Run, RunTame, RunLater, EverOf;
    assert EverAfter(m, a, ever) == ever && EverAfter(m1, b, ever) == ever[id := at];
  }

  lemma StillReady(m: Mem, m1: Mem, n: Mem, ever: map<TaskID, Time>, id: TaskID, at: Time)
    requires Ready(m, ever) && id !in ever && id !in m.entries
    requires id in m1.entries && m1.entries == m.entries[id := m1.entries[id]] && m1.queued == m.queued + 1
             && m1.maxQueue == m.maxQueue
    requires MemValid(n) && !n.closed && n.heap == Arrived(m.heap, Slot(id, at), m.maxRet)
    requires n.queued == m1.queued - 1 && n.maxQueue == m1.maxQueue
    requires id in n.entries ==> n.entries[id].task.state.IsTerminal()
    requires forall x :: x in n.entries && x != id ==> x in m1.entries && n.entries[x] == m1.entries[x]
    ensures Ready(n, ever[id := at])
  {
    hide MemValid, Arrived;
    HeapFits(m);
    assert id !in Ids(m.heap);
    ArrivedMembers(m.heap, Slot(id, at), m.maxRet);
  }

  lemma TwoSteps(m: Mem, ever: map<TaskID, Time>, a: Op, b: Op)
    ensures var n, now := Apply(m, a).mem, EverAfter(m, a, ever);
            && Run(m, [a, b]) == Apply(n, b).mem
            && EverOf(m, [a, b], ever) == EverAfter(n, b, now)
            && (OpOk(m, a) && Tame(m, a, ever) && Fresh(a, ever) && OpOk(n, b) && Tame(n, b, now) && Fresh(b, now)
                ==> RunTame(m, [a, b], ever))
            && (EntersLater(m, a) && EntersLater(n, b) ==> RunLater(m, [a, b]))
  {
    hide Apply, OpOk, Tame, Fresh, EverAfter, EntersLater;
    var n, now := Apply(m, a).mem, EverAfter(m, a, ever);
    assert [a, b][1..] == [b] && [b][1..] == [];
    assert Run(n, [b]) == Apply(n, b).mem && EverOf(n, [b], now) == EverAfter(n, b, now);
    assert OpOk(n, b) && Tame(n, b, now) && Fresh(b, now) ==> RunTame(n, [b], now);
    assert EntersLater(n, b) ==> RunLater(n, [b]);
  }

  lemma ArrivedMembers(h: seq<Slot>, s: Slot, k: nat)
    requires NoDup(h) && s.id !in Ids(h)
    ensures forall x :: x in Arrived(h, s, k) ==> x in h || x == s
  {
    hide Push, PopRest;
    PushContents(h, s);
    PopMembers(Push(h, s));
  }

  lemma {:induction false} RunJoins(m: Mem, a: seq<Op>, b: seq<Op>, ever: map<TaskID, Time>)
    ensures Run(m, a + b) == Run(Run(m, a), b)
    ensures EverOf(m, a + b, ever) == EverOf(Run(m, a), b, EverOf(m, a, ever))
    ensures RunTame(m, a, ever) && RunTame(Run(m, a), b, EverOf(m, a, ever)) ==> RunTame(m, a + b, ever)
    ensures RunLater(m, a) && RunLater(Run(m, a), b) ==> RunLater(m, a + b)
    decreases |a|
  {
    hide Apply, OpOk, Tame, Fresh, EverAfter, EntersLater;
    if a == [] {
      assert a + b == b;
    } else {
      RunJoins(Apply(m, a[0]).mem, a[1..], b, EverAfter(m, a[0], ever));
      assert (a + b)[1..] == a[1..] + b;
    }
  }

  lemma {:induction false} FreshId(used: set<TaskID>) returns (id: TaskID)
    ensures id !in used
  {
    var n := LongerThan(used);
    id := seq(n, _ => 'x');
  }

  lemma {:induction false} LongerThan(used: set<TaskID>) returns (n: nat)
    ensures forall x :: x in used ==> |x| < n
    decreases used
  {
    if used == {} {
      n := 0;
    } else {
      var x :| x in used;
      var k := LongerThan(used - {x});
      n := if |x| < k then k else |x| + 1;
    }
  }

  // ---------- a doomed record is evicted before an older one ----------

  lemma KeptAreIds(m: Mem)
    requires MemValid(m)
    ensures Terminals(m.entries) == Ids(m.heap)
  {
  }

  /** r is the root, the heap is full and one more record finishes: r goes, an older one stays. */
  lemma RootGoes(h: seq<Slot>, r: Slot, s: Slot)
    requires Doomed(h, 0, r) && NoDup(h) && s.id !in Ids(h) && r.at < s.at
    requires forall k :: 0 <= k < |h| ==> h[k].at <= s.at
    ensures var g := PopRest(Push(h, s));
            r.id !in Ids(g) && exists x :: x in g && x.at < r.at
  {
    hide Push, PopRest;
    PushLateStaysLast(h, s);
    PushContents(h, s);
    PopMembers(Push(h, s));
    PopIds(Push(h, s));
    var c :| 0 < c < |h| && Parent(c) == 0 && h[c].at < r.at;
    assert h[c] in h && h[c] in PopRest(Push(h, s));
  }

  lemma NotNewest(kept: set<TaskID>, ever: map<TaskID, Time>, k: nat, x: TaskID, y: TaskID)
    requires x in ever && x !in kept && y in kept && y in ever && ever[y] < ever[x]
    ensures !IsNewest(kept, ever, k)
  {
  }

  lemma LostNow(m: Mem, ever: map<TaskID, Time>, r: Slot)
    requires Ready(m, ever) && r.id in ever && ever[r.id] == r.at && r.id !in Ids(m.heap)
    requires exists x :: x in m.heap && x.at < r.at
    ensures !IsNewest(Terminals(m.entries), ever, m.maxRet)
  {
    hide IsNewest, MemValid;
    KeptAreIds(m);
    var x :| x in m.heap && x.at < r.at;
    assert x.id in Ids(m.heap);
    NotNewest(Ids(m.heap), ever, m.maxRet, r.id, x.id);
  }

  /** The heap after an arrival newer than everything held. */
  lemma ArrivedLate(h: seq<Slot>, s: Slot, k: nat)
    requires |h| <= k && k > 0 && NoDup(h) && s.id !in Ids(h) && forall x :: x in h ==> x.at <= s.at
    ensures Arrived(h, s, k) == if |h| < k then h + [s] else PopRest(h + [s])
    ensures |Arrived(h, s, k)| == if |h| < k then |h| + 1 else k
    ensures forall x :: x in Arrived(h, s, k) ==> x in h || x == s
    ensures |h| == k ==> Ids(Arrived(h, s, k)) == Ids(h) + {s.id} - {h[0].id}
  {
    hide Push, PopRest;
    PushLateStaysLast(h, s);
    PushContents(h, s);
    ArrivedMembers(h, s, k);
    if |h| == k {
      PopIds(Push(h, s));
    }
  }

  /** Only an early slot can be the root before r is. */
  lemma RootWasOld(h: seq<Slot>, p: nat, r: Slot, early: set<TaskID>)
    requires Doomed(h, p, r) && forall s :: s in h && s.id !in early ==> r.at < s.at
    ensures h[0].id in early && h[0].id in Ids(h)
  {
    DoomedRoot(h, p, r);
    assert h[0] in h;
  }

  /** The record stays doomed while others are evicted, and the others that may be evicted before it run
      out. `early` are the ids that can still be the root before r. */
  lemma {:induction false} DoomedIsLost(m: Mem, ever: map<TaskID, Time>, p: nat, r: Slot, early: set<TaskID>, top: Time)
    returns (ops: seq<Op>)
    requires Ready(m, ever) && Doomed(m.heap, p, r) && r.at <= top
    requires forall s :: s in m.heap ==> s.at <= top && (s.id !in early ==> r.at < s.at)
    ensures RunTame(m, ops, ever) && RunLater(m, ops)
    ensures !IsNewest(Terminals(Run(m, ops).entries), EverOf(m, ops, ever), m.maxRet)
    decreases m.maxRet - |m.heap|, Ids(m.heap) * early
  {
    hide Apply, MemValid, RunTame, RunLater, IsNewest, Push, PopRest, FinishOne, Doomed, Arrived, Run, EverOf, NoDup;
    HeapFits(m);
    DoomedIn(m.heap, p, r);
    var id := FreshId({""} + m.entries.Keys + m.released + ever.Keys + early);
    var s := Slot(id, top + 1);
    NotHeld(m, ever, id);
    OneFinishes(m, ever, id, s.at);
    ArrivedLate(m.heap, s, m.maxRet);
    PushLateStaysLast(m.heap, s);
    var first, n, now := FinishOne(id, s.at), Run(m, FinishOne(id, s.at)), ever[id := s.at];
    if |m.heap| == m.maxRet && p == 0 {
      ops := first;
      RootGoes(m.heap, r, s);
      LostNow(n, now, r);
    } else {
      var q := p;
      if |m.heap| < m.maxRet {
        DoomedGrows(m.heap, p, r, s);
      } else {
        EvictionKeepsDoomed(m.heap, p, r, s);
        q :| Doomed(n.heap, q, r);
        RootWasOld(m.heap, p, r, early);
        assert m.heap[0].id in Ids(m.heap) * early && m.heap[0].id !in Ids(n.heap) * early;
      }
      var rest := DoomedIsLost(n, now, q, r, early, s.at);
      ops := first + rest;
      RunJoins(m, first, rest, ever);
    }
  }

  lemma DoomedIn(h: seq<Slot>, p: nat, r: Slot)
    requires Doomed(h, p, r)
    ensures p < |h| && r in h
  {
  }

  lemma NotHeld(m: Mem, ever: map<TaskID, Time>, id: TaskID)
    requires Ready(m, ever) && id !in ever
    ensures id !in Ids(m.heap)
  {
  }

  // ---------- the exact condition ----------

  predicate OlderChild(h: seq<Slot>, i: nat, at: Time) {
    exists c :: 0 < c < |h| && Parent(c) == i && h[c].at < at
  }

  lemma {:induction false} Newest(h: seq<Slot>) returns (top: Time)
    ensures forall s :: s in h ==> s.at <= top
  {
    if h == [] {
      top := 0;
    } else {
      var t := Newest(h[1..]);
      top := if t < h[0].at then h[0].at else t;
      assert h == [h[0]] + h[1..];
    }
  }

  /** Editing a terminal record in place. */
  lemma RewriteIsEdit(m: Mem, op: Op)
    requires MemValid(m) && OpOk(m, op) && Rewriting(m, op).Some?
    ensures var s, n := Rewriting(m, op).value, Apply(m, op).mem;
            && s.id in m.entries && op.fn(m.entries[s.id].task).Applied?
            && n == Edited(m, s.id, op.fn(m.entries[s.id].task).task) && n.heap == Retimed(m.heap, s.id, s.at)
            && n.closed == m.closed && n.queued == m.queued && n.maxQueue == m.maxQueue && n.maxRet == m.maxRet
            && Entering(m, op) == None && op.fn(m.entries[s.id].task).task.state == m.entries[s.id].task.state
  {
    hide MemValid;
    IdOf(m, op.id);
  }

  lemma RewriteIsReady(m: Mem, ever: map<TaskID, Time>, op: Op)
    requires Retains(m, ever) && !m.closed && m.queued < m.maxQueue && OpOk(m, op) && Rewriting(m, op).Some?
    ensures var s := Rewriting(m, op).value; Ready(Apply(m, op).mem, ever[s.id := s.at])
  {
    hide MemValid, Transition, MemOrdered;
    var s, n := Rewriting(m, op).value, Apply(m, op).mem;
    RewriteIsEdit(m, op);
    StepKeepsValid(m, op);
    hide Apply, Rewriting, OpOk;
    forall x | x in n.heap
      ensures x == s || (x in m.heap && x.id != s.id)
    {
      var k :| 0 <= k < |n.heap| && n.heap[k] == x;
      assert m.heap[k] in m.heap;
    }
  }

  ghost predicate KeepsNewest(n: Mem, ops: seq<Op>, ever: map<TaskID, Time>) {
    IsNewest(Terminals(Run(n, ops).entries), EverOf(n, ops, ever), n.maxRet)
  }

  lemma RunKeepsRet(m: Mem, ops: seq<Op>)
    requires MemValid(m) && RunOk(m, ops)
    ensures Run(m, ops).maxRet == m.maxRet
    decreases |ops|
  {
    hide MemValid, Transition, Restore;
    if ops != [] {
      StepKeepsRet(m, ops[0]);
      StepKeepsValid(m, ops[0]);
      RunKeepsRet(Apply(m, ops[0]).mem, ops[1..]);
    }
  }

  lemma StepKeepsRet(m: Mem, op: Op)
    requires MemValid(m) && OpOk(m, op)
    ensures Apply(m, op).mem.maxRet == m.maxRet
  {
    hide MemValid, Transition, Restore;
    match op
    case TransitionOp(id, fn, now) => TransitionEffect(m, id, fn, now, id);
    case RestoreOp(t, now) => RestoreEffect(m, t, now, t.id);
    case _ =>
  }

  lemma {:induction false} TameIsOk(m: Mem, ops: seq<Op>, ever: map<TaskID, Time>)
    requires RunTame(m, ops, ever)
    ensures RunOk(m, ops)
    decreases |ops|
  {
    hide Apply, OpOk, Tame, Fresh, EverAfter;
    if ops != [] {
      TameIsOk(Apply(m, ops[0]).mem, ops[1..], EverAfter(m, ops[0], ever));
    }
  }

  /** An ordered heap never breaks the promise, whatever finishes next and in whatever order. */
  lemma RetainsKeeps(n: Mem, ops: seq<Op>, ever: map<TaskID, Time>)
    requires Retains(n, ever) && RunTame(n, ops, ever)
    ensures KeepsNewest(n, ops, ever)
  {
    hide MemOrdered, Ordered, IsNewest, RunTame, Run, EverOf, RunOk;
    RunRetains(n, ops, ever);
    TameIsOk(n, ops, ever);
    RunKeepsRet(n, ops);
    HeldAreNewest(Run(n, ops).heap, EverOf(n, ops, ever), n.maxRet);
  }

  /** The record at place i may carry this time: the place's parent is not newer, no child of it is older,
      and nothing already dropped is newer. */
  ghost predicate StillFits(m: Mem, ever: map<TaskID, Time>, i: nat, at: Time)
    requires i < |m.heap|
  {
    && (i > 0 ==> m.heap[Parent(i)].at <= at)
    && !OlderChild(m.heap, i, at)
    && forall x :: x in ever && x !in m.entries ==> ever[x] <= at
  }

  /** The exact condition for retention when a terminal record's finish time is rewritten in place, for
      every edit, whether it raises the time or lowers it: the store goes on keeping the newest, by their
      last finish time, if and only if the new time still fits. It is the same whether one asks about every
      further run whose own rewrites are tame, or only about those of them in which each task finishes
      after everything retained. */
  lemma RewriteKeepsRetentionIff(m: Mem, ever: map<TaskID, Time>, i: nat, op: Op)
    requires Retains(m, ever) && !m.closed && m.queued < m.maxQueue && i < |m.heap| && OpOk(m, op)
    requires Rewriting(m, op).Some? && Rewriting(m, op).value.id == m.heap[i].id
    ensures var n, s := Apply(m, op).mem, Rewriting(m, op).value;
            var last := ever[s.id := s.at];
            && ((forall ops :: RunTame(n, ops, last) ==> KeepsNewest(n, ops, last)) <==> StillFits(m, ever, i, s.at))
            && ((forall ops :: RunTame(n, ops, last) && RunLater(n, ops) ==> KeepsNewest(n, ops, last))
                <==> StillFits(m, ever, i, s.at))
  {
    hide Retains, MemValid, MemOrdered, Transition, IsNewest, RunTame, RunLater, OpOk, Apply, StillFits;
    var n, s := Apply(m, op).mem, Rewriting(m, op).value;
    var last := ever[s.id := s.at];
    if StillFits(m, ever, i, s.at) {
      RewrittenRetains(m, ever, i, op);
      forall ops | RunTame(n, ops, last)
        ensures KeepsNewest(n, ops, last)
      {
        RetainsKeeps(n, ops, last);
      }
    } else {
      var ops := RewrittenIsLost(m, ever, i, op);
    }
  }

  lemma RewrittenRetains(m: Mem, ever: map<TaskID, Time>, i: nat, op: Op)
    requires Retains(m, ever) && i < |m.heap| && OpOk(m, op) && Rewriting(m, op).Some?
    requires Rewriting(m, op).value.id == m.heap[i].id && StillFits(m, ever, i, Rewriting(m, op).value.at)
    ensures var s := Rewriting(m, op).value; Retains(Apply(m, op).mem, ever[s.id := s.at])
  {
    hide Apply, Rewriting, OpOk, Entering, Retains, MemValid;
    var s := Rewriting(m, op).value;
    RetainsParts(m, ever);
    RewriteIsEdit(m, op);
    HeapFits(m);
    RewriteKeepsOrderIff(m.heap, i, s.at);
    RewrittenId(m, op);
    assert Fresh(op, ever);
    RetainsStep(m, op, ever);
  }

  lemma RewrittenId(m: Mem, op: Op)
    requires Rewriting(m, op).Some?
    ensures op.TransitionOp? && Rewriting(m, op).value.id == op.id
  {
  }

  lemma RewrittenIsLost(m: Mem, ever: map<TaskID, Time>, i: nat, op: Op) returns (ops: seq<Op>)
    requires Retains(m, ever) && !m.closed && m.queued < m.maxQueue && i < |m.heap| && OpOk(m, op)
    requires Rewriting(m, op).Some? && Rewriting(m, op).value.id == m.heap[i].id
    requires !StillFits(m, ever, i, Rewriting(m, op).value.at)
    ensures var n, s := Apply(m, op).mem, Rewriting(m, op).value;
            RunTame(n, ops, ever[s.id := s.at]) && RunLater(n, ops) && !KeepsNewest(n, ops, ever[s.id := s.at])
  {
    hide Apply, Rewriting, OpOk, Entering, RunTame, RunLater, IsNewest, Run, EverOf, Ready, Doomed, Retains, MemValid;
    var n, s := Apply(m, op).mem, Rewriting(m, op).value;
    var last := ever[s.id := s.at];
    RetainsParts(m, ever);
    RewriteIsEdit(m, op);
    RewriteIsReady(m, ever, op);
    HeapFits(m);
    var top := Newest(n.heap);
    if i > 0 && s.at < m.heap[Parent(i)].at {
      var p := Parent(i);
      LowerDooms(m.heap, i, s.at);
      DoomedIn(n.heap, p, m.heap[p]);
      ops := DoomedIsLost(n, last, p, m.heap[p], Ids(n.heap), top);
    } else if OlderChild(m.heap, i, s.at) {
      var c :| 0 < c < |m.heap| && Parent(c) == i && m.heap[c].at < s.at;
      RaiseDooms(m.heap, i, s.at, c);
      DoomedIn(n.heap, i, s);
      ops := DoomedIsLost(n, last, i, s, Ids(n.heap), top);
    } else {
      ops := [];
      PassedIsLost(m, ever, i, op);
    }
  }

  /** A record that falls behind one already dropped is out of place at once. */
  lemma PassedIsLost(m: Mem, ever: map<TaskID, Time>, i: nat, op: Op)
    requires Retains(m, ever) && i < |m.heap| && OpOk(m, op)
    requires Rewriting(m, op).Some? && Rewriting(m, op).value.id == m.heap[i].id
    requires exists x :: x in ever && x !in m.entries && Rewriting(m, op).value.at < ever[x]
    ensures var n, s := Apply(m, op).mem, Rewriting(m, op).value;
            RunTame(n, [], ever[s.id := s.at]) && RunLater(n, []) && !KeepsNewest(n, [], ever[s.id := s.at])
  {
    var n, s := Apply(m, op).mem, Rewriting(m, op).value;
    var last := ever[s.id := s.at];
    RetainsParts(m, ever);
    RewriteIsEdit(m, op);
    StepKeepsValid(m, op);
    hide Apply, Rewriting, OpOk, Retains, MemValid, IsNewest;
    var x :| x in ever && x !in m.entries && s.at < ever[x];
    KeptAreIds(m);
    KeptAreIds(n);
    RetimedIds(m.heap, s.id, s.at);
    assert m.heap[i] in m.heap;
    NotNewest(Terminals(n.entries), last, n.maxRet, x, s.id);
    assert Run(n, []) == n && EverOf(n, [], last) == last;
  }

  /** Two Cancel calls that both commit: whatever the clock reads, the second one leaves retention intact
      if and only if its time still fits. */
  lemma SecondCancelKeepsRetentionIff(m: Mem, ever: map<TaskID, Time>, i: nat, hint: string, now: Time)
    requires Retains(m, ever) && !m.closed && m.queued < m.maxQueue && i < |m.heap|
    requires m.heap[i].id in m.entries
    requires var t := m.entries[m.heap[i].id].task; t.id != "" && t.pid == m.pid && t.state == Cancelled
    ensures var n, last := CancelCommit(m, m.heap[i].id, hint, now).mem, ever[m.heap[i].id := now];
            && ((forall ops :: RunTame(n, ops, last) ==> KeepsNewest(n, ops, last)) <==> StillFits(m, ever, i, now))
            && ((forall ops :: RunTame(n, ops, last) && RunLater(n, ops) ==> KeepsNewest(n, ops, last))
                <==> StillFits(m, ever, i, now))
  {
    var id := m.heap[i].id;
    var op := TransitionOp(id, CancelEdit(hint, now), now);
    RetainsParts(m, ever);
    hide Retains, MemValid, MemOrdered, RunTame, RunLater, KeepsNewest, StillFits;
    IdOf(m, id);
    assert Rewriting(m, op) == Some(Slot(id, now));
    assert OpOk(m, op);
    RewriteKeepsRetentionIff(m, ever, i, op);
  }
}
