/** The retention bound: which terminal records the store keeps (internal/taskstore/memory.go:354-386
    and 516-563), against a specification that does not mention the heap. */
module Retention {
  import opened Tasks
  import opened TerminalHeap
  import opened StoreSpec
  import opened StoreLaws
  import opened Collections
  import TaskIDs

  /** `kept` are the k newest of all records that ever became terminal (all of them if fewer), and
      nothing dropped is newer than anything kept. */
  ghost predicate IsNewest(kept: set<TaskID>, ever: map<TaskID, Time>, k: nat) {
    && kept <= ever.Keys
    && |kept| == (if |ever| <= k then |ever| else k)
    && forall x, y :: x in ever && x !in kept && y in kept ==> ever[x] <= ever[y]
  }

  ghost predicate DistinctTimes(ever: map<TaskID, Time>) {
    forall x, y :: x in ever && y in ever && x != y ==> ever[x] != ever[y]
  }

  /** With distinct times the specification has only one solution. */
  lemma NewestIsUnique(a: set<TaskID>, b: set<TaskID>, ever: map<TaskID, Time>, k: nat)
    requires IsNewest(a, ever, k) && IsNewest(b, ever, k) && DistinctTimes(ever)
    ensures a == b
  {
    assert forall x, y :: x in a && x !in b && y in b && y !in a ==> x == y;
    assert a - b == {} || b - a == {};
    DifferenceSizes(a, b);
  }

  lemma DifferenceSizes<T>(a: set<T>, b: set<T>)
    requires |a| == |b|
    ensures |a - b| == |b - a|
  {
    assert a == (a - b) + a * b && b == (b - a) + a * b;
  }

  /** The record an operation turns terminal, under the FinishedAt it then carries. */
  function Entering(m: Mem, op: Op): Option<Slot> {
    match op
    case TransitionOp(id, fn, now) =>
      if Transition(m, id, fn, now).out == Ok && fn(m.entries[id].task).task.state != m.entries[id].task.state
         && fn(m.entries[id].task).task.state.IsTerminal()
      then Some(Slot(id, Stamped(fn(m.entries[id].task).task, now).finishedAt))
      else None
    case RestoreOp(t, now) =>
      if Restore(m, t, now).1 == Ok && t.state.IsTerminal() then Some(Slot(t.id, Stamped(t, now).finishedAt)) else None
    case _ => None
  }

  /** The record an operation edits while it is terminal, under the FinishedAt it carries afterwards. */
  function Rewriting(m: Mem, op: Op): Option<Slot> {
    if op.TransitionOp? && op.id in m.entries && m.entries[op.id].task.state.IsTerminal()
       && Transition(m, op.id, op.fn, op.now).out == Ok
    then Some(Slot(op.id, op.fn(m.entries[op.id].task).task.finishedAt))
    else None
  }

  /** The last FinishedAt of every record that ever became terminal. */
  function EverAfter(m: Mem, op: Op, ever: map<TaskID, Time>): map<TaskID, Time> {
    match Entering(m, op)
    case Some(s) => ever[s.id := s.at]
    case None =>
      match Rewriting(m, op)
      case Some(s) => ever[s.id := s.at]
      case None => ever
  }

  /** An edit of a terminal record may rewrite its FinishedAt if the heap is still ordered afterwards and
      nothing already dropped becomes newer than it. */
  ghost predicate Tame(m: Mem, op: Op, ever: map<TaskID, Time>) {
    Rewriting(m, op).Some? ==>
      && MemOrdered(Apply(m, op).mem)
      && forall x :: x in ever && x !in m.entries ==> ever[x] <= Rewriting(m, op).value.at
  }

  /** Leaving the time alone is harmless, and so is raising it while the heap stays ordered. */
  lemma RaisingIsTame(m: Mem, op: Op, ever: map<TaskID, Time>)
    requires Retains(m, ever) && Rewriting(m, op).Some? && OpOk(m, op)
    requires m.entries[op.id].task.finishedAt <= Rewriting(m, op).value.at
    requires Rewriting(m, op).value.at == m.entries[op.id].task.finishedAt || MemOrdered(Apply(m, op).mem)
    ensures Tame(m, op, ever)
  {
    var e := m.entries[op.id];
    var t := op.fn(e.task).task;
    assert op.id in Terminals(m.entries) && Terminals(m.entries) == Ids(m.heap);
    var s :| s in m.heap && s.id == op.id;
    IdOf(m, op.id);
    if t.finishedAt == e.task.finishedAt {
      RetimedSame(m, op.id, t.finishedAt);
    }
    forall x | x in ever && x !in m.entries
      ensures ever[x] <= t.finishedAt
    {
      assert x !in Ids(m.heap);
    }
  }

  /** New ids have never been terminal before. */
  ghost predicate Fresh(op: Op, ever: map<TaskID, Time>) {
    match op
    case SubmitOp(id, _, _, _) => id !in ever
    case RestoreOp(t, _) => t.id !in ever
    case _ => true
  }

  /** What every step keeps: the heap is ordered, it holds a part of `ever` under the right times, and
      whatever has been dropped is older than everything held, which then fills the bound. */
  ghost predicate Retains(m: Mem, ever: map<TaskID, Time>) {
    && MemValid(m)
    && MemOrdered(m)
    && HoldsNewest(m.heap, ever, m.maxRet)
    && (forall x :: x in ever && x in m.entries ==> m.entries[x].task.state.IsTerminal())
  }

  ghost predicate HoldsNewest(h: seq<Slot>, ever: map<TaskID, Time>, k: nat) {
    && (forall s :: s in h ==> s.id in ever && ever[s.id] == s.at)
    && (forall x, s :: x in ever && x !in Ids(h) && s in h ==> ever[x] <= s.at)
    && (ever.Keys <= Ids(h) || |h| == k)
  }

  lemma HeldAreNewest(h: seq<Slot>, ever: map<TaskID, Time>, k: nat)
    requires NoDup(h) && HoldsNewest(h, ever, k) && |h| <= k
    ensures IsNewest(Ids(h), ever, k)
  {
    HeapSize(h);
    assert Ids(h) <= ever.Keys;
    if ever.Keys <= Ids(h) {
      assert ever.Keys == Ids(h);
      assert |ever.Keys| == |ever|;
    } else {
      var x :| x in ever.Keys && x !in Ids(h);
      assert Ids(h) <= ever.Keys - {x};
      SubsetSize(Ids(h), ever.Keys - {x});
      assert |ever.Keys| == |ever|;
    }
    forall x, y | x in ever && x !in Ids(h) && y in Ids(h)
      ensures ever[x] <= ever[y]
    {
      var s :| s in h && s.id == y;
    }
  }

  /** One record joins an ordered heap that may then overflow by one. */
  lemma PushHolds(h: seq<Slot>, ever: map<TaskID, Time>, k: nat, s: Slot)
    requires NoDup(h) && Ordered(h) && HoldsNewest(h, ever, k) && |h| <= k && k > 0 && s.id !in ever
    ensures var g := Push(h, s);
            HoldsNewest(if |g| <= k then g else PopRest(g), ever[s.id := s.at], k)
  {
    var g := Push(h, s);
    var now := ever[s.id := s.at];
    assert s.id !in Ids(h);
    PushContents(h, s);
    PushOrders(h, s);
    if |g| <= k {
      assert ever.Keys <= Ids(h);
      assert now.Keys <= Ids(g);
    } else {
      PopMembers(g);
      PopIds(g);
      PopOrders(g);
      assert g[0] in g;
      PopHolds(h, ever, k, s);
    }
  }

  lemma PopHolds(h: seq<Slot>, ever: map<TaskID, Time>, k: nat, s: Slot)
    requires HoldsNewest(h, ever, k) && s.id !in ever && |h| == k > 0
    requires var g := Push(h, s);
             && NoDup(g) && (forall x :: x in g <==> x in h || x == s) && Ids(g) == Ids(h) + {s.id}
             && (forall x :: x in PopRest(g) <==> x in g && x.id != g[0].id) && Ids(PopRest(g)) == Ids(g) - {g[0].id}
             && g[0] in g && (forall x :: x in g ==> g[0].at <= x.at)
    ensures HoldsNewest(PopRest(Push(h, s)), ever[s.id := s.at], k)
  {
    hide Push, PopRest, Ids, NoDup;
    var g := Push(h, s);
    var rest, root, now := PopRest(g), g[0], ever[s.id := s.at];
    forall x, q | x in now && x !in Ids(rest) && q in rest
      ensures now[x] <= q.at
    {
      if x != root.id {
        assert x in ever && x !in Ids(h);
        if q == s {
          assert root in h;
          assert ever[x] <= root.at;
        }
      }
    }
  }

  lemma RetimedSame(m: Mem, id: TaskID, at: Time)
    requires MemValid(m) && id in m.entries
    requires m.entries[id].task.state.IsTerminal() ==> at == m.entries[id].task.finishedAt
    ensures Retimed(m.heap, id, at) == m.heap
  {
    forall i | 0 <= i < |m.heap|
      ensures Retimed(m.heap, id, at)[i] == m.heap[i]
    {
      assert m.heap[i] in m.heap;
      assert m.heap[i].id in Ids(m.heap);
    }
  }

  /** One record enters a terminal state. */
  lemma EnterRetains(m: Mem, ever: map<TaskID, Time>, f: Mem, id: TaskID, t: Task)
    requires Retains(m, ever) && id !in ever && t.id == id && t.state.IsTerminal()
    requires f.heap == Push(m.heap, Slot(id, t.finishedAt)) && f.entries == m.entries[id := Entry(t, None)]
    requires Sound(f) && MemOrdered(f) && f.maxRet == m.maxRet
    ensures Retains(Trimmed(f), ever[id := t.finishedAt])
  {
    PushHolds(m.heap, ever, m.maxRet, Slot(id, t.finishedAt));
    TrimmedOnce(f);
    TrimmedValid(f);
  }

  /** A step that leaves the heap alone and brings back no old id. */
  lemma SameHeapRetains(m: Mem, ever: map<TaskID, Time>, f: Mem)
    requires Retains(m, ever) && MemValid(f) && f.heap == m.heap && f.maxRet == m.maxRet
    requires forall x :: x in f.entries && x in ever ==> x in m.entries
    ensures Retains(f, ever)
  {
    assert Terminals(f.entries) == Ids(m.heap) == Terminals(m.entries);
    forall x | x in ever && x in f.entries
      ensures f.entries[x].task.state.IsTerminal()
    {
      assert x in Terminals(m.entries);
    }
  }

  lemma LiveIsNew(m: Mem, ever: map<TaskID, Time>, id: TaskID)
    requires Retains(m, ever) && id in m.entries && !m.entries[id].task.state.IsTerminal()
    ensures id !in ever
  {
  }

  lemma RetainsParts(m: Mem, ever: map<TaskID, Time>)
    requires Retains(m, ever)
    ensures MemValid(m) && MemOrdered(m)
  {
  }

  /** A terminal record is edited in place. */
  lemma RewriteHolds(h: seq<Slot>, ever: map<TaskID, Time>, k: nat, id: TaskID, at: Time)
    requires HoldsNewest(h, ever, k) && id in Ids(h)
    requires forall x :: x in ever && x !in Ids(h) ==> ever[x] <= at
    ensures HoldsNewest(Retimed(h, id, at), ever[id := at], k)
  {
    RetimedIds(h, id, at);
    var g := Retimed(h, id, at);
    forall s | s in g
      ensures s == Slot(id, at) || (s in h && s.id != id)
    {
      var i :| 0 <= i < |g| && g[i] == s;
      assert h[i] in h;
    }
  }

  lemma RewriteRetains(m: Mem, ever: map<TaskID, Time>, id: TaskID, t: Task)
    requires Retains(m, ever) && id in m.entries && m.entries[id].task.state.IsTerminal()
    requires t.id == id && t.state == m.entries[id].task.state && MemOrdered(Edited(m, id, t))
    requires forall x :: x in ever && x !in m.entries ==> ever[x] <= t.finishedAt
    ensures Retains(Edited(m, id, t), ever[id := t.finishedAt])
  {
    EditedValid(m, id, t);
    assert id in Terminals(m.entries);
    assert Terminals(m.entries) == Ids(m.heap);
    RewriteHolds(m.heap, ever, m.maxRet, id, t.finishedAt);
  }

  lemma CommitRetains(m: Mem, id: TaskID, t: Task, now: Time, ever: map<TaskID, Time>)
    requires Retains(m, ever) && id in m.entries && t.id == id && MemValid(Committed(m, id, t, now).mem)
    requires m.entries[id].task.state.IsTerminal() && t.state == m.entries[id].task.state ==>
               && MemOrdered(Committed(m, id, t, now).mem)
               && forall x :: x in ever && x !in m.entries ==> ever[x] <= t.finishedAt
    ensures Retains(Committed(m, id, t, now).mem,
                    if CanTransition(m.entries[id].task.state, t.state) && t.state.IsTerminal()
                    then ever[id := Stamped(t, now).finishedAt]
                    else if m.entries[id].task.state.IsTerminal() && t.state == m.entries[id].task.state
                    then ever[id := t.finishedAt]
                    else ever)
  {
    hide Retains, MemValid, Sound, MemOrdered, Trimmed, TrimmedIds, Push;
    RetainsParts(m, ever);
    var e := m.entries[id];
    var s := Committed(m, id, t, now);
    if t.state == e.task.state {
      if t.state.IsTerminal() {
        RewriteRetains(m, ever, id, t);
      } else {
        RetimedSame(m, id, t.finishedAt);
        SameHeapRetains(m, ever, s.mem);
      }
    } else if CanTransition(e.task.state, t.state) {
      LiveIsNew(m, ever, id);
      if t.state.IsTerminal() {
        EnteredSound(m, id, Stamped(t, now));
        EnterRetains(m, ever, Entered(Left(m, e.task.state), id, Stamped(t, now), e.cancel), id, Stamped(t, now));
      } else {
        SameHeapRetains(m, ever, s.mem);
      }
    }
  }

  lemma TransitionRetains(m: Mem, op: Op, ever: map<TaskID, Time>)
    requires Retains(m, ever) && OpOk(m, op) && Tame(m, op, ever) && op.TransitionOp?
    ensures Retains(Apply(m, op).mem, EverAfter(m, op, ever))
  {
    hide Retains, MemValid, Trimmed, TrimmedIds, Entered, Left, Edited;
    RetainsParts(m, ever);
    TransitionValid(m, op.id, op.fn, op.now);
    var s := Transition(m, op.id, op.fn, op.now);
    if s.out == Ok {
      IdOf(m, op.id);
      CommitRetains(m, op.id, op.fn(m.entries[op.id].task).task, op.now, ever);
    }
  }

  lemma RestoreRetains(m: Mem, t: Task, now: Time, ever: map<TaskID, Time>)
    requires Retains(m, ever) && t.id !in ever && Restore(m, t, now).1 == Ok
    ensures Retains(Restore(m, t, now).0,
                if t.state.IsTerminal() then ever[t.id := Stamped(t, now).finishedAt] else ever)
  {
    hide Retains, MemValid, Sound, MemOrdered, Trimmed, Push;
    RetainsParts(m, ever);
    var open := m.(released := m.released - {t.id});
    ReopenValid(m, t.id);
    SameHeapRetains(m, ever, open);
    RestoreValid(m, t, now);
    if t.state.IsTerminal() {
      EnteredNew(open, Stamped(t, now));
      MemOrderedReopened(m, t.id);
      EnterRetains(open, ever, Entered(open, t.id, Stamped(t, now), None), t.id, Stamped(t, now));
    } else {
      SameHeapRetains(m, ever, Restore(m, t, now).0);
    }
  }

  lemma MemOrderedReopened(m: Mem, id: TaskID)
    requires MemOrdered(m)
    ensures MemOrdered(m.(released := m.released - {id}))
  {
  }

  lemma RetainsStep(m: Mem, op: Op, ever: map<TaskID, Time>)
    requires Retains(m, ever) && OpOk(m, op) && Tame(m, op, ever) && Fresh(op, ever)
    ensures Retains(Apply(m, op).mem, EverAfter(m, op, ever))
  {
    hide Retains, MemValid, Transition, TaskIDs.IsValid;
    RetainsParts(m, ever);
    StepKeepsValid(m, op);
    match op
    case TransitionOp(_, _, _) => TransitionRetains(m, op, ever);
    case RestoreOp(t, now) =>
      if Restore(m, t, now).1 == Ok {
        RestoreRetains(m, t, now, ever);
      }
    case _ => SameHeapRetains(m, ever, Apply(m, op).mem);
  }

  function EverOf(m: Mem, ops: seq<Op>, ever: map<TaskID, Time>): map<TaskID, Time>
    decreases |ops|
  {
    if ops == [] then ever else EverOf(Apply(m, ops[0]).mem, ops[1..], EverAfter(m, ops[0], ever))
  }

  ghost predicate RunTame(m: Mem, ops: seq<Op>, ever: map<TaskID, Time>)
    decreases |ops|
  {
    ops == [] ||
    (OpOk(m, ops[0]) && Tame(m, ops[0], ever) && Fresh(ops[0], ever)
     && RunTame(Apply(m, ops[0]).mem, ops[1..], EverAfter(m, ops[0], ever)))
  }

  lemma {:induction false} RunRetains(m: Mem, ops: seq<Op>, ever: map<TaskID, Time>)
    requires Retains(m, ever) && RunTame(m, ops, ever)
    ensures Retains(Run(m, ops), EverOf(m, ops, ever))
    decreases |ops|
  {
    if ops != [] {
      RetainsStep(m, ops[0], ever);
      RunRetains(Apply(m, ops[0]).mem, ops[1..], EverAfter(m, ops[0], ever));
    }
  }

  /** Retention equals its specification: after any run from an empty store, by Transition or by
      replay, in any order of finish times and with finish times rewritten in any way that keeps the heap
      ordered and passes nothing dropped, the terminal records kept are exactly the MaxRetained newest, by
      their last FinishedAt, of all that ever became terminal. */
  lemma RetentionIsNewest(pid: int, maxQueued: int, maxRetained: int, ops: seq<Op>)
    requires RunTame(NewMem(pid, maxQueued, maxRetained), ops, map[])
    ensures var m0 := NewMem(pid, maxQueued, maxRetained);
            var r := Run(m0, ops);
            IsNewest(Terminals(r.entries), EverOf(m0, ops, map[]), r.maxRet)
  {
    var m0 := NewMem(pid, maxQueued, maxRetained);
    NewMemValid(pid, maxQueued, maxRetained);
    RunRetains(m0, ops, map[]);
    var r := Run(m0, ops);
    HeldAreNewest(r.heap, EverOf(m0, ops, map[]), r.maxRet);
  }

  // ---------- where it fails: a cancel committed twice ----------

  /** A rewritten FinishedAt leaves the heap ordered exactly when it still fits between the parent
      and the children of the place it is at. */
  lemma RewriteKeepsOrderIff(h: seq<Slot>, i: nat, at: Time)
    requires Ordered(h) && NoDup(h) && i < |h|
    ensures Ordered(Retimed(h, h[i].id, at)) <==>
            && (i > 0 ==> h[Parent(i)].at <= at)
            && (forall k :: 0 < k < |h| && Parent(k) == i ==> at <= h[k].at)
  {
    var g := Retimed(h, h[i].id, at);
    forall k | 0 <= k < |h|
      ensures g[k].at == if k == i then at else h[k].at
    {
      if k != i {
        assert h[if k < i then k else i].id != h[if k < i then i else k].id;
      }
    }
    if Ordered(g) {
      assert i > 0 ==> g[Parent(i)].at <= g[i].at;
      forall k | 0 < k < |h| && Parent(k) == i
        ensures at <= h[k].at
      {
        assert g[Parent(k)].at <= g[k].at;
      }
    }
    if (i > 0 ==> h[Parent(i)].at <= at) && (forall k :: 0 < k < |h| && Parent(k) == i ==> at <= h[k].at) {
      forall k | 0 < k < |g|
        ensures g[Parent(k)].at <= g[k].at
      {
        assert h[Parent(k)].at <= h[k].at;
      }
    }
  }

  function CancelOp(id: TaskID, now: Time): Op {
    TransitionOp(id, CancelEdit("client", now), now)
  }

  /** Three tasks submitted to a store that retains two. */
  function Submitted(): Mem {
    var m0 := NewMem(7, 10, 2);
    var m1 := Submit(m0, "a", GenerateImage, "", 1).mem;
    var m2 := Submit(m1, "b", GenerateImage, "", 1).mem;
    Submit(m2, "c", GenerateImage, "", 1).mem
  }

  /** Then a, b and once more a are cancelled at 2, 3 and 5. */
  function CancelledTwice(): Mem {
    var m1 := Apply(Submitted(), CancelOp("a", 2)).mem;
    var m2 := Apply(m1, CancelOp("b", 3)).mem;
    Apply(m2, CancelOp("a", 5)).mem
  }

  /** Or a and b are cancelled at 2 and 3, and then b once more by a clock that reads 1. */
  function CancelledEarlier(): Mem {
    var m1 := Apply(Submitted(), CancelOp("a", 2)).mem;
    var m2 := Apply(m1, CancelOp("b", 3)).mem;
    Apply(m2, CancelOp("b", 1)).mem
  }

  lemma SubmittedIs(m: Mem)
    requires m == Submitted()
    ensures m.entries.Keys == {"a", "b", "c"} && m.heap == [] && !m.closed && m.pid == 7 && m.maxRet == 2
    ensures forall id :: id in m.entries ==>
              m.entries[id]
                  == Entry(Task(id, GenerateImage, Queued, 7, 1, ZERO_TIME, ZERO_TIME, "", None, "", ""), None)
  {
  }

  lemma CancelLive(m: Mem, id: TaskID, now: Time)
    requires id != "" && !m.closed && id in m.entries && m.entries[id].task.pid == m.pid && now != ZERO_TIME
    requires m.entries[id].task.state == Queued && m.entries[id].task.id == id && |m.heap| < m.maxRet
    ensures var r := Apply(m, CancelOp(id, now)).mem;
            && r.entries.Keys == m.entries.Keys && r.heap == Push(m.heap, Slot(id, now))
            && (forall x :: x in m.entries && x != id ==> r.entries[x] == m.entries[x])
            && r.entries[id].task == m.entries[id].task.(state := Cancelled, cancelHint := "client", finishedAt := now)
            && !r.closed && r.pid == m.pid && r.maxRet == m.maxRet
  {
  }

  lemma CancelAgain(m: Mem, id: TaskID, now: Time)
    requires id != "" && !m.closed && id in m.entries && m.entries[id].task.pid == m.pid
    requires m.entries[id].task.state == Cancelled
    ensures var r := Apply(m, CancelOp(id, now)).mem;
            && r.entries.Keys == m.entries.Keys && r.heap == Retimed(m.heap, id, now)
            && (forall x :: x in m.entries && x != id ==> r.entries[x] == m.entries[x])
            && r.entries[id].task.finishedAt == now
            && !r.closed && r.pid == m.pid && r.maxRet == m.maxRet
  {
  }

  /** After the first cancel of a. */
  lemma CancelledOnceIs(m1: Mem)
    requires m1 == Apply(Submitted(), CancelOp("a", 2)).mem
    ensures m1.entries.Keys == {"a", "b", "c"} && m1.heap == [Slot("a", 2)]
    ensures m1.entries["a"].task.state == Cancelled && m1.entries["a"].task.pid == 7
    ensures m1.entries["a"].task.finishedAt == 2
    ensures m1.entries["b"] == Submitted().entries["b"] && m1.entries["c"] == Submitted().entries["c"]
    ensures !m1.closed && m1.pid == 7 && m1.maxRet == 2
  {
    SubmittedIs(Submitted());
    hide Submitted, Apply, CancelOp;
    CancelLive(Submitted(), "a", 2);
    assert m1.heap == [Slot("a", 2)];
  }

  /** After the first cancels of a and b. */
  lemma CancelledBothIs(m2: Mem)
    requires m2 == Apply(Apply(Submitted(), CancelOp("a", 2)).mem, CancelOp("b", 3)).mem
    ensures m2.entries.Keys == {"a", "b", "c"} && m2.heap == [Slot("a", 2), Slot("b", 3)]
    ensures m2.entries["a"].task.state == Cancelled && m2.entries["a"].task.pid == 7
    ensures m2.entries["b"].task.state == Cancelled && m2.entries["b"].task.pid == 7
    ensures m2.entries["a"].task.finishedAt == 2 && m2.entries["b"].task.finishedAt == 3
    ensures m2.entries["c"] == Submitted().entries["c"] && !m2.closed && m2.pid == 7 && m2.maxRet == 2
  {
    var m1 := Apply(Submitted(), CancelOp("a", 2)).mem;
    SubmittedIs(Submitted());
    hide Submitted, Apply, CancelOp, Push;
    CancelledOnceIs(m1);
    CancelLive(m1, "b", 3);
    PushLateStaysLast(m1.heap, Slot("b", 3));
    assert m2.heap == [Slot("a", 2), Slot("b", 3)];
  }

  lemma CancelledTwiceIs(m: Mem)
    requires m == CancelledTwice()
    ensures m.entries.Keys == {"a", "b", "c"} && m.heap == [Slot("a", 5), Slot("b", 3)]
    ensures m.entries["a"].task.finishedAt == 5 && m.entries["b"].task.finishedAt == 3
    ensures m.entries["c"] == Submitted().entries["c"] && !m.closed && m.pid == 7 && m.maxRet == 2
  {
    hide Submitted, Apply, CancelOp;
    var m2 := Apply(Apply(Submitted(), CancelOp("a", 2)).mem, CancelOp("b", 3)).mem;
    CancelledBothIs(m2);
    CancelAgain(m2, "a", 5);
    assert m.heap == [Slot("a", 5), Slot("b", 3)];
  }

  lemma CancelledEarlierIs(m: Mem)
    requires m == CancelledEarlier()
    ensures m.entries.Keys == {"a", "b", "c"} && m.heap == [Slot("a", 2), Slot("b", 1)]
    ensures m.entries["a"].task.finishedAt == 2 && m.entries["b"].task.finishedAt == 1
    ensures m.entries["c"] == Submitted().entries["c"] && !m.closed && m.pid == 7 && m.maxRet == 2
  {
    hide Submitted, Apply, CancelOp;
    var m2 := Apply(Apply(Submitted(), CancelOp("a", 2)).mem, CancelOp("b", 3)).mem;
    CancelledBothIs(m2);
    CancelAgain(m2, "b", 1);
    assert m.heap == [Slot("a", 2), Slot("b", 1)];
  }

  /** A concrete run in which retention by FinishedAt fails, under a clock that only moves forward:
      two Cancel calls both see task a before it is terminal and both commit, the second one raising
      a's FinishedAt to 5 in place; when c finishes at 6 the store evicts a (5) and keeps b (3). */
  lemma TwoCancelsBreakRetention()
    ensures CancelRead(Submitted(), "a") == CancelSees(None, false)
    ensures !MemOrdered(CancelledTwice())
    ensures "a" in CancelledTwice().entries && "b" in CancelledTwice().entries && "c" in CancelledTwice().entries
    ensures var last := Apply(CancelledTwice(), CancelOp("c", 6));
            && last.out == Ok && last.evicted == ["a"]
            && "a" !in last.mem.entries && "b" in last.mem.entries
            && CancelledTwice().entries["a"].task.finishedAt == 5
            && last.mem.entries["b"].task.finishedAt == 3
  {
    hide Submitted, CancelledTwice;
    SubmittedIs(Submitted());
    CancelledTwiceIs(CancelledTwice());
    assert CancelledTwice().heap[Parent(1)].at > CancelledTwice().heap[1].at;
    LastCancelEvicts(CancelledTwice(), 5, 3);
  }

  /** It fails the other way too, when the clock has gone back between the two commits: b's place has
      no child at all, but its time drops below its parent's, and the next task to finish makes the store
      evict a (2) and keep b (1). */
  lemma LoweredTimeBreaksRetention()
    ensures CancelRead(Submitted(), "b") == CancelSees(None, false)
    ensures !MemOrdered(CancelledEarlier()) && CancelledEarlier().heap == [Slot("a", 2), Slot("b", 1)]
    ensures "a" in CancelledEarlier().entries && "b" in CancelledEarlier().entries && "c" in CancelledEarlier().entries
    ensures var last := Apply(CancelledEarlier(), CancelOp("c", 6));
            && last.out == Ok && last.evicted == ["a"]
            && "a" !in last.mem.entries && "b" in last.mem.entries
            && CancelledEarlier().entries["a"].task.finishedAt == 2
            && last.mem.entries["b"].task.finishedAt == 1
  {
    hide Submitted, CancelledEarlier;
    SubmittedIs(Submitted());
    CancelledEarlierIs(CancelledEarlier());
    assert CancelledEarlier().heap[Parent(1)].at > CancelledEarlier().heap[1].at;
    LastCancelEvicts(CancelledEarlier(), 2, 1);
  }

  lemma LastCancelEvicts(m: Mem, a: Time, b: Time)
    requires m.entries.Keys == {"a", "b", "c"} && m.heap == [Slot("a", a), Slot("b", b)] && a <= 6
    requires !m.closed && m.pid == 7 && m.maxRet == 2
    requires m.entries["c"].task == Task("c", GenerateImage, Queued, 7, 1, ZERO_TIME, ZERO_TIME, "", None, "", "")
    ensures var last := Apply(m, CancelOp("c", 6));
            && last.out == Ok && last.evicted == ["a"] && "a" !in last.mem.entries
            && "b" in last.mem.entries && last.mem.entries["b"] == m.entries["b"]
  {
    hide Trimmed, TrimmedIds;
    var t := CancelEdit("client", 6)(m.entries["c"].task).task;
    var f := Entered(Left(m, Queued), "c", Stamped(t, 6), m.entries["c"].cancel);
    assert f.heap == [Slot("a", a), Slot("b", b), Slot("c", 6)];
    TrimmedOnce(f);
    assert Apply(m, CancelOp("c", 6)).mem == DropRoot(f);
  }
}
