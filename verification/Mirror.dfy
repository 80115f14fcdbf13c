/** The manifest directory against the store in memory (internal/taskstore/disk.go:123-196). */
module Mirror {
  import opened Tasks
  import opened TerminalHeap
  import opened StoreSpec
  import opened StoreLaws
  import opened Manifests
  import opened Retention

  ghost function FileNames(ids: set<TaskID>): set<string> {
    set id | id in ids :: FileName(id)
  }

  /** One manifest per record, with the record's task, and no other file. */
  ghost predicate Mirrors(files: map<string, Task>, entries: map<TaskID, Entry>) {
    && files.Keys == FileNames(entries.Keys)
    && forall id :: id in entries ==> FileName(id) in files && files[FileName(id)] == entries[id].task
  }

  ghost predicate Healthy(ok: Health) {
    forall n :: ok(n)
  }

  lemma NamesMatch()
    ensures forall a, b :: FileName(a) == FileName(b) ==> a == b
  {
    forall a, b
      ensures FileName(a) == FileName(b) ==> a == b
    {
      FileNameInjective(a, b);
    }
  }

  lemma MirrorPut(files: map<string, Task>, entries: map<TaskID, Entry>, id: TaskID, e: Entry)
    requires Mirrors(files, entries)
    ensures Mirrors(files[FileName(id) := e.task], entries[id := e])
  {
    hide FileName;
    NamesPut(entries.Keys, id);
    assert entries[id := e].Keys == entries.Keys + {id};
    forall x | x in entries[id := e]
      ensures FileName(x) in files[FileName(id) := e.task]
      ensures files[FileName(id) := e.task][FileName(x)] == entries[id := e][x].task
    {
      FileNameInjective(x, id);
    }
  }

  lemma NamesPut(ids: set<TaskID>, id: TaskID)
    ensures FileNames(ids + {id}) == FileNames(ids) + {FileName(id)}
  {
    hide FileName;
  }

  lemma MirrorDrop(files: map<string, Task>, entries: map<TaskID, Entry>, id: TaskID)
    requires Mirrors(files, entries)
    ensures Mirrors(files - {FileName(id)}, entries - {id})
  {
    NamesMatch();
    assert FileNames((entries - {id}).Keys) == FileNames(entries.Keys) - {FileName(id)};
  }

  /** The hooks run eviction first and the snapshot last, so the order matters only when the same
      record is both. */
  lemma MirrorSwap(files: map<string, Task>, id: TaskID, other: TaskID, t: Task)
    requires id != other
    ensures (files - {FileName(other)})[FileName(id) := t] == files[FileName(id) := t] - {FileName(other)}
  {
    FileNameInjective(id, other);
  }

  /** There is room for one more terminal record, or some record on the chain from its place to the root
      did not finish later. */
  ghost predicate HasPlace(m: Mem, at: Time) {
    |m.heap| < m.maxRet || exists a :: a in Ancestors(|m.heap|) && m.heap[a].at <= at
  }

  ghost predicate NotEarlier(m: Mem, op: Op) {
    Entering(m, op).Some? ==> HasPlace(m, Entering(m, op).value.at)
  }

  /** Not finishing before anything retained is enough. */
  lemma LatestHasPlace(m: Mem, at: Time)
    requires MemValid(m) && forall s :: s in m.heap ==> s.at <= at
    ensures HasPlace(m, at)
  {
    if m.heap != [] {
      assert 0 in Ancestors(|m.heap|) && m.heap[0] in m.heap;
    }
  }

  /** A terminal entry: the record joins the heap, at most one record is evicted, and the hooks run. */
  lemma EnterMirror(m: Mem, files: map<string, Task>, id: TaskID, t: Task, f: Mem)
    requires MemValid(m) && Mirrors(files, m.entries) && t.id == id && id !in Ids(m.heap)
    requires f == m.(entries := m.entries[id := Entry(t, None)], heap := Push(m.heap, Slot(id, t.finishedAt)),
                     released := f.released, queued := f.queued, running := f.running)
    requires |f.heap| > f.maxRet ==> f.heap[0].id != id
    ensures TrimmedIds(f) == [] || TrimmedIds(f) == [f.heap[0].id]
    ensures TrimmedIds(f) == [] ==> Mirrors(files[FileName(id) := t], Trimmed(f).entries)
    ensures TrimmedIds(f) != [] ==>
              Mirrors((files - {FileName(f.heap[0].id)})[FileName(id) := t], Trimmed(f).entries)
  {
    TrimmedOnce(f);
    MirrorPut(files, m.entries, id, Entry(t, None));
    if |f.heap| > f.maxRet {
      MirrorDrop(files[FileName(id) := t], f.entries, f.heap[0].id);
      MirrorSwap(files, id, f.heap[0].id, t);
    }
  }

  lemma HooksOf(d: Disk, ok: Health, s: Step)
    requires Healthy(ok) && |s.evicted| <= 1 && s.written.Some?
    ensures AfterHooks(d, ok, s).files ==
            var kept := if s.evicted == [] then d.files else d.files - {FileName(s.evicted[0])};
            kept[FileName(s.written.value.id) := s.written.value]
  {
    if s.evicted != [] {
      assert DeleteAll(Delete(d, ok, s.evicted[0]), ok, s.evicted[1..]) == Delete(d, ok, s.evicted[0]);
    }
  }

  lemma CommitMirror(m: Mem, d: Disk, ok: Health, id: TaskID, t: Task, now: Time)
    requires MemValid(m) && Mirrors(d.files, m.entries) && Healthy(ok) && id in m.entries && t.id == id
    requires CanTransition(m.entries[id].task.state, t.state) && t.state.IsTerminal() ==>
               HasPlace(m, Stamped(t, now).finishedAt)
    ensures Mirrors(AfterHooks(d, ok, Committed(m, id, t, now)).files, Committed(m, id, t, now).mem.entries)
  {
    hide MemValid, Sound, Mirrors, AfterHooks, DeleteAll, Push;
    var e := m.entries[id];
    var s := Committed(m, id, t, now);
    if s.out == Ok {
      EvictsOne(m, id, t, now);
      HooksOf(d, ok, s);
      if t.state != e.task.state && t.state.IsTerminal() {
        LiveNotInHeap(m, id);
        var u := Stamped(t, now);
        var f := Entered(Left(m, e.task.state), id, u, e.cancel);
        PushContents(m.heap, Slot(id, u.finishedAt));
        if |f.heap| > f.maxRet {
          HeapBound(m);
          PushIsRootIff(m.heap, Slot(id, u.finishedAt));
        }
        EnterMirror(m, d.files, id, u, f);
      } else {
        MirrorPut(d.files, m.entries, id, s.mem.entries[id]);
      }
    } else {
      NoHooks(d, ok, s);
    }
  }

  lemma HeapBound(m: Mem)
    requires MemValid(m)
    ensures |m.heap| <= m.maxRet && m.maxRet > 0
  {
  }

  lemma NoHooks(d: Disk, ok: Health, s: Step)
    requires s.evicted == [] && s.written == None
    ensures AfterHooks(d, ok, s) == d
  {
  }

  lemma EvictsOne(m: Mem, id: TaskID, t: Task, now: Time)
    requires MemValid(m) && id in m.entries && t.id == id
    ensures |Committed(m, id, t, now).evicted| <= 1
  {
    if CanTransition(m.entries[id].task.state, t.state) && t.state.IsTerminal() {
      TrimmedOnce(Entered(Left(m, m.entries[id].task.state), id, Stamped(t, now), m.entries[id].cancel));
    }
  }

  /** The record evicted is gone, and a subject still held is held as it was written. */
  lemma EvictedGone(m: Mem, id: TaskID, t: Task, now: Time)
    requires MemValid(m) && id in m.entries && t.id == id
    ensures var s := Committed(m, id, t, now);
            && |s.evicted| <= 1
            && (s.evicted != [] ==> s.evicted[0] !in s.mem.entries)
            && (s.out == Ok ==> s.written.Some? && s.written.value.id == id)
            && (s.out == Ok && id in s.mem.entries ==> s.mem.entries[id].task == s.written.value)
  {
    hide MemValid, Trimmed, TrimmedIds, Push, Retimed, PopRest;
    EvictsOne(m, id, t, now);
    if CanTransition(m.entries[id].task.state, t.state) && t.state.IsTerminal() {
      HeapBound(m);
      PushContents(m.heap, Slot(id, Stamped(t, now).finishedAt));
      TrimmedOnce(Entered(Left(m, m.entries[id].task.state), id, Stamped(t, now), m.entries[id].cancel));
    }
  }

  lemma LiveNotInHeap(m: Mem, id: TaskID)
    requires MemValid(m) && id in m.entries && !m.entries[id].task.state.IsTerminal()
    ensures id !in Ids(m.heap)
  {
  }

  /** Every store step but replay's load keeps the directory equal to memory, provided the hooks
      succeed and a task that finishes has a place. No order of the heap is assumed, so racing cancels
      are covered. */
  lemma MirrorStep(m: Mem, d: Disk, ok: Health, op: Op)
    requires MemValid(m) && Mirrors(d.files, m.entries) && Healthy(ok)
    requires OpOk(m, op) && !op.RestoreOp? && NotEarlier(m, op)
    ensures Mirrors(AfterHooks(d, ok, Apply(m, op)).files, Apply(m, op).mem.entries)
  {
    hide MemValid, Mirrors, AfterHooks, Committed;
    var s := Apply(m, op);
    match op
    case SubmitOp(id, kind, request, now) =>
      if s.out == Ok {
        HooksOf(d, ok, s);
        MirrorPut(d.files, m.entries, id, s.mem.entries[id]);
      } else {
        NoHooks(d, ok, s);
      }
    case TransitionOp(id, fn, now) =>
      if s.written.Some? {
        IdOf(m, id);
        TransitionIsCommit(m, op);
        CommitMirror(m, d, ok, id, fn(m.entries[id].task).task, now);
      } else {
        FailedTransition(m, id, fn, now);
        NoHooks(d, ok, s);
      }
    case RegisterOp(id, cancel) =>
      NoHooks(d, ok, s);
      RegisterMirror(m, d.files, id, cancel);
    case CloseOp =>
      NoHooks(d, ok, s);
  }

  lemma FailedTransition(m: Mem, id: TaskID, fn: TransitionFn, now: Time)
    ensures var s := Transition(m, id, fn, now);
            s.written == None ==> s.mem == m && s.evicted == []
  {
  }

  lemma TransitionIsCommit(m: Mem, op: Op)
    requires op.TransitionOp? && Apply(m, op).written.Some?
    ensures op.id in m.entries && op.fn(m.entries[op.id].task).Applied?
    ensures var t := op.fn(m.entries[op.id].task).task;
            && Apply(m, op) == Committed(m, op.id, t, op.now)
            && (CanTransition(m.entries[op.id].task.state, t.state) && t.state.IsTerminal() ==>
                  Entering(m, op) == Some(Slot(op.id, Stamped(t, op.now).finishedAt)))
  {
  }

  lemma RegisterMirror(m: Mem, files: map<string, Task>, id: TaskID, cancel: Ctx)
    requires Mirrors(files, m.entries)
    ensures Mirrors(files, RegisterCancel(m, id, cancel).0.entries)
  {
    var r := RegisterCancel(m, id, cancel).0;
    assert r.entries.Keys == m.entries.Keys;
  }

  function RunDisk(m: Mem, d: Disk, ok: Health, ops: seq<Op>): Disk
    decreases |ops|
  {
    if ops == [] then d
    else RunDisk(Apply(m, ops[0]).mem, AfterHooks(d, ok, Apply(m, ops[0])), ok, ops[1..])
  }

  ghost predicate RunNotEarlier(m: Mem, ops: seq<Op>)
    decreases |ops|
  {
    ops == [] ||
    (OpOk(m, ops[0]) && !ops[0].RestoreOp? && NotEarlier(m, ops[0]) && RunNotEarlier(Apply(m, ops[0]).mem, ops[1..]))
  }

  lemma {:induction false} RunMirrors(m: Mem, d: Disk, ok: Health, ops: seq<Op>)
    requires MemValid(m) && Mirrors(d.files, m.entries) && Healthy(ok) && RunNotEarlier(m, ops)
    ensures Mirrors(RunDisk(m, d, ok, ops).files, Run(m, ops).entries)
    decreases |ops|
  {
    if ops != [] {
      StepKeepsValid(m, ops[0]);
      MirrorStep(m, d, ok, ops[0]);
      RunMirrors(Apply(m, ops[0]).mem, AfterHooks(d, ok, Apply(m, ops[0])), ok, ops[1..]);
    }
  }

  /** Disk mirrors memory over every run that starts from an empty directory. */
  lemma DiskMirrorsMemory(pid: int, maxQueued: int, maxRetained: int, ok: Health, ops: seq<Op>)
    requires Healthy(ok) && RunNotEarlier(NewMem(pid, maxQueued, maxRetained), ops)
    ensures var m0 := NewMem(pid, maxQueued, maxRetained);
            Mirrors(RunDisk(m0, Disk(map[], 0), ok, ops).files, Run(m0, ops).entries)
  {
    var m0 := NewMem(pid, maxQueued, maxRetained);
    NewMemValid(pid, maxQueued, maxRetained);
    assert FileNames(m0.entries.Keys) == {};
    RunMirrors(m0, Disk(map[], 0), ok, ops);
  }

  /** No task finishes before anything retained. */
  ghost predicate InOrder(m: Mem, op: Op) {
    Entering(m, op).Some? ==> forall s :: s in m.heap ==> s.at <= Entering(m, op).value.at
  }

  ghost predicate RunInOrder(m: Mem, ops: seq<Op>)
    decreases |ops|
  {
    ops == [] || (InOrder(m, ops[0]) && RunInOrder(Apply(m, ops[0]).mem, ops[1..]))
  }

  lemma {:induction false} InOrderIsNotEarlier(m: Mem, ops: seq<Op>)
    requires MemValid(m) && RunOk(m, ops) && NoRestore(ops) && RunInOrder(m, ops)
    ensures RunNotEarlier(m, ops)
    decreases |ops|
  {
    hide MemValid, Entering, Apply, OpOk, HasPlace;
    if ops != [] {
      if Entering(m, ops[0]).Some? {
        LatestHasPlace(m, Entering(m, ops[0]).value.at);
      }
      StepKeepsValid(m, ops[0]);
      assert NoRestore(ops[1..]);
      InOrderIsNotEarlier(Apply(m, ops[0]).mem, ops[1..]);
    }
  }

  /** So while tasks finish in the order of their finish times, the mirror needs no further condition,
      though finish times already in the heap may be rewritten at will. */
  lemma MirrorsInOrder(pid: int, maxQueued: int, maxRetained: int, ok: Health, ops: seq<Op>)
    requires Healthy(ok) && RunOk(NewMem(pid, maxQueued, maxRetained), ops) && NoRestore(ops)
    requires RunInOrder(NewMem(pid, maxQueued, maxRetained), ops)
    ensures var m0 := NewMem(pid, maxQueued, maxRetained);
            Mirrors(RunDisk(m0, Disk(map[], 0), ok, ops).files, Run(m0, ops).entries)
  {
    NewMemValid(pid, maxQueued, maxRetained);
    hide *;
    InOrderIsNotEarlier(NewMem(pid, maxQueued, maxRetained), ops);
    DiskMirrorsMemory(pid, maxQueued, maxRetained, ok, ops);
  }

  /** The exact condition, on every valid store, ordered heap or not: a task entering a terminal state
      leaves the directory equal to memory if and only if there is room, or some record on the chain
      from the newcomer's place to the root did not finish later. Otherwise the newcomer rises to the root
      and is itself the one evicted: its manifest is deleted and then written again. */
  lemma MirrorKeptIff(m: Mem, d: Disk, ok: Health, id: TaskID, t: Task, now: Time)
    requires MemValid(m) && Mirrors(d.files, m.entries) && Healthy(ok)
    requires id in m.entries && t.id == id && CanTransition(m.entries[id].task.state, t.state) && t.state.IsTerminal()
    ensures var s := Committed(m, id, t, now);
            Mirrors(AfterHooks(d, ok, s).files, s.mem.entries)
            <==> HasPlace(m, Stamped(t, now).finishedAt)
  {
    hide MemValid, Sound, Mirrors, AfterHooks, DeleteAll, Push;
    var e := m.entries[id];
    var u := Stamped(t, now);
    var slot := Slot(id, u.finishedAt);
    var f := Entered(Left(m, e.task.state), id, u, e.cancel);
    LiveNotInHeap(m, id);
    HeapBound(m);
    PushContents(m.heap, slot);
    PushIsRootIff(m.heap, slot);
    EvictsOne(m, id, t, now);
    HooksOf(d, ok, Committed(m, id, t, now));
    if |f.heap| <= f.maxRet || f.heap[0].id != id {
      EnterMirror(m, d.files, id, u, f);
    } else {
      TrimmedOnce(f);
      StaleManifest(d.files, m.entries, id, u);
    }
  }

  /** Directory and memory are equal before the run and after every step of it. */
  ghost predicate AlwaysMirrors(m: Mem, d: Disk, ok: Health, ops: seq<Op>)
    decreases |ops|
  {
    Mirrors(d.files, m.entries) &&
    (ops == [] || AlwaysMirrors(Apply(m, ops[0]).mem, AfterHooks(d, ok, Apply(m, ops[0])), ok, ops[1..]))
  }

  lemma EarlyBreaks(m: Mem, d: Disk, ok: Health, op: Op)
    requires MemValid(m) && Mirrors(d.files, m.entries) && Healthy(ok) && OpOk(m, op) && !op.RestoreOp?
    requires !NotEarlier(m, op)
    ensures !Mirrors(AfterHooks(d, ok, Apply(m, op)).files, Apply(m, op).mem.entries)
  {
    hide MemValid, Mirrors, AfterHooks, HasPlace;
    var t := op.fn(m.entries[op.id].task).task;
    EnteringIsCommit(m, op);
    IdOf(m, op.id);
    MirrorKeptIff(m, d, ok, op.id, t, op.now);
  }

  lemma EnteringIsCommit(m: Mem, op: Op)
    requires MemValid(m) && OpOk(m, op) && !op.RestoreOp? && Entering(m, op).Some?
    ensures op.TransitionOp? && op.id in m.entries && op.fn(m.entries[op.id].task).Applied?
    ensures var t := op.fn(m.entries[op.id].task).task;
            && t.id == op.id && CanTransition(m.entries[op.id].task.state, t.state) && t.state.IsTerminal()
            && Apply(m, op) == Committed(m, op.id, t, op.now)
            && Entering(m, op) == Some(Slot(op.id, Stamped(t, op.now).finishedAt))
  {
    hide MemValid, Trimmed, TrimmedIds, Push;
    IdOf(m, op.id);
  }

  /** Over whole runs the condition is exact too: directory and memory are equal after every step if and
      only if every task that finished had a place. */
  lemma {:induction false} MirrorsThroughoutIff(m: Mem, d: Disk, ok: Health, ops: seq<Op>)
    requires MemValid(m) && Mirrors(d.files, m.entries) && Healthy(ok) && RunOk(m, ops) && NoRestore(ops)
    ensures AlwaysMirrors(m, d, ok, ops) <==> RunNotEarlier(m, ops)
    decreases |ops|
  {
    hide MemValid, Mirrors, AfterHooks, NotEarlier, Apply, OpOk;
    if ops != [] {
      StepKeepsValid(m, ops[0]);
      if NotEarlier(m, ops[0]) {
        MirrorStep(m, d, ok, ops[0]);
        assert NoRestore(ops[1..]);
        MirrorsThroughoutIff(Apply(m, ops[0]).mem, AfterHooks(d, ok, Apply(m, ops[0])), ok, ops[1..]);
      } else {
        EarlyBreaks(m, d, ok, ops[0]);
      }
    }
  }

  /** While the heap is ordered the condition needs no places: there is room, or some retained record did
      not finish later. */
  lemma OrderedMirrorKeptIff(m: Mem, d: Disk, ok: Health, id: TaskID, t: Task, now: Time)
    requires MemValid(m) && MemOrdered(m) && Mirrors(d.files, m.entries) && Healthy(ok)
    requires id in m.entries && t.id == id && CanTransition(m.entries[id].task.state, t.state) && t.state.IsTerminal()
    ensures var s := Committed(m, id, t, now);
            Mirrors(AfterHooks(d, ok, s).files, s.mem.entries)
            <==> |m.heap| < m.maxRet || exists x :: x in m.heap && x.at <= Stamped(t, now).finishedAt
  {
    hide MemValid, Mirrors, AfterHooks, Committed;
    MirrorKeptIff(m, d, ok, id, t, now);
    var at := Stamped(t, now).finishedAt;
    if x :| x in m.heap && x.at <= at {
      RootIsOldest(m.heap, x);
      assert 0 in Ancestors(|m.heap|) && m.heap[0].at <= at;
    }
    if a :| a in Ancestors(|m.heap|) && m.heap[a].at <= at {
      assert m.heap[a] in m.heap;
    }
  }

  /** A store that retains one record: submit a and b, cancel a at 5, and then b at 3. */
  function EarlyFinish(): seq<Op> {
    [SubmitOp("a", GenerateImage, "", 1), SubmitOp("b", GenerateImage, "", 1), CancelOp("a", 5)] + [CancelOp("b", 3)]
  }

  lemma RunSnoc(m: Mem, d: Disk, ok: Health, ops: seq<Op>, op: Op)
    ensures Run(m, ops + [op]) == Apply(Run(m, ops), op).mem
    ensures RunDisk(m, d, ok, ops + [op]) == AfterHooks(RunDisk(m, d, ok, ops), ok, Apply(Run(m, ops), op))
    decreases |ops|
  {
    hide Apply, AfterHooks;
    if ops == [] {
      assert [op][1..] == [];
    } else {
      RunSnoc(Apply(m, ops[0]).mem, AfterHooks(d, ok, Apply(m, ops[0])), ok, ops[1..], op);
      assert (ops + [op])[1..] == ops[1..] + [op];
    }
  }

  /** Up to the third step everything is in order. */
  lemma BeforeEarlyFinish(ok: Health)
    requires Healthy(ok)
    ensures var m := Run(NewMem(7, 10, 1), EarlyFinish()[..3]);
            var d := RunDisk(NewMem(7, 10, 1), Disk(map[], 0), ok, EarlyFinish()[..3]);
            && MemValid(m) && Mirrors(d.files, m.entries) && m.heap == [Slot("a", 5)] && m.maxRet == 1 && !m.closed
            && "b" in m.entries && m.pid == 7
            && m.entries["b"].task == Task("b", GenerateImage, Queued, 7, 1, ZERO_TIME, ZERO_TIME, "", None, "", "")
  {
    var m0 := NewMem(7, 10, 1);
    var a, b, c := SubmitOp("a", GenerateImage, "", 1), SubmitOp("b", GenerateImage, "", 1), CancelOp("a", 5);
    assert EarlyFinish()[..3] == [a, b, c];
    var m1, m2 := Apply(m0, a).mem, Apply(Apply(m0, a).mem, b).mem;
    TwoSubmitted(m2);
    FirstCancelled(m2);
    NewMemValid(7, 10, 1);
    assert OpOk(m0, a) && OpOk(m1, b) && OpOk(m2, c) && m1.heap == [];
    hide Apply, CancelOp, OpOk, MemValid, NotEarlier;
    ThreeSteps(m0, a, b, c);
    DiskMirrorsMemory(7, 10, 1, ok, [a, b, c]);
  }

  lemma TwoSubmitted(m: Mem)
    requires m == Apply(Apply(NewMem(7, 10, 1), SubmitOp("a", GenerateImage, "", 1)).mem,
                 SubmitOp("b", GenerateImage, "", 1)).mem
    ensures m.entries.Keys == {"a", "b"} && m.heap == [] && !m.closed && m.pid == 7 && m.maxRet == 1
    ensures forall id :: id in m.entries ==>
              m.entries[id]
                  == Entry(Task(id, GenerateImage, Queued, 7, 1, ZERO_TIME, ZERO_TIME, "", None, "", ""), None)
  {
  }

  lemma FirstCancelled(m: Mem)
    requires m.entries.Keys == {"a", "b"} && m.heap == [] && !m.closed && m.pid == 7 && m.maxRet == 1
    requires forall id :: id in m.entries ==>
               m.entries[id]
                   == Entry(Task(id, GenerateImage, Queued, 7, 1, ZERO_TIME, ZERO_TIME, "", None, "", ""), None)
    ensures var r := Apply(m, CancelOp("a", 5)).mem;
            && r.heap == [Slot("a", 5)] && r.maxRet == 1 && !r.closed && r.pid == 7
            && "b" in r.entries && r.entries["b"] == m.entries["b"]
  {
    hide Apply, CancelOp;
    CancelLive(m, "a", 5);
    assert Push([], Slot("a", 5)) == [Slot("a", 5)];
  }

  /** Nothing is retained before any of three steps, so none is too early. */
  lemma ThreeSteps(m: Mem, a: Op, b: Op, c: Op)
    requires MemValid(m) && OpOk(m, a) && !a.RestoreOp? && m.heap == []
    requires var n := Apply(m, a).mem; OpOk(n, b) && !b.RestoreOp? && n.heap == []
    requires var n := Apply(Apply(m, a).mem, b).mem; OpOk(n, c) && !c.RestoreOp? && n.heap == []
    ensures RunNotEarlier(m, [a, b, c]) && MemValid(Run(m, [a, b, c]))
    ensures Run(m, [a, b, c]) == Apply(Apply(Apply(m, a).mem, b).mem, c).mem
  {
    hide Apply, OpOk, MemValid, Entering;
    HeapBound(m);
    var m1, m2 := Apply(m, a).mem, Apply(Apply(m, a).mem, b).mem;
    assert [a, b, c][1..] == [b, c] && [b, c][1..] == [c] && [c][1..] == [];
    StepKeepsValid(m, a);
    StepKeepsValid(m1, b);
    HeapBound(m1);
    HeapBound(m2);
    StepKeepsValid(m2, c);
    assert RunNotEarlier(m2, []) && [c][0] == c;
    assert RunNotEarlier(m2, [c]);
    assert NotEarlier(m1, b) && [b, c][0] == b;
    assert RunNotEarlier(m1, [b, c]);
    assert Run(m2, [c]) == Apply(m2, c).mem && Run(m1, [b, c]) == Run(m2, [c]);
  }

  /** The mirror fails: b is evicted as it finishes, and its manifest is left behind. */
  lemma EarlyFinishLeavesManifest(ok: Health)
    requires Healthy(ok)
    ensures var m0 := NewMem(7, 10, 1);
            var files, m := RunDisk(m0, Disk(map[], 0), ok, EarlyFinish()).files, Run(m0, EarlyFinish());
            FileName("b") in files && "b" !in m.entries && !Mirrors(files, m.entries)
  {
    var m0, d0, last := NewMem(7, 10, 1), Disk(map[], 0), CancelOp("b", 3);
    var m, d := Run(m0, EarlyFinish()[..3]), RunDisk(m0, d0, ok, EarlyFinish()[..3]);
    assert EarlyFinish() == EarlyFinish()[..3] + [last];
    RunSnoc(m0, d0, ok, EarlyFinish()[..3], last);
    BeforeEarlyFinish(ok);
    hide EarlyFinish, Run, RunDisk;
    LastFinishFails(m, d, ok);
  }

  lemma LastFinishFails(m: Mem, d: Disk, ok: Health)
    requires MemValid(m) && Mirrors(d.files, m.entries) && m.heap == [Slot("a", 5)] && m.maxRet == 1 && !m.closed
             && Healthy(ok)
    requires "b" in m.entries && m.pid == 7
    requires m.entries["b"].task == Task("b", GenerateImage, Queued, 7, 1, ZERO_TIME, ZERO_TIME, "", None, "", "")
    ensures var s := Apply(m, CancelOp("b", 3)); var files := AfterHooks(d, ok, s).files;
            FileName("b") in files && "b" !in s.mem.entries && !Mirrors(files, s.mem.entries)
  {
    hide MemValid, Mirrors, Trimmed, TrimmedIds, AfterHooks;
    var t := CancelEdit("client", 3)(m.entries["b"].task).task;
    var s := Committed(m, "b", t, 3);
    assert s == Apply(m, CancelOp("b", 3));
    MirrorKeptIff(m, d, ok, "b", t, 3);
    assert Ancestors(1) == {0};
    EvictsOne(m, "b", t, 3);
    HooksOf(d, ok, s);
    var f := Entered(Left(m, Queued), "b", t, m.entries["b"].cancel);
    assert f.heap == [Slot("b", 3), Slot("a", 5)];
    TrimmedOnce(f);
  }

  lemma StaleManifest(files: map<string, Task>, entries: map<TaskID, Entry>, id: TaskID, t: Task)
    ensures !Mirrors((files - {FileName(id)})[FileName(id) := t], entries[id := Entry(t, None)] - {id})
  {
    NamesMatch();
    assert FileName(id) !in FileNames((entries[id := Entry(t, None)] - {id}).Keys);
  }
}
