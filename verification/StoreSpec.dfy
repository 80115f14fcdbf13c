/** What each MemoryStore operation does, as functions on an immutable picture of the store
    (internal/taskstore/memory.go). The class in MemoryStore.dfy is proved equal to these. */
module StoreSpec {
  import opened Tasks
  import opened TerminalHeap
  import TaskIDs

  datatype Entry = Entry(task: Task, cancel: Option<Ctx>)

  /** The store under its lock. `released` is the set of ids whose done channel is closed; an
      evicted id stays in it, because its waiters keep the channel, until a record is loaded anew
      under that id. */
  datatype Mem = Mem(
    entries: map<TaskID, Entry>,
    heap: seq<Slot>,
    queued: int,
    running: int,
    released: set<TaskID>,
    closed: bool,
    pid: int,
    maxQueue: int,
    maxRet: nat)

  datatype Outcome =
    | Ok | EmptyID | InvalidKind | StoreClosed | QueueFull | NotFound | CrossPID | FnRefused | Illegal | BadManifest

  /** A TransitionFn either edits the task or returns an error. */
  datatype FnResult = Applied(task: Task) | Refused

  type TransitionFn = Task -> FnResult

  /** The new store, the returned error, the OnEvict calls in order, and the OnTransition
      snapshot if that hook fires (always after the evictions). */
  datatype Step = Step(mem: Mem, out: Outcome, evicted: seq<TaskID>, written: Option<Task>)

  function Clamp(v: int, def: int, hi: int): int {
    if v <= 0 then def else if v > hi then hi else v
  }

  function NewMem(pid: int, maxQueued: int, maxRetained: int): Mem {
    Mem(map[], [], 0, 0, {}, false, pid, Clamp(maxQueued, 256, 10000), Clamp(maxRetained, 1024, 100000))
  }

  function Fails(m: Mem, out: Outcome): Step {
    Step(m, out, [], None)
  }

  function Submit(m: Mem, id: TaskID, kind: Kind, request: string, now: Time): Step {
    if m.closed then Fails(m, StoreClosed)
    else if !kind.IsValid() then Fails(m, InvalidKind)
    else if m.queued >= m.maxQueue then Fails(m, QueueFull)
    else
      var t := Task(id, kind, Queued, m.pid, now, ZERO_TIME, ZERO_TIME, request, None, "", "");
      Step(m.(entries := m.entries[id := Entry(t, None)], queued := m.queued + 1), Ok, [], Some(t))
  }

  function Left(m: Mem, from: State): Mem {
    if from == Queued then m.(queued := m.queued - 1)
    else if from == Running then m.(running := m.running - 1)
    else m
  }

  /** First entry to running stamps StartedAt, entry to a terminal state stamps FinishedAt; a
      value the caller provided is kept. */
  function Stamped(t: Task, now: Time): Task {
    if t.state == Running && t.startedAt == ZERO_TIME then t.(startedAt := now)
    else if t.state.IsTerminal() && t.finishedAt == ZERO_TIME then t.(finishedAt := now)
    else t
  }

  /** Install a task that has just entered its state, before eviction. */
  function Entered(m: Mem, id: TaskID, t: Task, cancel: Option<Ctx>): Mem {
    if t.state == Queued then
      m.(entries := m.entries[id := Entry(t, cancel)], queued := m.queued + 1)
    else if t.state == Running then
      m.(entries := m.entries[id := Entry(t, cancel)], running := m.running + 1)
    else if t.state.IsTerminal() then
      m.(entries := m.entries[id := Entry(t, None)],
         heap := Push(m.heap, Slot(t.id, t.finishedAt)),
         released := m.released + {id})
    else
      m.(entries := m.entries[id := Entry(t, cancel)])
  }

  function DropRoot(m: Mem): Mem
    requires |m.heap| > 0
  {
    m.(entries := m.entries - {m.heap[0].id}, heap := PopRest(m.heap))
  }

  /** evictUntilUnderRetention. */
  function Trimmed(m: Mem): Mem
    decreases |m.heap|
  {
    if |m.heap| <= m.maxRet then m else Trimmed(DropRoot(m))
  }

  function TrimmedIds(m: Mem): seq<TaskID>
    decreases |m.heap|
  {
    if |m.heap| <= m.maxRet then [] else [m.heap[0].id] + TrimmedIds(DropRoot(m))
  }

  lemma TrimmedStep(m: Mem)
    ensures |m.heap| <= m.maxRet ==> Trimmed(m) == m && TrimmedIds(m) == []
    ensures |m.heap| > m.maxRet ==>
              Trimmed(m) == Trimmed(DropRoot(m)) && TrimmedIds(m) == [m.heap[0].id] + TrimmedIds(DropRoot(m))
  {
  }

  /** One record over the bound costs exactly one eviction. */
  lemma TrimmedOnce(m: Mem)
    requires |m.heap| <= m.maxRet + 1
    ensures Trimmed(m) == if |m.heap| <= m.maxRet then m else DropRoot(m)
    ensures TrimmedIds(m) == if |m.heap| <= m.maxRet then [] else [m.heap[0].id]
  {
    if |m.heap| > m.maxRet {
      TrimmedStep(DropRoot(m));
    }
  }

  /** A record already in the heap keeps its place when its FinishedAt is rewritten: nothing
      calls heap.Fix. */
  function Retimed(h: seq<Slot>, id: TaskID, at: Time): (r: seq<Slot>)
    ensures |r| == |h|
    ensures forall i :: 0 <= i < |h| ==> r[i] == if h[i].id == id then Slot(id, at) else h[i]
  {
    seq(|h|, i requires 0 <= i < |h| => if h[i].id == id then Slot(id, at) else h[i])
  }

  function Transition(m: Mem, id: TaskID, fn: TransitionFn, now: Time): Step {
    if id == "" then Fails(m, EmptyID)
    else if m.closed then Fails(m, StoreClosed)
    else if id !in m.entries then Fails(m, NotFound)
    else if m.entries[id].task.pid != m.pid then Fails(m, CrossPID)
    else
      var prev := m.entries[id];
      match fn(prev.task)
      case Refused => Fails(m, FnRefused)
      case Applied(t) => Committed(m, id, t, now)
  }

  /** Transition once the fn has produced the edited task. */
  function Committed(m: Mem, id: TaskID, t: Task, now: Time): Step
    requires id in m.entries
  {
    var prev := m.entries[id];
    if t.state == prev.task.state then
      Step(Edited(m, id, t), Ok, [], Some(t))
    else if !CanTransition(prev.task.state, t.state) then
      Fails(m, Illegal)
    else
      var full := Entered(Left(m, prev.task.state), id, Stamped(t, now), prev.cancel);
      if t.state.IsTerminal() then Step(Trimmed(full), Ok, TrimmedIds(full), Some(Stamped(t, now)))
      else Step(full, Ok, [], Some(Stamped(t, now)))
  }

  /** The state is unchanged, so neither the table nor the counters are consulted. */
  function Edited(m: Mem, id: TaskID, t: Task): Mem
    requires id in m.entries
  {
    m.(entries := m.entries[id := m.entries[id].(task := t)], heap := Retimed(m.heap, id, t.finishedAt))
  }

  /** What Cancel learns under the read lock. */
  datatype CancelView = CancelFails(out: Outcome) | CancelSees(fire: Option<Ctx>, alreadyTerminal: bool)

  function CancelRead(m: Mem, id: TaskID): CancelView {
    if id == "" then CancelFails(EmptyID)
    else if id !in m.entries then CancelFails(NotFound)
    else if m.entries[id].task.pid != m.pid then CancelFails(CrossPID)
    else CancelSees(m.entries[id].cancel, m.entries[id].task.state.IsTerminal())
  }

  function CancelEdit(hint: string, now: Time): TransitionFn {
    (t: Task) => Applied(t.(state := Cancelled, cancelHint := if hint == "" then "client" else hint, finishedAt := now))
  }

  /** Cancel's second step. Losing a race is reported as success. */
  function CancelCommit(m: Mem, id: TaskID, hint: string, now: Time): Step {
    var s := Transition(m, id, CancelEdit(hint, now), now);
    if s.out == Illegal || s.out == NotFound then s.(out := Ok) else s
  }

  function RegisterCancel(m: Mem, id: TaskID, cancel: Ctx): (Mem, Outcome) {
    if id == "" then (m, EmptyID)
    else if id !in m.entries then (m, NotFound)
    else if m.entries[id].task.pid != m.pid then (m, CrossPID)
    else if m.entries[id].task.state.IsTerminal() then (m, Ok)
    else (m.(entries := m.entries[id := m.entries[id].(cancel := Some(cancel))]), Ok)
  }

  /** What Wait finds under the read lock: an error, a terminal task, or the done channel. */
  datatype WaitView = WaitFails(out: Outcome) | WaitReturns(task: Task) | WaitBlocks

  function WaitRead(m: Mem, id: TaskID): WaitView {
    if id == "" then WaitFails(EmptyID)
    else if id !in m.entries then WaitFails(NotFound)
    else if m.entries[id].task.state.IsTerminal() then WaitReturns(m.entries[id].task)
    else WaitBlocks
  }

  /** Replay's load: no hook fires, not even for what it trims, and maxQueue is not consulted. */
  function Restore(m: Mem, t: Task, now: Time): (Mem, Outcome) {
    if !TaskIDs.IsValid(t.id) || !t.kind.IsValid() || !t.state.IsKnown() || t.id in m.entries then (m, BadManifest)
    else
      var open := m.(released := m.released - {t.id});
      if t.state.IsTerminal() then (Trimmed(Entered(open, t.id, Stamped(t, now), None)), Ok)
      else (Entered(open, t.id, t, None), Ok)
  }

  // ---------- the representation invariant ----------

  ghost function InState(entries: map<TaskID, Entry>, st: State): set<TaskID> {
    set id | id in entries && entries[id].task.state == st
  }

  ghost function Terminals(entries: map<TaskID, Entry>): set<TaskID> {
    set id | id in entries && entries[id].task.state.IsTerminal()
  }

  ghost predicate EntryValid(id: TaskID, e: Entry, released: set<TaskID>) {
    && e.task.id == id
    && e.task.state.IsKnown()
    && (id in released <==> e.task.state.IsTerminal())
    && (e.task.state.IsTerminal() ==> e.cancel == None)
  }

  /** The heap holds each terminal record exactly once, under its FinishedAt. */
  ghost predicate HeapValid(entries: map<TaskID, Entry>, heap: seq<Slot>) {
    && NoDup(heap)
    && Ids(heap) == Terminals(entries)
    && (forall s :: s in heap ==> s.id in entries && entries[s.id].task.finishedAt == s.at)
  }

  ghost predicate CountsValid(m: Mem) {
    && m.queued == |InState(m.entries, Queued)|
    && m.running == |InState(m.entries, Running)|
  }

  /** Valid except that the heap may still be over the retention bound. */
  ghost predicate Sound(m: Mem) {
    && (forall id :: id in m.entries ==> EntryValid(id, m.entries[id], m.released))
    && HeapValid(m.entries, m.heap)
    && CountsValid(m)
    && 0 < m.maxQueue
    && 0 < m.maxRet
  }

  ghost predicate MemValid(m: Mem) {
    Sound(m) && |m.heap| <= m.maxRet
  }

  /** The heap half of the invariant that a rewritten FinishedAt can break. */
  ghost predicate MemOrdered(m: Mem) {
    Ordered(m.heap)
  }

  /** A TransitionFn may edit any field but the identity of the task. */
  ghost predicate KeepsIdentity(fn: TransitionFn) {
    forall t :: fn(t).Applied? ==> fn(t).task.id == t.id && fn(t).task.pid == t.pid
  }

  lemma NewMemValid(pid: int, maxQueued: int, maxRetained: int)
    ensures MemValid(NewMem(pid, maxQueued, maxRetained)) && MemOrdered(NewMem(pid, maxQueued, maxRetained))
    ensures NewMem(pid, maxQueued, maxRetained).maxQueue <= 10000
            && NewMem(pid, maxQueued, maxRetained).maxRet <= 100000
  {
  }

  lemma InStatePut(entries: map<TaskID, Entry>, id: TaskID, e: Entry, st: State)
    ensures InState(entries[id := e], st) == (InState(entries, st) - {id}) + (if e.task.state == st then {id} else {})
  {
  }

  lemma CountPut(entries: map<TaskID, Entry>, id: TaskID, e: Entry, st: State)
    ensures |InState(entries[id := e], st)| ==
            |InState(entries, st)| - (if id in entries && entries[id].task.state == st then 1 else 0)
            + (if e.task.state == st then 1 else 0)
  {
    InStatePut(entries, id, e, st);
    var b := InState(entries, st);
    assert |b - {id}| == |b| - (if id in b then 1 else 0);
  }

  /** The counters stay right when one record is put and they move by the states it left and entered. */
  lemma CountsPut(m: Mem, f: Mem, id: TaskID, e: Entry)
    requires CountsValid(m) && f.entries == m.entries[id := e]
    requires f.queued == m.queued - (if id in m.entries && m.entries[id].task.state == Queued then 1 else 0)
                         + (if e.task.state == Queued then 1 else 0)
    requires f.running == m.running - (if id in m.entries && m.entries[id].task.state == Running then 1 else 0)
                          + (if e.task.state == Running then 1 else 0)
    ensures CountsValid(f)
  {
    CountPut(m.entries, id, e, Queued);
    CountPut(m.entries, id, e, Running);
  }

  lemma TerminalsPut(entries: map<TaskID, Entry>, id: TaskID, e: Entry)
    ensures Terminals(entries[id := e]) == (Terminals(entries) - {id}) +
            (if e.task.state.IsTerminal() then {id} else {})
  {
  }

  /** Putting a record that is not terminal, in place of none or of one that is not terminal. */
  lemma PutLive(m: Mem, f: Mem, id: TaskID, e: Entry)
    requires MemValid(m) && (id in m.entries ==> !m.entries[id].task.state.IsTerminal()) && id !in m.released
    requires e.task.id == id && e.task.state.IsKnown() && !e.task.state.IsTerminal()
    requires f == m.(entries := m.entries[id := e], queued := f.queued, running := f.running) && CountsValid(f)
    ensures MemValid(f)
  {
    HeapPutLive(m.entries, m.heap, id, e);
  }

  lemma HeapPutLive(entries: map<TaskID, Entry>, heap: seq<Slot>, id: TaskID, e: Entry)
    requires HeapValid(entries, heap) && (id in entries ==> !entries[id].task.state.IsTerminal())
    requires !e.task.state.IsTerminal()
    ensures HeapValid(entries[id := e], heap)
  {
    TerminalsPut(entries, id, e);
    assert Terminals(entries[id := e]) == Terminals(entries);
    forall s | s in heap
      ensures s.id in entries[id := e] && entries[id := e][s.id].task.finishedAt == s.at
    {
      assert s.id in Ids(heap);
    }
  }

  /** Putting a record that has just become terminal. */
  lemma PutTerminal(m: Mem, f: Mem, id: TaskID, t: Task)
    requires MemValid(m) && (id in m.entries ==> !m.entries[id].task.state.IsTerminal()) && id !in m.released
    requires t.id == id && t.state.IsTerminal()
    requires f == m.(entries := m.entries[id := Entry(t, None)], queued := f.queued, running := f.running,
                     heap := Push(m.heap, Slot(id, t.finishedAt)), released := m.released + {id})
    requires CountsValid(f)
    ensures Sound(f)
    ensures MemOrdered(m) ==> MemOrdered(f)
  {
    var s := Slot(id, t.finishedAt);
    TerminalsPut(m.entries, id, Entry(t, None));
    assert id !in Ids(m.heap);
    PushContents(m.heap, s);
    EnteredHeap(m, id, t, f);
    if MemOrdered(m) {
      PushOrders(m.heap, s);
    }
  }

  lemma CountDrop(entries: map<TaskID, Entry>, id: TaskID, st: State)
    requires id in entries && entries[id].task.state != st
    ensures InState(entries - {id}, st) == InState(entries, st)
  {
  }

  /** Every record is queued, running or in the heap. */
  lemma SizeIsSum(m: Mem)
    requires Sound(m)
    ensures |m.entries| == m.queued + m.running + |m.heap|
  {
    var q, r, t := InState(m.entries, Queued), InState(m.entries, Running), Terminals(m.entries);
    forall id | id in m.entries.Keys
      ensures id in q + r + t
    {
      assert EntryValid(id, m.entries[id], m.released);
    }
    assert m.entries.Keys == q + r + t;
    assert q !! r && (q + r) !! t;
    HeapSize(m.heap);
    assert |m.entries.Keys| == |m.entries|;
  }

  lemma {:induction false} HeapSize(h: seq<Slot>)
    requires NoDup(h)
    ensures |Ids(h)| == |h|
    decreases |h|
  {
    if h != [] {
      var g := h[..|h| - 1];
      var last := h[|h| - 1];
      HeapSize(g);
      assert h == g + [last];
      assert Ids(h) == Ids(g) + {last.id};
      assert forall s :: s in g ==> exists i :: 0 <= i < |g| && g[i] == s && h[i].id != last.id;
    }
  }

  // ---------- every operation keeps it ----------

  lemma SubmitValid(m: Mem, id: TaskID, kind: Kind, request: string, now: Time)
    requires MemValid(m) && id !in m.entries && id !in m.released
    ensures MemValid(Submit(m, id, kind, request, now).mem)
    ensures MemOrdered(m) ==> MemOrdered(Submit(m, id, kind, request, now).mem)
    ensures Submit(m, id, kind, request, now).mem.queued <= if m.queued <= m.maxQueue then m.maxQueue else m.queued
  {
    var s := Submit(m, id, kind, request, now);
    if s.out == Ok {
      CountsPut(m, s.mem, id, s.mem.entries[id]);
      PutLive(m, s.mem, id, s.mem.entries[id]);
    }
  }

  /** Leaving a state and entering another, with the heap grown if the new one is terminal. */
  lemma EnteredSound(m: Mem, id: TaskID, t: Task)
    requires MemValid(m) && id in m.entries && t.id == id && CanTransition(m.entries[id].task.state, t.state)
    ensures Sound(Entered(Left(m, m.entries[id].task.state), id, t, m.entries[id].cancel))
    ensures MemOrdered(m) ==> MemOrdered(Entered(Left(m, m.entries[id].task.state), id, t, m.entries[id].cancel))
  {
    var e := m.entries[id];
    var f := Entered(Left(m, e.task.state), id, t, e.cancel);
    assert EntryValid(id, e, m.released);
    CountsPut(m, f, id, f.entries[id]);
    if t.state.IsTerminal() {
      PutTerminal(m, f, id, t);
    } else {
      PutLive(m, f, id, f.entries[id]);
    }
  }

  lemma EnteredHeap(m: Mem, id: TaskID, t: Task, f: Mem)
    requires HeapValid(m.entries, m.heap) && id !in Ids(m.heap) && t.id == id
    requires f.entries == m.entries[id := Entry(t, None)] && f.heap == Push(m.heap, Slot(id, t.finishedAt))
    ensures forall s :: s in f.heap ==> s.id in f.entries && f.entries[s.id].task.finishedAt == s.at
  {
    PushContents(m.heap, Slot(id, t.finishedAt));
    forall s | s in f.heap
      ensures s.id in f.entries && f.entries[s.id].task.finishedAt == s.at
    {
      if s != Slot(id, t.finishedAt) {
        assert s in m.heap;
        assert s.id in Ids(m.heap);
      }
    }
  }

  lemma DropRootSound(m: Mem)
    requires Sound(m) && |m.heap| > 0
    ensures Sound(DropRoot(m))
    ensures m.heap[0].id in m.entries && m.entries[m.heap[0].id].task.state.IsTerminal()
    ensures MemOrdered(m) ==> MemOrdered(DropRoot(m))
  {
    var d := DropRoot(m);
    var id := m.heap[0].id;
    assert m.heap[0] in m.heap && id in Ids(m.heap);
    PopMembers(m.heap);
    PopIds(m.heap);
    CountDrop(m.entries, id, Queued);
    CountDrop(m.entries, id, Running);
    assert Terminals(d.entries) == Terminals(m.entries) - {id};
    if MemOrdered(m) {
      PopOrders(m.heap);
    }
  }

  lemma {:induction false} TrimmedValid(m: Mem)
    requires Sound(m)
    ensures MemValid(Trimmed(m))
    ensures MemOrdered(m) ==> MemOrdered(Trimmed(m))
    decreases |m.heap|
  {
    if |m.heap| > m.maxRet {
      DropRootSound(m);
      TrimmedValid(DropRoot(m));
    }
  }

  lemma EditedValid(m: Mem, id: TaskID, t: Task)
    requires MemValid(m) && id in m.entries && t.id == id && t.state == m.entries[id].task.state
    ensures MemValid(Edited(m, id, t))
  {
    hide HeapValid, EntryValid;
    EditedEntries(m, id, t);
    EditedHeapValid(m, id, t);
    CountsPut(m, Edited(m, id, t), id, m.entries[id].(task := t));
  }

  lemma EditedEntries(m: Mem, id: TaskID, t: Task)
    requires id in m.entries && t.id == id && t.state == m.entries[id].task.state
    requires forall x :: x in m.entries ==> EntryValid(x, m.entries[x], m.released)
    ensures forall x :: x in Edited(m, id, t).entries ==> EntryValid(x, Edited(m, id, t).entries[x], m.released)
  {
  }

  lemma EditedHeapValid(m: Mem, id: TaskID, t: Task)
    requires HeapValid(m.entries, m.heap) && id in m.entries && t.state == m.entries[id].task.state
    ensures HeapValid(Edited(m, id, t).entries, Edited(m, id, t).heap)
  {
    TerminalsPut(m.entries, id, m.entries[id].(task := t));
    RetimedIds(m.heap, id, t.finishedAt);
    EditedHeap(m, id, t);
  }

  lemma EditedHeap(m: Mem, id: TaskID, t: Task)
    requires HeapValid(m.entries, m.heap) && id in m.entries
    ensures forall s :: s in Edited(m, id, t).heap ==>
              s.id in m.entries && Edited(m, id, t).entries[s.id].task.finishedAt == s.at
  {
    var f := Edited(m, id, t);
    forall s | s in f.heap
      ensures s.id in m.entries && f.entries[s.id].task.finishedAt == s.at
    {
      var i :| 0 <= i < |f.heap| && f.heap[i] == s;
      assert m.heap[i] in m.heap;
    }
  }

  lemma RetimedIds(h: seq<Slot>, id: TaskID, at: Time)
    ensures Ids(Retimed(h, id, at)) == Ids(h)
    ensures NoDup(h) ==> NoDup(Retimed(h, id, at))
  {
    var g := Retimed(h, id, at);
    forall x
      ensures x in Ids(g) <==> x in Ids(h)
    {
      if x in Ids(g) {
        var s :| s in g && s.id == x;
        var i :| 0 <= i < |g| && g[i] == s;
        assert h[i] in h && h[i].id == x;
      }
      if x in Ids(h) {
        var s :| s in h && s.id == x;
        var i :| 0 <= i < |h| && h[i] == s;
        assert g[i] in g && g[i].id == x;
      }
    }
  }

  lemma TransitionValid(m: Mem, id: TaskID, fn: TransitionFn, now: Time)
    requires MemValid(m) && KeepsIdentity(fn)
    ensures MemValid(Transition(m, id, fn, now).mem)
  {
    if id != "" && !m.closed && id in m.entries && m.entries[id].task.pid == m.pid && fn(m.entries[id].task).Applied? {
      var t := fn(m.entries[id].task).task;
      assert EntryValid(id, m.entries[id], m.released);
      if t.state == m.entries[id].task.state {
        EditedValid(m, id, t);
      } else if CanTransition(m.entries[id].task.state, t.state) {
        EnteredSound(m, id, Stamped(t, now));
        TrimmedValid(Entered(Left(m, m.entries[id].task.state), id, Stamped(t, now), m.entries[id].cancel));
      }
    }
  }

  lemma RegisterCancelValid(m: Mem, id: TaskID, c: Ctx)
    requires MemValid(m)
    ensures MemValid(RegisterCancel(m, id, c).0)
    ensures MemOrdered(m) ==> MemOrdered(RegisterCancel(m, id, c).0)
  {
    var f := RegisterCancel(m, id, c).0;
    if f != m {
      assert EntryValid(id, m.entries[id], m.released);
      CountsPut(m, f, id, f.entries[id]);
      PutLive(m, f, id, f.entries[id]);
    }
  }

  /** RegisterCancel reports success on a terminal record of this process and keeps nothing. */
  lemma RegisterCancelOnTerminal(m: Mem, id: TaskID, c: Ctx)
    requires MemValid(m) && id != "" && id in m.entries && m.entries[id].task.pid == m.pid
    ensures m.entries[id].task.state.IsTerminal() ==>
              RegisterCancel(m, id, c) == (m, Ok) && m.entries[id].cancel == None
    ensures !m.entries[id].task.state.IsTerminal() ==>
              RegisterCancel(m, id, c).1 == Ok && RegisterCancel(m, id, c).0.entries[id].cancel == Some(c)
  {
    assert EntryValid(id, m.entries[id], m.released);
  }

  lemma RestoreValid(m: Mem, t: Task, now: Time)
    requires MemValid(m)
    ensures MemValid(Restore(m, t, now).0)
    ensures MemOrdered(m) ==> MemOrdered(Restore(m, t, now).0)
  {
    if Restore(m, t, now).1 == Ok {
      hide MemValid, Sound, Trimmed;
      var u := if t.state.IsTerminal() then Stamped(t, now) else t;
      ReopenValid(m, t.id);
      EnteredNew(m.(released := m.released - {t.id}), u);
      TrimmedValid(Entered(m.(released := m.released - {t.id}), t.id, u, None));
    }
  }

  lemma ReopenValid(m: Mem, id: TaskID)
    requires MemValid(m) && id !in m.entries
    ensures MemValid(m.(released := m.released - {id}))
  {
    assert forall x :: x in m.entries ==> EntryValid(x, m.entries[x], m.released - {id});
  }

  /** Loading a record whose id is unknown. */
  lemma EnteredNew(m: Mem, t: Task)
    requires MemValid(m) && t.id !in m.released && t.id !in m.entries && t.state.IsKnown()
    ensures Sound(Entered(m, t.id, t, None))
    ensures MemOrdered(m) ==> MemOrdered(Entered(m, t.id, t, None))
    ensures !t.state.IsTerminal() ==> MemValid(Entered(m, t.id, t, None))
  {
    var g := Entered(m, t.id, t, None);
    CountsPut(m, g, t.id, g.entries[t.id]);
    if t.state.IsTerminal() {
      PutTerminal(m, g, t.id, t);
    } else {
      PutLive(m, g, t.id, g.entries[t.id]);
    }
  }
}
