/** The in-process store: records shared between the task map and the retention heap, updated in
    place under one lock (internal/taskstore/memory.go). Every method is one critical section. */
module MemoryStores {
  import opened Tasks
  import opened TerminalHeap
  import opened StoreSpec
  import opened Manifests
  import TaskIDs

  class Record {
    var task: Task
    var cancel: Option<Ctx>
    var done: bool   // the done channel has been closed
    var heapIx: int

    constructor (task: Task)
      ensures this.task == task && cancel == None && !done && heapIx == -1
    {
      this.task := task;
      cancel := None;
      done := false;
      heapIx := -1;
    }
  }

  ghost function Slots(items: seq<Record>): (r: seq<Slot>)
    reads items
    ensures |r| == |items|
    ensures forall i :: 0 <= i < |items| ==> r[i] == Slot(items[i].task.id, items[i].task.finishedAt)
  {
    seq(|items|, i requires 0 <= i < |items| reads items => Slot(items[i].task.id, items[i].task.finishedAt))
  }

  ghost function EntriesOf(tasks: map<TaskID, Record>): (r: map<TaskID, Entry>)
    reads tasks.Values
    ensures r.Keys == tasks.Keys
    ensures forall id :: id in tasks ==> r[id] == Entry(tasks[id].task, tasks[id].cancel)
  {
    map id | id in tasks :: Entry(tasks[id].task, tasks[id].cancel)
  }

  class RecordHeap {
    var items: seq<Record>

    ghost function Members(): set<Record>
      reads this
    {
      set r | r in items
    }

    constructor ()
      ensures items == []
    {
      items := [];
    }

    ghost predicate Indexed()
      reads this, items`heapIx
    {
      forall i :: 0 <= i < |items| ==> items[i].heapIx == i
    }

    predicate Less(i: nat, j: nat)
      requires i < |items| && j < |items|
      reads this, items
    {
      items[i].task.finishedAt < items[j].task.finishedAt
    }

    method Swap(i: nat, j: nat)
      requires i < |items| && j < |items| && Indexed()
      modifies this, Members()`heapIx
      ensures Indexed() && items == Swapped(old(items), i, j)
      ensures Slots(items) == Swapped(old(Slots(items)), i, j)
      ensures Members() == old(Members())
    {
      SwapMembers(items, i, j);
      items := items[i := items[j]][j := items[i]];
      items[i].heapIx := i;
      items[j].heapIx := j;
      assert items[i] == old(items[j]) && items[j] == old(items[i]);
      assert Slots(items) == Swapped(old(Slots(items)), i, j);
    }

    method Up(start: nat)
      requires start < |items| && Indexed()
      modifies this, Members()`heapIx
      ensures Indexed() && Slots(items) == SiftUp(old(Slots(items)), start)
      ensures |items| == |old(items)| && Members() == old(Members())
    {
      var j: nat := start;
      while j > 0 && Less(j, Parent(j))
        invariant j < |items| == |old(items)| && Indexed()
        invariant Members() == old(Members())
        invariant SiftUp(Slots(items), j) == SiftUp(old(Slots(items)), start)
        decreases j
      {
        Swap(Parent(j), j);
        j := Parent(j);
      }
    }

    method Down(start: nat, n: nat)
      requires start <= n <= |items| && Indexed()
      modifies this, Members()`heapIx
      ensures Indexed() && Slots(items) == SiftDown(old(Slots(items)), start, n)
      ensures |items| == |old(items)| && items[n..] == old(items[n..])
      ensures Members() == old(Members())
    {
      hide *;
      var i: nat := start;
      while 2 * i + 1 < n
        invariant i <= n <= |items| == |old(items)| && Indexed() && items[n..] == old(items[n..])
        invariant Members() == old(Members())
        invariant SiftDown(Slots(items), i, n) == SiftDown(old(Slots(items)), start, n)
        decreases n - i
      {
        SiftDownStep(Slots(items), i, n);
        var c := Child(i, n);
        LessIsSlots(c, i);
        if !Less(c, i) {
          return;
        }
        SwapSuffix(items, i, c, n);
        Swap(i, c);
        i := c;
      }
      SiftDownStep(Slots(items), i, n);
    }

    lemma LessIsSlots(i: nat, j: nat)
      requires i < |items| && j < |items|
      ensures Less(i, j) <==> Slots(items)[i].at < Slots(items)[j].at
    {
    }

    method Child(i: nat, n: nat) returns (c: nat)
      requires 2 * i + 1 < n <= |items|
      ensures c == SmallerChild(Slots(items), i, n)
    {
      c := 2 * i + 1;
      if c + 1 < n && Less(c + 1, c) {
        c := c + 1;
      }
    }

    /** terminalHeap.Push. */
    method PushLast(rec: Record)
      requires Indexed() && rec !in items
      modifies this, rec`heapIx
      ensures Indexed() && items == old(items) + [rec]
    {
      rec.heapIx := |items|;
      items := items + [rec];
    }

    /** terminalHeap.Pop. */
    method PopLast() returns (rec: Record)
      requires Indexed() && |items| > 0
      modifies this, Members()`heapIx
      ensures Indexed() && old(items) == items + [rec] && rec.heapIx == -1 && rec == old(items[|items| - 1])
      ensures Members() == old(Members()) - {rec}
      ensures Slots(items) == old(Slots(items))[..|items|]
    {
      var n := |items| - 1;
      rec := items[n];
      items := items[..n];
      assert forall k :: 0 <= k < n ==> items[k].heapIx == k != rec.heapIx;
      rec.heapIx := -1;
    }

    /** heap.Push. */
    method Insert(rec: Record)
      requires Indexed() && rec !in Members()
      modifies this, Members()`heapIx, rec`heapIx
      ensures Indexed() && Slots(items) == Push(old(Slots(items)), Slot(rec.task.id, rec.task.finishedAt))
      ensures Members() == old(Members()) + {rec}
    {
      PushLast(rec);
      assert Slots(items) == old(Slots(items)) + [Slot(rec.task.id, rec.task.finishedAt)];
      Up(|items| - 1);
    }

    method SwapEnds()
      requires Indexed() && |items| > 0
      modifies this, Members()`heapIx
      ensures Indexed() && |items| == |old(items)| && items[|items| - 1] == old(items[0])
      ensures Slots(items) == Swapped(old(Slots(items)), 0, |items| - 1)
      ensures Members() == old(Members())
    {
      Swap(0, |items| - 1);
    }

    /** heap.Pop. */
    method Remove() returns (rec: Record)
      requires Indexed() && |items| > 0
      modifies this, Members()`heapIx
      ensures Indexed() && rec == old(items[0]) && rec.heapIx == -1
      ensures Slots(items) == PopRest(old(Slots(items)))
      ensures Members() == old(Members()) - {rec}
    {
      hide SiftDown, Swapped, Slots, Indexed, Members;
      var n := |items| - 1;
      SwapEnds();
      label swapped:
      Down(0, n);
      assert items[n] == items[n..][0] == old@swapped(items[n..])[0];
      rec := PopLast();
    }
  }

  /** The map and the heap share records, and every back-pointer is right. */
  ghost predicate LinkedTo(tasks: map<TaskID, Record>, terminal: RecordHeap, released: set<TaskID>)
    reads terminal, tasks.Values`task, tasks.Values`heapIx, tasks.Values`done, terminal.items`task,
          terminal.items`heapIx
  {
    && (forall id :: id in tasks ==> tasks[id].task.id == id)
    && terminal.Indexed()
    && (forall r :: r in terminal.Members() ==> r.task.id in tasks && tasks[r.task.id] == r)
    && (forall id :: id in tasks ==> tasks[id] in terminal.Members() || tasks[id].heapIx == -1)
    && (forall id :: id in tasks ==> (tasks[id].done <==> id in released))
  }

  lemma LinkAdded(tasks: map<TaskID, Record>, terminal: RecordHeap, released: set<TaskID>, rec: Record)
    requires LinkedTo(tasks, terminal, released) && rec.task.id !in tasks && rec.task.id !in released
    requires !rec.done && rec.heapIx == -1
    ensures LinkedTo(tasks[rec.task.id := rec], terminal, released)
  {
  }

  lemma EntriesAdded(tasks: map<TaskID, Record>, rec: Record)
    ensures EntriesOf(tasks[rec.task.id := rec]) == EntriesOf(tasks)[rec.task.id := Entry(rec.task, rec.cancel)]
  {
  }

  lemma LinkDropped(tasks: map<TaskID, Record>, terminal: RecordHeap, released: set<TaskID>, rec: Record)
    requires LinkedTo(tasks, terminal, released) && rec in tasks.Values && rec !in terminal.Members()
    ensures LinkedTo(tasks - {rec.task.id}, terminal, released)
    ensures rec.task.id in tasks && tasks[rec.task.id] == rec
  {
  }

  lemma EntriesDropped(tasks: map<TaskID, Record>, id: TaskID)
    ensures EntriesOf(tasks - {id}) == EntriesOf(tasks) - {id}
  {
  }

  lemma ValuesDropped(tasks: map<TaskID, Record>, id: TaskID)
    requires id in tasks
    ensures (tasks - {id}).Values <= tasks.Values
    ensures forall r :: r in tasks.Values && r !in (tasks - {id}).Values ==> r == tasks[id]
  {
    forall r | r in tasks.Values && r != tasks[id]
      ensures r in (tasks - {id}).Values
    {
      var x :| x in tasks && tasks[x] == r;
      assert (tasks - {id})[x] == r;
    }
  }

  class MemoryStore {
    var tasks: map<TaskID, Record>
    const terminal: RecordHeap
    var queued: int
    var running: int
    var closed: bool
    const pid: int
    const maxQueue: int
    const maxRet: nat
    /** Where the lifecycle hooks write; null for a memory-only store. */
    const disk: Directory?
    /** Ids whose done channel has been closed, evicted ones included. */
    ghost var released: set<TaskID>

    ghost function Footprint(): set<object>
      reads this
    {
      {this, terminal} + tasks.Values
    }

    ghost function View(): Mem
      reads this, terminal, tasks.Values, terminal.items
    {
      Mem(EntriesOf(tasks),
          Slots(terminal.items), queued, running, released, closed, pid, maxQueue, maxRet)
    }

    ghost predicate Linked()
      reads this, terminal, tasks.Values, terminal.items
    {
      LinkedTo(tasks, terminal, released)
    }

    ghost predicate Valid()
      reads this, terminal, tasks.Values, terminal.items
    {
      Linked() && MemValid(View())
    }

    constructor (pid: int, maxQueued: int, maxRetained: int, disk: Directory?)
      ensures Valid() && View() == NewMem(pid, maxQueued, maxRetained)
      ensures this.disk == disk && fresh(Footprint())
    {
      tasks := map[];
      terminal := new RecordHeap();
      queued, running, closed := 0, 0, false;
      this.pid := pid;
      maxQueue := Clamp(maxQueued, 256, 10000);
      maxRet := Clamp(maxRetained, 1024, 100000);
      this.disk := disk;
      released := {};
      new;
      assert EntriesOf(tasks) == map[];
    }

    method OnEvict(id: TaskID)
      requires Linked()
      modifies disk
      ensures Linked() && View() == old(View())
      ensures disk != null ==> disk.View() == Delete(old(disk.View()), disk.succeeds, id)
    {
      hide LinkedTo, EntriesOf, Slots;
      if disk != null {
        disk.DeleteManifest(id);
      }
    }

    method OnTransition(t: Task)
      requires Linked()
      modifies disk
      ensures Linked() && View() == old(View())
      ensures disk != null ==> disk.View() == Persist(old(disk.View()), disk.succeeds, t)
    {
      hide LinkedTo, EntriesOf, Slots;
      if disk != null {
        disk.PersistManifest(t);
      }
    }

    /** evictUntilUnderRetention: pop, delete from the map, fire the hook. */
    method EvictUntilUnderRetention()
      requires Linked()
      modifies this, terminal, terminal.Members()`heapIx, disk
      ensures Linked() && View() == Trimmed(old(View()))
      ensures disk != null ==> disk.View() == DeleteAll(old(disk.View()), disk.succeeds, TrimmedIds(old(View())))
      ensures tasks.Values <= old(tasks.Values) && closed == old(closed) && released == old(released)
      ensures forall r :: r in old(tasks.Values) && r !in tasks.Values ==> r in old(terminal.Members())
    {
      hide *;
      ghost var m0 := View();
      ghost var ids := [];
      while |terminal.items| > maxRet
        invariant Linked() && Trimmed(View()) == Trimmed(m0) && ids + TrimmedIds(View()) == TrimmedIds(m0)
        invariant tasks.Values <= old(tasks.Values) && closed == old(closed) && released == old(released)
        invariant terminal.Members() <= old(terminal.Members())
        invariant forall r :: r in old(tasks.Values) && r !in tasks.Values ==> r in old(terminal.Members())
        invariant disk != null ==> disk.View() == DeleteAll(old(disk.View()), disk.succeeds, ids)
        decreases |terminal.items|
      {
        ghost var before := View();
        SizeOfHeap();
        EvictOldest();
        TrimmedStep(before);
        if disk != null {
          DeleteAllSnoc(old(disk.View()), disk.succeeds, ids, before.heap[0].id);
        }
        ids := ids + [before.heap[0].id];
      }
      SizeOfHeap();
      TrimmedStep(View());
      assert ids + [] == ids;
    }

    lemma SizeOfHeap()
      ensures |View().heap| == |terminal.items| && View().maxRet == maxRet
    {
    }

    /** What the picture shows of the store's own fields. */
    lemma Fields()
      ensures View().closed == closed && View().queued == queued && View().running == running
      ensures View().pid == pid && View().maxQueue == maxQueue && View().released == released
      ensures View().entries.Keys == tasks.Keys
      ensures forall id :: id in tasks ==> View().entries[id] == Entry(tasks[id].task, tasks[id].cancel)
    {
    }

    method EvictOldest()
      requires Linked() && |terminal.items| > 0
      modifies this`tasks, terminal, terminal.Members()`heapIx, disk
      ensures Linked() && View() == DropRoot(old(View()))
      ensures disk != null ==> disk.View() == Delete(old(disk.View()), disk.succeeds, old(View()).heap[0].id)
      ensures tasks.Values <= old(tasks.Values)
      ensures forall r :: r in old(tasks.Values) && r !in tasks.Values ==> r in old(terminal.Members())
      ensures terminal.Members() <= old(terminal.Members()) && |terminal.items| < |old(terminal.items)|
    {
      hide Linked, View, EntriesOf, Slots, PopRest, DropRoot;
      SizeOfHeap();
      var rec := DropOldest();
      OnEvict(rec.task.id);
    }

    /** Pop the heap and delete from the map, without the hook. */
    method DropOldest() returns (rec: Record)
      requires Linked() && |terminal.items| > 0
      modifies this`tasks, terminal, terminal.Members()`heapIx
      ensures Linked() && View() == DropRoot(old(View()))
      ensures rec.task.id == old(View()).heap[0].id
      ensures tasks.Values <= old(tasks.Values)
      ensures forall r :: r in old(tasks.Values) && r !in tasks.Values ==> r in old(terminal.Members())
      ensures terminal.Members() <= old(terminal.Members()) && |terminal.items| < |old(terminal.items)|
    {
      hide Linked, View, EntriesOf, Slots, PopRest;
      ghost var before := View();
      SizeOfHeap();
      rec := PopOldest();
      Forget(rec);
      assert View() == before.(heap := PopRest(before.heap), entries := before.entries - {before.heap[0].id});
    }

    /** The trim loop of restore. */
    method TrimQuietly()
      requires Linked()
      modifies this`tasks, terminal, terminal.Members()`heapIx
      ensures Linked() && View() == Trimmed(old(View())) && tasks.Values <= old(tasks.Values)
    {
      hide *;
      ghost var m0 := View();
      while |terminal.items| > maxRet
        invariant Linked() && Trimmed(View()) == Trimmed(m0)
        invariant tasks.Values <= old(tasks.Values) && terminal.Members() <= old(terminal.Members())
        decreases |terminal.items|
      {
        SizeOfHeap();
        TrimmedStep(View());
        var _ := DropOldest();
      }
      SizeOfHeap();
      TrimmedStep(View());
    }

    method PopOldest() returns (rec: Record)
      requires Linked() && |terminal.items| > 0
      modifies terminal, terminal.Members()`heapIx
      ensures Linked() && View() == old(View()).(heap := PopRest(old(View().heap)))
      ensures rec in old(terminal.Members())
      ensures rec !in terminal.Members() && rec in tasks.Values && rec.task.id == old(View().heap[0].id)
      ensures terminal.Members() <= old(terminal.Members()) && |terminal.items| < |old(terminal.items)|
    {
      hide LinkedTo, EntriesOf, Slots, PopRest, RecordHeap.Indexed;
      HeapShared();
      HeapIndexed();
      RootShown();
      rec := terminal.Remove();
      SameEntries();
      Popped(rec);
    }

    lemma RootShown()
      requires |terminal.items| > 0
      ensures View().heap != [] && View().heap[0].id == terminal.items[0].task.id
      ensures terminal.items[0] in terminal.Members()
    {
    }

    /** The heap has lost one record, whose back-pointer says so. */
    twostate lemma Popped(rec: Record)
      requires old(Linked()) && tasks == old(tasks) && released == old(released) && terminal.Indexed()
      requires forall r :: r in tasks.Values ==> r.task.id == old(r.task.id) && r.done == old(r.done)
      requires forall r :: r in tasks.Values && r !in old(terminal.Members()) ==> r.heapIx == old(r.heapIx)
      requires rec in old(terminal.Members()) && rec.heapIx == -1
      requires terminal.Members() == old(terminal.Members()) - {rec}
      ensures Linked()
    {
    }

    method Forget(rec: Record)
      requires Linked() && rec !in terminal.Members() && rec in tasks.Values
      modifies this`tasks
      ensures Linked() && View() == old(View()).(entries := old(View().entries) - {rec.task.id})
      ensures tasks == old(tasks) - {rec.task.id}
      ensures tasks.Values <= old(tasks.Values) && forall r :: r in old(tasks.Values) && r !in tasks.Values ==> r == rec
    {
      hide LinkedTo, EntriesOf, Slots;
      LinkDropped(tasks, terminal, released, rec);
      EntriesDropped(tasks, rec.task.id);
      ValuesDropped(tasks, rec.task.id);
      tasks := tasks - {rec.task.id};
    }

    /** NewTaskID's result comes in as `id`; a collision is a panic in the source. */
    method Submit(id: TaskID, kind: Kind, request: string, now: Time) returns (out: Outcome)
      requires Valid() && id !in tasks && id !in released
      modifies this, disk
      ensures Valid() && fresh(Footprint() - old(Footprint()))
      ensures var s := StoreSpec.Submit(old(View()), id, kind, request, now);
              View() == s.mem && out == s.out && HooksRan(s)
    {
      hide Linked, View, EntriesOf, MemValid;
      Fields();
      SubmitValid(View(), id, kind, request, now);
      if closed {
        return StoreClosed;
      }
      if !kind.IsValid() {
        return InvalidKind;
      }
      if queued >= maxQueue {
        return QueueFull;
      }
      var rec := new Record(Task(id, kind, Queued, pid, now, ZERO_TIME, ZERO_TIME, request, None, "", ""));
      AddRecord(rec);
      Count(1, 0);
      OnTransition(rec.task);
      return Ok;
    }

    method Count(dq: int, dr: int)
      requires Linked()
      modifies this`queued, this`running
      ensures Linked() && View() == old(View()).(queued := old(queued) + dq, running := old(running) + dr)
    {
      hide LinkedTo, EntriesOf, Slots;
      queued := queued + dq;
      running := running + dr;
    }

    method AddRecord(rec: Record)
      requires Linked() && rec.task.id !in tasks && rec.task.id !in released
      requires !rec.done && rec.heapIx == -1 && rec !in tasks.Values
      modifies this`tasks
      ensures Linked() && tasks == old(tasks)[rec.task.id := rec] && rec in tasks.Values
      ensures View() == old(View()).(entries := old(View()).entries[rec.task.id := Entry(rec.task, rec.cancel)])
    {
      hide LinkedTo, EntriesOf, Slots;
      LinkAdded(tasks, terminal, released, rec);
      EntriesAdded(tasks, rec);
      tasks := tasks[rec.task.id := rec];
      assert tasks[rec.task.id] == rec;
    }

    /** Get reads a snapshot. */
    method Get(id: TaskID) returns (out: Outcome, task: Option<Task>)
      requires Valid()
      ensures id == "" ==> out == EmptyID && task == None
      ensures id != "" && id !in View().entries ==> out == NotFound && task == None
      ensures id != "" && id in View().entries ==> out == Ok && task == Some(View().entries[id].task)
    {
      if id == "" {
        return EmptyID, None;
      }
      if id !in tasks {
        return NotFound, None;
      }
      return Ok, Some(tasks[id].task);
    }

    /** Transition: the fn edits the live record, and a refused edit is rolled back whole. */
    method Transition(id: TaskID, fn: TransitionFn, now: Time) returns (out: Outcome)
      requires Valid() && KeepsIdentity(fn)
      modifies this, terminal, tasks.Values, disk
      ensures Valid() && fresh(Footprint() - old(Footprint()))
      ensures forall r :: r in old(tasks.Values) && r !in tasks.Values ==> r.done
      ensures var s := StoreSpec.Transition(old(View()), id, fn, now);
              View() == s.mem && out == s.out && HooksRan(s)
    {
      hide Linked, View, EntriesOf, MemValid, Committed;
      Fields();
      TransitionValid(View(), id, fn, now);
      if id == "" {
        return EmptyID;
      }
      if closed {
        return StoreClosed;
      }
      if id !in tasks {
        return NotFound;
      }
      var rec := tasks[id];
      if rec.task.pid != pid {
        return CrossPID;
      }
      KnownRecord(id);
      match fn(rec.task)
      case Refused => return FnRefused;
      case Applied(t) => out := Commit(rec, t, now);
    }

    method Commit(rec: Record, t: Task, now: Time) returns (out: Outcome)
      requires Valid() && t.id in tasks && tasks[t.id] == rec
      modifies this, terminal, tasks.Values, disk
      ensures Linked() && tasks.Values <= old(tasks.Values)
      ensures forall r :: r in old(tasks.Values) && r !in tasks.Values ==> r.done
      ensures var s := Committed(old(View()), t.id, t, now);
              View() == s.mem && out == s.out && HooksRan(s)
    {
      hide Linked, View, EntriesOf, MemValid, Trimmed, TrimmedIds, Entered, Left, Edited;
      Fields();
      KnownRecord(t.id);
      var prev := rec.task;
      if t.state != prev.state {
        if !CanTransition(prev.state, t.state) {
          return Illegal;
        }
        LiveRecord(t.id);
        HeapIsDone();
        ApplyStateChange(rec, t, now);
      } else {
        EditRecord(rec, t);
      }
      OnTransition(rec.task);
      return Ok;
    }

    method EditRecord(rec: Record, t: Task)
      requires Linked() && rec in tasks.Values && t.id == rec.task.id
      modifies rec`task
      ensures Linked() && View() == Edited(old(View()), t.id, t) && rec.task == t
    {
      hide LinkedTo, RecordHeap.Indexed;
      HeapShared();
      HeapIndexed();
      SoleInHeap(rec);
      SoleRecord(t.id);
      rec.task := t;
      Relinked();
      assert EntriesOf(tasks) == old(EntriesOf(tasks))[t.id := old(EntriesOf(tasks))[t.id].(task := t)];
      assert Slots(terminal.items) == Retimed(old(Slots(terminal.items)), t.id, t.finishedAt);
    }

    /** applyStateChange, for a record whose task becomes `t`. */
    method ApplyStateChange(rec: Record, t: Task, now: Time)
      requires Linked() && rec in tasks.Values && t.id == rec.task.id && !rec.done && rec !in terminal.Members()
      requires CanTransition(rec.task.state, t.state) && t.id !in released
      requires forall r :: r in terminal.Members() ==> r.done
      modifies this, terminal, terminal.Members(), rec, disk
      ensures Linked() && tasks.Values <= old(tasks.Values) && rec.task == Stamped(t, now)
      ensures var full := Entered(Left(old(View()), old(rec.task.state)), t.id, Stamped(t, now), old(rec.cancel));
              if t.state.IsTerminal() then
                View() == Trimmed(full) &&
                (disk != null ==> disk.View() == DeleteAll(old(disk.View()), disk.succeeds, TrimmedIds(full)))
              else View() == full && (disk != null ==> disk.View() == old(disk.View()))
      ensures forall r :: r in old(tasks.Values) && r !in tasks.Values ==> r.done
    {
      hide Linked, View, EntriesOf, Slots, Trimmed, TrimmedIds, DeleteAll, Entered, Left;
      Fields();
      CancelDropped(Left(View(), rec.task.state), t.id, Stamped(t, now), rec.cancel);
      Leave(rec.task.state);
      if t.state == Running {
        EnterRunning(rec, Stamped(t, now));
      } else {
        EnterTerminal(rec, Stamped(t, now));
        EvictUntilUnderRetention();
      }
    }

    method Leave(from: State)
      requires Linked() && (from == Queued || from == Running)
      modifies this`queued, this`running
      ensures Linked() && View() == Left(old(View()), from)
    {
      hide Linked, View, EntriesOf, Slots;
      Fields();
      if from == Queued {
        Count(-1, 0);
      } else {
        Count(0, -1);
      }
    }

    /** A terminal record keeps no cancel func, whatever it had. */
    lemma CancelDropped(m: Mem, id: TaskID, t: Task, cancel: Option<Ctx>)
      ensures t.state.IsTerminal() ==> Entered(m, id, t, cancel) == Entered(m, id, t, None)
    {
    }

    method EnterRunning(rec: Record, t: Task)
      requires Linked() && rec in tasks.Values && t.id == rec.task.id && rec !in terminal.Members()
      requires t.state == Running
      modifies this`queued, this`running, rec`task
      ensures Linked() && View() == Entered(old(View()), t.id, t, old(rec.cancel)) && rec.task == t
    {
      hide Linked, View, EntriesOf, Slots;
      Fields();
      Count(0, 1);
      SetTask(rec, t);
    }

    /** Entry to a terminal state: join the heap, close done, drop the cancel func. */
    method EnterTerminal(rec: Record, t: Task)
      requires Linked() && rec in tasks.Values && t.id == rec.task.id && !rec.done && rec !in terminal.Members()
      requires t.state.IsTerminal()
      modifies this`released, terminal, terminal.Members()`heapIx, rec
      ensures Linked() && View() == Entered(old(View()), t.id, t, None) && rec.task == t && rec.done
      ensures terminal.Members() == old(terminal.Members()) + {rec}
    {
      hide Linked, View, EntriesOf, Slots, Push;
      Fields();
      SetTask(rec, t);
      JoinHeap(rec);
      CloseDone(rec);
    }

    /** Release the waiters and detach the cancel func. */
    method CloseDone(rec: Record)
      requires Linked() && rec in tasks.Values
      modifies this`released, rec`done, rec`cancel
      ensures Linked() && rec.done
      ensures View() == old(View()).(entries := old(View()).entries[rec.task.id := Entry(rec.task, None)],
                                     released := old(released) + {rec.task.id})
    {
      hide Linked, View, EntriesOf, Slots;
      Fields();
      SignalDone(rec);
      SetCancel(rec.task.id, rec, None);
    }

    method SignalDone(rec: Record)
      requires Linked() && rec in tasks.Values
      modifies this`released, rec`done
      ensures Linked() && rec.done && rec.task.id in tasks && tasks[rec.task.id] == rec
      ensures View() == old(View()).(released := old(released) + {rec.task.id})
    {
      hide Slots, RecordHeap.Indexed;
      rec.done := true;
      released := released + {rec.task.id};
      assert EntriesOf(tasks) == old(EntriesOf(tasks));
    }

    /** A record that is not terminal is not in the heap and its done channel is open. */
    lemma LiveRecord(id: TaskID)
      requires Valid() && id in tasks && !tasks[id].task.state.IsTerminal()
      ensures tasks[id] !in terminal.Members() && !tasks[id].done && id !in released
    {
      MembersInHeap();
      assert EntryValid(id, View().entries[id], released);
    }

    lemma MembersInHeap()
      requires Linked()
      ensures forall r :: r in terminal.Members() ==>
                r.task.id in Ids(View().heap) && r.task.id in tasks && tasks[r.task.id] == r
    {
      forall r | r in terminal.Members()
        ensures r.task.id in Ids(View().heap)
      {
        var i :| 0 <= i < |terminal.items| && terminal.items[i] == r;
        assert View().heap[i] in View().heap;
      }
    }

    lemma HeapIsDone()
      requires Valid()
      ensures forall r :: r in terminal.Members() ==> r.done
    {
      MembersInHeap();
      forall r | r in terminal.Members()
        ensures r.done
      {
        assert EntryValid(r.task.id, View().entries[r.task.id], released);
      }
    }

    lemma SoleRecord(id: TaskID)
      requires Linked() && id in tasks
      ensures forall x :: x in tasks && tasks[x] == tasks[id] ==> x == id
    {
    }

    lemma SoleInHeap(rec: Record)
      requires Linked() && rec in tasks.Values
      ensures forall r :: r in terminal.items && r.task.id == rec.task.id ==> r == rec
      ensures rec.task.id in tasks && tasks[rec.task.id] == rec
    {
      assert forall r :: r in terminal.items ==> r in terminal.Members();
    }

    lemma KnownRecord(id: TaskID)
      requires Linked() && id in tasks
      ensures tasks[id].task.id == id && terminal.Members() <= tasks.Values
    {
    }

    method SetTask(rec: Record, t: Task)
      requires Linked() && rec in tasks.Values && t.id == rec.task.id && rec !in terminal.Members()
      modifies rec`task
      ensures Linked() && rec.task == t
      ensures View() == old(View()).(entries := old(View()).entries[t.id := Entry(t, rec.cancel)])
    {
      rec.task := t;
      assert EntriesOf(tasks) == old(EntriesOf(tasks))[t.id := Entry(t, rec.cancel)];
      assert Slots(terminal.items) == old(Slots(terminal.items));
    }

    /** Edits that keep every id and done flag, and let the heap only gain records of the map. */
    twostate lemma Relinked()
      requires old(Linked()) && tasks == old(tasks) && released == old(released) && terminal.Indexed()
      requires forall r :: r in tasks.Values ==> r.task.id == old(r.task.id) && r.done == old(r.done)
      requires forall r :: r in tasks.Values && r !in terminal.Members() ==> r.heapIx == old(r.heapIx)
      requires old(terminal.Members()) <= terminal.Members() <= tasks.Values
      ensures Linked()
    {
    }

    twostate lemma SameEntries()
      requires tasks == old(tasks)
      requires forall r :: r in tasks.Values ==> r.task == old(r.task) && r.cancel == old(r.cancel)
      ensures EntriesOf(tasks) == old(EntriesOf(tasks))
    {
    }

    method JoinHeap(rec: Record)
      requires Linked() && rec in tasks.Values && rec !in terminal.Members()
      modifies terminal, terminal.Members()`heapIx, rec`heapIx
      ensures Linked() && terminal.Members() == old(terminal.Members()) + {rec}
      ensures View() == old(View()).(heap := Push(old(View()).heap, Slot(rec.task.id, rec.task.finishedAt)))
    {
      hide Push, LinkedTo, EntriesOf, Slots, RecordHeap.Indexed, RecordHeap.Members;
      HeapShared();
      HeapIndexed();
      terminal.Insert(rec);
      SameEntries();
      Relinked();
    }

    /** Cancel's first step, under the read lock; the caller then fires what it returns. */
    method CancelPeek(id: TaskID) returns (v: CancelView)
      requires Valid()
      ensures v == CancelRead(View(), id)
      ensures v.CancelSees? <==> id != "" && id in tasks && tasks[id].task.pid == pid
      ensures v.CancelSees? ==> v.fire == tasks[id].cancel && v.alreadyTerminal == tasks[id].task.state.IsTerminal()
    {
      Fields();
      if id == "" {
        return CancelFails(EmptyID);
      }
      if id !in tasks {
        return CancelFails(NotFound);
      }
      if tasks[id].task.pid != pid {
        return CancelFails(CrossPID);
      }
      return CancelSees(tasks[id].cancel, tasks[id].task.state.IsTerminal());
    }

    /** Cancel when nothing comes between its two steps; `fired` is the cancel func it invoked: the one
        registered on a known record of this process, if any. */
    method Cancel(id: TaskID, hint: string, now: Time) returns (out: Outcome, fired: Option<Ctx>)
      requires Valid()
      modifies this, terminal, tasks.Values, disk
      ensures Valid() && fresh(Footprint() - old(Footprint()))
      ensures match CancelRead(old(View()), id)
              case CancelFails(o) => out == o && fired == None && View() == old(View())
              case CancelSees(fire, alreadyTerminal) =>
                fired == fire &&
                if alreadyTerminal then out == Ok && View() == old(View())
                else
                  var s := CancelCommit(old(View()), id, hint, now);
                  View() == s.mem && out == s.out && HooksRan(s)
      ensures fired == old(if id != "" && id in tasks && tasks[id].task.pid == pid then tasks[id].cancel else None)
    {
      hide Linked, View, EntriesOf, MemValid, StoreSpec.Transition, CancelRead;
      var v := CancelPeek(id);
      match v
      case CancelFails(o) => return o, None;
      case CancelSees(fire, alreadyTerminal) =>
        fired := fire;
        if alreadyTerminal {
          return Ok, fired;
        }
        out := Transition(id, CancelEdit(hint, now), now);
        if out == Illegal || out == NotFound {
          out := Ok;
        }
    }

    method RegisterCancel(id: TaskID, cancel: Ctx) returns (out: Outcome)
      requires Valid()
      modifies tasks.Values
      ensures Valid() && tasks == old(tasks)
      ensures (View(), out) == StoreSpec.RegisterCancel(old(View()), id, cancel)
    {
      hide Linked, View, EntriesOf, MemValid;
      Fields();
      RegisterCancelValid(View(), id, cancel);
      if id == "" {
        return EmptyID;
      }
      if id !in tasks {
        return NotFound;
      }
      var rec := tasks[id];
      if rec.task.pid != pid {
        return CrossPID;
      }
      if rec.task.state.IsTerminal() {
        return Ok;
      }
      SetCancel(id, rec, Some(cancel));
      return Ok;
    }

    method SetCancel(id: TaskID, rec: Record, cancel: Option<Ctx>)
      requires Linked() && id in tasks && tasks[id] == rec
      modifies rec`cancel
      ensures Linked()
      ensures View() == old(View()).(entries := old(View()).entries[id := old(View()).entries[id].(cancel := cancel)])
    {
      hide LinkedTo;
      SoleRecord(id);
      rec.cancel := cancel;
      assert EntriesOf(tasks) == old(EntriesOf(tasks))[id := old(EntriesOf(tasks))[id].(cancel := cancel)];
    }

    /** Wait's first step; on WaitBlocks the caller keeps the record's done channel. */
    method WaitPeek(id: TaskID) returns (v: WaitView, done: Record?)
      requires Valid()
      ensures v == WaitRead(View(), id)
      ensures if v == WaitBlocks then id in tasks && done == tasks[id] && !done.done else done == null
    {
      Fields();
      if id == "" {
        return WaitFails(EmptyID), null;
      }
      if id !in tasks {
        return WaitFails(NotFound), null;
      }
      if tasks[id].task.state.IsTerminal() {
        return WaitReturns(tasks[id].task), null;
      }
      LiveRecord(id);
      return WaitBlocks, tasks[id];
    }

    method Close()
      requires Valid()
      modifies this`closed
      ensures Valid() && View() == old(View()).(closed := true)
    {
      hide Linked, View, MemValid;
      ClosedValid(View());
      SetClosed();
    }

    method SetClosed()
      requires Linked()
      modifies this`closed
      ensures Linked() && View() == old(View()).(closed := true)
    {
      hide LinkedTo, EntriesOf, Slots;
      closed := true;
    }

    lemma ClosedValid(m: Mem)
      requires MemValid(m)
      ensures MemValid(m.(closed := true))
    {
    }

    /** Replay's load of one manifest. */
    method Restore(t: Task, now: Time) returns (out: Outcome)
      requires Valid()
      modifies this, terminal, tasks.Values
      ensures Valid() && fresh(Footprint() - old(Footprint()))
      ensures (View(), out) == StoreSpec.Restore(old(View()), t, now)
    {
      hide Linked, View, EntriesOf, MemValid, Trimmed, Entered, Stamped, TaskIDs.IsValid;
      Fields();
      RestoreValid(View(), t, now);
      if !TaskIDs.IsValid(t.id) || !t.kind.IsValid() || !t.state.IsKnown() || t.id in tasks {
        return BadManifest;
      }
      Load(t, now);
      out := Ok;
    }

    method Load(t: Task, now: Time)
      requires Linked() && t.id !in tasks && t.state.IsKnown()
      modifies this, terminal, tasks.Values
      ensures Linked() && fresh(Footprint() - old(Footprint()))
      ensures var open := old(View()).(released := old(View()).released - {t.id});
              View() == if t.state.IsTerminal() then Trimmed(Entered(open, t.id, Stamped(t, now), None))
                        else Entered(open, t.id, t, None)
    {
      hide Linked, View, EntriesOf, Trimmed, Entered, Stamped;
      HeapShared();
      Reopen(t.id);
      EnteredOver(View(), t.id, Entry(t, None), Stamped(t, now));
      var rec := new Record(t);
      ghost var open := View();
      AddRecord(rec);
      if t.state.IsTerminal() {
        LoadTerminal(rec, now);
      } else {
        LoadCounter(open, rec);
      }
    }

    method LoadCounter(ghost open: Mem, rec: Record)
      requires Linked() && rec.task.state.IsKnown() && !rec.task.state.IsTerminal() && rec.cancel == None
      requires View() == open.(entries := open.entries[rec.task.id := Entry(rec.task, None)])
      modifies this`queued, this`running
      ensures Linked() && View() == Entered(open, rec.task.id, rec.task, None)
    {
      hide Linked, View, EntriesOf;
      Fields();
      if rec.task.state == Queued {
        Count(1, 0);
      } else {
        Count(0, 1);
      }
    }

    /** A record about to be created under `id` will have an open done channel. */
    ghost method Reopen(id: TaskID)
      requires Linked() && id !in tasks
      modifies this`released
      ensures Linked() && View() == old(View()).(released := old(View()).released - {id}) && id !in released
    {
      hide EntriesOf, Slots;
      released := released - {id};
    }

    method LoadTerminal(rec: Record, now: Time)
      requires Linked() && rec in tasks.Values && !rec.done && rec !in terminal.Members()
      requires rec.task.state.IsTerminal()
      modifies this, terminal, terminal.Members()`heapIx, rec
      ensures Linked() && tasks.Values <= old(tasks.Values)
      ensures var t := old(rec.task);
              View() == Trimmed(Entered(old(View()), t.id, Stamped(t, now), None))
    {
      hide Linked, View, EntriesOf, Trimmed, Entered;
      EnterTerminal(rec, Stamped(rec.task, now));
      TrimQuietly();
    }

    /** Loading over an entry just added is loading over none. */
    lemma EnteredOver(m: Mem, id: TaskID, e: Entry, t: Task)
      ensures Entered(m.(entries := m.entries[id := e]), id, t, None) == Entered(m, id, t, None)
    {
      assert m.entries[id := e][id := Entry(t, None)] == m.entries[id := Entry(t, None)];
    }

    lemma HeapShared()
      requires Linked()
      ensures terminal.Members() <= tasks.Values
    {
    }

    lemma HeapIndexed()
      requires Linked()
      ensures terminal.Indexed()
    {
    }

    /** The hook calls a step makes, in order: its evictions, then its snapshot. */
    twostate predicate HooksRan(s: Step)
      reads disk
    {
      disk != null ==> disk.View() == AfterHooks(old(disk.View()), disk.succeeds, s)
    }
  }
}
