/** A restart after any run: the directory the run left gives every task a definite outcome
    (internal/taskstore/disk.go:115-171 and 180-196). */
module Recovery {
  import opened Tasks
  import opened StoreSpec
  import opened StoreLaws
  import opened Manifests
  import opened Retention
  import opened Mirror
  import opened Replay
  import opened Restart
  import Collections
  import TaskIDs

  /** What the process does to its own tasks: ids come from the generator, the clock has been set, and an
      edit neither spoils the kind nor erases a finish time. */
  ghost predicate OpSane(op: Op) {
    match op
    case SubmitOp(id, _, _, _) => TaskIDs.IsValid(id)
    case TransitionOp(_, fn, now) =>
      && now != ZERO_TIME
      && forall t :: fn(t).Applied? ==>
        && (t.kind.IsValid() ==> fn(t).task.kind.IsValid())
        && (t.state.IsTerminal() && t.finishedAt != ZERO_TIME ==> fn(t).task.finishedAt != ZERO_TIME)
    case _ => true
  }

  ghost predicate RunSane(ops: seq<Op>) {
    forall i :: 0 <= i < |ops| ==> OpSane(ops[i])
  }

  /** Every record is this process's own, and its manifest would be read as it is. */
  ghost predicate AllOwn(m: Mem) {
    forall x :: x in m.entries ==> OwnReadable(m.entries[x].task, x, m.pid)
  }

  ghost predicate OwnReadable(t: Task, x: TaskID, pid: int) {
    TaskIDs.IsValid(x) && t.kind.IsValid() && t.pid == pid && (t.state.IsTerminal() ==> t.finishedAt != ZERO_TIME)
  }

  lemma OwnStep(m: Mem, op: Op)
    requires MemValid(m) && AllOwn(m) && OpOk(m, op) && !op.RestoreOp? && OpSane(op)
    ensures AllOwn(Apply(m, op).mem) && Apply(m, op).mem.pid == m.pid
  {
    hide MemValid, Transition, TaskIDs.IsValid;
    if op.TransitionOp? {
      TransitionEffect(m, op.id, op.fn, op.now, "");
      forall x | x in Apply(m, op).mem.entries
        ensures OwnReadable(Apply(m, op).mem.entries[x].task, x, m.pid)
      {
        TransitionEffect(m, op.id, op.fn, op.now, x);
        assert OwnReadable(m.entries[x].task, x, m.pid);
      }
    }
  }

  lemma {:induction false} RunOwn(m: Mem, ops: seq<Op>)
    requires MemValid(m) && AllOwn(m) && RunSane(ops) && RunNotEarlier(m, ops)
    ensures MemValid(Run(m, ops)) && AllOwn(Run(m, ops)) && Run(m, ops).pid == m.pid
    decreases |ops|
  {
    hide MemValid, AllOwn, Apply, OpOk, OpSane, NotEarlier;
    if ops != [] {
      assert OpSane(ops[0]);
      StepKeepsValid(m, ops[0]);
      OwnStep(m, ops[0]);
      assert RunSane(ops[1..]);
      RunOwn(Apply(m, ops[0]).mem, ops[1..]);
    }
  }

  ghost function TasksOf(entries: map<TaskID, Entry>): map<TaskID, Task> {
    map x | x in entries :: entries[x].task
  }

  /** The directory of a store that it mirrors says exactly what the store held. */
  lemma MirrorIsBook(m: Mem, files: map<string, Task>)
    requires MemValid(m) && AllOwn(m) && Mirrors(files, m.entries)
    ensures FilesNamed(files) && Loadables(files) == TasksOf(m.entries) && AllStamped(Loadables(files))
  {
    hide TaskIDs.IsValid, FileName, IsManifestName;
    forall n | n in files
      ensures exists x :: x in m.entries && n == FileName(x) && files[n] == m.entries[x].task && files[n].id == x
    {
      var x :| x in m.entries && n == FileName(x);
      IdOf(m, x);
    }
    forall x | x in m.entries
      ensures x in Loadables(files) && Loadables(files)[x] == m.entries[x].task
    {
      IdOf(m, x);
      OwnFileIsRead(m.entries[x].task);
      assert FileName(x) in files;
    }
  }

  /** The outcome a restart gives a task that the store held. */
  function OutcomeOf(t: Task, now: Time): Task {
    if IsLive(t.state) then AbandonedTask(t, now) else t
  }

  ghost function Outcomes(entries: map<TaskID, Entry>, clock: Clock): map<TaskID, Task> {
    map x | x in entries :: OutcomeOf(entries[x].task, clock(x))
  }

  lemma OutcomesAre(m: Mem, clock: Clock)
    requires AllOwn(m)
    ensures Recovered(TasksOf(m.entries), OwnLive(TasksOf(m.entries), m.pid), clock) == Outcomes(m.entries, clock)
  {
    hide TaskIDs.IsValid;
  }

  lemma HeldAreOutcomes(m: Mem, r: Mem, clock: Clock)
    requires MemValid(m) && Holds(r, Outcomes(m.entries, clock))
    ensures forall x :: x in r.entries ==>
              x in m.entries && r.entries[x] == Entry(OutcomeOf(m.entries[x].task, clock(x)), None)
              && r.entries[x].task.state.IsTerminal()
    ensures Times(Outcomes(m.entries, clock)).Keys == m.entries.Keys
  {
    hide MemValid, TaskIDs.IsValid, Retains;
    forall x | x in m.entries
      ensures OutcomeOf(m.entries[x].task, clock(x)).state.IsTerminal()
    {
      IdOf(m, x);
    }
  }

  lemma HeldSettles(left: Mem, r: Mem, clock: Clock)
    requires MemValid(left) && Holds(r, Outcomes(left.entries, clock))
    ensures forall x :: x in r.entries ==>
              x in left.entries && r.entries[x] == Entry(OutcomeOf(left.entries[x].task, clock(x)), None)
              && r.entries[x].task.state.IsTerminal()
    ensures IsNewest(r.entries.Keys, Times(Outcomes(left.entries, clock)), r.maxRet)
    ensures Times(Outcomes(left.entries, clock)).Keys == left.entries.Keys
    ensures |left.entries| <= r.maxRet ==> r.entries.Keys == left.entries.Keys
  {
    hide *;
    HeldAreOutcomes(left, r, clock);
    HoldsNewestOf(r, Outcomes(left.entries, clock));
    AllTerminal(r);
    AllKept(r.entries.Keys, Times(Outcomes(left.entries, clock)), r.maxRet, left.entries);
  }

  lemma StartsEmpty(pid: int, maxQueued: int, maxRetained: int)
    ensures var m0 := NewMem(pid, maxQueued, maxRetained);
            Retains(m0, map[]) && MemValid(m0) && AllOwn(m0) && m0.entries == map[] && !m0.closed && m0.pid == pid
  {
    NewMemValid(pid, maxQueued, maxRetained);
  }

  /** Whatever the process did before it stopped, a restart under the same pid and bounds gives every
      task it held a definite outcome: finished ones as they were, queued and running ones abandoned;
      memory then holds exactly these, trimmed to the newest, and all of them if the bound allows. */
  lemma RestartSettlesRun(pid: int, maxQueued: int, maxRetained: int, ok: Health, ops: seq<Op>,
                          listing: seq<string>, load: Clock, abandon: Clock)
    requires Healthy(ok) && RunSane(ops) && RunNotEarlier(NewMem(pid, maxQueued, maxRetained), ops)
    requires IsListing(RunDisk(NewMem(pid, maxQueued, maxRetained), Disk(map[], 0), ok, ops).files, listing)
    ensures var m0 := NewMem(pid, maxQueued, maxRetained);
            var left, d := Run(m0, ops), RunDisk(m0, Disk(map[], 0), ok, ops);
            var r, final := NewDisk(m0, d, ok, listing, load, abandon).mem, Outcomes(left.entries, abandon);
            && (forall x :: x in r.entries ==>
                  x in left.entries && r.entries[x] == Entry(OutcomeOf(left.entries[x].task, abandon(x)), None)
                  && r.entries[x].task.state.IsTerminal())
            && IsNewest(r.entries.Keys, Times(final), m0.maxRet) && Times(final).Keys == left.entries.Keys
            && (|left.entries| <= m0.maxRet ==> r.entries.Keys == left.entries.Keys)
  {
    var m0 := NewMem(pid, maxQueued, maxRetained);
    var left, d := Run(m0, ops), RunDisk(m0, Disk(map[], 0), ok, ops);
    hide *;
    StartsEmpty(pid, maxQueued, maxRetained);
    DiskMirrorsMemory(pid, maxQueued, maxRetained, ok, ops);
    RunOwn(m0, ops);
    MirrorIsBook(left, d.files);
    OutcomesAre(left, abandon);
    StartHolds(m0, d, ok, listing, load, abandon);
    HeldSettles(left, NewDisk(m0, d, ok, listing, load, abandon).mem, abandon);
  }

  lemma AllTerminal(m: Mem)
    requires forall x :: x in m.entries ==> m.entries[x].task.state.IsTerminal()
    ensures Terminals(m.entries) == m.entries.Keys
  {
  }

  lemma AllKept(kept: set<TaskID>, ever: map<TaskID, Time>, k: nat, entries: map<TaskID, Entry>)
    requires IsNewest(kept, ever, k) && ever.Keys == entries.Keys
    ensures |entries| <= k ==> kept == entries.Keys
  {
    assert |ever| == |ever.Keys| && |entries| == |entries.Keys|;
    if |entries| <= k {
      Collections.SameSize(kept, entries.Keys);
    }
  }
}
