/** Laws of the task store over single steps and over whole runs (internal/taskstore/memory.go). */
module StoreLaws {
  import opened Tasks
  import opened TerminalHeap
  import opened StoreSpec
  import TaskIDs

  // ---------- what eviction can take ----------

  lemma TrimmedSubset(m: Mem, x: TaskID)
    requires Sound(m)
    ensures x in Trimmed(m).entries ==> x in m.entries && Trimmed(m).entries[x] == m.entries[x]
    ensures x in m.entries && x !in Trimmed(m).entries ==> m.entries[x].task.state.IsTerminal()
    ensures Trimmed(m).released == m.released && Trimmed(m).pid == m.pid && Trimmed(m).closed == m.closed
    ensures Trimmed(m).maxQueue == m.maxQueue && Trimmed(m).maxRet == m.maxRet && Trimmed(m).queued == m.queued
    decreases |m.heap|
  {
    if |m.heap| > m.maxRet {
      DropRootSound(m);
      TrimmedSubset(DropRoot(m), x);
    }
  }

  lemma IdOf(m: Mem, id: TaskID)
    requires MemValid(m) && id in m.entries
    ensures EntryValid(id, m.entries[id], m.released)
  {
  }

  /** Every path through Transition, seen from one record x: another record stays as it was unless
      it was terminal and was evicted; the record itself carries the stamped edit or was evicted as
      terminal; and a failed call changes nothing. */
  lemma TransitionEffect(m: Mem, id: TaskID, fn: TransitionFn, now: Time, x: TaskID)
    requires MemValid(m) && KeepsIdentity(fn)
    ensures var s := Transition(m, id, fn, now);
            && (s.out != Ok ==> s.mem == m)
            && (s.out == Ok ==> id in m.entries && m.entries[id].task.pid == m.pid && !m.closed)
            && (x in s.mem.entries ==> x in m.entries)
            && (x != id && x in s.mem.entries ==> s.mem.entries[x] == m.entries[x])
            && (x != id && x in m.entries && x !in s.mem.entries ==> m.entries[x].task.state.IsTerminal())
            && s.mem.pid == m.pid && s.mem.closed == m.closed
            && s.mem.maxQueue == m.maxQueue && s.mem.maxRet == m.maxRet
            && m.released <= s.mem.released
    ensures var s := Transition(m, id, fn, now);
            s.out == Ok && id in s.mem.entries ==>
              && fn(m.entries[id].task).Applied?
              && var t := fn(m.entries[id].task).task;
                 && s.mem.entries[id].task ==
                    (if t.state == m.entries[id].task.state then t else Stamped(t, now))
                 && (t.state == m.entries[id].task.state || CanTransition(m.entries[id].task.state, t.state))
                 && (s.mem.entries[id].cancel == m.entries[id].cancel || s.mem.entries[id].cancel == None)
    ensures var s := Transition(m, id, fn, now);
            s.out == Ok && id !in s.mem.entries ==>
              fn(m.entries[id].task).Applied? && fn(m.entries[id].task).task.state.IsTerminal()
  {
    hide MemValid, Sound, Trimmed, TrimmedIds, Push;
    var s := Transition(m, id, fn, now);
    if s.out == Ok {
      var t := fn(m.entries[id].task).task;
      if t.state != m.entries[id].task.state && t.state.IsTerminal() {
        var full := Entered(Left(m, m.entries[id].task.state), id, Stamped(t, now), m.entries[id].cancel);
        IdOf(m, id);
        EnteredSound(m, id, Stamped(t, now));
        TrimmedSubset(full, x);
        TrimmedSubset(full, id);
      }
    }
  }

  // ---------- operations and runs ----------

  datatype Op =
    | SubmitOp(id: TaskID, kind: Kind, request: string, now: Time)
    | TransitionOp(id: TaskID, fn: TransitionFn, now: Time)
    | RegisterOp(id: TaskID, cancel: Ctx)
    | RestoreOp(task: Task, now: Time)
    | CloseOp

  function Apply(m: Mem, op: Op): Step {
    match op
    case SubmitOp(id, kind, request, now) => Submit(m, id, kind, request, now)
    case TransitionOp(id, fn, now) => Transition(m, id, fn, now)
    case RegisterOp(id, cancel) => var (m', out) := RegisterCancel(m, id, cancel); Step(m', out, [], None)
    case RestoreOp(task, now) => var (m', out) := Restore(m, task, now); Step(m', out, [], None)
    case CloseOp => Step(m.(closed := true), Ok, [], None)
  }

  /** Fresh ids come from the generator, and a TransitionFn leaves the identity alone. */
  ghost predicate OpOk(m: Mem, op: Op) {
    match op
    case SubmitOp(id, _, _, _) => id !in m.entries && id !in m.released
    case TransitionOp(_, fn, _) => KeepsIdentity(fn)
    case _ => true
  }

  lemma StepKeepsValid(m: Mem, op: Op)
    requires MemValid(m) && OpOk(m, op)
    ensures MemValid(Apply(m, op).mem)
  {
    match op
    case SubmitOp(id, kind, request, now) => SubmitValid(m, id, kind, request, now);
    case TransitionOp(id, fn, now) => TransitionValid(m, id, fn, now);
    case RegisterOp(id, cancel) => RegisterCancelValid(m, id, cancel);
    case RestoreOp(task, now) => RestoreValid(m, task, now);
    case CloseOp =>
  }

  function Run(m: Mem, ops: seq<Op>): Mem
    decreases |ops|
  {
    if ops == [] then m else Run(Apply(m, ops[0]).mem, ops[1..])
  }

  ghost predicate RunOk(m: Mem, ops: seq<Op>)
    decreases |ops|
  {
    ops == [] || (OpOk(m, ops[0]) && RunOk(Apply(m, ops[0]).mem, ops[1..]))
  }

  /** The representation invariant over whole runs: counters equal the true counts, the heap holds
      each terminal record once, done is closed exactly on terminal records, which keep no cancel
      func, at most MaxRetained are kept, and the three populations add up to the map. */
  lemma {:induction false} RunKeepsValid(m: Mem, ops: seq<Op>)
    requires MemValid(m) && RunOk(m, ops)
    ensures MemValid(Run(m, ops))
    ensures var r := Run(m, ops); |r.entries| == r.queued + r.running + |r.heap| && |r.heap| <= r.maxRet
    decreases |ops|
  {
    if ops == [] {
      SizeIsSum(m);
    } else {
      StepKeepsValid(m, ops[0]);
      RunKeepsValid(Apply(m, ops[0]).mem, ops[1..]);
    }
  }

  ghost predicate NoRestore(ops: seq<Op>) {
    forall i :: 0 <= i < |ops| ==> !ops[i].RestoreOp?
  }

  /** One step seen from a record that is already terminal or belongs to another process. */
  lemma StepEffect(m: Mem, op: Op, x: TaskID)
    requires MemValid(m) && OpOk(m, op) && x in m.entries
    ensures var s := Apply(m, op);
            && s.mem.pid == m.pid
            && (x in s.mem.entries && m.entries[x].task.state.IsTerminal() ==>
                  s.mem.entries[x].task.state == m.entries[x].task.state
                  && s.mem.entries[x].task.pid == m.entries[x].task.pid)
            && (x in s.mem.entries && m.entries[x].task.pid != m.pid ==> s.mem.entries[x] == m.entries[x])
            && (x !in s.mem.entries && m.entries[x].task.pid != m.pid ==> m.entries[x].task.state.IsTerminal())
    ensures op.RestoreOp? || (m.released <= Apply(m, op).mem.released)
  {
    hide MemValid, Restore, Transition;
    match op
    case SubmitOp(_, _, _, _) =>
    case TransitionOp(id, fn, now) => TransitionEffect(m, id, fn, now, x);
    case RegisterOp(_, _) =>
    case RestoreOp(task, now) => RestoreEffect(m, task, now, x);
    case CloseOp =>
  }

  /** Loading a manifest leaves every other record alone, except that it may trim terminal ones. */
  lemma RestoreEffect(m: Mem, t: Task, now: Time, x: TaskID)
    requires MemValid(m)
    ensures var (r, out) := Restore(m, t, now);
            && r.pid == m.pid && r.closed == m.closed && r.maxRet == m.maxRet
            && (out != Ok ==> r == m)
            && (x in m.entries && x in r.entries ==> r.entries[x] == m.entries[x])
            && (x in m.entries && x !in r.entries ==> m.entries[x].task.state.IsTerminal())
            && (x !in m.entries && x in r.entries ==> x == t.id)
            && (out == Ok && t.id in r.entries ==>
                  r.entries[t.id].task == if t.state.IsTerminal() then Stamped(t, now) else t)
            && (out == Ok && t.id !in r.entries ==> t.state.IsTerminal())
            && (out == Ok ==> TaskIDs.IsValid(t.id))
  {
    hide MemValid, Sound, Trimmed, Push;
    if Restore(m, t, now).1 == Ok && t.state.IsTerminal() {
      var open := m.(released := m.released - {t.id});
      ReopenValid(m, t.id);
      EnteredNew(open, Stamped(t, now));
      TrimmedSubset(Entered(open, t.id, Stamped(t, now), None), x);
      TrimmedSubset(Entered(open, t.id, Stamped(t, now), None), t.id);
    }
  }

  lemma {:induction false} GoneStaysGone(m: Mem, ops: seq<Op>, x: TaskID)
    requires MemValid(m) && RunOk(m, ops) && NoRestore(ops) && x !in m.entries && x in m.released
    ensures x !in Run(m, ops).entries
    decreases |ops|
  {
    if ops != [] {
      var s := Apply(m, ops[0]);
      StepKeepsValid(m, ops[0]);
      if ops[0].TransitionOp? {
        TransitionEffect(m, ops[0].id, ops[0].fn, ops[0].now, x);
      }
      GoneStaysGone(s.mem, ops[1..], x);
    }
  }

  /** A recorded outcome never changes: a terminal record keeps its state for the rest of any run,
      or is evicted for good. */
  lemma {:induction false} OutcomeIsFinal(m: Mem, ops: seq<Op>, x: TaskID)
    requires MemValid(m) && RunOk(m, ops) && NoRestore(ops)
    requires x in m.entries && m.entries[x].task.state.IsTerminal()
    ensures x in Run(m, ops).entries ==> Run(m, ops).entries[x].task.state == m.entries[x].task.state
    decreases |ops|
  {
    if ops != [] {
      var s := Apply(m, ops[0]);
      StepKeepsValid(m, ops[0]);
      StepEffect(m, ops[0], x);
      if x in s.mem.entries {
        OutcomeIsFinal(s.mem, ops[1..], x);
      } else {
        assert EntryValid(x, m.entries[x], m.released);
        GoneStaysGone(s.mem, ops[1..], x);
      }
    }
  }

  /** No later Submit, Transition, Cancel or RegisterCancel changes a record of another process: it
      stays exactly as it was, or it was terminal and has been evicted. */
  lemma {:induction false} ForeignIsUntouched(m: Mem, ops: seq<Op>, x: TaskID)
    requires MemValid(m) && RunOk(m, ops) && NoRestore(ops)
    requires x in m.entries && m.entries[x].task.pid != m.pid
    ensures x in Run(m, ops).entries ==> Run(m, ops).entries[x] == m.entries[x]
    ensures x !in Run(m, ops).entries ==> m.entries[x].task.state.IsTerminal()
    decreases |ops|
  {
    if ops != [] {
      var s := Apply(m, ops[0]);
      StepKeepsValid(m, ops[0]);
      StepEffect(m, ops[0], x);
      if x in s.mem.entries {
        ForeignIsUntouched(s.mem, ops[1..], x);
      } else {
        assert EntryValid(x, m.entries[x], m.released);
        GoneStaysGone(s.mem, ops[1..], x);
      }
    }
  }
}
