/** What the dispatcher's store operations do to one record, as the protocol proofs use it. */
module DispatchStore {
  import opened Tasks
  import opened StoreSpec
  import opened TerminalHeap
  import opened StoreLaws
  import opened DispatchSteps

  /** The task is finished (its done channel is closed), or it is still in state `st`. */
  ghost predicate Live(m: Mem, id: TaskID, st: State) {
    id in m.released || (id in m.entries && m.entries[id].task.state == st)
  }

  /** A task of this process that was recorded once. */
  ghost predicate KnownId(m: Mem, id: TaskID) {
    && id != ""
    && (id in m.entries || id in m.released)
    && (id in m.entries ==> m.entries[id].task.pid == m.pid)
  }

  /** How a step that works on `id` may change the store, seen from record `x`. */
  ghost predicate Evolves(m: Mem, n: Mem, id: TaskID, x: TaskID) {
    && m.released <= n.released && (m.closed ==> n.closed)
    && n.pid == m.pid && n.maxQueue == m.maxQueue && n.maxRet == m.maxRet && n.queued <= m.queued
    && (x in m.entries && x !in n.released ==> x in n.entries)
    && (x in n.entries ==> x in m.entries && n.entries[x].task.pid == m.entries[x].task.pid)
    && (x != id && x in n.entries ==> n.entries[x] == m.entries[x])
    && (x != id && x in m.entries && x !in n.entries ==> x in m.released)
    && (x in n.entries && x in m.released ==> n.entries[x].task.state == m.entries[x].task.state)
    && (x in n.entries && n.entries[x].task.state == Queued ==> m.entries[x].task.state == Queued)
  }

  /** The edit always sets this state and leaves the identity alone. */
  ghost predicate Sets(fn: TransitionFn, target: State) {
    forall t :: fn(t).Applied? && fn(t).task.state == target && fn(t).task.id == t.id && fn(t).task.pid == t.pid
  }

  lemma EditsSet(message: string, result: Option<string>, reason: string, hint: string, now: Time)
    ensures Sets(RunEdit(), Running) && Sets(FailEdit(message), Failed) && Sets(CompleteEdit(result), Completed)
    ensures Sets(AbandonEdit(reason), Abandoned) && Sets(CancelEdit(hint, now), Cancelled)
    ensures Sets(RollBackEdit(Failed), Failed) && Sets(RollBackEdit(Abandoned), Abandoned)
  {
  }

  lemma FinishSets(result: Result)
    ensures Sets(FinishEdit(result), if result.Success? then Completed else Failed)
  {
  }

  lemma QueuedFalls(m: Mem, id: TaskID, fn: TransitionFn, now: Time)
    requires MemValid(m) && KeepsIdentity(fn)
    ensures Transition(m, id, fn, now).mem.queued <= m.queued
  {
    hide MemValid, Sound, Trimmed, TrimmedIds, Push;
    if Transition(m, id, fn, now).out == Ok {
      var t := fn(m.entries[id].task).task;
      if t.state != m.entries[id].task.state && t.state.IsTerminal() {
        IdOf(m, id);
        EnteredSound(m, id, Stamped(t, now));
        TrimmedSubset(Entered(Left(m, m.entries[id].task.state), id, Stamped(t, now), m.entries[id].cancel), id);
      }
    }
  }

  /** A finished record is not revived, a live one is not dropped, and nobody re-enters queued. */
  lemma TransitionEvolves(m: Mem, id: TaskID, fn: TransitionFn, target: State, now: Time, x: TaskID)
    requires MemValid(m) && Sets(fn, target) && target != Queued
    ensures MemValid(Transition(m, id, fn, now).mem)
    ensures Evolves(m, Transition(m, id, fn, now).mem, id, x)
    ensures var n := Transition(m, id, fn, now).mem;
            && n.closed == m.closed
            && (x in n.entries ==> n.entries[x].cancel == None || n.entries[x].cancel == m.entries[x].cancel)
  {
    hide MemValid, Transition;
    TransitionValid(m, id, fn, now);
    QueuedFalls(m, id, fn, now);
    TransitionEffect(m, id, fn, now, x);
    var n := Transition(m, id, fn, now).mem;
    if x in m.entries {
      IdOf(m, x);
    }
    if x in n.entries {
      IdOf(n, x);
    }
    if id in m.entries {
      IdOf(m, id);
    }
    if x == id && x in m.entries && x !in n.entries {
      EvictedIsReleased(m, id, fn, now);
    }
  }

  lemma EvictedIsReleased(m: Mem, id: TaskID, fn: TransitionFn, now: Time)
    requires MemValid(m) && KeepsIdentity(fn)
    ensures var n := Transition(m, id, fn, now).mem;
            id in m.entries && id !in n.entries ==> id in n.released
  {
    hide MemValid, Sound, Trimmed, TrimmedIds, Push;
    if Transition(m, id, fn, now).out == Ok {
      var t := fn(m.entries[id].task).task;
      if t.state != m.entries[id].task.state && t.state.IsTerminal() {
        IdOf(m, id);
        EnteredSound(m, id, Stamped(t, now));
        TrimmedSubset(Entered(Left(m, m.entries[id].task.state), id, Stamped(t, now), m.entries[id].cancel), id);
      }
    }
  }

  /** Moving a task to failed, cancelled or abandoned always leaves it finished, unless the store is
      closed; so does completing one that is running. */
  lemma Settles(m: Mem, id: TaskID, fn: TransitionFn, target: State, now: Time)
    requires MemValid(m) && KnownId(m, id) && Sets(fn, target) && target.IsTerminal()
    requires target == Completed ==> Live(m, id, Running)
    ensures var n := Transition(m, id, fn, now).mem;
            (m.closed && n == m) || id in n.released
    ensures Transition(m, id, fn, now).out in {StoreClosed, NotFound, Illegal, Ok}
  {
    hide MemValid, Committed;
    TransitionEvolves(m, id, fn, target, now, id);
    if id in m.entries && !m.closed {
      IdOf(m, id);
      SettlesLive(m, id, fn, target, now);
    }
  }

  lemma SettlesLive(m: Mem, id: TaskID, fn: TransitionFn, target: State, now: Time)
    requires MemValid(m) && id != "" && id in m.entries && m.entries[id].task.pid == m.pid && !m.closed
    requires Sets(fn, target) && target.IsTerminal() && (target == Completed ==> Live(m, id, Running))
    ensures id in Transition(m, id, fn, now).mem.released
    ensures Transition(m, id, fn, now).out in {Illegal, Ok}
  {
    hide MemValid, Sound, Trimmed, TrimmedIds, Push;
    IdOf(m, id);
    var t := fn(m.entries[id].task).task;
    if CanTransition(m.entries[id].task.state, target) {
      EnteredSound(m, id, Stamped(t, now));
      TrimmedSubset(Entered(Left(m, m.entries[id].task.state), id, Stamped(t, now), m.entries[id].cancel), id);
    }
  }

  /** The queued-to-running step: it succeeds exactly when the task is still queued and the store open,
      provided the task is not already running. */
  lemma Starts(m: Mem, id: TaskID, now: Time)
    requires MemValid(m) && KnownId(m, id) && Live(m, id, Queued)
    ensures var t := Transition(m, id, RunEdit(), now);
            && (t.out == Ok <==> !m.closed && id in m.entries && m.entries[id].task.state == Queued)
            && (t.out == Ok ==> id in t.mem.entries && t.mem.entries[id].task.state == Running)
            && (t.out != Ok ==> t.mem == m && (m.closed || id in m.released))
  {
    hide MemValid;
    if id in m.entries {
      IdOf(m, id);
    }
  }

  /** RegisterCancel changes one cancel field at most, and refuses a known id only if it is gone. */
  lemma RegisterEvolves(m: Mem, id: TaskID, ctx: Ctx, x: TaskID)
    requires MemValid(m)
    ensures var (n, out) := RegisterCancel(m, id, ctx);
            && MemValid(n) && Evolves(m, n, id, x) && n.released == m.released && n.closed == m.closed
            && (x in n.entries ==> n.entries[x].task == m.entries[x].task)
            && (x in n.entries ==>
                  n.entries[x].cancel == m.entries[x].cancel || (x == id && n.entries[x].cancel == Some(ctx)))
            && (out != Ok && KnownId(m, id) ==> id in m.released)
  {
    hide MemValid;
    RegisterCancelValid(m, id, ctx);
  }

  /** Submit adds one queued record under the cap and touches no other. */
  lemma SubmitAdds(m: Mem, id: TaskID, kind: Kind, request: string, now: Time)
    requires MemValid(m) && id !in m.entries && id !in m.released
    ensures var r := Submit(m, id, kind, request, now);
            && MemValid(r.mem)
            && (r.out != Ok ==> r.mem == m)
            && (r.out == Ok ==>
                  && !m.closed && m.queued < m.maxQueue && r.mem.queued == m.queued + 1
                  && id in r.mem.entries && r.mem.entries == m.entries[id := r.mem.entries[id]]
                  && r.mem.entries[id].task.state == Queued && r.mem.entries[id].task.pid == m.pid
                  && r.mem.entries[id].cancel == None
                  && r.mem == m.(entries := r.mem.entries, queued := r.mem.queued))
  {
    hide MemValid;
    SubmitValid(m, id, kind, request, now);
  }
}
