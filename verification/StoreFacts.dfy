/** What each store operation records and when it refuses, in literal terms: no statement here is made
    through the functions that build the records (internal/taskstore/memory.go). */
module StoreFacts {
  import opened Tasks
  import opened TerminalHeap
  import opened StoreSpec
  import opened StoreLaws
  import TaskIDs

  /** Submit: an accepted task is recorded, and handed to the hook, exactly as it was asked for. Each
      refusal is given when its own test is the first to fail, and leaves no trace. */
  lemma SubmitRecords(m: Mem, id: TaskID, kind: Kind, request: string, now: Time)
    ensures var r, known := Submit(m, id, kind, request, now), kind == GenerateImage || kind == EditImage;
            && (r.out == StoreClosed <==> m.closed)
            && (r.out == InvalidKind <==> !m.closed && !known)
            && (r.out == QueueFull <==> !m.closed && known && m.maxQueue <= m.queued)
            && (r.out == Ok <==> !m.closed && known && m.queued < m.maxQueue)
            && (r.out != Ok ==> r.mem == m && r.written == None)
            && r.evicted == []
    ensures var r := Submit(m, id, kind, request, now);
            r.out == Ok ==>
              && r.mem.entries.Keys == m.entries.Keys + {id} && r.mem.queued == m.queued + 1
              && (forall x :: x in m.entries && x != id ==> r.mem.entries[x] == m.entries[x])
              && var t := r.mem.entries[id].task;
                 && r.written == Some(t) && r.mem.entries[id].cancel == None
                 && t.id == id && t.kind == kind && t.state == Queued && t.pid == m.pid
                 && t.submittedAt == now && t.startedAt == 0 && t.finishedAt == 0
                 && t.request == request && t.result == None && t.error == "" && t.cancelHint == ""
  {
  }

  /** Every field but the two stamps. */
  ghost predicate SameButStamps(t: Task, u: Task) {
    && t.id == u.id && t.kind == u.kind && t.state == u.state && t.pid == u.pid && t.submittedAt == u.submittedAt
    && t.request == u.request && t.result == u.result && t.error == u.error && t.cancelHint == u.cancelHint
  }

  /** Transition: what a successful call writes and, if the task is still held, records. A move to
      running stamps the start time and a move to a terminal state the finish time, each only if the edit
      left it zero; every other field is the edit's, and without a move so are the stamps. */
  lemma TransitionRecords(m: Mem, id: TaskID, fn: TransitionFn, now: Time)
    requires MemValid(m) && KeepsIdentity(fn)
    ensures var s := Transition(m, id, fn, now);
            s.out == Ok ==>
              && id in m.entries && fn(m.entries[id].task).Applied? && s.written.Some?
              && var was, edit, t := m.entries[id].task, fn(m.entries[id].task).task, s.written.value;
                 && SameButStamps(t, edit)
                 && (edit.state == was.state ==> t.startedAt == edit.startedAt && t.finishedAt == edit.finishedAt)
                 && (edit.state != was.state ==>
                       && (was.state == Queued || was.state == Running)
                       && (edit.state == Running || edit.state.IsTerminal()))
                 && (edit.state != was.state && edit.state == Running ==>
                       && t.startedAt == (if edit.startedAt == 0 then now else edit.startedAt)
                       && t.finishedAt == edit.finishedAt)
                 && (edit.state != was.state && edit.state != Running ==>
                       && t.finishedAt == (if edit.finishedAt == 0 then now else edit.finishedAt)
                       && t.startedAt == edit.startedAt)
                 && (id in s.mem.entries ==> s.mem.entries[id].task == t)
  {
    hide MemValid, Sound, Trimmed, TrimmedIds, Entered, Left;
    TransitionEffect(m, id, fn, now, id);
    if id in m.entries {
      IdOf(m, id);
    }
  }

  /** The states a task may move between. */
  predicate MayMove(from: State, to: State) {
    || (to == Running && from == Queued)
    || (to == Completed && from == Running)
    || ((to == Failed || to == Cancelled || to == Abandoned) && (from == Queued || from == Running))
  }

  /** Transition: which error, each if and only if its own test is the first to fail. */
  lemma TransitionRefuses(m: Mem, id: TaskID, fn: TransitionFn, now: Time)
    ensures var s := Transition(m, id, fn, now);
            && (s.out == EmptyID <==> id == "")
            && (s.out == StoreClosed <==> id != "" && m.closed)
            && (s.out == NotFound <==> id != "" && !m.closed && id !in m.entries)
            && (s.out != Ok ==> s.mem == m && s.evicted == [] && s.written == None)
    ensures var s := Transition(m, id, fn, now);
            id != "" && !m.closed && id in m.entries ==>
              var t := m.entries[id].task;
              && (s.out == CrossPID <==> t.pid != m.pid)
              && (s.out == FnRefused <==> t.pid == m.pid && fn(t).Refused?)
              && (s.out == Illegal <==>
                    && t.pid == m.pid && fn(t).Applied?
                    && fn(t).task.state != t.state && !MayMove(t.state, fn(t).task.state))
              && (s.out == Ok <==>
                    && t.pid == m.pid && fn(t).Applied?
                    && (fn(t).task.state == t.state || MayMove(t.state, fn(t).task.state)))
  {
    hide Trimmed, TrimmedIds, Entered, Left, Edited;
  }

  /** Cancel's two steps: the first finds the registered cancel func and whether the task is over already;
      the second records the cancellation, under its own finish time, or finds the race lost. */
  lemma CancelRecords(m: Mem, id: TaskID, hint: string, now: Time)
    requires MemValid(m)
    ensures var v := CancelRead(m, id);
            && (v == CancelFails(EmptyID) <==> id == "")
            && (v == CancelFails(NotFound) <==> id != "" && id !in m.entries)
            && (v == CancelFails(CrossPID) <==> id != "" && id in m.entries && m.entries[id].task.pid != m.pid)
            && (v.CancelSees? <==> id != "" && id in m.entries && m.entries[id].task.pid == m.pid)
            && (v.CancelSees? ==> v.fire == m.entries[id].cancel && v.alreadyTerminal == (id in m.released))
    ensures var s := CancelCommit(m, id, hint, now);
            && (s.out == StoreClosed <==> id != "" && m.closed)
            && (s.out == Ok <==> id != "" && !m.closed && (id in m.entries ==> m.entries[id].task.pid == m.pid))
            && (s.out == Ok && id in m.entries && m.entries[id].task.state in {Completed, Failed, Abandoned} ==>
                  s.mem == m)
            && (s.out == Ok && id in s.mem.entries && m.entries[id].task.state in {Queued, Running, Cancelled} ==>
                  s.mem.entries[id].task == m.entries[id].task.(state := Cancelled, finishedAt := now,
                                              cancelHint := if hint == "" then "client" else hint))
  {
    hide MemValid, Sound, Trimmed, TrimmedIds, Entered, Left, Edited;
    TransitionRecords(m, id, CancelEdit(hint, now), now);
    TransitionRefuses(m, id, CancelEdit(hint, now), now);
    TransitionEffect(m, id, CancelEdit(hint, now), now, id);
    if id in m.entries {
      IdOf(m, id);
    }
  }

  /** RegisterCancel: which error, and the one field it sets. */
  lemma RegisterRecords(m: Mem, id: TaskID, cancel: Ctx)
    requires MemValid(m)
    ensures var (n, out) := RegisterCancel(m, id, cancel);
            && (out == EmptyID <==> id == "")
            && (out == NotFound <==> id != "" && id !in m.entries)
            && (out == CrossPID <==> id != "" && id in m.entries && m.entries[id].task.pid != m.pid)
            && (out == Ok <==> id != "" && id in m.entries && m.entries[id].task.pid == m.pid)
            && n.entries.Keys == m.entries.Keys && n == m.(entries := n.entries)
            && (forall x :: x in m.entries && (x != id || out != Ok || id in m.released) ==>
                  n.entries[x] == m.entries[x])
            && (out == Ok && id !in m.released ==> n.entries[id] == m.entries[id].(cancel := Some(cancel)))
  {
    if id in m.entries {
      IdOf(m, id);
    }
  }

  /** Wait's first step: a terminal record is returned as it is, a live one blocks. */
  lemma WaitReads(m: Mem, id: TaskID)
    requires MemValid(m)
    ensures var v := WaitRead(m, id);
            && (v == WaitFails(EmptyID) <==> id == "")
            && (v == WaitFails(NotFound) <==> id != "" && id !in m.entries)
            && (v.WaitReturns? <==> id != "" && id in m.entries && id in m.released)
            && (v.WaitReturns? ==> v.task == m.entries[id].task)
            && (v.WaitBlocks? <==> id != "" && id in m.entries && id !in m.released)
  {
    if id in m.entries {
      IdOf(m, id);
    }
  }

  /** Restore: a manifest is taken if and only if its id, kind and state are valid and its id is new; it
      is then held as it was read, a terminal one without a finish time stamped, or trimmed at once. */
  lemma RestoreRecords(m: Mem, t: Task, now: Time)
    requires MemValid(m)
    ensures var (n, out) := Restore(m, t, now);
            && (out == Ok <==>
                  && TaskIDs.IsValid(t.id) && (t.kind == GenerateImage || t.kind == EditImage) && t.id !in m.entries
                  && t.state in {Queued, Running, Completed, Failed, Cancelled, Abandoned})
            && (out == Ok || out == BadManifest) && (out != Ok ==> n == m)
            && (out == Ok && t.id !in n.entries ==> t.state !in {Queued, Running})
            && (out == Ok && t.id in n.entries ==>
                  && n.entries[t.id].cancel == None && (t.id in n.released <==> t.state !in {Queued, Running})
                  && SameButStamps(n.entries[t.id].task, t) && n.entries[t.id].task.startedAt == t.startedAt
                  && n.entries[t.id].task.finishedAt ==
                     if t.state !in {Queued, Running} && t.finishedAt == 0 then now else t.finishedAt)
  {
    hide MemValid, Sound, Trimmed, TrimmedIds, Push, TaskIDs.IsValid;
    RestoreValid(m, t, now);
    var (n, out) := Restore(m, t, now);
    if out == Ok {
      RestoreEffect(m, t, now, t.id);
      if t.id in n.entries {
        IdOf(n, t.id);
      }
    }
  }

  /** The bounds of a new store are those configured, and the literal defaults and caps otherwise. */
  lemma NewMemBounds(pid: int, maxQueued: int, maxRetained: int)
    ensures var m := NewMem(pid, maxQueued, maxRetained);
            && m.pid == pid && m.entries == map[] && !m.closed
            && (1 <= maxQueued <= 10000 ==> m.maxQueue == maxQueued)
            && (maxQueued <= 0 ==> m.maxQueue == 256) && (maxQueued > 10000 ==> m.maxQueue == 10000)
            && (1 <= maxRetained <= 100000 ==> m.maxRet == maxRetained)
            && (maxRetained <= 0 ==> m.maxRet == 1024) && (maxRetained > 100000 ==> m.maxRet == 100000)
  {
  }
}
