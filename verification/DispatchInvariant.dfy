/** The invariant that ties the holder of every task to its state in the store, and its proof for
    every step of every run. */
module DispatchInvariant {
  import opened Tasks
  import opened StoreSpec
  import opened DispatchSteps
  import opened DispatchTokens
  import opened DispatchStore

  /** A Cancel call has passed its first step for this task and has not yet made its transition. */
  ghost predicate Owing(calls: seq<Call>, id: TaskID) {
    exists c :: 0 <= c < |calls| && calls[c] == CancelOwing(id)
  }

  ghost predicate Resolved(m: Mem, calls: seq<Call>, id: TaskID) {
    m.closed || id in m.released || Owing(calls, id)
  }

  ghost predicate StateOk(m: Mem, calls: seq<Call>, workers: seq<Worker>, id: TaskID, p: Place) {
    match p
    case InCall(_) => Live(m, id, Queued)
    case InQueue => Live(m, id, Queued)
    case InWorker(w) =>
      w < |workers| &&
      (if workers[w].IsEarly() then Live(m, id, Queued)
       else if workers[w].IsLate() then Live(m, id, Running)
       else Resolved(m, calls, id))
    case Gone => Resolved(m, calls, id)
  }

  ghost predicate StatesOk(s: Sys) {
    forall id :: id in s.at ==> StateOk(s.mem, s.calls, s.workers, id, s.at[id])
  }

  /** The unfinished tasks of this process are exactly tasks submitted here. */
  ghost predicate Known(s: Sys) {
    && (forall id :: id in s.at ==> KnownId(s.mem, id))
    && (forall id :: id in s.mem.entries && s.mem.entries[id].task.pid == s.mem.pid && id !in s.mem.released ==>
          id in s.at)
  }

  ghost predicate CtxFor(ctxs: seq<TaskID>, x: Ctx, id: TaskID) {
    x < |ctxs| && ctxs[x] == id
  }

  ghost predicate CancelsOk(m: Mem, ctxs: seq<TaskID>) {
    forall id :: id in m.entries && m.entries[id].task.pid == m.pid && m.entries[id].cancel.Some? ==>
      CtxFor(ctxs, m.entries[id].cancel.value, id)
  }

  /** A task's context is cancelled only when its outcome is settled or owed. */
  ghost predicate CancelledOk(s: Sys) {
    forall x :: x in s.cancelled ==> x < |s.ctxs| && Resolved(s.mem, s.calls, s.ctxs[x])
  }

  ghost predicate ItemOk(s: Sys, i: Item, settled: bool, fired: bool) {
    && CtxFor(s.ctxs, i.ctx, i.id)
    && (settled ==> s.mem.closed || i.id in s.mem.released)
    && (fired ==> i.ctx in s.cancelled)
  }

  ghost predicate CallOk(s: Sys, k: Call) {
    match k
    case RollingBack(_, target) => target == Failed || target == Abandoned
    case CancelFiring(id, fire, alreadyTerminal) =>
      && (id in s.at || id in s.mem.released)
      && (fire.Some? ==> CtxFor(s.ctxs, fire.value, id))
      && (alreadyTerminal ==> fire == None && id in s.mem.released)
    case CancelOwing(id) => id in s.at || id in s.mem.released
    case CancelReturned(id, out) => out == Ok ==> id in s.mem.released
    case Waiting(id) => id in s.mem.entries || id in s.mem.released
    case WaitReturned(id, answer) => answer.Finished? ==> answer.task.state.IsTerminal() && id in s.mem.released
    case Abandoning(items, next, settled) =>
      && next <= |items| && (settled ==> next < |items|)
      && forall j :: 0 <= j < |items| ==> ItemOk(s, items[j], j < next || (j == next && settled), j < next)
    case AbandonReturned(items) =>
      forall j :: 0 <= j < |items| ==> ItemOk(s, items[j], true, true)
    case _ => true
  }

  ghost predicate CallsOk(s: Sys) {
    forall c :: 0 <= c < |s.calls| ==> CallOk(s, s.calls[c])
  }

  /** Own queued tasks are within the admission bound, whatever replay loaded. */
  ghost predicate QueueBound(s: Sys) {
    forall id :: id in s.at && id in s.mem.entries && s.mem.entries[id].task.state == Queued ==>
      s.mem.queued <= s.mem.maxQueue
  }

  ghost predicate Inv(s: Sys) {
    && MemValid(s.mem)
    && Tokens(s)
    && Known(s)
    && CancelsOk(s.mem, s.ctxs)
    && StatesOk(s)
    && CancelledOk(s)
    && CallsOk(s)
    && QueueBound(s)
  }

  // ---------- what a step does to the store ----------

  /** The task whose record a step works on. */
  function Subject(s: Sys, e: Event): TaskID {
    match e
    case SubmitTask(id, _, _, _) => id
    case RollBack(c, _) => if c < |s.calls| && s.calls[c].RollingBack? then s.calls[c].id else ""
    case Register(w) => if w < |s.workers| && s.workers[w].Taken? then s.workers[w].id else ""
    case Start(w, _) => if w < |s.workers| && s.workers[w].Published? then s.workers[w].id else ""
    case Finish(w, _) => if w < |s.workers| && s.workers[w].Finishing? then s.workers[w].id else ""
    case CommitCancel(c, _, _) => if c < |s.calls| && s.calls[c].CancelOwing? then s.calls[c].id else ""
    case AbandonOne(c, _, _) =>
      if c < |s.calls| && s.calls[c].Abandoning? && s.calls[c].next < |s.calls[c].items|
      then s.calls[c].items[s.calls[c].next].id else ""
    case _ => ""
  }

  ghost predicate StoreMoves(s: Sys, t: Sys, e: Event, x: TaskID) {
    && MemValid(t.mem)
    && Evolves(s.mem, t.mem, Subject(s, e), x)
    && (!e.CloseStore? ==> t.mem.closed == s.mem.closed)
    && (!e.Register? && x in t.mem.entries ==>
          t.mem.entries[x].cancel == None || t.mem.entries[x].cancel == s.mem.entries[x].cancel)
  }

  lemma StoreUnmoved(s: Sys, t: Sys, e: Event, x: TaskID)
    requires MemValid(s.mem) && t.mem == s.mem
    ensures StoreMoves(s, t, e, x)
  {
    hide MemValid;
  }

  lemma StoreCommit(s: Sys, e: Event, x: TaskID)
    requires Enabled(s, e) && MemValid(s.mem) && e.CommitCancel?
    ensures StoreMoves(s, Next(s, e), e, x)
  {
    hide MemValid, Transition;
    EditsSet("", None, "", e.hint, e.now);
    TransitionEvolves(s.mem, s.calls[e.c].id, CancelEdit(e.hint, e.now), Cancelled, e.now, x);
  }

  lemma StoreAbandon(s: Sys, e: Event, x: TaskID)
    requires Enabled(s, e) && MemValid(s.mem) && e.AbandonOne?
    ensures StoreMoves(s, Next(s, e), e, x)
  {
    hide MemValid, Transition;
    EditsSet("", None, e.reason, "", e.now);
    TransitionEvolves(s.mem, Subject(s, e), AbandonEdit(e.reason), Abandoned, e.now, x);
  }

  lemma StoreRollBack(s: Sys, e: Event, x: TaskID)
    requires Enabled(s, e) && MemValid(s.mem) && e.RollBack? && CallOk(s, s.calls[e.c])
    ensures StoreMoves(s, Next(s, e), e, x)
  {
    hide MemValid, Transition;
    EditsSet("", None, "", "", 0);
    TransitionEvolves(s.mem, s.calls[e.c].id, RollBackEdit(s.calls[e.c].target), s.calls[e.c].target, e.now, x);
  }

  lemma StoreRegister(s: Sys, e: Event, x: TaskID)
    requires Enabled(s, e) && MemValid(s.mem) && e.Register?
    ensures StoreMoves(s, Next(s, e), e, x)
  {
    hide MemValid, RegisterCancel;
    RegisterEvolves(s.mem, s.workers[e.w].id, s.workers[e.w].ctx, x);
  }

  lemma StoreStart(s: Sys, e: Event, x: TaskID)
    requires Enabled(s, e) && MemValid(s.mem) && e.Start?
    ensures StoreMoves(s, Next(s, e), e, x)
  {
    hide MemValid, Transition;
    EditsSet("", None, "", "", 0);
    TransitionEvolves(s.mem, s.workers[e.w].id, RunEdit(), Running, e.now, x);
  }

  lemma StoreFinish(s: Sys, e: Event, x: TaskID)
    requires Enabled(s, e) && MemValid(s.mem) && e.Finish?
    ensures StoreMoves(s, Next(s, e), e, x)
  {
    hide MemValid, Transition;
    var r := s.workers[e.w].result;
    FinishSets(r);
    TransitionEvolves(s.mem, s.workers[e.w].id, FinishEdit(r), if r.Success? then Completed else Failed, e.now, x);
  }

  lemma StoreClosed(s: Sys, e: Event, x: TaskID)
    requires Enabled(s, e) && MemValid(s.mem) && e.CloseStore?
    ensures StoreMoves(s, Next(s, e), e, x)
  {
    hide MemValid;
    ClosedValid(s.mem);
  }

  lemma ClosedValid(m: Mem)
    requires MemValid(m)
    ensures MemValid(m.(closed := true))
  {
  }

  /** Every step but a new submission. */
  lemma StoreKept(s: Sys, e: Event, x: TaskID)
    requires Enabled(s, e) && MemValid(s.mem) && CallsOk(s) && !e.SubmitTask?
    ensures StoreMoves(s, Next(s, e), e, x)
  {
    hide MemValid, StoreMoves, CallOk, Next;
    if !e.WritesStore() {
      StoreUntouched(s, e);
      StoreUnmoved(s, Next(s, e), e, x);
    } else if e.CommitCancel? {
      StoreCommit(s, e, x);
    } else if e.AbandonOne? {
      StoreAbandon(s, e, x);
    } else if e.RollBack? {
      StoreRollBack(s, e, x);
    } else if e.Register? {
      StoreRegister(s, e, x);
    } else if e.Start? {
      StoreStart(s, e, x);
    } else if e.Finish? {
      StoreFinish(s, e, x);
    } else {
      StoreClosed(s, e, x);
    }
  }

  // ---------- what only grows ----------

  ghost predicate Grows(s: Sys, t: Sys) {
    && s.mem.released <= t.mem.released && (s.mem.closed ==> t.mem.closed)
    && t.mem.pid == s.mem.pid && t.mem.maxQueue == s.mem.maxQueue && t.mem.maxRet == s.mem.maxRet
    && (forall x :: x in s.mem.entries ==> x in t.mem.entries || x in t.mem.released)
    && s.at.Keys <= t.at.Keys && s.cancelled <= t.cancelled && s.ctxs <= t.ctxs
  }

  lemma BooksGrow(s: Sys, e: Event)
    requires Enabled(s, e)
    ensures var t := Next(s, e); s.at.Keys <= t.at.Keys && s.cancelled <= t.cancelled && s.ctxs <= t.ctxs
  {
    if e.IsClientStep() {
      hide Next, Enabled;
      BooksGrowClient(s, e);
    } else if KeepsTaskStep(e) {
      hide Next, Enabled;
      WorkerFrame(s, e);
    } else if e.IsSubmitStep() {
      hide Next, Enabled;
      BooksGrowSubmit(s, e);
    } else {
      BooksGrowOther(s, e);
    }
  }

  lemma BooksGrowOther(s: Sys, e: Event)
    requires Enabled(s, e) && (e.Take? || e.Release? || e.Exit? || e.IsCloseStep())
    ensures var t := Next(s, e); s.at.Keys <= t.at.Keys && s.cancelled <= t.cancelled && s.ctxs <= t.ctxs
  {
    hide Transition;
  }

  lemma BooksGrowSubmit(s: Sys, e: Event)
    requires Enabled(s, e) && e.IsSubmitStep()
    ensures var t := Next(s, e); s.at.Keys <= t.at.Keys && s.cancelled == t.cancelled && s.ctxs == t.ctxs
  {
    hide Transition, Submit;
  }

  lemma BooksGrowClient(s: Sys, e: Event)
    requires Enabled(s, e) && e.IsClientStep()
    ensures var t := Next(s, e); s.at == t.at && s.cancelled <= t.cancelled && s.ctxs == t.ctxs
  {
    hide Transition, CancelCommit, CancelRead, WaitRead;
  }

  lemma StepGrows(s: Sys, e: Event)
    requires Enabled(s, e) && MemValid(s.mem) && CallsOk(s)
    ensures Grows(s, Next(s, e))
  {
    hide MemValid, Enabled, Next, CallOk;
    BooksGrow(s, e);
    if e.SubmitTask? {
      SubmitGrows(s, e);
    } else {
      StoreKept(s, e, "");
      forall x | x in s.mem.entries
        ensures x in Next(s, e).mem.entries || x in Next(s, e).mem.released
      {
        StoreKept(s, e, x);
      }
    }
  }

  lemma SubmitGrows(s: Sys, e: Event)
    requires Enabled(s, e) && MemValid(s.mem) && e.SubmitTask?
    ensures var t := Next(s, e);
            && MemValid(t.mem) && t.mem.released == s.mem.released && t.mem.closed == s.mem.closed
            && t.mem.pid == s.mem.pid && t.mem.maxQueue == s.mem.maxQueue && t.mem.maxRet == s.mem.maxRet
            && (forall x :: x in s.mem.entries ==> x in t.mem.entries && t.mem.entries[x] == s.mem.entries[x])
            && (forall x :: x in t.mem.entries ==>
                  x in s.mem.entries || (x == e.id && x in t.at && t.mem.entries[x].cancel == None))
            && (e.id in t.at ==>
                  && t.mem.queued <= t.mem.maxQueue && t.at == s.at[e.id := InCall(|s.calls|)]
                  && e.id in t.mem.entries && t.mem.entries[e.id].task.pid == t.mem.pid
                  && t.mem.entries[e.id].task.state == Queued)
            && (e.id !in t.at ==> t == s)
  {
    hide MemValid, Submit;
    SubmitAdds(s.mem, e.id, e.kind, e.request, e.now);
  }

  lemma ItemGrows(s: Sys, t: Sys, i: Item, settled: bool, fired: bool)
    requires Grows(s, t) && ItemOk(s, i, settled, fired)
    ensures ItemOk(t, i, settled, fired)
  {
  }

  lemma CallGrows(s: Sys, t: Sys, k: Call)
    requires Grows(s, t) && CallOk(s, k)
    ensures CallOk(t, k)
  {
    hide ItemOk, Grows;
    if k.Abandoning? || k.AbandonReturned? {
      forall i, settled, fired | ItemOk(s, i, settled, fired)
        ensures ItemOk(t, i, settled, fired)
      {
        ItemGrows(s, t, i, settled, fired);
      }
    } else {
      OtherCallGrows(s, t, k);
    }
  }

  lemma OtherCallGrows(s: Sys, t: Sys, k: Call)
    requires Grows(s, t) && CallOk(s, k) && !k.Abandoning? && !k.AbandonReturned?
    ensures CallOk(t, k)
  {
  }

  // ---------- known ids, cancel funcs and the admission bound ----------

  lemma KnownStep(s: Sys, e: Event)
    requires Enabled(s, e) && Inv(s)
    ensures Known(Next(s, e))
  {
    hide MemValid, Tokens, CallOk, CancelsOk, StatesOk, CancelledOk, QueueBound, Next, Enabled;
    var t := Next(s, e);
    StepGrows(s, e);
    if e.SubmitTask? {
      SubmitKnown(s, e);
    } else {
      AtKept(s, e);
      forall x | x in t.at
        ensures KnownId(t.mem, x)
      {
        StoreKept(s, e, x);
      }
      forall x | x in t.mem.entries && t.mem.entries[x].task.pid == t.mem.pid && x !in t.mem.released
        ensures x in t.at
      {
        StoreKept(s, e, x);
      }
    }
  }

  lemma AtKept(s: Sys, e: Event)
    requires Enabled(s, e) && Inv(s) && !e.SubmitTask?
    ensures Next(s, e).at.Keys == s.at.Keys
  {
    hide Inv, Tokens, StateOk, KnownId, MemValid, CancelledOk, CallOk;
    InvParts(s);
    if e.IsClientStep() {
      hide Next, Enabled;
      ClientFrame(s, e);
    } else if KeepsTaskStep(e) {
      hide Next, Enabled;
      WorkerFrame(s, e);
    } else if e.IsSubmitStep() {
      HolderOfCall(s, e.c);
      AtKeptSubmit(s, e);
    } else if e.IsWorkerStep() {
      HolderOfWorker(s, e.w);
    }
  }

  lemma AtKeptSubmit(s: Sys, e: Event)
    requires Enabled(s, e) && e.IsSubmitStep() && !e.SubmitTask?
    requires s.calls[e.c].HasToken() ==> s.calls[e.c].id in s.at
    ensures Next(s, e).at.Keys == s.at.Keys
  {
    hide Transition;
  }

  lemma SubmitKnown(s: Sys, e: Event)
    requires Enabled(s, e) && MemValid(s.mem) && e.SubmitTask? && Known(s)
    ensures Known(Next(s, e))
  {
    hide MemValid, Next;
    SubmitGrows(s, e);
  }

  lemma CancelsStep(s: Sys, e: Event)
    requires Enabled(s, e) && Inv(s)
    ensures CancelsOk(Next(s, e).mem, Next(s, e).ctxs)
  {
    hide MemValid, Tokens, CallOk, Known, StatesOk, CancelledOk, QueueBound, Next, Enabled;
    var t := Next(s, e);
    StepGrows(s, e);
    forall x | x in t.mem.entries && t.mem.entries[x].task.pid == t.mem.pid && t.mem.entries[x].cancel.Some?
      ensures CtxFor(t.ctxs, t.mem.entries[x].cancel.value, x)
    {
      if e.SubmitTask? {
        SubmitGrows(s, e);
      } else if e.Register? {
        CancelRegistered(s, e, x);
      } else {
        StoreKept(s, e, x);
      }
    }
  }

  lemma CancelRegistered(s: Sys, e: Event, x: TaskID)
    requires Enabled(s, e) && Inv(s) && e.Register?
    ensures var t := Next(s, e);
            x in t.mem.entries && t.mem.entries[x].task.pid == t.mem.pid && t.mem.entries[x].cancel.Some? ==>
              CtxFor(t.ctxs, t.mem.entries[x].cancel.value, x)
  {
    hide MemValid, RegisterCancel, TokensOk, CallOk, Known, StatesOk, CancelledOk, QueueBound;
    RegisterEvolves(s.mem, s.workers[e.w].id, s.workers[e.w].ctx, x);
  }

  lemma QueueBoundStep(s: Sys, e: Event)
    requires Enabled(s, e) && Inv(s)
    ensures QueueBound(Next(s, e))
  {
    hide MemValid, Tokens, CallOk, Known, StatesOk, CancelledOk, CancelsOk, Next, Enabled;
    var t := Next(s, e);
    if e.SubmitTask? {
      SubmitGrows(s, e);
    } else {
      AtKept(s, e);
      forall x | x in t.at && x in t.mem.entries && t.mem.entries[x].task.state == Queued
        ensures t.mem.queued <= t.mem.maxQueue
      {
        StoreKept(s, e, x);
      }
    }
  }

  // ---------- outcomes owed and settled ----------

  lemma OwingPut(calls: seq<Call>, c: nat, k: Call, id: TaskID)
    requires c <= |calls| && Owing(calls, id) && (c < |calls| ==> calls[c] != CancelOwing(id))
    ensures Owing(Put(calls, c, k), id)
  {
    var i :| 0 <= i < |calls| && calls[i] == CancelOwing(id);
    assert Put(calls, c, k)[i] == CancelOwing(id);
  }

  /** A transition to a terminal state was attempted on this task. */
  ghost predicate Settled(s: Sys, t: Sys, id: TaskID) {
    (s.mem.closed && t.mem == s.mem) || id in t.mem.released
  }

  lemma AbandonSettles(s: Sys, e: Event)
    requires Enabled(s, e) && Inv(s) && e.AbandonOne?
    ensures Settled(s, Next(s, e), s.calls[e.c].items[s.calls[e.c].next].id)
  {
    hide MemValid, TokensOk, CancelsOk, StatesOk, CancelledOk, QueueBound, Transition, RunningOk, RunsOk;
    var k := s.calls[e.c];
    assert CallOk(s, k) && ItemOk(s, k.items[k.next], false, false);
    EditsSet("", None, e.reason, "", e.now);
    Settles(s.mem, k.items[k.next].id, AbandonEdit(e.reason), Abandoned, e.now);
  }

  lemma RollBackSettles(s: Sys, e: Event)
    requires Enabled(s, e) && Inv(s) && e.RollBack?
    ensures Settled(s, Next(s, e), s.calls[e.c].id)
  {
    hide MemValid, WorkersOk, PlacesOk, CancelsOk, StatesOk, CancelledOk, QueueBound, Transition;
    var k := s.calls[e.c];
    assert CallOk(s, k);
    EditsSet("", None, "", "", 0);
    Settles(s.mem, k.id, RollBackEdit(k.target), k.target, e.now);
  }

  lemma FinishSettles(s: Sys, e: Event)
    requires Enabled(s, e) && Inv(s) && e.Finish?
    ensures Settled(s, Next(s, e), s.workers[e.w].id)
  {
    hide MemValid, WorkersOk, PlacesOk, CancelsOk, CallOk, CancelledOk, QueueBound, Transition;
    var k := s.workers[e.w];
    FinishSets(k.result);
    assert StateOk(s.mem, s.calls, s.workers, k.id, s.at[k.id]);
    Settles(s.mem, k.id, FinishEdit(k.result), if k.result.Success? then Completed else Failed, e.now);
  }

  /** The transition a Cancel call owes settles the task. */
  lemma CommitSettles(s: Sys, e: Event)
    requires Enabled(s, e) && Inv(s) && e.CommitCancel?
    ensures Settled(s, Next(s, e), s.calls[e.c].id)
  {
    hide MemValid, Tokens, CancelsOk, StatesOk, CancelledOk, QueueBound, Transition;
    var id := s.calls[e.c].id;
    assert CallOk(s, s.calls[e.c]);
    StepGrows(s, e);
    if id in s.at {
      EditsSet("", None, "", e.hint, e.now);
      Settles(s.mem, id, CancelEdit(e.hint, e.now), Cancelled, e.now);
    }
  }

  lemma ResolvedKept(s: Sys, e: Event, x: TaskID)
    requires Enabled(s, e) && Inv(s) && Resolved(s.mem, s.calls, x)
    ensures Resolved(Next(s, e).mem, Next(s, e).calls, x)
  {
    hide MemValid, Tokens, CallOk, Known, CancelsOk, StatesOk, CancelledOk, QueueBound, Owing, Next;
    StepGrows(s, e);
    if Owing(s.calls, x) {
      if e.CommitCancel? && s.calls[e.c] == CancelOwing(x) {
        CommitSettles(s, e);
      } else {
        OwingKept(s, e, x);
      }
    }
  }

  lemma OwingKept(s: Sys, e: Event, x: TaskID)
    requires Enabled(s, e) && Owing(s.calls, x) && !(e.CommitCancel? && s.calls[e.c] == CancelOwing(x))
    ensures Owing(Next(s, e).calls, x)
  {
    hide Owing, Transition, Submit, RegisterCancel;
    var t := Next(s, e);
    if e.IsClientStep() {
      ClientFrame(s, e);
      OwingPut(s.calls, CallOf(s, e), t.calls[CallOf(s, e)], x);
    } else if e.IsSubmitStep() {
      if e.SubmitTask? {
        OwingPut(s.calls, |s.calls|, Submitted(e.id), x);
      } else {
        OwingPut(s.calls, e.c, t.calls[e.c], x);
      }
    }
  }

  // ---------- the state of every held task ----------

  lemma LiveUnmoved(m: Mem, n: Mem, id: TaskID, x: TaskID, st: State)
    requires Evolves(m, n, id, x) && x != id && Live(m, x, st)
    ensures Live(n, x, st)
  {
  }

  lemma LiveElsewhere(s: Sys, e: Event, x: TaskID, st: State)
    requires Enabled(s, e) && Inv(s) && !e.SubmitTask? && x != Subject(s, e) && Live(s.mem, x, st)
    ensures Live(Next(s, e).mem, x, st)
  {
    hide Inv, Enabled, Next, Subject, Live, Evolves;
    InvParts(s);
    StoreKept(s, e, x);
    LiveUnmoved(s.mem, Next(s, e).mem, Subject(s, e), x, st);
  }

  lemma InvParts(s: Sys)
    requires Inv(s)
    ensures MemValid(s.mem) && CallsOk(s) && Tokens(s) && CancelledOk(s)
    ensures forall x :: x in s.at ==> KnownId(s.mem, x) && StateOk(s.mem, s.calls, s.workers, x, s.at[x])
  {
    hide MemValid, Tokens, CallOk, KnownId, StateOk, CancelsOk, QueueBound;
  }

  lemma SubjectKnown(s: Sys, e: Event)
    requires Enabled(s, e) && (e.IsClientStep() || e.IsCloseStep()) && Subject(s, e) != ""
    ensures e.CommitCancel? || e.AbandonOne?
  {
  }

  /** A canceller or the abandoner leaves a task alone or finishes it. */
  lemma LiveClient(s: Sys, e: Event, x: TaskID, st: State)
    requires Enabled(s, e) && Inv(s) && (e.IsClientStep() || e.IsCloseStep()) && x != "" && Live(s.mem, x, st)
    ensures Live(Next(s, e).mem, x, st)
  {
    hide Inv, Enabled, Next;
    if x != Subject(s, e) {
      LiveElsewhere(s, e, x, st);
    } else {
      SubjectKnown(s, e);
      if e.CommitCancel? {
        CommitSettles(s, e);
      } else {
        AbandonSettles(s, e);
      }
    }
  }

  lemma StateClient(s: Sys, e: Event, x: TaskID)
    requires Enabled(s, e) && Inv(s) && (e.IsClientStep() || e.IsCloseStep()) && x in s.at && x != ""
    requires StateOk(s.mem, s.calls, s.workers, x, s.at[x])
    ensures var t := Next(s, e); x in t.at && StateOk(t.mem, t.calls, t.workers, x, t.at[x])
  {
    hide Inv, Enabled, Live, Resolved;
    var t := Next(s, e);
    ClientOrCloseFrame(s, e);
    hide Next;
    if Live(s.mem, x, Queued) {
      LiveClient(s, e, x, Queued);
    }
    if Live(s.mem, x, Running) {
      LiveClient(s, e, x, Running);
    }
    if Resolved(s.mem, s.calls, x) {
      ResolvedKept(s, e, x);
    }
  }

  lemma ClientOrCloseFrame(s: Sys, e: Event)
    requires Enabled(s, e) && (e.IsClientStep() || e.IsCloseStep())
    ensures Next(s, e).at == s.at && Next(s, e).workers == s.workers
  {
    if e.IsClientStep() {
      hide Next, Enabled;
      ClientFrame(s, e);
    }
  }

  ghost predicate StateAt(s: Sys, x: TaskID) {
    x in s.at ==> StateOk(s.mem, s.calls, s.workers, x, s.at[x])
  }

  lemma StateSubmitted(s: Sys, e: Event, x: TaskID)
    requires Enabled(s, e) && Inv(s) && e.SubmitTask?
    ensures StateAt(Next(s, e), x)
  {
    hide Inv, Owing;
    InvParts(s);
    SubmitGrows(s, e);
    hide Next;
    if x in s.at && Resolved(s.mem, s.calls, x) {
      ResolvedKept(s, e, x);
    }
  }

  lemma StateRolledBack(s: Sys, e: Event)
    requires Enabled(s, e) && Inv(s) && e.RollBack?
    ensures StateAt(Next(s, e), s.calls[e.c].id)
  {
    hide Inv, Resolved, Live, Transition, Settled, Tokens;
    InvParts(s);
    HolderOfCall(s, e.c);
    RollBackSettles(s, e);
    SettledResolves(s, Next(s, e), s.calls[e.c].id);
  }

  /** The steps of a submit handler after Submit: the task stays queued, is handed over, or is
      rolled back. */
  lemma StateSubmit(s: Sys, e: Event, x: TaskID)
    requires Enabled(s, e) && Inv(s) && e.IsSubmitStep() && !e.SubmitTask?
    ensures StateAt(Next(s, e), x)
  {
    hide Inv, Resolved, Live, Transition, Tokens;
    InvParts(s);
    AtKept(s, e);
    HolderOfCall(s, e.c);
    if e.RollBack? && s.calls[e.c].id == x {
      StateRolledBack(s, e);
    } else if x in s.at {
      if Live(s.mem, x, Queued) {
        LiveElsewhere(s, e, x, Queued);
      }
      if Live(s.mem, x, Running) {
        LiveElsewhere(s, e, x, Running);
      }
      if Resolved(s.mem, s.calls, x) {
        ResolvedKept(s, e, x);
      }
    }
  }

  lemma SettledResolves(s: Sys, t: Sys, x: TaskID)
    requires Settled(s, t, x)
    ensures Resolved(t.mem, t.calls, x)
  {
  }

  lemma HolderOfCall(s: Sys, c: nat)
    requires Tokens(s)
    ensures c < |s.calls| && s.calls[c].HasToken() ==> s.calls[c].id in s.at && s.at[s.calls[c].id] == InCall(c)
  {
    hide WorkersOk, PlacesOk;
  }

  lemma HolderOfWorker(s: Sys, w: nat)
    requires Tokens(s)
    ensures w < |s.workers| && s.workers[w].HasJob() ==>
              s.workers[w].id in s.at && s.at[s.workers[w].id] == InWorker(w)
    ensures forall x :: x in s.at && s.at[x] == InWorker(w) ==>
              w < |s.workers| && s.workers[w].HasJob() && s.workers[w].id == x
    ensures w < |s.workers| && s.workers[w].HasJob() ==> CtxFor(s.ctxs, s.workers[w].ctx, s.workers[w].id)
    ensures s.queue != [] ==> s.queue[0] in s.at && s.at[s.queue[0]] == InQueue
  {
    hide RunningOk, RunsOk, ExecutingOk;
    forall x | x in s.at && s.at[x] == InWorker(w)
      ensures w < |s.workers| && s.workers[w].HasJob() && s.workers[w].id == x
    {
      assert PlaceOk(s.calls, s.queue, s.workers, x, s.at[x]);
    }
  }

  /** A worker step leaves the tasks of the others as they were. */
  lemma StateOther(s: Sys, e: Event, x: TaskID)
    requires Enabled(s, e) && Inv(s) && e.IsWorkerStep() && x in s.at && x != ""
    requires s.at[x] != InWorker(e.w) && !(e.Take? && x == s.queue[0])
    ensures StateAt(Next(s, e), x)
  {
    hide Inv, Resolved, Live, Next;
    InvParts(s);
    HolderOfWorker(s, e.w);
    OtherFrame(s, e, x);
    assert StateAt(s, x);
    hide Tokens, Enabled, StateAt, StateOk, KnownId, CancelledOk, Subject;
    if Live(s.mem, x, Queued) {
      LiveElsewhere(s, e, x, Queued);
    }
    if Live(s.mem, x, Running) {
      LiveElsewhere(s, e, x, Running);
    }
    if Resolved(s.mem, s.calls, x) {
      ResolvedKept(s, e, x);
    }
    StateCarried(s, Next(s, e), e.w, x);
  }

  lemma StateCarried(s: Sys, t: Sys, w: nat, x: TaskID)
    requires x in s.at && x in t.at && t.at[x] == s.at[x] && s.at[x] != InWorker(w) && StateAt(s, x)
    requires w < |s.workers| && w < |t.workers| && t.workers == s.workers[w := t.workers[w]]
    requires Live(s.mem, x, Queued) ==> Live(t.mem, x, Queued)
    requires Live(s.mem, x, Running) ==> Live(t.mem, x, Running)
    requires Resolved(s.mem, s.calls, x) ==> Resolved(t.mem, t.calls, x)
    ensures StateAt(t, x)
  {
    hide Live, Resolved;
  }

  lemma OtherFrame(s: Sys, e: Event, x: TaskID)
    requires Enabled(s, e) && e.IsWorkerStep() && Tokens(s) && x in s.at
    requires s.at[x] != InWorker(e.w) && !(e.Take? && x == s.queue[0])
    ensures var t := Next(s, e);
            && x in t.at && t.at[x] == s.at[x] && e.w < |s.workers| && e.w < |t.workers|
            && t.workers == s.workers[e.w := t.workers[e.w]]
  {
    HolderOfWorker(s, e.w);
    if KeepsTaskStep(e) {
      hide Next, Enabled;
      WorkerFrame(s, e);
    } else {
      hide Tokens;
    }
  }

  lemma StateTaken(s: Sys, e: Event)
    requires Enabled(s, e) && Inv(s) && e.Take?
    ensures StateAt(Next(s, e), s.queue[0])
  {
    hide Inv, Live, Resolved;
    InvParts(s);
    HolderOfWorker(s, e.w);
  }

  /** RegisterCancel, publish and the queued-to-running attempt. */
  lemma StateEarly(s: Sys, e: Event)
    requires Enabled(s, e) && Inv(s) && (e.Register? || e.Publish? || e.Start?)
    ensures StateAt(Next(s, e), s.workers[e.w].id)
  {
    hide Inv, MemValid, Owing, Transition, RegisterCancel, Evolves, Tokens;
    InvParts(s);
    HolderOfWorker(s, e.w);
    var k := s.workers[e.w];
    if e.Register? {
      RegisterEvolves(s.mem, k.id, k.ctx, k.id);
      RegisterKeeps(s.mem, k.id, k.ctx);
    } else if e.Start? {
      Starts(s.mem, k.id, e.now);
    }
  }

  lemma RegisterKeeps(m: Mem, id: TaskID, ctx: Ctx)
    ensures RegisterCancel(m, id, ctx).0.entries.Keys == m.entries.Keys
    ensures RegisterCancel(m, id, ctx).0.released == m.released
  {
  }

  /** Handler return, context check, unpublish and release. */
  lemma StateLate(s: Sys, e: Event)
    requires Enabled(s, e) && Inv(s) && (e.Return? || e.CheckCtx? || e.Unpublish? || e.Release?)
    ensures StateAt(Next(s, e), s.workers[e.w].id)
  {
    hide Inv, Resolved, Tokens, Live, Next;
    InvParts(s);
    HolderOfWorker(s, e.w);
    LateMoves(s, e);
    if Resolved(s.mem, s.calls, s.workers[e.w].id) {
      ResolvedKept(s, e, s.workers[e.w].id);
    }
  }

  /** A late worker stays late, or gives up because its context is cancelled; a past one stays past. */
  lemma LateMoves(s: Sys, e: Event)
    requires Enabled(s, e) && (e.Return? || e.CheckCtx? || e.Unpublish? || e.Release?)
    ensures var t, k := Next(s, e), s.workers[e.w];
            && t.mem == s.mem && e.w < |t.workers|
            && (e.Release? ==> t.at == s.at[k.id := Gone]) && (!e.Release? ==> t.at == s.at)
            && (e.Return? ==> t.workers[e.w].IsLate())
            && (e.CheckCtx? ==> t.workers[e.w].IsLate() || (t.workers[e.w].IsPast() && k.ctx in s.cancelled))
            && (e.Unpublish? ==> t.workers[e.w].IsPast())
  {
  }

  lemma StateFinished(s: Sys, e: Event)
    requires Enabled(s, e) && Inv(s) && e.Finish?
    ensures StateAt(Next(s, e), s.workers[e.w].id)
  {
    hide Inv, Resolved, Transition, Tokens, Settled, Live;
    InvParts(s);
    HolderOfWorker(s, e.w);
    FinishSettles(s, e);
    SettledResolves(s, Next(s, e), s.workers[e.w].id);
  }

  lemma StateWorker(s: Sys, e: Event, x: TaskID)
    requires Enabled(s, e) && Inv(s) && e.IsWorkerStep()
    ensures StateAt(Next(s, e), x)
  {
    hide Inv, StateAt, Tokens, Next;
    InvParts(s);
    HolderOfWorker(s, e.w);
    AtKept(s, e);
    if x !in s.at {
      NotThere(Next(s, e), x);
    } else if s.at[x] != InWorker(e.w) && !(e.Take? && x == s.queue[0]) {
      StateOther(s, e, x);
    } else if e.Take? {
      StateTaken(s, e);
    } else if e.Register? || e.Publish? || e.Start? {
      StateEarly(s, e);
    } else if e.Finish? {
      StateFinished(s, e);
    } else {
      StateLate(s, e);
    }
  }

  lemma NotThere(t: Sys, x: TaskID)
    requires x !in t.at
    ensures StateAt(t, x)
  {
  }

  lemma StatesStep(s: Sys, e: Event)
    requires Enabled(s, e) && Inv(s)
    ensures StatesOk(Next(s, e))
  {
    hide Inv, Enabled, Next, StateOk, KnownId, Tokens;
    InvParts(s);
    forall x | x in Next(s, e).at
      ensures StateAt(Next(s, e), x)
    {
      if e.IsWorkerStep() {
        StateWorker(s, e, x);
      } else if e.SubmitTask? {
        StateSubmitted(s, e, x);
      } else if e.IsSubmitStep() {
        StateSubmit(s, e, x);
      } else {
        AtKept(s, e);
        assert KnownId(s.mem, x);
        KnownIsNamed(s.mem, x);
        StateClient(s, e, x);
      }
    }
  }

  lemma KnownIsNamed(m: Mem, x: TaskID)
    requires KnownId(m, x)
    ensures x != ""
  {
  }

  // ---------- cancelled contexts ----------

  lemma NewlyCancelled(s: Sys, e: Event, x: Ctx)
    requires Enabled(s, e) && x in Next(s, e).cancelled && x !in s.cancelled
    ensures e.Fire? || e.FireOne? || e.Release?
    ensures e.Fire? ==> s.calls[e.c].fire == Some(x)
    ensures e.FireOne? ==> s.calls[e.c].items[s.calls[e.c].next].ctx == x
    ensures e.Release? ==> s.workers[e.w].ctx == x
  {
    if KeepsTaskStep(e) {
      hide Next, Enabled;
      WorkerFrame(s, e);
    } else {
      hide Transition, Submit, CancelRead, WaitRead;
    }
  }

  lemma FiredIsOwed(s: Sys, e: Event, x: Ctx)
    requires Enabled(s, e) && Inv(s) && e.Fire? && s.calls[e.c].fire == Some(x)
    ensures x < |s.ctxs| && Resolved(Next(s, e).mem, Next(s, e).calls, s.ctxs[x])
  {
    hide MemValid, Tokens, Known, CancelsOk, StatesOk, CancelledOk, QueueBound;
    assert CallOk(s, s.calls[e.c]);
    assert Next(s, e).calls[e.c] == CancelOwing(s.ctxs[x]);
  }

  lemma FiredItemIsSettled(s: Sys, e: Event)
    requires Enabled(s, e) && Inv(s) && e.FireOne?
    ensures var x := s.calls[e.c].items[s.calls[e.c].next].ctx;
            x < |s.ctxs| && Resolved(Next(s, e).mem, Next(s, e).calls, s.ctxs[x])
  {
    hide MemValid, Tokens, Known, CancelsOk, StatesOk, CancelledOk, QueueBound, Owing;
    var k := s.calls[e.c];
    assert CallOk(s, k) && ItemOk(s, k.items[k.next], true, false);
  }

  lemma ReleasedIsResolved(s: Sys, e: Event)
    requires Enabled(s, e) && Inv(s) && e.Release?
    ensures var x := s.workers[e.w].ctx;
            x < |s.ctxs| && Resolved(Next(s, e).mem, Next(s, e).calls, s.ctxs[x])
  {
    hide Inv, Tokens, Resolved, Next;
    InvParts(s);
    HolderOfWorker(s, e.w);
    var id := s.workers[e.w].id;
    assert StateOk(s.mem, s.calls, s.workers, id, s.at[id]);
    ResolvedKept(s, e, id);
  }

  lemma CancelledStep(s: Sys, e: Event)
    requires Enabled(s, e) && Inv(s)
    ensures CancelledOk(Next(s, e))
  {
    hide Inv, Enabled, Next, Resolved, Tokens, StateOk;
    InvParts(s);
    var t := Next(s, e);
    BooksGrow(s, e);
    forall x | x in t.cancelled
      ensures x < |t.ctxs| && Resolved(t.mem, t.calls, t.ctxs[x])
    {
      if x in s.cancelled {
        ResolvedKept(s, e, s.ctxs[x]);
      } else {
        NewlyCancelled(s, e, x);
        if e.Fire? {
          FiredIsOwed(s, e, x);
        } else if e.FireOne? {
          FiredItemIsSettled(s, e);
        } else {
          ReleasedIsResolved(s, e);
        }
      }
    }
  }

  // ---------- what every call knows ----------

  lemma TerminalIsReleased(m: Mem, id: TaskID)
    requires MemValid(m)
    ensures id in m.entries ==> (id in m.released <==> m.entries[id].task.state.IsTerminal())
    ensures id in m.entries && m.entries[id].task.state.IsTerminal() ==> m.entries[id].cancel == None
  {
    if id in m.entries {
      assert EntryValid(id, m.entries[id], m.released);
    }
  }

  lemma CancelCallOk(s: Sys, e: Event)
    requires Enabled(s, e) && Inv(s) && (e.BeginCancel? || e.Fire?)
    ensures CallOk(Next(s, e), Next(s, e).calls[CallOf(s, e)])
  {
    hide MemValid, Tokens, StatesOk, CancelledOk, QueueBound;
    if e.BeginCancel? {
      TerminalIsReleased(s.mem, e.id);
    } else {
      assert CallOk(s, s.calls[e.c]);
    }
  }

  lemma CommitCallOk(s: Sys, e: Event)
    requires Enabled(s, e) && Inv(s) && e.CommitCancel?
    ensures CallOk(Next(s, e), Next(s, e).calls[e.c])
  {
    hide MemValid, Tokens, CancelsOk, StatesOk, CancelledOk, QueueBound, Committed;
    CommitSettles(s, e);
  }

  lemma WaitCallOk(s: Sys, e: Event)
    requires Enabled(s, e) && Inv(s) && (e.BeginWait? || e.Wake? || e.TimeOut?)
    ensures CallOk(Next(s, e), Next(s, e).calls[CallOf(s, e)])
  {
    hide MemValid, Tokens, Known, CancelsOk, StatesOk, CancelledOk, QueueBound;
    TerminalIsReleased(s.mem, if e.BeginWait? then e.id else s.calls[e.c].id);
  }

  lemma AbandonStartOk(s: Sys, e: Event)
    requires Enabled(s, e) && Inv(s) && e.BeginAbandon?
    ensures CallOk(Next(s, e), Next(s, e).calls[|s.calls|])
  {
    hide MemValid, TokensOk, Known, CancelsOk, StatesOk, CancelledOk, QueueBound, RunsOk, ExecutingOk, CallOk;
    var t := Next(s, e);
    var items := Items(e.order, s.running);
    forall j | 0 <= j < |items|
      ensures CtxFor(s.ctxs, items[j].ctx, items[j].id)
    {
      assert e.order[j] in s.running;
    }
    AbandonOpens(t, items);
  }

  lemma AbandonOpens(t: Sys, items: seq<Item>)
    requires forall j :: 0 <= j < |items| ==> CtxFor(t.ctxs, items[j].ctx, items[j].id)
    ensures CallOk(t, Abandoning(items, 0, false))
  {
    hide CtxFor;
  }

  lemma AbandonCallOk(s: Sys, e: Event)
    requires Enabled(s, e) && Inv(s) && (e.AbandonOne? || e.FireOne? || e.EndAbandon?)
    ensures CallOk(Next(s, e), Next(s, e).calls[e.c])
  {
    hide MemValid, Tokens, Known, CancelsOk, StatesOk, CancelledOk, QueueBound, CtxFor, Transition;
    var t, k := Next(s, e), s.calls[e.c];
    StepGrows(s, e);
    CallGrows(s, t, k);
    hide Grows;
    if e.AbandonOne? {
      AbandonSettles(s, e);
    }
  }

  lemma AdvancedOk(s: Sys, e: Event)
    requires Enabled(s, e) && Inv(s) && e.IsClientStep()
    ensures CallOk(Next(s, e), Next(s, e).calls[CallOf(s, e)])
  {
    hide Inv, CallOk, Next;
    if e.BeginCancel? || e.Fire? {
      CancelCallOk(s, e);
    } else if e.CommitCancel? {
      CommitCallOk(s, e);
    } else if e.BeginWait? || e.Wake? || e.TimeOut? {
      WaitCallOk(s, e);
    } else if e.BeginAbandon? {
      AbandonStartOk(s, e);
    } else {
      AbandonCallOk(s, e);
    }
  }

  lemma SubmitCallOk(s: Sys, e: Event, c: nat)
    requires Enabled(s, e) && e.IsSubmitStep() && c < |Next(s, e).calls|
    ensures CallOk(Next(s, e), Next(s, e).calls[c]) || (c < |s.calls| && Next(s, e).calls[c] == s.calls[c])
  {
    hide Transition, Submit;
  }

  lemma CallsStep(s: Sys, e: Event)
    requires Enabled(s, e) && Inv(s)
    ensures CallsOk(Next(s, e))
  {
    hide Inv, CallOk, Tokens, StateOk, Next, Enabled;
    InvParts(s);
    var t := Next(s, e);
    StepGrows(s, e);
    if e.IsClientStep() {
      ClientFrame(s, e);
      AdvancedOk(s, e);
    } else if !e.IsSubmitStep() {
      CallsUntouched(s, e);
    }
    forall c | 0 <= c < |t.calls|
      ensures CallOk(t, t.calls[c])
    {
      if e.IsSubmitStep() {
        SubmitCallOk(s, e, c);
      }
      if c < |s.calls| && t.calls[c] == s.calls[c] {
        CallGrows(s, t, s.calls[c]);
      }
    }
  }

  lemma CallsUntouched(s: Sys, e: Event)
    requires Enabled(s, e) && !e.IsClientStep() && !e.IsSubmitStep()
    ensures Next(s, e).calls == s.calls
  {
    if KeepsTaskStep(e) {
      hide Next, Enabled;
      WorkerFrame(s, e);
    }
  }

  // ---------- every step, every run ----------

  lemma StoreValidStep(s: Sys, e: Event)
    requires Enabled(s, e) && Inv(s)
    ensures MemValid(Next(s, e).mem)
  {
    hide MemValid, Tokens, Known, CancelsOk, StatesOk, CancelledOk, QueueBound, CallOk, Next, Evolves;
    if e.SubmitTask? {
      SubmitGrows(s, e);
    } else {
      StoreKept(s, e, "");
    }
  }

  lemma InvStep(s: Sys, e: Event)
    requires Enabled(s, e) && Inv(s)
    ensures Inv(Next(s, e))
  {
    hide MemValid, Tokens, Known, CancelsOk, StatesOk, CancelledOk, CallsOk, QueueBound, Next, Enabled;
    StoreValidStep(s, e);
    TokensStep(s, e);
    KnownStep(s, e);
    CancelsStep(s, e);
    StatesStep(s, e);
    CancelledStep(s, e);
    CallsStep(s, e);
    QueueBoundStep(s, e);
  }

  /** The whole invariant holds in every state of every run of the protocol. */
  lemma {:induction false} RunKeepsInv(s: Sys, es: seq<Event>)
    requires Inv(s) && IsRun(s, es)
    ensures Inv(After(s, es))
    decreases |es|
  {
    hide Inv, Enabled, Next;
    if es != [] {
      InvStep(s, es[0]);
      RunKeepsInv(Next(s, es[0]), es[1..]);
    }
  }

  lemma InitialInv(s: Sys, workers: int, queueSize: int)
    requires Initial(s, workers, queueSize)
    ensures Inv(s)
  {
    hide MemValid;
    forall id | id in s.mem.entries && s.mem.entries[id].task.pid == s.mem.pid
      ensures id in s.mem.released && s.mem.entries[id].cancel == None
    {
      TerminalIsReleased(s.mem, id);
    }
  }
}
