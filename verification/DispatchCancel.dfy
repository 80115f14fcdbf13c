/** What a Cancel does to the handler: it reaches the context of the worker that has the task, and a
    handler whose context is cancelled before its return is examined never records an outcome
    (internal/taskstore/memory.go:230-279 and 435-455, internal/tools/dispatcher.go:246-343). */
module DispatchCancel {
  import opened Tasks
  import opened TerminalHeap
  import opened StoreSpec
  import opened StoreLaws
  import opened StoreFacts
  import opened DispatchSteps
  import opened DispatchTokens
  import opened DispatchStore
  import opened DispatchInvariant
  import opened TaskRecords

  // ---------- the registered cancel func is the worker's own ----------

  /** The worker has registered its cancel func and not yet recorded an outcome. */
  predicate Cancellable(k: Worker) {
    k.Registered? || k.Published? || k.Executing? || k.Returned? || k.Finishing?
  }

  ghost predicate Reachable(s: Sys, w: nat)
    requires w < |s.workers|
  {
    Cancellable(s.workers[w]) && s.workers[w].id !in s.mem.released ==>
      && s.workers[w].id in s.mem.entries
      && s.mem.entries[s.workers[w].id].cancel == Some(s.workers[w].ctx)
  }

  ghost predicate AllReachable(s: Sys) {
    forall w :: 0 <= w < |s.workers| ==> Reachable(s, w)
  }

  /** A transition keeps the cancel func of a record that it does not finish. */
  lemma CancelStays(m: Mem, id: TaskID, fn: TransitionFn, now: Time)
    requires MemValid(m) && KeepsIdentity(fn)
    ensures var n := Transition(m, id, fn, now).mem;
            id in n.entries && id !in n.released ==> id in m.entries && n.entries[id].cancel == m.entries[id].cancel
  {
    hide MemValid, Sound, Trimmed, TrimmedIds, Push;
    TransitionEffect(m, id, fn, now, id);
    if Transition(m, id, fn, now).out == Ok {
      var t := fn(m.entries[id].task).task;
      if t.state != m.entries[id].task.state && t.state.IsTerminal() {
        IdOf(m, id);
        EnteredSound(m, id, Stamped(t, now));
        TrimmedSubset(Entered(Left(m, m.entries[id].task.state), id, Stamped(t, now), m.entries[id].cancel), id);
      }
    }
  }

  ghost predicate FuncKept(s: Sys, e: Event, x: TaskID)
    requires Enabled(s, e)
  {
    var n := Next(s, e).mem;
    x in n.entries && x !in n.released ==> x in s.mem.entries && n.entries[x].cancel == s.mem.entries[x].cancel
  }

  lemma FuncElsewhere(s: Sys, e: Event, x: TaskID)
    requires Enabled(s, e) && Inv(s) && !e.SubmitTask? && x != Subject(s, e)
    ensures FuncKept(s, e, x)
  {
    hide Inv, MemValid, Next, Enabled, Tokens, StateOk, KnownId, CancelledOk, CallOk, Subject;
    InvParts(s);
    StoreKept(s, e, x);
  }

  lemma FuncOfSubject(s: Sys, e: Event)
    requires Enabled(s, e) && Inv(s) && !e.SubmitTask? && !e.Register? && Subject(s, e) != ""
    ensures FuncKept(s, e, Subject(s, e))
  {
    hide Inv, MemValid, Tokens, StateOk, KnownId, CancelledOk, CallOk, Transition;
    InvParts(s);
    EditsKeep(s, e);
    var x := Subject(s, e);
    match e
    case RollBack(c, now) => CancelStays(s.mem, x, RollBackEdit(s.calls[c].target), now);
    case Start(w, now) => CancelStays(s.mem, x, RunEdit(), now);
    case Finish(w, now) => CancelStays(s.mem, x, FinishEdit(s.workers[w].result), now);
    case CommitCancel(c, hint, now) => CancelStays(s.mem, x, CancelEdit(hint, now), now);
    case AbandonOne(c, reason, now) => CancelStays(s.mem, x, AbandonEdit(reason), now);
  }

  lemma FuncStep(s: Sys, e: Event, x: TaskID)
    requires Enabled(s, e) && Inv(s) && x in s.mem.entries && x != "" && !(e.Register? && s.workers[e.w].id == x)
    ensures FuncKept(s, e, x)
  {
    hide Inv, MemValid, Next, Tokens, StateOk, KnownId, CancelledOk, CallOk;
    if e.SubmitTask? {
      InvParts(s);
      SubmitGrows(s, e);
    } else if x != Subject(s, e) {
      FuncElsewhere(s, e, x);
    } else {
      FuncOfSubject(s, e);
    }
  }

  /** A worker that registered: unless the task is over, the record now has its cancel func. */
  lemma FuncRegistered(s: Sys, e: Event)
    requires Enabled(s, e) && Inv(s) && e.Register?
    ensures e.w < |Next(s, e).workers| && Reachable(Next(s, e), e.w)
  {
    hide Inv, MemValid, Tokens, StateOk, KnownId, CancelledOk, CallOk, RegisterCancel;
    InvParts(s);
    RegisterRecords(s.mem, s.workers[e.w].id, s.workers[e.w].ctx);
  }

  /** Worker w is cancellable in both states, with the same task and context. */
  ghost predicate SameJob(s: Sys, t: Sys, w: nat) {
    && w < |s.workers| && w < |t.workers| && Cancellable(s.workers[w]) && Cancellable(t.workers[w])
    && t.workers[w].id == s.workers[w].id && t.workers[w].ctx == s.workers[w].ctx
  }

  /** A cancellable worker was so before with the same task and context, or has just registered. */
  lemma CancellableBefore(s: Sys, e: Event, w: nat)
    requires Enabled(s, e) && w < |Next(s, e).workers| && Cancellable(Next(s, e).workers[w])
    requires !(e.Register? && e.w == w)
    ensures SameJob(s, Next(s, e), w)
  {
    hide Next;
    if KeepsTaskStep(e) {
      WorkerFrame(s, e);
      if e.w == w {
        OwnCancellable(s, e);
      }
    } else if e.IsClientStep() {
      hide Enabled;
      ClientFrame(s, e);
    } else {
      OtherCancellable(s, e, w);
    }
  }

  lemma OwnCancellable(s: Sys, e: Event)
    requires Enabled(s, e) && KeepsTaskStep(e) && !e.Register? && e.w < |Next(s, e).workers|
    requires Cancellable(Next(s, e).workers[e.w])
    ensures Cancellable(s.workers[e.w])
  {
    hide Transition;
  }

  lemma OtherCancellable(s: Sys, e: Event, w: nat)
    requires Enabled(s, e) && !KeepsTaskStep(e) && !e.IsClientStep() && w < |Next(s, e).workers|
    requires Cancellable(Next(s, e).workers[w])
    ensures w < |s.workers| && s.workers[w] == Next(s, e).workers[w]
  {
    if e.IsSubmitStep() {
      hide Next, Cancellable;
      SubmitKeepsWorkers(s, e);
    }
  }

  lemma SubmitKeepsWorkers(s: Sys, e: Event)
    requires Enabled(s, e) && e.IsSubmitStep()
    ensures Next(s, e).workers == s.workers
  {
    hide Transition, Submit;
  }

  lemma ReachableStep(s: Sys, e: Event, w: nat)
    requires Enabled(s, e) && Inv(s) && AllReachable(s) && w < |Next(s, e).workers|
    ensures Reachable(Next(s, e), w)
  {
    hide Inv, MemValid, Next, Tokens, StateOk, KnownId, CancelledOk, CallOk, Reachable;
    if e.Register? && e.w == w {
      FuncRegistered(s, e);
    } else if Cancellable(Next(s, e).workers[w]) {
      CancellableBefore(s, e, w);
      assert Reachable(s, w);
      ReachableKept(s, e, w);
    } else {
      NotCancellable(Next(s, e), w);
    }
  }

  lemma NotCancellable(t: Sys, w: nat)
    requires w < |t.workers| && !Cancellable(t.workers[w])
    ensures Reachable(t, w)
  {
  }

  lemma ReachableKept(s: Sys, e: Event, w: nat)
    requires Enabled(s, e) && Inv(s) && SameJob(s, Next(s, e), w) && Reachable(s, w)
    requires !(e.Register? && e.w == w)
    ensures Reachable(Next(s, e), w)
  {
    hide Inv, MemValid, Next, Tokens, StateOk, CancelledOk, CallOk;
    InvParts(s);
    HolderOfWorker(s, w);
    StepGrows(s, e);
    if s.workers[w].id !in s.mem.released {
      if e.Register? {
        HolderOfWorker(s, e.w);
      }
      assert KnownId(s.mem, s.workers[w].id);
      FuncStep(s, e, s.workers[w].id);
    }
  }

  lemma {:induction false} RunReachable(s: Sys, es: seq<Event>)
    requires Inv(s) && AllReachable(s) && IsRun(s, es)
    ensures Inv(After(s, es)) && AllReachable(After(s, es))
    decreases |es|
  {
    hide Inv, Next, Enabled, Reachable;
    if es != [] {
      forall w | 0 <= w < |Next(s, es[0]).workers|
        ensures Reachable(Next(s, es[0]), w)
      {
        ReachableStep(s, es[0], w);
      }
      InvStep(s, es[0]);
      RunReachable(Next(s, es[0]), es[1..]);
    }
  }

  /** In every reachable state, from RegisterCancel to the final transition, the record of a worker's task
      has that worker's cancel func, unless the task is over. */
  lemma RegisteredFuncIsOwn(s0: Sys, workers: int, queueSize: int, es: seq<Event>, w: nat)
    requires Initial(s0, workers, queueSize) && IsRun(s0, es)
    requires var s := After(s0, es);
             w < |s.workers| && Cancellable(s.workers[w]) && s.workers[w].id !in s.mem.released
    ensures var s, k := After(s0, es), After(s0, es).workers[w];
            k.id in s.mem.entries && s.mem.entries[k.id].cancel == Some(k.ctx)
  {
    InitialInv(s0, workers, queueSize);
    assert AllReachable(s0);
    hide Inv, Initial, IsRun, After;
    RunReachable(s0, es);
    assert Reachable(After(s0, es), w);
  }

  // ---------- a Cancel reaches it ----------

  /** The call still has to fire this context, or it is cancelled. */
  ghost predicate WillFire(s: Sys, c: nat, ctx: Ctx) {
    && c < |s.calls|
    && (ctx in s.cancelled || (s.calls[c].CancelFiring? && s.calls[c].fire == Some(ctx)))
  }

  lemma WillFireStep(s: Sys, e: Event, c: nat, ctx: Ctx)
    requires Enabled(s, e) && WillFire(s, c, ctx)
    ensures WillFire(Next(s, e), c, ctx)
  {
    BooksGrow(s, e);
    if e.IsClientStep() {
      ClientFrame(s, e);
      if !(e.Fire? && e.c == c) {
        hide Next;
      }
    } else if !e.IsSubmitStep() {
      hide Next;
      CallsUntouched(s, e);
    } else {
      hide Transition, Submit;
    }
  }

  lemma {:induction false} RunWillFire(s: Sys, es: seq<Event>, c: nat, ctx: Ctx)
    requires WillFire(s, c, ctx) && IsRun(s, es)
    ensures WillFire(After(s, es), c, ctx)
    decreases |es|
  {
    hide Next, Enabled, WillFire;
    if es != [] {
      WillFireStep(s, es[0], c, ctx);
      RunWillFire(Next(s, es[0]), es[1..], c, ctx);
    }
  }

  /** A Cancel of a task that a worker has: whatever interleaves afterwards, once the call has passed its
      first step the worker's context is cancelled, and until then that is what its next step does. */
  lemma CancelReachesHandler(s0: Sys, workers: int, queueSize: int, es: seq<Event>, w: nat, more: seq<Event>)
    requires Initial(s0, workers, queueSize) && IsRun(s0, es)
    requires var s := After(s0, es);
             w < |s.workers| && Cancellable(s.workers[w]) && s.workers[w].id !in s.mem.released
             && IsRun(Next(s, BeginCancel(s.workers[w].id)), more)
    ensures var s := After(s0, es);
            var t, c, ctx := After(Next(s, BeginCancel(s.workers[w].id)), more), |s.calls|, s.workers[w].ctx;
            && c < |t.calls|
            && (ctx in t.cancelled || (Enabled(t, Fire(c)) && ctx in Next(t, Fire(c)).cancelled))
  {
    hide Initial, IsRun, After, Inv, Tokens, StateOk, KnownId, CancelledOk, CallOk, MemValid;
    var s := After(s0, es);
    var k := s.workers[w];
    RegisteredFuncIsOwn(s0, workers, queueSize, es, w);
    InitialInv(s0, workers, queueSize);
    RunKeepsInv(s0, es);
    InvParts(s);
    HolderOfWorker(s, w);
    BeginsFiring(s, k.id, k.ctx);
    RunWillFire(Next(s, BeginCancel(k.id)), more, |s.calls|, k.ctx);
  }

  lemma BeginsFiring(s: Sys, id: TaskID, ctx: Ctx)
    requires MemValid(s.mem) && KnownId(s.mem, id) && id in s.mem.entries && s.mem.entries[id].cancel == Some(ctx)
    ensures WillFire(Next(s, BeginCancel(id)), |s.calls|, ctx)
  {
    hide MemValid;
    CancelRecords(s.mem, id, "", 0);
  }

  /** The call has nothing to fire and nothing to commit. */
  ghost predicate IsIdle(s: Sys, c: nat, id: TaskID) {
    && c < |s.calls|
    && (s.calls[c] == CancelFiring(id, None, true) || s.calls[c] == CancelReturned(id, Ok))
  }

  lemma IdleStep(s: Sys, e: Event, c: nat, id: TaskID)
    requires Enabled(s, e) && IsIdle(s, c, id)
    ensures IsIdle(Next(s, e), c, id)
    ensures e.Fire? && e.c == c ==> Next(s, e) == WithCall(s, c, CancelReturned(id, Ok))
    ensures !(e.CommitCancel? && e.c == c)
  {
    if e.IsClientStep() {
      ClientFrame(s, e);
      if !(e.Fire? && e.c == c) {
        hide Next;
      }
    } else if !e.IsSubmitStep() {
      hide Next;
      CallsUntouched(s, e);
    } else {
      hide Transition, Submit;
    }
  }

  lemma {:induction false} RunIdle(s: Sys, es: seq<Event>, c: nat, id: TaskID)
    requires IsIdle(s, c, id) && IsRun(s, es)
    ensures IsIdle(After(s, es), c, id)
    decreases |es|
  {
    hide Next, Enabled, IsIdle;
    if es != [] {
      IdleStep(s, es[0], c, id);
      RunIdle(Next(s, es[0]), es[1..], c, id);
    }
  }

  /** A Cancel of a task that is over: whatever interleaves, the call fires nothing, never commits, and the
      one step it has left changes nothing but its own answer, which is success. */
  lemma CancelOfFinishedIsIdle(s0: Sys, workers: int, queueSize: int, es: seq<Event>, id: TaskID, more: seq<Event>)
    requires Initial(s0, workers, queueSize) && IsRun(s0, es)
    requires var s := After(s0, es);
             && id != "" && id in s.mem.entries && s.mem.entries[id].task.pid == s.mem.pid && id in s.mem.released
             && IsRun(Next(s, BeginCancel(id)), more)
    ensures var s := After(s0, es);
            var t, c := After(Next(s, BeginCancel(id)), more), |s.calls|;
            && c < |t.calls|
            && (t.calls[c] == CancelReturned(id, Ok)
                || (Enabled(t, Fire(c)) && Next(t, Fire(c)) == WithCall(t, c, CancelReturned(id, Ok))))
  {
    hide Initial, IsRun, After, Inv, Tokens, StateOk, KnownId, CancelledOk, CallOk, MemValid;
    var s := After(s0, es);
    InitialInv(s0, workers, queueSize);
    RunKeepsInv(s0, es);
    InvParts(s);
    BeginsIdle(s, id);
    RunIdle(Next(s, BeginCancel(id)), more, |s.calls|, id);
    var t := After(Next(s, BeginCancel(id)), more);
    if t.calls[|s.calls|].CancelFiring? {
      IdleStep(t, Fire(|s.calls|), |s.calls|, id);
    }
  }

  lemma BeginsIdle(s: Sys, id: TaskID)
    requires MemValid(s.mem) && id != "" && id in s.mem.entries && s.mem.entries[id].task.pid == s.mem.pid
    requires id in s.mem.released
    ensures IsIdle(Next(s, BeginCancel(id)), |s.calls|, id)
  {
    hide MemValid;
    CancelRecords(s.mem, id, "", 0);
    TerminalIsReleased(s.mem, id);
  }

  // ---------- and then its outcome is not recorded ----------

  /** The task has no handler's outcome, and the only worker that may have it will see that its context is
      cancelled. */
  ghost predicate Interrupted(s: Sys, x: TaskID) {
    && (x in s.mem.entries ==> s.mem.entries[x].task.state != Completed && s.mem.entries[x].task.state != Failed)
    && StillGivesUp(s, x)
  }

  /** Nobody has x any more, or its worker gives up. */
  ghost predicate StillGivesUp(t: Sys, x: TaskID) {
    x in t.at && (t.at[x].Gone? || (t.at[x].InWorker? && t.at[x].w < |t.workers| && GivesUp(t, t.workers[t.at[x].w])))
  }

  ghost predicate GivesUp(s: Sys, k: Worker) {
    k.HasJob() && !k.Finishing? && k.ctx in s.cancelled
  }

  lemma GivesUpStep(s: Sys, e: Event, x: TaskID)
    requires Enabled(s, e) && Inv(s) && Interrupted(s, x)
    ensures StillGivesUp(Next(s, e), x)
    ensures !(e.Finish? && s.workers[e.w].id == x) && !(e.RollBack? && s.calls[e.c].id == x)
    ensures !(e.SubmitTask? && e.id == x)
  {
    hide Inv, Tokens, StateOk, KnownId, CancelledOk, CallOk, MemValid;
    InvParts(s);
    BooksGrow(s, e);
    if e.IsWorkerStep() {
      WorkerGivesUp(s, e, x);
    } else if e.IsSubmitStep() {
      if e.SubmitTask? {
        SubmitGrows(s, e);
      } else {
        HolderOfCall(s, e.c);
      }
      SubmitGivesUp(s, e, x);
    } else {
      ClientOrCloseFrame(s, e);
    }
  }

  lemma WorkerGivesUp(s: Sys, e: Event, x: TaskID)
    requires Enabled(s, e) && e.IsWorkerStep() && StillGivesUp(s, x) && Tokens(s)
    ensures StillGivesUp(Next(s, e), x) && !(e.Finish? && s.workers[e.w].id == x)
  {
    hide Tokens, Next;
    BooksGrow(s, e);
    HolderOfWorker(s, e.w);
    HolderOfWorker(s, if s.at[x].InWorker? then s.at[x].w else 0);
    if s.at[x] != InWorker(e.w) && !(e.Take? && x == s.queue[0]) {
      OtherFrame(s, e, x);
    } else if KeepsTaskStep(e) {
      WorkerFrame(s, e);
      OwnGivesUp(s, e);
    } else {
      ReleasedGone(s, e, x);
    }
  }

  lemma ReleasedGone(s: Sys, e: Event, x: TaskID)
    requires Enabled(s, e) && (e.Take? || e.Release? || e.Exit?) && x in s.at && s.at[x] == InWorker(e.w)
    requires s.workers[e.w].HasJob() && s.workers[e.w].id == x
    ensures x in Next(s, e).at && Next(s, e).at[x] == Gone
  {
  }

  lemma OwnGivesUp(s: Sys, e: Event)
    requires Enabled(s, e) && KeepsTaskStep(e) && KeepsTask(s, Next(s, e), e.w) && GivesUp(s, s.workers[e.w])
    ensures GivesUp(Next(s, e), Next(s, e).workers[e.w]) && !e.Finish?
  {
    hide Transition, RegisterCancel;
  }

  lemma SubmitGivesUp(s: Sys, e: Event, x: TaskID)
    requires Enabled(s, e) && e.IsSubmitStep() && StillGivesUp(s, x)
    requires !e.SubmitTask? && s.calls[e.c].HasToken() ==>
               s.calls[e.c].id in s.at && s.at[s.calls[e.c].id] == InCall(e.c)
    ensures var t := Next(s, e);
            && x in t.at && t.at[x] == s.at[x] && t.workers == s.workers && t.cancelled == s.cancelled
    ensures !(e.RollBack? && s.calls[e.c].id == x) && !(e.SubmitTask? && e.id == x)
  {
    hide Transition, Submit;
  }

  lemma InterruptedStep(log: set<Deed>, s: Sys, e: Event, x: TaskID)
    requires Enabled(s, e) && Inv(s) && AllTold(log, s) && Interrupted(s, x)
    ensures Interrupted(Next(s, e), x)
  {
    hide Inv, Next, Told, CallTold, GivesUp, Settling, Story;
    GivesUpStep(s, e, x);
    if e.SubmitTask? {
      hide Tokens, StateOk, KnownId, CancelledOk, CallOk, MemValid;
      InvParts(s);
      SubmitGrows(s, e);
    } else {
      assert Told(log, s, x);
      ToldSettles(log, s, x);
      RecordStep(s, e, x);
      OutcomeNotRecorded(s, e, x);
    }
  }

  lemma OutcomeNotRecorded(s: Sys, e: Event, x: TaskID)
    requires Enabled(s, e) && RecordMoves(s, e, x) && !e.SubmitTask?
    requires !(e.Finish? && s.workers[e.w].id == x) && !(e.RollBack? && s.calls[e.c].id == x)
    ensures var n := Next(s, e).mem;
            x in n.entries ==>
              && x in s.mem.entries
              && (n.entries[x].task.state == s.mem.entries[x].task.state
                  || n.entries[x].task.state in {Running, Cancelled, Abandoned})
  {
    hide Next;
  }

  lemma {:induction false} RunInterrupted(log: set<Deed>, s: Sys, es: seq<Event>, x: TaskID)
    requires Inv(s) && AllTold(log, s) && IsRun(s, es) && Interrupted(s, x)
    ensures Interrupted(After(s, es), x)
    decreases |es|
  {
    hide Inv, Next, Enabled, AllTold, Interrupted, Done;
    if es != [] {
      InterruptedStep(log, s, es[0], x);
      AllToldStep(log, s, es[0]);
      InvStep(s, es[0]);
      RunInterrupted(log + Done(s, es[0]), Next(s, es[0]), es[1..], x);
    }
  }

  /** A worker whose context is cancelled before it has examined it: over the rest of every run its task is
      never recorded as completed or failed. */
  lemma InterruptedNeverCompletes(s0: Sys, workers: int, queueSize: int, es: seq<Event>, w: nat, more: seq<Event>)
    requires Initial(s0, workers, queueSize) && IsRun(s0, es) && IsRun(After(s0, es), more)
    requires var s := After(s0, es);
             && w < |s.workers| && s.workers[w].HasJob() && !s.workers[w].Finishing? && !s.workers[w].IsPast()
             && s.workers[w].ctx in s.cancelled
    ensures var m, id := After(After(s0, es), more).mem, After(s0, es).workers[w].id;
            id in m.entries ==> m.entries[id].task.state != Completed && m.entries[id].task.state != Failed
  {
    hide Initial, IsRun, After, Inv, Tokens, Story, Shown, DeedsFit, CallTold;
    var s := After(s0, es);
    InitialInv(s0, workers, queueSize);
    RunKeepsInv(s0, es);
    FromTheStart(s0, workers, queueSize, es);
    InvParts(s);
    HolderOfWorker(s, w);
    assert Told(Log(s0, es), s, s.workers[w].id);
    RunInterrupted(Log(s0, es), s, more, s.workers[w].id);
  }

  // ---------- what the calls answer ----------

  /** The steps of a Wait change nothing but its own call, and answer from the record as it is then: the
      terminal task, or after a time-out whatever is held. */
  lemma WaitAnswers(s: Sys, e: Event)
    requires Enabled(s, e) && MemValid(s.mem) && (e.BeginWait? || e.Wake? || e.TimeOut?)
    ensures var t, c := Next(s, e), CallOf(s, e);
            var id := if e.BeginWait? then e.id else s.calls[c].id;
            var held := if id in s.mem.entries then Some(s.mem.entries[id].task) else None;
            && t == s.(calls := t.calls) && t.calls == Put(s.calls, c, t.calls[c])
            && t.calls[c] ==
               if e.TimeOut? then WaitReturned(id, TimedOut(held))
               else if id == "" && e.BeginWait? then WaitReturned(id, WaitError(EmptyID))
               else if held == None then WaitReturned(id, WaitError(NotFound))
               else if id in s.mem.released then WaitReturned(id, Finished(held.value))
               else Waiting(id)
  {
    hide MemValid;
    WaitReads(s.mem, if e.BeginWait? then e.id else s.calls[e.c].id);
  }

  /** The two steps of a Cancel that answer: the first refuses an empty, an unknown or a foreign id, the
      second reports success unless the store is closed or the record is foreign. */
  lemma CancelAnswers(s: Sys, e: Event)
    requires Enabled(s, e) && MemValid(s.mem) && (e.BeginCancel? || e.CommitCancel?)
    ensures var t, c := Next(s, e), CallOf(s, e);
            && t == s.(calls := t.calls, mem := t.mem) && t.calls == Put(s.calls, c, t.calls[c])
            && (e.BeginCancel? ==>
                  && t.mem == s.mem
                  && t.calls[c] ==
                     if e.id == "" then CancelReturned(e.id, EmptyID)
                     else if e.id !in s.mem.entries then CancelReturned(e.id, NotFound)
                     else if s.mem.entries[e.id].task.pid != s.mem.pid then CancelReturned(e.id, CrossPID)
                     else CancelFiring(e.id, s.mem.entries[e.id].cancel, e.id in s.mem.released))
            && (e.CommitCancel? && s.calls[c].id != "" ==>
                  var id := s.calls[c].id;
                  var foreign := id in s.mem.entries && s.mem.entries[id].task.pid != s.mem.pid;
                  t.calls[c] == CancelReturned(id, if s.mem.closed then StoreClosed else if foreign then CrossPID
                                                   else Ok))
  {
    hide MemValid, Transition;
    if e.BeginCancel? {
      CancelRecords(s.mem, e.id, "", 0);
    } else {
      hide CancelEdit;
      TransitionRefuses(s.mem, s.calls[e.c].id, CancelEdit(e.hint, e.now), e.now);
      NeverRefused(e.hint, e.now);
    }
  }

  lemma NeverRefused(hint: string, now: Time)
    ensures forall t :: CancelEdit(hint, now)(t).Applied?
  {
  }

  // ---------- no context is left uncancelled ----------

  ghost predicate CtxEnds(s: Sys, x: Ctx) {
    x in s.cancelled || exists w :: 0 <= w < |s.workers| && s.workers[w].HasJob() && s.workers[w].ctx == x
  }

  lemma CtxEndsStep(s: Sys, e: Event, x: Ctx)
    requires Enabled(s, e) && x < |Next(s, e).ctxs| && (x < |s.ctxs| ==> CtxEnds(s, x))
    ensures CtxEnds(Next(s, e), x)
  {
    var t := Next(s, e);
    BooksGrow(s, e);
    if e.Take? {
      assert t.workers[e.w].HasJob() && t.workers[e.w].ctx == |s.ctxs|;
      if x < |s.ctxs| && x !in s.cancelled {
        var w :| 0 <= w < |s.workers| && s.workers[w].HasJob() && s.workers[w].ctx == x;
        assert t.workers[w] == s.workers[w];
      }
    } else {
      SameCtxs(s, e);
      if x !in s.cancelled {
        var w :| 0 <= w < |s.workers| && s.workers[w].HasJob() && s.workers[w].ctx == x;
        JobKept(s, e, w);
      }
    }
  }

  lemma SameCtxs(s: Sys, e: Event)
    requires Enabled(s, e) && !e.Take?
    ensures Next(s, e).ctxs == s.ctxs
  {
    if e.IsClientStep() {
      hide Next, Enabled;
      ClientFrame(s, e);
    } else if KeepsTaskStep(e) {
      hide Next, Enabled;
      WorkerFrame(s, e);
    } else {
      hide Transition, Submit;
    }
  }

  lemma JobKept(s: Sys, e: Event, w: nat)
    requires Enabled(s, e) && !e.Take? && w < |s.workers| && s.workers[w].HasJob()
    ensures var t := Next(s, e);
            s.workers[w].ctx in t.cancelled
            || (w < |t.workers| && t.workers[w].HasJob() && t.workers[w].ctx == s.workers[w].ctx)
  {
    if e.IsClientStep() {
      hide Next, Enabled;
      ClientFrame(s, e);
    } else if KeepsTaskStep(e) {
      hide Next, Enabled;
      WorkerFrame(s, e);
    } else {
      hide Transition, Submit;
    }
  }

  lemma {:induction false} RunCtxEnds(s: Sys, es: seq<Event>)
    requires IsRun(s, es) && forall x :: 0 <= x < |s.ctxs| ==> CtxEnds(s, x)
    ensures forall x :: 0 <= x < |After(s, es).ctxs| ==> CtxEnds(After(s, es), x)
    decreases |es|
  {
    hide Next, Enabled, CtxEnds;
    if es != [] {
      forall x | 0 <= x < |Next(s, es[0]).ctxs|
        ensures CtxEnds(Next(s, es[0]), x)
      {
        CtxEndsStep(s, es[0], x);
      }
      RunCtxEnds(Next(s, es[0]), es[1..]);
    }
  }

  /** In every reachable state every context that runJob created is cancelled or belongs to a worker that
      still has its job. */
  lemma NoContextLeaks(s0: Sys, workers: int, queueSize: int, es: seq<Event>, x: Ctx)
    requires Initial(s0, workers, queueSize) && IsRun(s0, es) && x < |After(s0, es).ctxs|
    ensures CtxEnds(After(s0, es), x)
  {
    RunCtxEnds(s0, es);
  }
}
