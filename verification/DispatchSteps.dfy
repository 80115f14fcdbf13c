/** The asynchronous task protocol: submit handlers, a bounded channel, workers, two-phase cancels,
    waiters and the shutdown abandoner, interleaved one critical section or channel operation at a
    time (internal/tools/dispatcher.go, internal/tools/async.go, internal/taskstore/memory.go). */
module DispatchSteps {
  import opened Tasks
  import opened StoreSpec

  /** What a handler invocation comes back with; a recovered panic is a HandlerError. */
  datatype Result =
    | HandlerError(message: string)
    | NilResult
    | ToolError(message: string)
    | Success(result: Option<string>)

  /** Where a worker stands in runJob. `ctx` is the per-task context it created. */
  datatype Worker =
    | Idle
    | Taken(id: TaskID, ctx: Ctx)
    | Registered(id: TaskID, ctx: Ctx)
    | Published(id: TaskID, ctx: Ctx)
    | Executing(id: TaskID, ctx: Ctx)
    | Returned(id: TaskID, ctx: Ctx, result: Result)
    | Finishing(id: TaskID, ctx: Ctx, result: Result)
    | Unpublishing(id: TaskID, ctx: Ctx)
    | Releasing(id: TaskID, ctx: Ctx)
    | Exited
  {
    predicate HasJob() {
      !Idle? && !Exited?
    }

    /** The queued-to-running transition has not been attempted yet. */
    predicate IsEarly() {
      Taken? || Registered? || Published?
    }

    /** The task was moved to running by this worker, which still owes it an outcome. */
    predicate IsLate() {
      Executing? || Returned? || Finishing?
    }

    /** The outcome is settled or left to whoever cancelled. */
    predicate IsPast() {
      Unpublishing? || Releasing?
    }

    /** Between `d.running[id] = cancel` and `delete(d.running, id)`. */
    predicate IsPublic() {
      Published? || IsLate() || Unpublishing?
    }
  }

  datatype Item = Item(id: TaskID, ctx: Ctx)

  datatype Answer =
    | Finished(task: Task)
    | TimedOut(snapshot: Option<Task>)
    | WaitError(out: Outcome)

  /** Every client or server call made so far, and how far it has got. */
  datatype Call =
    | Submitted(id: TaskID)
    | Checked(id: TaskID)
    | RollingBack(id: TaskID, target: State)
    | SubmitReturned(id: TaskID)
    | Panicked(id: TaskID)
    | CancelFiring(id: TaskID, fire: Option<Ctx>, alreadyTerminal: bool)
    | CancelOwing(id: TaskID)
    | CancelReturned(id: TaskID, out: Outcome)
    | Waiting(id: TaskID)
    | WaitReturned(id: TaskID, answer: Answer)
    | Abandoning(items: seq<Item>, next: nat, settled: bool)
    | AbandonReturned(items: seq<Item>)
  {
    /** The call holds the task: it was recorded in the store and not yet handed over. */
    predicate HasToken() {
      Submitted? || Checked? || RollingBack? || Panicked?
    }

    predicate IsDone() {
      SubmitReturned? || CancelReturned? || WaitReturned? || AbandonReturned?
    }
  }

  /** History: who is responsible for a task that was submitted here. */
  datatype Place = InCall(c: nat) | InQueue | InWorker(w: nat) | Gone

  /** `at`, `ctxs` and `runs` are history: the place of every id ever submitted, the task of every
      context ever created, and the ids whose handler was started, in order. */
  datatype Sys = Sys(
    mem: Mem,
    queue: seq<TaskID>,
    cap: nat,
    flag: bool,
    chanClosed: bool,
    workers: seq<Worker>,
    running: map<TaskID, Ctx>,
    calls: seq<Call>,
    cancelled: set<Ctx>,
    at: map<TaskID, Place>,
    ctxs: seq<TaskID>,
    runs: seq<TaskID>)

  datatype Event =
    | SubmitTask(id: TaskID, kind: Kind, request: string, now: Time)
    | CheckFlag(c: nat)
    | Send(c: nat)
    | RollBack(c: nat, now: Time)
    | Take(w: nat)
    | Register(w: nat)
    | Publish(w: nat)
    | Start(w: nat, now: Time)
    | Return(w: nat, result: Result)
    | CheckCtx(w: nat)
    | Finish(w: nat, now: Time)
    | Unpublish(w: nat)
    | Release(w: nat)
    | Exit(w: nat)
    | BeginCancel(id: TaskID)
    | Fire(c: nat)
    | CommitCancel(c: nat, hint: string, now: Time)
    | BeginWait(id: TaskID)
    | Wake(c: nat)
    | TimeOut(c: nat)
    | BeginAbandon(order: seq<TaskID>)
    | AbandonOne(c: nat, reason: string, now: Time)
    | FireOne(c: nat)
    | EndAbandon(c: nat)
    | SetFlag
    | CloseChannel
    | CloseStore
  {
    predicate IsWorkerStep() {
      Take? || Register? || Publish? || Start? || Return? || CheckCtx? || Finish? || Unpublish? || Release? || Exit?
    }

    /** A critical section of the store that may write. */
    predicate WritesStore() {
      SubmitTask? || RollBack? || Register? || Start? || Finish? || CommitCancel? || AbandonOne? || CloseStore?
    }

    /** A step of a submit handler. */
    predicate IsSubmitStep() {
      SubmitTask? || CheckFlag? || Send? || RollBack?
    }

    predicate IsCloseStep() {
      SetFlag? || CloseChannel? || CloseStore?
    }

    /** A step of a canceller, a waiter or the abandoner. */
    predicate IsClientStep() {
      !IsWorkerStep() && !IsSubmitStep() && !IsCloseStep()
    }
  }

  // ---------- the edits passed to Store.Transition ----------

  function RunEdit(): TransitionFn {
    (t: Task) => Applied(t.(state := Running))
  }

  function FailEdit(message: string): TransitionFn {
    (t: Task) => Applied(t.(state := Failed, error := message))
  }

  function CompleteEdit(result: Option<string>): TransitionFn {
    (t: Task) => Applied(t.(state := Completed, result := result))
  }

  function AbandonEdit(reason: string): TransitionFn {
    var hint := if reason == "" then "shutdown" else reason;
    (t: Task) => Applied(t.(state := Abandoned, cancelHint := if t.cancelHint == "" then hint else t.cancelHint))
  }

  /** The submit handler's roll-back after a failed Dispatch. */
  function RollBackEdit(target: State): TransitionFn {
    (t: Task) => Applied(
      if target == Abandoned then
        t.(state := target, cancelHint := if t.cancelHint == "" then "dispatcher_closed" else t.cancelHint)
      else t.(state := target, error := "dispatch: tools: dispatcher queue full"))
  }

  /** What runJob records for a handler's result when its context was not cancelled. */
  function FinishEdit(result: Result): TransitionFn {
    match result
    case HandlerError(message) => FailEdit(message)
    case NilResult => FailEdit("handler returned nil result")
    case ToolError(message) => FailEdit(message)
    case Success(r) => CompleteEdit(r)
  }

  // ---------- the steps ----------

  /** The order in which Go happens to range over d.running. */
  ghost predicate IsListing(order: seq<TaskID>, running: map<TaskID, Ctx>) {
    && (forall id :: id in order <==> id in running)
    && (forall i, j :: 0 <= i < j < |order| ==> order[i] != order[j])
  }

  function Items(order: seq<TaskID>, running: map<TaskID, Ctx>): (items: seq<Item>)
    requires forall id :: id in order ==> id in running
    ensures |items| == |order|
    ensures forall i :: 0 <= i < |order| ==> items[i] == Item(order[i], running[order[i]])
  {
    seq(|order|, i requires 0 <= i < |order| => Item(order[i], running[order[i]]))
  }

  ghost predicate Enabled(s: Sys, e: Event) {
    match e
    case SubmitTask(id, _, _, _) => id != "" && id !in s.at && id !in s.mem.entries && id !in s.mem.released
    case CheckFlag(c) => c < |s.calls| && s.calls[c].Submitted?
    case Send(c) => c < |s.calls| && s.calls[c].Checked?
    case RollBack(c, _) => c < |s.calls| && s.calls[c].RollingBack?
    case Take(w) => w < |s.workers| && s.workers[w].Idle? && s.queue != []
    case Register(w) => w < |s.workers| && s.workers[w].Taken?
    case Publish(w) => w < |s.workers| && s.workers[w].Registered?
    case Start(w, _) => w < |s.workers| && s.workers[w].Published?
    case Return(w, _) => w < |s.workers| && s.workers[w].Executing?
    case CheckCtx(w) => w < |s.workers| && s.workers[w].Returned?
    case Finish(w, _) => w < |s.workers| && s.workers[w].Finishing?
    case Unpublish(w) => w < |s.workers| && s.workers[w].Unpublishing?
    case Release(w) => w < |s.workers| && s.workers[w].Releasing?
    case Exit(w) => w < |s.workers| && s.workers[w].Idle? && s.queue == [] && s.chanClosed
    case BeginCancel(_) => true
    case Fire(c) => c < |s.calls| && s.calls[c].CancelFiring?
    case CommitCancel(c, _, _) => c < |s.calls| && s.calls[c].CancelOwing?
    case BeginWait(_) => true
    case Wake(c) => c < |s.calls| && s.calls[c].Waiting? && s.calls[c].id in s.mem.released
    case TimeOut(c) => c < |s.calls| && s.calls[c].Waiting?
    case BeginAbandon(order) => IsListing(order, s.running)
    case AbandonOne(c, _, _) =>
      c < |s.calls| && s.calls[c].Abandoning? && !s.calls[c].settled && s.calls[c].next < |s.calls[c].items|
    case FireOne(c) =>
      c < |s.calls| && s.calls[c].Abandoning? && s.calls[c].settled && s.calls[c].next < |s.calls[c].items|
    case EndAbandon(c) =>
      c < |s.calls| && s.calls[c].Abandoning? && !s.calls[c].settled && s.calls[c].next >= |s.calls[c].items|
    case SetFlag => !s.flag
    case CloseChannel => s.flag && !s.chanClosed
    case CloseStore => true
  }

  function WithCall(s: Sys, c: nat, k: Call): Sys
    requires c < |s.calls|
  {
    s.(calls := s.calls[c := k])
  }

  function WithWorker(s: Sys, w: nat, k: Worker): Sys
    requires w < |s.workers|
  {
    s.(workers := s.workers[w := k])
  }

  function Snapshot(m: Mem, id: TaskID): Option<Task> {
    if id in m.entries then Some(m.entries[id].task) else None
  }

  /** The submit handler's Store.Submit; a refused one leaves no trace. */
  function SubmitStep(s: Sys, id: TaskID, kind: Kind, request: string, now: Time): Sys {
    var r := Submit(s.mem, id, kind, request, now);
    if r.out == Ok then s.(mem := r.mem, calls := s.calls + [Submitted(id)], at := s.at[id := InCall(|s.calls|)]) else s
  }

  /** The select in Dispatch: a send on a closed channel panics, a full channel is an error. */
  function SendStep(s: Sys, c: nat): Sys
    requires c < |s.calls| && s.calls[c].Checked?
  {
    var id := s.calls[c].id;
    if s.chanClosed then WithCall(s, c, Panicked(id))
    else if |s.queue| < s.cap then
      WithCall(s, c, SubmitReturned(id)).(queue := s.queue + [id], at := s.at[id := InQueue])
    else WithCall(s, c, RollingBack(id, Failed))
  }

  function RollBackStep(s: Sys, c: nat, now: Time): Sys
    requires c < |s.calls| && s.calls[c].RollingBack?
  {
    var id := s.calls[c].id;
    WithCall(s, c, SubmitReturned(id)).(
      mem := Transition(s.mem, id, RollBackEdit(s.calls[c].target), now).mem, at := s.at[id := Gone])
  }

  function TakeStep(s: Sys, w: nat): Sys
    requires w < |s.workers| && s.queue != []
  {
    var id := s.queue[0];
    WithWorker(s, w, Taken(id, |s.ctxs|)).(queue := s.queue[1..], at := s.at[id := InWorker(w)], ctxs := s.ctxs + [id])
  }

  function RegisterStep(s: Sys, w: nat): Sys
    requires w < |s.workers| && s.workers[w].Taken?
  {
    var id, ctx := s.workers[w].id, s.workers[w].ctx;
    var (m, out) := RegisterCancel(s.mem, id, ctx);
    WithWorker(s, w, if out == Ok then Registered(id, ctx) else Releasing(id, ctx)).(mem := m)
  }

  function PublishStep(s: Sys, w: nat): Sys
    requires w < |s.workers| && s.workers[w].Registered?
  {
    var id, ctx := s.workers[w].id, s.workers[w].ctx;
    WithWorker(s, w, Published(id, ctx)).(running := s.running[id := ctx])
  }

  function StartStep(s: Sys, w: nat, now: Time): Sys
    requires w < |s.workers| && s.workers[w].Published?
  {
    var id, ctx := s.workers[w].id, s.workers[w].ctx;
    var t := Transition(s.mem, id, RunEdit(), now);
    if t.out == Ok then WithWorker(s, w, Executing(id, ctx)).(mem := t.mem, runs := s.runs + [id])
    else WithWorker(s, w, Unpublishing(id, ctx)).(mem := t.mem)
  }

  function CheckCtxStep(s: Sys, w: nat): Sys
    requires w < |s.workers| && s.workers[w].Returned?
  {
    var id, ctx := s.workers[w].id, s.workers[w].ctx;
    WithWorker(s, w, if ctx in s.cancelled then Unpublishing(id, ctx) else Finishing(id, ctx, s.workers[w].result))
  }

  function FinishStep(s: Sys, w: nat, now: Time): Sys
    requires w < |s.workers| && s.workers[w].Finishing?
  {
    var id, ctx := s.workers[w].id, s.workers[w].ctx;
    WithWorker(s, w, Unpublishing(id, ctx)).(mem := Transition(s.mem, id, FinishEdit(s.workers[w].result), now).mem)
  }

  function UnpublishStep(s: Sys, w: nat): Sys
    requires w < |s.workers| && s.workers[w].Unpublishing?
  {
    var id, ctx := s.workers[w].id, s.workers[w].ctx;
    WithWorker(s, w, Releasing(id, ctx)).(running := s.running - {id})
  }

  function ReleaseStep(s: Sys, w: nat): Sys
    requires w < |s.workers| && s.workers[w].Releasing?
  {
    var id, ctx := s.workers[w].id, s.workers[w].ctx;
    WithWorker(s, w, Idle).(cancelled := s.cancelled + {ctx}, at := s.at[id := Gone])
  }

  function BeginCancelStep(s: Sys, id: TaskID): Sys {
    var k := match CancelRead(s.mem, id)
      case CancelFails(out) => CancelReturned(id, out)
      case CancelSees(fire, alreadyTerminal) => CancelFiring(id, fire, alreadyTerminal);
    s.(calls := s.calls + [k])
  }

  function FireStep(s: Sys, c: nat): Sys
    requires c < |s.calls| && s.calls[c].CancelFiring?
  {
    var k := s.calls[c];
    WithCall(s, c, if k.alreadyTerminal then CancelReturned(k.id, Ok) else CancelOwing(k.id)).(
      cancelled := if k.fire.Some? then s.cancelled + {k.fire.value} else s.cancelled)
  }

  function CommitCancelStep(s: Sys, c: nat, hint: string, now: Time): Sys
    requires c < |s.calls| && s.calls[c].CancelOwing?
  {
    var id := s.calls[c].id;
    var t := CancelCommit(s.mem, id, hint, now);
    WithCall(s, c, CancelReturned(id, t.out)).(mem := t.mem)
  }

  function BeginWaitStep(s: Sys, id: TaskID): Sys {
    var k := match WaitRead(s.mem, id)
      case WaitFails(out) => WaitReturned(id, WaitError(out))
      case WaitReturns(task) => WaitReturned(id, Finished(task))
      case WaitBlocks => Waiting(id);
    s.(calls := s.calls + [k])
  }

  /** The done channel was closed: read the record again. */
  function WakeStep(s: Sys, c: nat): Sys
    requires c < |s.calls| && s.calls[c].Waiting?
  {
    var id := s.calls[c].id;
    WithCall(s, c,
          WaitReturned(id, if id in s.mem.entries then Finished(s.mem.entries[id].task) else WaitError(NotFound)))
  }

  /** The snapshot AbandonRunning takes under runningMu. */
  function BeginAbandonStep(s: Sys, order: seq<TaskID>): Sys
    requires forall id :: id in order ==> id in s.running
  {
    s.(calls := s.calls + [Abandoning(Items(order, s.running), 0, false)])
  }

  function AbandonOneStep(s: Sys, c: nat, reason: string, now: Time): Sys
    requires c < |s.calls| && s.calls[c].Abandoning? && s.calls[c].next < |s.calls[c].items|
  {
    var k := s.calls[c];
    WithCall(s, c, k.(settled := true)).(mem := Transition(s.mem, k.items[k.next].id, AbandonEdit(reason), now).mem)
  }

  function FireOneStep(s: Sys, c: nat): Sys
    requires c < |s.calls| && s.calls[c].Abandoning? && s.calls[c].next < |s.calls[c].items|
  {
    var k := s.calls[c];
    WithCall(s, c, Abandoning(k.items, k.next + 1, false)).(cancelled := s.cancelled + {k.items[k.next].ctx})
  }

  ghost function Next(s: Sys, e: Event): Sys
    requires Enabled(s, e)
  {
    match e
    case SubmitTask(id, kind, request, now) => SubmitStep(s, id, kind, request, now)
    case CheckFlag(c) =>
      var id := s.calls[c].id;
      WithCall(s, c, if s.flag then RollingBack(id, Abandoned) else Checked(id))
    case Send(c) => SendStep(s, c)
    case RollBack(c, now) => RollBackStep(s, c, now)
    case Take(w) => TakeStep(s, w)
    case Register(w) => RegisterStep(s, w)
    case Publish(w) => PublishStep(s, w)
    case Start(w, now) => StartStep(s, w, now)
    case Return(w, result) => WithWorker(s, w, Returned(s.workers[w].id, s.workers[w].ctx, result))
    case CheckCtx(w) => CheckCtxStep(s, w)
    case Finish(w, now) => FinishStep(s, w, now)
    case Unpublish(w) => UnpublishStep(s, w)
    case Release(w) => ReleaseStep(s, w)
    case Exit(w) => WithWorker(s, w, Exited)
    case BeginCancel(id) => BeginCancelStep(s, id)
    case Fire(c) => FireStep(s, c)
    case CommitCancel(c, hint, now) => CommitCancelStep(s, c, hint, now)
    case BeginWait(id) => BeginWaitStep(s, id)
    case Wake(c) => WakeStep(s, c)
    case TimeOut(c) =>
      var id := s.calls[c].id;
      WithCall(s, c, WaitReturned(id, TimedOut(Snapshot(s.mem, id))))
    case BeginAbandon(order) => BeginAbandonStep(s, order)
    case AbandonOne(c, reason, now) => AbandonOneStep(s, c, reason, now)
    case FireOne(c) => FireOneStep(s, c)
    case EndAbandon(c) => WithCall(s, c, AbandonReturned(s.calls[c].items))
    case SetFlag => s.(flag := true)
    case CloseChannel => s.(chanClosed := true)
    case CloseStore => s.(mem := s.mem.(closed := true))
  }

  lemma StoreUntouched(s: Sys, e: Event)
    requires Enabled(s, e) && !e.WritesStore()
    ensures Next(s, e).mem == s.mem
  {
    if e.IsWorkerStep() {
      StoreUntouchedByWorker(s, e);
    } else {
      hide CancelRead, WaitRead;
    }
  }

  lemma StoreUntouchedByWorker(s: Sys, e: Event)
    requires Enabled(s, e) && !e.WritesStore() && e.IsWorkerStep()
    ensures Next(s, e).mem == s.mem
  {
  }

  function Put(calls: seq<Call>, c: nat, k: Call): seq<Call>
    requires c <= |calls|
  {
    if c < |calls| then calls[c := k] else calls + [k]
  }

  /** The call a client step advances, or is about to create. */
  function CallOf(s: Sys, e: Event): nat
    requires e.IsClientStep()
  {
    if e.BeginCancel? || e.BeginWait? || e.BeginAbandon? then |s.calls| else e.c
  }

  /** Client steps touch only the store, their own call, and the set of cancelled contexts. */
  lemma ClientFrame(s: Sys, e: Event)
    requires Enabled(s, e) && e.IsClientStep()
    ensures var t, c := Next(s, e), CallOf(s, e);
            && t == s.(mem := t.mem, calls := t.calls, cancelled := t.cancelled)
            && c <= |s.calls| && c < |t.calls| && t.calls == Put(s.calls, c, t.calls[c]) && !t.calls[c].HasToken()
            && (c < |s.calls| ==> !s.calls[c].HasToken())
  {
    hide Transition, CancelCommit, CancelRead, WaitRead;
  }

  ghost function After(s: Sys, es: seq<Event>): Sys
    requires IsRun(s, es)
    decreases |es|
  {
    if es == [] then s else After(Next(s, es[0]), es[1..])
  }

  ghost predicate IsRun(s: Sys, es: seq<Event>)
    decreases |es|
  {
    es == [] || (Enabled(s, es[0]) && IsRun(Next(s, es[0]), es[1..]))
  }

  /** NewDispatcher over a store in which every record of this process is finished, as it is when
      new or after replay. */
  ghost predicate Initial(s: Sys, workers: int, queueSize: int) {
    && MemValid(s.mem)
    && (forall id :: id in s.mem.entries && s.mem.entries[id].task.pid == s.mem.pid ==>
          s.mem.entries[id].task.state.IsTerminal())
    && s == Sys(s.mem, [], Clamp(queueSize, 256, 10000), false, false,
                seq(Clamp(workers, 16, 100), _ => Idle), map[], [], {}, map[], [], [])
  }
}
