/** Shutdown of the dispatcher: the drain terminates, AbandonRunning covers every executing handler,
    and closing the channel is safe exactly when no Dispatch is between its check and its send. */
module DispatchShutdown {
  import opened Tasks
  import opened StoreSpec
  import opened DispatchSteps
  import opened DispatchTokens
  import opened DispatchStore
  import opened DispatchInvariant
  import opened DispatchLaws

  // ---------- the drain ----------

  /** Steps a worker may still take before it asks for another job. */
  function Steps(k: Worker): nat {
    match k
    case Exited => 0
    case Idle => 1
    case Releasing(_, _) => 2
    case Unpublishing(_, _) => 3
    case Finishing(_, _, _) => 4
    case Returned(_, _, _) => 5
    case Executing(_, _) => 6
    case Published(_, _) => 7
    case Registered(_, _) => 8
    case Taken(_, _) => 9
  }

  function Remaining(workers: seq<Worker>): nat {
    if workers == [] then 0 else Remaining(workers[..|workers| - 1]) + Steps(workers[|workers| - 1])
  }

  function Measure(s: Sys): nat {
    9 * |s.queue| + Remaining(s.workers)
  }

  lemma {:induction false} RemainingPut(workers: seq<Worker>, w: nat, k: Worker)
    requires w < |workers|
    ensures Remaining(workers[w := k]) == Remaining(workers) - Steps(workers[w]) + Steps(k)
    decreases |workers|
  {
    var p := workers[..|workers| - 1];
    if w == |workers| - 1 {
      assert workers[w := k][..|workers| - 1] == p;
    } else {
      assert workers[w := k][..|workers| - 1] == p[w := k];
      RemainingPut(p, w, k);
    }
  }

  lemma RegisterFalls(s: Sys, e: Event)
    requires Enabled(s, e) && e.Register?
    ensures e.w < |Next(s, e).workers| && Steps(Next(s, e).workers[e.w]) < Steps(s.workers[e.w])
  {
    hide RegisterCancel;
  }

  lemma EarlyStepFalls(s: Sys, e: Event)
    requires Enabled(s, e) && (e.Publish? || e.Start?)
    ensures e.w < |Next(s, e).workers| && Steps(Next(s, e).workers[e.w]) < Steps(s.workers[e.w])
  {
    hide Transition;
  }

  lemma LateStepFalls(s: Sys, e: Event)
    requires Enabled(s, e) && (e.Return? || e.CheckCtx? || e.Finish? || e.Unpublish?)
    ensures e.w < |Next(s, e).workers| && Steps(Next(s, e).workers[e.w]) < Steps(s.workers[e.w])
  {
    hide Transition;
  }

  /** Every worker step lowers the measure, whatever state the protocol is in. */
  lemma WorkerStepFalls(s: Sys, e: Event)
    requires Enabled(s, e) && e.IsWorkerStep()
    ensures Measure(Next(s, e)) < Measure(s)
  {
    hide Remaining;
    if KeepsTaskStep(e) {
      hide Next, Enabled, Steps;
      if e.Register? {
        RegisterFalls(s, e);
      } else if e.Publish? || e.Start? {
        EarlyStepFalls(s, e);
      } else {
        LateStepFalls(s, e);
      }
      WorkerFrame(s, e);
      RemainingPut(s.workers, e.w, Next(s, e).workers[e.w]);
    } else {
      RemainingPut(s.workers, e.w, Next(s, e).workers[e.w]);
    }
  }

  /** After close no other step raises it: a late send panics instead of queueing. */
  lemma OtherStepKeeps(s: Sys, e: Event)
    requires Enabled(s, e) && !e.IsWorkerStep() && s.chanClosed
    ensures Measure(Next(s, e)) == Measure(s) && Next(s, e).chanClosed
  {
    if e.IsClientStep() {
      hide Next, Enabled;
      ClientFrame(s, e);
    } else {
      hide Transition, Submit;
    }
  }

  lemma WorkerStepKeepsChannel(s: Sys, e: Event)
    requires Enabled(s, e) && e.IsWorkerStep()
    ensures Next(s, e).chanClosed == s.chanClosed
  {
    if KeepsTaskStep(e) {
      hide Next, Enabled;
      WorkerFrame(s, e);
    }
  }

  function WorkerSteps(es: seq<Event>): nat {
    if es == [] then 0 else (if es[0].IsWorkerStep() then 1 else 0) + WorkerSteps(es[1..])
  }

  /** In any run after close, however the other calls interleave, the workers take at most
      Measure steps. */
  lemma {:induction false} DrainIsBounded(s: Sys, es: seq<Event>)
    requires s.chanClosed && IsRun(s, es)
    ensures WorkerSteps(es) + Measure(After(s, es)) <= Measure(s) && After(s, es).chanClosed
    decreases |es|
  {
    hide Enabled, Next, Measure;
    if es != [] {
      if es[0].IsWorkerStep() {
        WorkerStepFalls(s, es[0]);
        WorkerStepKeepsChannel(s, es[0]);
      } else {
        OtherStepKeeps(s, es[0]);
      }
      DrainIsBounded(Next(s, es[0]), es[1..]);
    }
  }

  /** What worker w does next; a handler that is executing returns with `result`. */
  function StepOf(s: Sys, w: nat, result: Result, now: Time): Event
    requires w < |s.workers| && !s.workers[w].Exited?
  {
    match s.workers[w]
    case Idle => if s.queue != [] then Take(w) else Exit(w)
    case Taken(_, _) => Register(w)
    case Registered(_, _) => Publish(w)
    case Published(_, _) => Start(w, now)
    case Executing(_, _) => Return(w, result)
    case Returned(_, _, _) => CheckCtx(w)
    case Finishing(_, _, _) => Finish(w, now)
    case Unpublishing(_, _) => Unpublish(w)
    case Releasing(_, _) => Release(w)
  }

  /** No worker is ever stuck: after close each one that has not left has a step. */
  lemma WorkerCanStep(s: Sys, w: nat, result: Result, now: Time)
    requires s.chanClosed && w < |s.workers| && !s.workers[w].Exited?
    ensures Enabled(s, StepOf(s, w, result, now)) && StepOf(s, w, result, now).IsWorkerStep()
  {
  }

  ghost predicate AllExited(s: Sys) {
    forall w :: 0 <= w < |s.workers| ==> s.workers[w].Exited?
  }

  lemma ExitedIsEmpty(s: Sys)
    requires Inv(s) && AllExited(s) && |s.workers| > 0
    ensures s.queue == [] && s.running == map[]
  {
    hide MemValid, TokensOk, Known, CancelsOk, StatesOk, CancelledOk, CallsOk, QueueBound, CtxsOk, RunsOk;
    assert s.workers[0].Exited?;
    assert forall id :: id !in s.running;
  }

  /** No worker has a step left. */
  ghost predicate WorkersStuck(s: Sys) {
    forall e: Event :: e.IsWorkerStep() ==> !Enabled(s, e)
  }

  /** The shutdown drain terminates, in every run: whatever the handlers return and whatever interleaves
      after the channel was closed, a run cannot stop with a worker still there. If no worker has a step
      left then all have exited, the channel is empty and d.running is empty; and by DrainIsBounded the
      workers run out of steps. */
  lemma DrainTerminates(s: Sys, es: seq<Event>)
    requires Inv(s) && s.chanClosed && |s.workers| > 0 && IsRun(s, es) && WorkersStuck(After(s, es))
    ensures var t := After(s, es);
            AllExited(t) && t.queue == [] && t.running == map[] && WorkerSteps(es) <= Measure(s)
  {
    hide Inv, Measure, Enabled, IsRun, After;
    var t := After(s, es);
    RunKeepsInv(s, es);
    DrainKeepsWorkers(s, es);
    DrainIsBounded(s, es);
    forall w | 0 <= w < |t.workers|
      ensures t.workers[w].Exited?
    {
      if !t.workers[w].Exited? {
        WorkerCanStep(t, w, NilResult, ZERO_TIME);
      }
    }
    ExitedIsEmpty(t);
  }

  /** And the workers alone can always get there, with any result per handler and any clock. */
  lemma {:induction false} DrainCanFinish(s: Sys, results: TaskID -> Result, clock: TaskID -> Time)
    returns (es: seq<Event>)
    requires Inv(s) && s.chanClosed && |s.workers| > 0
    ensures IsRun(s, es) && |es| <= Measure(s) && forall i :: 0 <= i < |es| ==> es[i].IsWorkerStep()
    ensures var t := After(s, es); Inv(t) && AllExited(t) && t.queue == [] && t.running == map[]
    decreases Measure(s)
  {
    hide Inv, Enabled, Next, Measure, StepOf;
    if w :| 0 <= w < |s.workers| && !s.workers[w].Exited? {
      var id := if s.workers[w].HasJob() then s.workers[w].id else "";
      var e := StepOf(s, w, results(id), clock(id));
      WorkerCanStep(s, w, results(id), clock(id));
      WorkerStepFalls(s, e);
      WorkerStepKeepsChannel(s, e);
      InvStep(s, e);
      StepShape(s, e);
      var rest := DrainCanFinish(Next(s, e), results, clock);
      es := [e] + rest;
      assert es[1..] == rest;
    } else {
      es := [];
      ExitedIsEmpty(s);
    }
  }

  lemma {:induction false} WorkersTouchNoCall(s: Sys, es: seq<Event>)
    requires Inv(s) && IsRun(s, es) && forall i :: 0 <= i < |es| ==> es[i].IsWorkerStep()
    ensures After(s, es).calls == s.calls && After(s, es).mem.closed == s.mem.closed
    ensures s.at.Keys <= After(s, es).at.Keys
    decreases |es|
  {
    hide Inv, Enabled, Next, Evolves, MemValid, Tokens, CallOk, KnownId, StateOk, CancelledOk;
    if es != [] {
      InvParts(s);
      CallsUntouched(s, es[0]);
      StoreKept(s, es[0], "");
      BooksGrow(s, es[0]);
      InvStep(s, es[0]);
      WorkersTouchNoCall(Next(s, es[0]), es[1..]);
    }
  }

  /** Shutdown settles everything, in every run: once the channel is closed, at any state in which no
      worker has a step left, every call has returned and the store is still open, all workers are gone,
      d.running is empty, and every task of this process is terminal or evicted, tasks that were still
      in the channel included. */
  lemma ShutdownSettlesAll(s: Sys, es: seq<Event>)
    requires Inv(s) && s.chanClosed && |s.workers| > 0 && IsRun(s, es)
    requires var t := After(s, es);
             WorkersStuck(t) && !t.mem.closed && forall c :: 0 <= c < |t.calls| ==> t.calls[c].IsDone()
    ensures var t := After(s, es);
            && AllExited(t) && t.queue == [] && t.running == map[]
            && (forall id :: id in t.at ==> Over(t.mem, id))
            && (forall id :: id in t.mem.entries && t.mem.entries[id].task.pid == t.mem.pid ==> Over(t.mem, id))
  {
    hide Inv, IsRun, After, WorkersStuck, Over;
    var t := After(s, es);
    DrainTerminates(s, es);
    RunKeepsInv(s, es);
    DrainKeepsWorkers(s, es);
    forall id | id in t.at || (id in t.mem.entries && t.mem.entries[id].task.pid == t.mem.pid)
      ensures Over(t.mem, id)
    {
      QuiescentIsOver(t, id);
    }
  }

  /** The program's own shutdown reaches such a state: with no call pending and the store open, flag,
      channel and then at most Measure worker steps, with any result per handler and any clock. */
  lemma ShutdownCanFinish(s: Sys, results: TaskID -> Result, clock: TaskID -> Time) returns (es: seq<Event>)
    requires Inv(s) && |s.workers| > 0 && !s.mem.closed && Enabled(s, SetFlag) && !s.chanClosed
    requires forall c :: 0 <= c < |s.calls| ==> s.calls[c].IsDone()
    ensures var b := s.(flag := true, chanClosed := true);
            && b == Next(Next(s, SetFlag), CloseChannel) && IsRun(b, es) && |es| <= Measure(s)
            && var t := After(b, es);
               && AllExited(t) && t.queue == [] && t.running == map[]
               && (forall id :: id in t.at ==> Over(t.mem, id)) && s.at.Keys <= t.at.Keys
               && (forall id :: id in t.mem.entries && t.mem.entries[id].task.pid == t.mem.pid ==> Over(t.mem, id))
  {
    var b := s.(flag := true, chanClosed := true);
    CloseSteps(s);
    InvStep(s, SetFlag);
    InvStep(s.(flag := true), CloseChannel);
    hide Inv, IsRun, After, Enabled, Next, Over;
    es := DrainCanFinish(b, results, clock);
    WorkersTouchNoCall(b, es);
    var t := After(b, es);
    DrainKeepsWorkers(b, es);
    forall id | id in t.at || (id in t.mem.entries && t.mem.entries[id].task.pid == t.mem.pid)
      ensures Over(t.mem, id)
    {
      QuiescentIsOver(t, id);
    }
  }

  lemma DrainKeepsWorkers(s: Sys, es: seq<Event>)
    requires Inv(s) && s.chanClosed && IsRun(s, es)
    ensures |After(s, es).workers| == |s.workers| && After(s, es).chanClosed
  {
    hide Inv, Measure;
    RunShape(s, es);
    DrainIsBounded(s, es);
  }

  // ---------- AbandonRunning ----------

  ghost predicate AbandonCall(k: Call, items: seq<Item>) {
    (k.Abandoning? || k.AbandonReturned?) && k.items == items
  }

  lemma AbandonKeepsItems(s: Sys, e: Event, c: nat, items: seq<Item>)
    requires Enabled(s, e) && c < |s.calls| && AbandonCall(s.calls[c], items)
    ensures var t := Next(s, e); c < |t.calls| && AbandonCall(t.calls[c], items)
  {
    if e.IsClientStep() {
      ClientFrame(s, e);
      if CallOf(s, e) < |s.calls| {
        AbandonAdvances(s, e);
      }
    } else if !e.IsSubmitStep() {
      CallsUntouched(s, e);
    }
  }

  lemma AbandonAdvances(s: Sys, e: Event)
    requires Enabled(s, e) && e.IsClientStep() && CallOf(s, e) < |s.calls|
    ensures var k, l := s.calls[e.c], Next(s, e).calls[e.c];
            k.Abandoning? || k.AbandonReturned? ==> AbandonCall(l, k.items)
  {
    hide Transition, CancelCommit;
  }

  lemma {:induction false} AbandonRunKeepsItems(s: Sys, es: seq<Event>, c: nat, items: seq<Item>)
    requires IsRun(s, es) && c < |s.calls| && AbandonCall(s.calls[c], items)
    ensures var t := After(s, es); c < |t.calls| && AbandonCall(t.calls[c], items)
    decreases |es|
  {
    hide Enabled, Next, AbandonCall;
    if es != [] {
      AbandonKeepsItems(s, es[0], c, items);
      AbandonRunKeepsItems(Next(s, es[0]), es[1..], c, items);
    }
  }

  /** Every handler being executed is in d.running under its own context. */
  lemma ExecutingIsPublished(s: Sys, w: nat)
    requires Inv(s) && w < |s.workers| && s.workers[w].IsLate()
    ensures s.workers[w].id in s.running && s.running[s.workers[w].id] == s.workers[w].ctx
  {
    hide MemValid, TokensOk, Known, CancelsOk, StatesOk, CancelledOk, CallsOk, QueueBound, CtxsOk, RunsOk, ExecutingOk;
  }

  /** AbandonRunning covers its whole snapshot: every id in d.running when it starts, published or
      executing or about to be unpublished. Whatever interleaves before it returns, with the store open
      each of those tasks is terminal or evicted and the context listed for it is cancelled. */
  lemma AbandonCoversSnapshot(s: Sys, order: seq<TaskID>, es: seq<Event>, id: TaskID)
    requires Inv(s) && Enabled(s, BeginAbandon(order)) && IsRun(Next(s, BeginAbandon(order)), es)
    requires var t := After(Next(s, BeginAbandon(order)), es);
             |s.calls| < |t.calls| && t.calls[|s.calls|].AbandonReturned? && !t.mem.closed
    requires id in s.running
    ensures var t := After(Next(s, BeginAbandon(order)), es);
            Over(t.mem, id) && s.running[id] in t.cancelled
  {
    hide Inv, After, IsRun, MemValid, Tokens, Over;
    var c, items := |s.calls|, Items(order, s.running);
    var b := Next(s, BeginAbandon(order));
    InvStep(s, BeginAbandon(order));
    hide Next;
    RunKeepsInv(b, es);
    AbandonRunKeepsItems(b, es, c, items);
    var j :| 0 <= j < |order| && order[j] == id;
    var t := After(b, es);
    InvParts(t);
    assert CallOk(t, t.calls[c]) && ItemOk(t, items[j], true, true);
    ReleasedIsOver(t.mem, id);
  }

  /** In particular it covers every handler executing at that moment. */
  lemma AbandonCoversExecuting(s: Sys, order: seq<TaskID>, es: seq<Event>, w: nat)
    requires Inv(s) && Enabled(s, BeginAbandon(order)) && IsRun(Next(s, BeginAbandon(order)), es)
    requires var t := After(Next(s, BeginAbandon(order)), es);
             |s.calls| < |t.calls| && t.calls[|s.calls|].AbandonReturned? && !t.mem.closed
    requires w < |s.workers| && s.workers[w].IsLate()
    ensures var t := After(Next(s, BeginAbandon(order)), es);
            Over(t.mem, s.workers[w].id) && s.workers[w].ctx in t.cancelled
  {
    hide Inv, After, IsRun, Enabled, Next, Over;
    ExecutingIsPublished(s, w);
    AbandonCoversSnapshot(s, order, es, s.workers[w].id);
  }

  // ---------- closing the channel under a Dispatch ----------

  ghost predicate NoneChecked(s: Sys) {
    forall c :: 0 <= c < |s.calls| ==> !s.calls[c].Checked?
  }

  ghost predicate NonePanicked(s: Sys) {
    forall c :: 0 <= c < |s.calls| ==> !s.calls[c].Panicked?
  }

  lemma NoPanicStep(s: Sys, e: Event)
    requires Enabled(s, e) && s.flag && s.chanClosed && NoneChecked(s) && NonePanicked(s)
    ensures var t := Next(s, e); t.flag && t.chanClosed && NoneChecked(t) && NonePanicked(t)
  {
    if e.IsClientStep() {
      hide Next, Enabled;
      ClientFrame(s, e);
    } else if e.IsSubmitStep() {
      hide Transition, Submit;
    } else {
      CallsUntouched(s, e);
      if e.IsWorkerStep() {
        WorkerStepKeepsFlags(s, e);
      }
    }
  }

  lemma WorkerStepKeepsFlags(s: Sys, e: Event)
    requires Enabled(s, e) && e.IsWorkerStep()
    ensures Next(s, e).chanClosed == s.chanClosed && Next(s, e).flag == s.flag
  {
    if KeepsTaskStep(e) {
      hide Next, Enabled;
      WorkerFrame(s, e);
    }
  }

  lemma {:induction false} NoPanicRun(s: Sys, es: seq<Event>)
    requires IsRun(s, es) && s.flag && s.chanClosed && NoneChecked(s) && NonePanicked(s)
    ensures NonePanicked(After(s, es))
    decreases |es|
  {
    hide Enabled, Next, NoneChecked, NonePanicked;
    if es != [] {
      NoPanicStep(s, es[0]);
      NoPanicRun(Next(s, es[0]), es[1..]);
    }
  }

  /** Closing the channel can make some later Dispatch panic exactly when, at that moment, a submit
      handler has seen the flag unset and not yet sent. */
  lemma CloseIsSafeIff(s: Sys)
    requires Enabled(s, CloseChannel) && NonePanicked(s)
    ensures (forall es :: IsRun(Next(s, CloseChannel), es) ==> NonePanicked(After(Next(s, CloseChannel), es)))
            <==> NoneChecked(s)
  {
    var t := Next(s, CloseChannel);
    if NoneChecked(s) {
      forall es | IsRun(t, es)
        ensures NonePanicked(After(t, es))
      {
        NoPanicRun(t, es);
      }
    } else {
      var c :| 0 <= c < |s.calls| && s.calls[c].Checked?;
      SendPanics(t, c);
    }
  }

  lemma SendPanics(t: Sys, c: nat)
    requires t.chanClosed && c < |t.calls| && t.calls[c].Checked?
    ensures IsRun(t, [Send(c)]) && After(t, [Send(c)]) == WithCall(t, c, Panicked(t.calls[c].id))
    ensures !NonePanicked(After(t, [Send(c)]))
  {
    hide Enabled, Next;
    LateSendPanics(t, c);
    var u := Next(t, Send(c));
    assert [Send(c)][1..] == [];
    assert IsRun(u, []) && After(u, []) == u;
    assert u.calls[c].Panicked?;
  }

  /** The task of a panicked Dispatch: recorded, queued in the store, held by nobody who will act. */
  ghost predicate Orphan(s: Sys, c: nat, id: TaskID) {
    && c < |s.calls| && s.calls[c] == Panicked(id)
    && id in s.mem.entries && s.mem.entries[id].task.state == Queued && !s.mem.closed
    && (forall d :: 0 <= d < |s.calls| ==>
          !(s.calls[d].CancelFiring? && s.calls[d].id == id) && s.calls[d] != CancelOwing(id))
  }

  lemma OrphanKeptByClient(s: Sys, e: Event, c: nat, id: TaskID)
    requires Inv(s) && Orphan(s, c, id) && Enabled(s, e) && e.IsClientStep() && e != BeginCancel(id)
    ensures Orphan(Next(s, e), c, id)
  {
    hide Inv, Tokens, MemValid, StateOk, KnownId, CancelledOk, CallOk, Next;
    InvParts(s);
    ClientFrame(s, e);
    OrphanSubject(s, e, c, id);
    StoreKept(s, e, id);
    OrphanLive(s, Next(s, e), e, id);
    OrphanCalls(s, e, id);
  }

  /** No canceller and no abandoner works on the orphan. */
  lemma OrphanSubject(s: Sys, e: Event, c: nat, id: TaskID)
    requires Inv(s) && Orphan(s, c, id) && Enabled(s, e) && e.IsClientStep()
    ensures Subject(s, e) != id
  {
    hide Inv, MemValid, StateOk, CancelledOk;
    InvParts(s);
    OrphanPlace(s, c, id);
    assert KnownId(s.mem, id);
    if e.AbandonOne? {
      var k := s.calls[e.c];
      assert CallOk(s, k) && ItemOk(s, k.items[k.next], false, false);
    }
  }

  lemma OrphanPlace(s: Sys, c: nat, id: TaskID)
    requires Tokens(s) && c < |s.calls| && s.calls[c] == Panicked(id)
    ensures id in s.at && s.at[id] == InCall(c) && id !in s.ctxs
    ensures forall d :: 0 <= d < |s.calls| && d != c && s.calls[d].HasToken() ==> s.calls[d].id != id
    ensures forall w :: 0 <= w < |s.workers| && s.workers[w].HasJob() ==> s.workers[w].id != id
    ensures id !in s.queue
  {
    hide RunningOk, RunsOk, ExecutingOk, PlacesOk;
  }

  lemma OrphanLive(s: Sys, t: Sys, e: Event, id: TaskID)
    requires MemValid(s.mem) && StoreMoves(s, t, e, id) && Subject(s, e) != id
    requires e != CloseStore && !s.mem.closed
    requires id in s.mem.entries && s.mem.entries[id].task.state == Queued
    ensures id in t.mem.entries && t.mem.entries[id].task.state == Queued && !t.mem.closed
  {
    hide MemValid, Subject;
    TerminalIsReleased(s.mem, id);
  }

  lemma OrphanCalls(s: Sys, e: Event, id: TaskID)
    requires Enabled(s, e) && e.IsClientStep() && e != BeginCancel(id)
    requires forall d :: 0 <= d < |s.calls| ==>
               !(s.calls[d].CancelFiring? && s.calls[d].id == id) && s.calls[d] != CancelOwing(id)
    ensures var k := Next(s, e).calls[CallOf(s, e)]; !(k.CancelFiring? && k.id == id) && k != CancelOwing(id)
  {
    hide Transition, CancelCommit;
  }

  lemma OrphanKeptBySubmit(s: Sys, e: Event, c: nat, id: TaskID)
    requires Inv(s) && Orphan(s, c, id) && Enabled(s, e) && e.IsSubmitStep()
    ensures Orphan(Next(s, e), c, id)
  {
    hide Inv, Tokens, MemValid, StateOk, KnownId, CancelledOk, CallOk, Transition, Submit, StoreMoves;
    InvParts(s);
    OrphanPlace(s, c, id);
    if e.SubmitTask? {
      SubmitGrows(s, e);
    } else {
      KnownIsNamed(s.mem, id);
      StoreKept(s, e, id);
      OrphanLive(s, Next(s, e), e, id);
      hide Subject;
      OrphanCallKept(s, e, c, id);
    }
  }

  lemma OrphanCallKept(s: Sys, e: Event, c: nat, id: TaskID)
    requires Enabled(s, e) && e.IsSubmitStep() && !e.SubmitTask? && c < |s.calls| && s.calls[c] == Panicked(id)
    ensures var t := Next(s, e);
            && |t.calls| == |s.calls| && t.calls[c] == Panicked(id)
            && forall d :: 0 <= d < |t.calls| && t.calls[d] != s.calls[d] ==>
                  !t.calls[d].CancelFiring? && !t.calls[d].CancelOwing?
  {
    hide Transition;
  }

  lemma OrphanKeptByWorker(s: Sys, e: Event, c: nat, id: TaskID)
    requires Inv(s) && Orphan(s, c, id) && Enabled(s, e) && e.IsWorkerStep()
    ensures Orphan(Next(s, e), c, id)
  {
    hide Inv, Tokens, MemValid, StateOk, KnownId, CancelledOk, CallOk, Next;
    InvParts(s);
    OrphanPlace(s, c, id);
    CallsUntouched(s, e);
    KnownIsNamed(s.mem, id);
    StoreKept(s, e, id);
    OrphanLive(s, Next(s, e), e, id);
  }

  /** As long as the store stays open and nobody asks to cancel that very task, every step of every
      other party leaves the orphan queued. */
  lemma {:induction false} OrphanStaysQueued(s: Sys, c: nat, id: TaskID, es: seq<Event>)
    requires Inv(s) && Orphan(s, c, id) && IsRun(s, es)
    requires forall i :: 0 <= i < |es| ==> es[i] != BeginCancel(id) && es[i] != CloseStore
    ensures Orphan(After(s, es), c, id)
    decreases |es|
  {
    hide Inv, Orphan, Enabled, Next;
    if es != [] {
      var e := es[0];
      InvStep(s, e);
      if e.IsClientStep() {
        OrphanKeptByClient(s, e, c, id);
      } else if e.IsSubmitStep() {
        OrphanKeptBySubmit(s, e, c, id);
      } else if e.IsWorkerStep() {
        OrphanKeptByWorker(s, e, c, id);
      } else {
        OrphanKeptByClose(s, e, c, id);
      }
      OrphanStaysQueued(Next(s, e), c, id, es[1..]);
    }
  }

  lemma OrphanKeptByClose(s: Sys, e: Event, c: nat, id: TaskID)
    requires Orphan(s, c, id) && Enabled(s, e) && e.IsCloseStep() && e != CloseStore
    ensures Orphan(Next(s, e), c, id)
  {
  }

  /** The interleaving in which Close runs between the flag check and the send of one Dispatch. */
  function CloseRace(id: TaskID, kind: Kind, now: Time): seq<Event> {
    [SubmitTask(id, kind, "", now), CheckFlag(0), SetFlag, CloseChannel, Send(0)]
  }

  /** It is possible from every initial state whose store admits a task, and it strands the task: no
      worker, queue slot or canceller will ever take it. */
  lemma CloseRaceStrands(s: Sys, workers: int, queueSize: int, id: TaskID, kind: Kind, now: Time)
    requires Initial(s, workers, queueSize) && !s.mem.closed && kind.IsValid() && s.mem.queued < s.mem.maxQueue
    requires id != "" && id !in s.mem.entries && id !in s.mem.released
    ensures IsRun(s, CloseRace(id, kind, now)) && Orphan(After(s, CloseRace(id, kind, now)), 0, id)
  {
    hide MemValid, Submit;
    SubmitAdmits(s.mem, id, kind, now);
    SubmitAdds(s.mem, id, kind, "", now);
    var es := CloseRace(id, kind, now);
    var s1 := Next(s, es[0]);
    RaceGoesOn(s1, id);
    assert es[1..] == [CheckFlag(0), SetFlag, CloseChannel, Send(0)];
  }

  /** After the submission: check, set the flag, close the channel, send. */
  lemma RaceGoesOn(s1: Sys, id: TaskID)
    requires |s1.calls| == 1 && s1.calls[0] == Submitted(id) && !s1.flag && !s1.chanClosed
    requires id in s1.mem.entries && s1.mem.entries[id].task.state == Queued && !s1.mem.closed
    ensures var es := [CheckFlag(0), SetFlag, CloseChannel, Send(0)];
            IsRun(s1, es) && Orphan(After(s1, es), 0, id)
  {
    hide Enabled, Next, After, IsRun;
    var s2 := WithCall(s1, 0, Checked(id));
    var s3 := s2.(flag := true);
    var s4 := s3.(chanClosed := true);
    var s5 := WithCall(s4, 0, Panicked(id));
    CheckPasses(s1, 0);
    CloseSteps(s2);
    LateSendPanics(s4, 0);
    assert s5.calls == [Panicked(id)];
    RunFour(s1, [CheckFlag(0), SetFlag, CloseChannel, Send(0)], s2, s3, s4, s5);
  }

  lemma CheckPasses(s: Sys, c: nat)
    requires c < |s.calls| && s.calls[c].Submitted? && !s.flag
    ensures Enabled(s, CheckFlag(c)) && Next(s, CheckFlag(c)) == WithCall(s, c, Checked(s.calls[c].id))
  {
  }

  lemma CloseSteps(s: Sys)
    requires !s.flag && !s.chanClosed
    ensures Enabled(s, SetFlag) && Next(s, SetFlag) == s.(flag := true)
    ensures var t := s.(flag := true);
            Enabled(t, CloseChannel) && Next(t, CloseChannel) == t.(chanClosed := true)
  {
  }

  lemma LateSendPanics(s: Sys, c: nat)
    requires c < |s.calls| && s.calls[c].Checked? && s.chanClosed
    ensures Enabled(s, Send(c)) && Next(s, Send(c)) == WithCall(s, c, Panicked(s.calls[c].id))
  {
  }

  lemma SubmitAdmits(m: Mem, id: TaskID, kind: Kind, now: Time)
    requires !m.closed && kind.IsValid() && m.queued < m.maxQueue
    ensures Submit(m, id, kind, "", now).out == Ok
  {
  }

  lemma RunFour(s1: Sys, es: seq<Event>, s2: Sys, s3: Sys, s4: Sys, s5: Sys)
    requires |es| == 4
    requires Enabled(s1, es[0]) && s2 == Next(s1, es[0]) && Enabled(s2, es[1]) && s3 == Next(s2, es[1])
    requires Enabled(s3, es[2]) && s4 == Next(s3, es[2]) && Enabled(s4, es[3]) && s5 == Next(s4, es[3])
    ensures IsRun(s1, es) && After(s1, es) == s5
  {
    hide Enabled, Next;
    assert es[1..][0] == es[1] && es[2..][0] == es[2] && es[3..][0] == es[3];
    assert es[1..][1..] == es[2..] && es[2..][1..] == es[3..] && es[3..][1..] == [];
    assert IsRun(s5, []) && After(s5, []) == s5;
    assert IsRun(s4, es[3..]) && After(s4, es[3..]) == s5;
    assert IsRun(s3, es[2..]) && After(s3, es[2..]) == s5;
    assert IsRun(s2, es[1..]) && After(s2, es[1..]) == s5;
  }
}
