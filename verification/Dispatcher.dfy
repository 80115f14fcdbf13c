/** The dispatcher object and the submit handler, executed without interruption
    (internal/tools/dispatcher.go, internal/tools/async.go). Each critical section is a method that is
    one step of the protocol in DispatchSteps, and each public method is proved to perform a run of it. */
module Dispatchers {
  import opened Tasks
  import opened StoreSpec
  import opened MemoryStores
  import opened DispatchSteps

  // ---------- sequences of steps ----------

  /** Dispatch: the flag check and, if it passes, the send. */
  function Dispatched(s: Sys, c: nat): Sys
    requires c < |s.calls| && s.calls[c].Submitted?
  {
    if s.flag then WithCall(s, c, RollingBack(s.calls[c].id, Abandoned))
    else SendStep(WithCall(s, c, Checked(s.calls[c].id)), c)
  }

  /** runJob for a job just taken, when nothing else runs meanwhile and the handler returns `result`. */
  function RanJob(s: Sys, w: nat, result: Result, now: Time, later: Time): Sys
    requires w < |s.workers| && s.workers[w].Taken?
  {
    var a := RegisterStep(s, w);
    if a.workers[w].Releasing? then ReleaseStep(a, w) else RanRegistered(a, w, result, now, later)
  }

  /** The rest of runJob once the cancel func is registered. */
  function RanRegistered(s: Sys, w: nat, result: Result, now: Time, later: Time): Sys
    requires w < |s.workers| && s.workers[w].Registered?
  {
    var b := StartStep(PublishStep(s, w), w, now);
    var d := if b.workers[w].Unpublishing? then b else Executed(b, w, result, later);
    ReleaseStep(UnpublishStep(d, w), w)
  }

  /** The handler returns; unless its context was cancelled the outcome is recorded. */
  function Executed(s: Sys, w: nat, result: Result, later: Time): (t: Sys)
    requires w < |s.workers| && s.workers[w].Executing?
    ensures |t.workers| == |s.workers| && t.workers[w] == Unpublishing(s.workers[w].id, s.workers[w].ctx)
    ensures t.queue == s.queue
  {
    var a := CheckCtxStep(WithWorker(s, w, Returned(s.workers[w].id, s.workers[w].ctx, result)), w);
    if a.workers[w].Finishing? then FinishStep(a, w, later) else a
  }

  /** AbandonRunning from its k-th snapshot item on. */
  function AbandonedFrom(s: Sys, c: nat, reason: string, clock: TaskID -> Time): Sys
    requires c < |s.calls| && s.calls[c].Abandoning? && s.calls[c].next <= |s.calls[c].items| && !s.calls[c].settled
    decreases |s.calls[c].items| - s.calls[c].next
  {
    var k := s.calls[c];
    if k.next == |k.items| then WithCall(s, c, AbandonReturned(k.items))
    else AbandonedFrom(FireOneStep(AbandonOneStep(s, c, reason, clock(k.items[k.next].id)), c), c, reason, clock)
  }

  /** One worker taking and running jobs until the channel is empty. */
  function Worked(s: Sys, w: nat, results: TaskID -> Result, now: TaskID -> Time, later: TaskID -> Time): Sys
    requires w < |s.workers| && s.workers[w].Idle?
    decreases |s.queue|
  {
    if s.queue == [] then s
    else
      var id := s.queue[0];
      RanJobEnds(TakeStep(s, w), w, results(id), now(id), later(id));
      Worked(RanJob(TakeStep(s, w), w, results(id), now(id), later(id)), w, results, now, later)
  }

  lemma RanJobEnds(s: Sys, w: nat, result: Result, now: Time, later: Time)
    requires w < |s.workers| && s.workers[w].Taken?
    ensures var t := RanJob(s, w, result, now, later);
            t.queue == s.queue && w < |t.workers| && t.workers[w].Idle?
  {
    hide RegisterCancel, RanRegistered;
    var a := RegisterStep(s, w);
    if a.workers[w].Registered? {
      RanRegisteredEnds(a, w, result, now, later);
    }
  }

  lemma RanRegisteredEnds(s: Sys, w: nat, result: Result, now: Time, later: Time)
    requires w < |s.workers| && s.workers[w].Registered?
    ensures var t := RanRegistered(s, w, result, now, later);
            t.queue == s.queue && w < |t.workers| && t.workers[w].Idle?
  {
    hide Transition, Executed;
  }

  /** SubmitImageTaskHandler once its arguments are validated: record, dispatch, roll back. */
  function HandledSubmit(s: Sys, id: TaskID, kind: Kind, request: string, now: Time, later: Time): Sys {
    var a, c := SubmitStep(s, id, kind, request, now), |s.calls|;
    if |a.calls| == c then a
    else
      var b := Dispatched(a, c);
      if b.calls[c].RollingBack? then RollBackStep(b, c, later) else b
  }

  lemma {:induction false} RunConcat(s: Sys, a: seq<Event>, b: seq<Event>)
    requires IsRun(s, a) && IsRun(After(s, a), b)
    ensures IsRun(s, a + b) && After(s, a + b) == After(After(s, a), b)
    decreases |a|
  {
    hide Enabled, Next;
    if a == [] {
      assert a + b == b;
    } else {
      RunConcat(Next(s, a[0]), a[1..], b);
      assert (a + b)[1..] == a[1..] + b;
    }
  }

  lemma RunOne(s: Sys, e: Event)
    requires Enabled(s, e)
    ensures IsRun(s, [e]) && After(s, [e]) == Next(s, e)
  {
    hide Enabled, Next;
    assert [e][1..] == [];
    assert After(Next(s, e), []) == Next(s, e);
  }

  ghost predicate Reaches(s: Sys, t: Sys) {
    exists es :: IsRun(s, es) && After(s, es) == t
  }

  lemma ReachesSelf(s: Sys)
    ensures Reaches(s, s)
  {
    assert IsRun(s, []) && After(s, []) == s;
  }

  lemma ReachesStep(s: Sys, t: Sys, e: Event)
    requires Reaches(s, t) && Enabled(t, e)
    ensures Reaches(s, Next(t, e))
  {
    hide Enabled, Next;
    var es :| IsRun(s, es) && After(s, es) == t;
    RunOne(t, e);
    RunConcat(s, es, [e]);
    assert IsRun(s, es + [e]);
  }

  lemma ExecutedIsRun(s: Sys, t: Sys, w: nat, result: Result, later: Time)
    requires Reaches(s, t) && w < |t.workers| && t.workers[w].Executing?
    ensures Reaches(s, Executed(t, w, result, later))
  {
    hide Reaches, Transition;
    var a := WithWorker(t, w, Returned(t.workers[w].id, t.workers[w].ctx, result));
    ReachesStep(s, t, Return(w, result));
    ReachesStep(s, a, CheckCtx(w));
    var b := CheckCtxStep(a, w);
    if b.workers[w].Finishing? {
      ReachesStep(s, b, Finish(w, later));
    }
  }

  lemma RanRegisteredIsRun(s: Sys, t: Sys, w: nat, result: Result, now: Time, later: Time)
    requires Reaches(s, t) && w < |t.workers| && t.workers[w].Registered?
    ensures Reaches(s, RanRegistered(t, w, result, now, later))
  {
    hide Reaches, Transition, Executed;
    ReachesStep(s, t, Publish(w));
    var p := PublishStep(t, w);
    ReachesStep(s, p, Start(w, now));
    hide Next, Enabled;
    var b := StartStep(p, w, now);
    if b.workers[w].Executing? {
      ExecutedIsRun(s, b, w, result, later);
    }
    UnwoundIsRun(s, if b.workers[w].Unpublishing? then b else Executed(b, w, result, later), w);
  }

  lemma UnwoundIsRun(s: Sys, t: Sys, w: nat)
    requires Reaches(s, t) && w < |t.workers| && t.workers[w].Unpublishing?
    ensures Reaches(s, ReleaseStep(UnpublishStep(t, w), w))
  {
    hide Reaches;
    ReachesStep(s, t, Unpublish(w));
    ReachesStep(s, UnpublishStep(t, w), Release(w));
  }

  /** Running a job without interruption is a run of the protocol, so everything proved of all runs
      holds of it. */
  lemma RanJobIsRun(s: Sys, w: nat, result: Result, now: Time, later: Time)
    requires w < |s.workers| && s.workers[w].Taken?
    ensures Reaches(s, RanJob(s, w, result, now, later))
  {
    hide Reaches, RegisterCancel, RanRegistered;
    ReachesSelf(s);
    ReachesStep(s, s, Register(w));
    var a := RegisterStep(s, w);
    if a.workers[w].Releasing? {
      ReachesStep(s, a, Release(w));
    } else {
      RanRegisteredIsRun(s, a, w, result, now, later);
    }
  }

  lemma {:induction false} AbandonedIsRun(s: Sys, t: Sys, c: nat, reason: string, clock: TaskID -> Time)
    requires Reaches(s, t)
    requires c < |t.calls| && t.calls[c].Abandoning? && t.calls[c].next <= |t.calls[c].items| && !t.calls[c].settled
    ensures Reaches(s, AbandonedFrom(t, c, reason, clock))
    decreases |t.calls[c].items| - t.calls[c].next
  {
    hide Reaches, Transition;
    var k := t.calls[c];
    if k.next == |k.items| {
      ReachesStep(s, t, EndAbandon(c));
    } else {
      var now := clock(k.items[k.next].id);
      ReachesStep(s, t, AbandonOne(c, reason, now));
      var a := AbandonOneStep(t, c, reason, now);
      ReachesStep(s, a, FireOne(c));
      AbandonedIsRun(s, FireOneStep(a, c), c, reason, clock);
    }
  }

  lemma ReachesTrans(s: Sys, t: Sys, u: Sys)
    requires Reaches(s, t) && Reaches(t, u)
    ensures Reaches(s, u)
  {
    hide Enabled, Next;
    var a :| IsRun(s, a) && After(s, a) == t;
    var b :| IsRun(t, b) && After(t, b) == u;
    RunConcat(s, a, b);
    assert IsRun(s, a + b);
  }

  lemma {:induction false} WorkedIsRun(s: Sys, t: Sys, w: nat, results: TaskID -> Result, now: TaskID -> Time,
        later: TaskID -> Time)
    requires Reaches(s, t) && w < |t.workers| && t.workers[w].Idle?
    ensures Reaches(s, Worked(t, w, results, now, later))
    decreases |t.queue|
  {
    hide Reaches, RanJob;
    if t.queue != [] {
      var id, a := t.queue[0], TakeStep(t, w);
      ReachesStep(s, t, Take(w));
      RanJobIsRun(a, w, results(id), now(id), later(id));
      ReachesTrans(s, a, RanJob(a, w, results(id), now(id), later(id)));
      RanJobEnds(a, w, results(id), now(id), later(id));
      WorkedIsRun(s, RanJob(a, w, results(id), now(id), later(id)), w, results, now, later);
    }
  }

  lemma DispatchedIsRun(s: Sys, t: Sys, c: nat)
    requires Reaches(s, t) && c < |t.calls| && t.calls[c].Submitted?
    ensures Reaches(s, Dispatched(t, c))
  {
    hide Reaches;
    ReachesStep(s, t, CheckFlag(c));
    if !t.flag {
      ReachesStep(s, WithCall(t, c, Checked(t.calls[c].id)), Send(c));
    }
  }

  lemma HandledSubmitIsRun(s: Sys, id: TaskID, kind: Kind, request: string, now: Time, later: Time)
    requires Enabled(s, SubmitTask(id, kind, request, now))
    ensures Reaches(s, HandledSubmit(s, id, kind, request, now, later))
  {
    hide Reaches, Submit, Transition;
    ReachesSelf(s);
    ReachesStep(s, s, SubmitTask(id, kind, request, now));
    var a, c := SubmitStep(s, id, kind, request, now), |s.calls|;
    if |a.calls| > c {
      DispatchedIsRun(s, a, c);
      var b := Dispatched(a, c);
      if b.calls[c].RollingBack? {
        ReachesStep(s, b, RollBack(c, later));
      }
    }
  }

  // ---------- the object ----------

  datatype DispatchResult = Sent | ErrDispatcherClosed | ErrDispatcherQueueFull

  class Dispatcher {
    const store: MemoryStore
    const cap: nat
    var workQueue: seq<TaskID>
    var closed: bool
    var chanClosed: bool
    var running: map<TaskID, Ctx>
    /** The per-task contexts cancelled so far, out of those created. */
    var cancelled: set<Ctx>
    var contexts: nat

    /** The fields are those of protocol state `s`. */
    ghost predicate Shows(s: Sys)
      reads this, store, store.terminal, store.tasks.Values, store.terminal.items
    {
      && store.Valid() && s.mem == store.View()
      && s.queue == workQueue && s.cap == cap && s.flag == closed && s.chanClosed == chanClosed
      && s.running == running && s.cancelled == cancelled && |s.ctxs| == contexts
      && (chanClosed ==> closed)
    }

    ghost function Footprint(): set<object>
      reads this, store
    {
      {this} + store.Footprint() + (if store.disk == null then {} else {store.disk})
    }

    constructor (store: MemoryStore, queueSize: int, ghost s: Sys)
      requires store.Valid() && s.mem == store.View()
      requires s.queue == [] && s.cap == Clamp(queueSize, 256, 10000) && !s.flag && !s.chanClosed
      requires s.running == map[] && s.cancelled == {} && s.ctxs == []
      ensures this.store == store && Shows(s)
    {
      this.store := store;
      cap := Clamp(queueSize, 256, 10000);
      workQueue, closed, chanClosed, running, cancelled, contexts := [], false, false, map[], {}, 0;
    }

    method Dispatch(id: TaskID, ghost s: Sys, ghost c: nat) returns (r: DispatchResult)
      requires Shows(s) && c < |s.calls| && s.calls[c] == Submitted(id)
      modifies this`workQueue
      ensures Shows(Dispatched(s, c))
      ensures Dispatched(s, c).calls[c] ==
              match r
              case Sent => SubmitReturned(id)
              case ErrDispatcherClosed => RollingBack(id, Abandoned)
              case ErrDispatcherQueueFull => RollingBack(id, Failed)
    {
      hide MemoryStore.Valid, MemoryStore.View;
      if closed {
        return ErrDispatcherClosed;
      }
      if |workQueue| < cap {
        workQueue := workQueue + [id];
        return Sent;
      }
      return ErrDispatcherQueueFull;
    }

    /** Store.Transition, as every step below uses it. */
    method Move(id: TaskID, fn: TransitionFn, now: Time, ghost s: Sys) returns (out: Outcome)
      requires Shows(s) && KeepsIdentity(fn)
      modifies store, store.terminal, store.tasks.Values, store.disk
      ensures Shows(s.(mem := Transition(s.mem, id, fn, now).mem)) && out == Transition(s.mem, id, fn, now).out
      ensures fresh(Footprint() - old(Footprint()))
    {
      hide MemoryStore.Valid, MemoryStore.View, Transition;
      out := store.Transition(id, fn, now);
    }

    method Register(id: TaskID, ctx: Ctx, ghost s: Sys) returns (out: Outcome)
      requires Shows(s)
      modifies store.tasks.Values
      ensures Shows(s.(mem := RegisterCancel(s.mem, id, ctx).0)) && out == RegisterCancel(s.mem, id, ctx).1
      ensures store.tasks == old(store.tasks)
    {
      hide MemoryStore.Valid, MemoryStore.View, StoreSpec.RegisterCancel;
      out := store.RegisterCancel(id, ctx);
    }

    /** `d.running[id] = cancel` under runningMu. */
    method Publish(id: TaskID, ctx: Ctx, ghost s: Sys)
      requires Shows(s)
      modifies this`running
      ensures Shows(s.(running := s.running[id := ctx]))
    {
      hide MemoryStore.Valid, MemoryStore.View;
      running := running[id := ctx];
    }

    method Unpublish(id: TaskID, ghost s: Sys)
      requires Shows(s)
      modifies this`running
      ensures Shows(s.(running := s.running - {id}))
    {
      hide MemoryStore.Valid, MemoryStore.View;
      running := running - {id};
    }

    /** Calling a per-task cancel func. */
    method CancelCtx(ctx: Ctx, ghost s: Sys)
      requires Shows(s)
      modifies this`cancelled
      ensures Shows(s.(cancelled := s.cancelled + {ctx}))
    {
      hide MemoryStore.Valid, MemoryStore.View;
      cancelled := cancelled + {ctx};
    }

    /** Publish in d.running, then try queued to running. */
    method StartJob(id: TaskID, ctx: Ctx, now: Time, ghost s: Sys, ghost w: nat) returns (out: Outcome)
      requires Shows(s) && w < |s.workers| && s.workers[w] == Registered(id, ctx) && KeepsIdentity(RunEdit())
      modifies this`running, store, store.terminal, store.tasks.Values, store.disk
      ensures Shows(StartStep(PublishStep(s, w), w, now)) && fresh(Footprint() - old(Footprint()))
      ensures out == Ok <==> StartStep(PublishStep(s, w), w, now).workers[w].Executing?
    {
      hide Shows, Transition, KeepsIdentity;
      Publish(id, ctx, s);
      ghost var p := PublishStep(s, w);
      ShowsSame(s.(running := s.running[id := ctx]), p);
      out := Move(id, RunEdit(), now, p);
      ShowsSame(p.(mem := Transition(p.mem, id, RunEdit(), now).mem), StartStep(p, w, now));
    }

    /** runJob's deferred calls. */
    method Unwind(id: TaskID, ctx: Ctx, ghost s: Sys, ghost w: nat)
      requires Shows(s) && w < |s.workers| && s.workers[w] == Unpublishing(id, ctx)
      modifies this`running, this`cancelled
      ensures Shows(ReleaseStep(UnpublishStep(s, w), w))
    {
      hide Shows;
      Unpublish(id, s);
      ghost var u := UnpublishStep(s, w);
      ShowsSame(s.(running := s.running - {id}), u);
      CancelCtx(ctx, u);
      ShowsSame(u.(cancelled := u.cancelled + {ctx}), ReleaseStep(u, w));
    }

    /** runJob; `result` is what the handler will return. */
    method RunJob(id: TaskID, ctx: Ctx, result: Result, now: Time, later: Time, ghost s: Sys, ghost w: nat)
      requires Shows(s) && w < |s.workers| && s.workers[w] == Taken(id, ctx)
      modifies Footprint()
      ensures Shows(RanJob(s, w, result, now, later)) && fresh(Footprint() - old(Footprint()))
    {
      hide Shows, RegisterStep, ReleaseStep, RanRegistered, KeepsIdentity;
      var out := RegisterJob(id, ctx, s, w);
      if out == Ok {
        RunRegistered(id, ctx, result, now, later, RegisterStep(s, w), w);
      } else {
        GiveUp(id, ctx, RegisterStep(s, w), w);
      }
    }

    method RunRegistered(id: TaskID, ctx: Ctx, result: Result, now: Time, later: Time, ghost s: Sys, ghost w: nat)
      requires Shows(s) && w < |s.workers| && s.workers[w] == Registered(id, ctx)
      modifies Footprint()
      ensures Shows(RanRegistered(s, w, result, now, later)) && fresh(Footprint() - old(Footprint()))
    {
      hide Shows, StartStep, UnpublishStep, ReleaseStep, Executed, KeepsIdentity;
      EditsKeepIdentity(result);
      var out := StartJob(id, ctx, now, s, w);
      ghost var b := StartStep(PublishStep(s, w), w, now);
      StartEnds(s, w, now);
      if out == Ok {
        Execute(id, ctx, result, later, b, w);
        Unwind(id, ctx, Executed(b, w, result, later), w);
      } else {
        Unwind(id, ctx, b, w);
      }
    }

    /** Publish the cancel func to the store. */
    method RegisterJob(id: TaskID, ctx: Ctx, ghost s: Sys, ghost w: nat) returns (out: Outcome)
      requires Shows(s) && w < |s.workers| && s.workers[w] == Taken(id, ctx)
      modifies store.tasks.Values
      ensures Shows(RegisterStep(s, w)) && store.tasks == old(store.tasks)
      ensures w < |RegisterStep(s, w).workers|
      ensures RegisterStep(s, w).workers[w] == if out == Ok then Registered(id, ctx) else Releasing(id, ctx)
    {
      hide Shows, RegisterCancel;
      out := Register(id, ctx, s);
      ShowsSame(s.(mem := RegisterCancel(s.mem, id, ctx).0), RegisterStep(s, w));
    }

    /** Registration failed: only the deferred cancel is left. */
    method GiveUp(id: TaskID, ctx: Ctx, ghost s: Sys, ghost w: nat)
      requires Shows(s) && w < |s.workers| && s.workers[w] == Releasing(id, ctx)
      modifies this`cancelled
      ensures Shows(ReleaseStep(s, w))
    {
      hide Shows;
      CancelCtx(ctx, s);
      ShowsSame(s.(cancelled := s.cancelled + {ctx}), ReleaseStep(s, w));
    }

    lemma StartEnds(s: Sys, w: nat, now: Time)
      requires w < |s.workers| && s.workers[w].Registered?
      ensures var b := StartStep(PublishStep(s, w), w, now);
              w < |b.workers| && (b.workers[w] == Executing(s.workers[w].id, s.workers[w].ctx)
                                  || b.workers[w] == Unpublishing(s.workers[w].id, s.workers[w].ctx))
    {
      hide Transition;
    }

    /** Handler, context check and final transition. */
    method Execute(id: TaskID, ctx: Ctx, result: Result, later: Time, ghost s: Sys, ghost w: nat)
      requires Shows(s) && w < |s.workers| && s.workers[w] == Executing(id, ctx) && KeepsIdentity(FinishEdit(result))
      modifies store, store.terminal, store.tasks.Values, store.disk
      ensures Shows(Executed(s, w, result, later)) && fresh(Footprint() - old(Footprint()))
    {
      hide Transition, MemoryStore.Valid, MemoryStore.View, FinishEdit;
      ghost var a := CheckCtxStep(WithWorker(s, w, Returned(id, ctx, result)), w);
      assert Shows(a);
      if ctx in cancelled {
        return;
      }
      hide Shows;
      var _ := Move(id, FinishEdit(result), later, a);
      ShowsSame(a.(mem := Transition(a.mem, id, FinishEdit(result), later).mem), FinishStep(a, w, later));
    }

    /** `for job := range d.workQueue` while there are jobs. */
    method Work(results: TaskID -> Result, now: TaskID -> Time, later: TaskID -> Time, ghost s: Sys, ghost w: nat)
      requires Shows(s) && w < |s.workers| && s.workers[w].Idle?
      modifies Footprint()
      ensures Shows(Worked(s, w, results, now, later)) && fresh(Footprint() - old(Footprint())) && workQueue == []
    {
      hide Shows, RanJob, TakeStep;
      ghost var t := s;
      QueueShown(t);
      while |workQueue| > 0
        invariant Shows(t) && workQueue == t.queue && w < |t.workers| && t.workers[w].Idle?
        invariant Worked(t, w, results, now, later) == Worked(s, w, results, now, later)
        invariant fresh(Footprint() - old(Footprint()))
        decreases |workQueue|
      {
        var id := workQueue[0];
        ghost var a := TakeStep(t, w);
        TakeEnds(t, w);
        var ctx := Receive(t, w);
        RunJob(id, ctx, results(id), now(id), later(id), a, w);
        RanJobEnds(a, w, results(id), now(id), later(id));
        t := RanJob(a, w, results(id), now(id), later(id));
        QueueShown(t);
      }
    }

    lemma QueueShown(s: Sys)
      requires Shows(s)
      ensures workQueue == s.queue
    {
      hide MemoryStore.Valid, MemoryStore.View;
    }

    lemma TakeEnds(s: Sys, w: nat)
      requires w < |s.workers| && s.queue != []
      ensures var t := TakeStep(s, w);
              w < |t.workers| && t.workers[w] == Taken(s.queue[0], |s.ctxs|) && t.queue == s.queue[1..]
    {
    }

    /** Receive from the channel and derive the task's context. */
    method Receive(ghost s: Sys, ghost w: nat) returns (ctx: Ctx)
      requires Shows(s) && w < |s.workers| && s.queue != []
      modifies this`workQueue, this`contexts
      ensures Shows(TakeStep(s, w)) && ctx == |s.ctxs|
    {
      hide MemoryStore.Valid, MemoryStore.View;
      ctx := contexts;
      contexts := contexts + 1;
      workQueue := workQueue[1..];
    }

    /** submit_image_task: record, dispatch, and on failure settle the task. */
    method SubmitImageTask(id: TaskID, kind: Kind, request: string, now: Time, later: Time, ghost s: Sys)
      returns (out: Outcome, r: DispatchResult)
      requires Shows(s) && id !in store.tasks && id !in store.released
      modifies Footprint()
      ensures Shows(HandledSubmit(s, id, kind, request, now, later)) && fresh(Footprint() - old(Footprint()))
      ensures out == Submit(s.mem, id, kind, request, now).out
      ensures var a, c := SubmitStep(s, id, kind, request, now), |s.calls|;
              out == Ok ==> c < |a.calls| && (r == Sent <==> Dispatched(a, c).calls[c].SubmitReturned?)
    {
      hide Shows, Transition, Submit, KeepsIdentity, RollBackEdit;
      EditsKeepIdentity(NilResult);
      r := Sent;
      out := Record(id, kind, request, now, s);
      ghost var a, c := SubmitStep(s, id, kind, request, now), |s.calls|;
      ShowsSame(s.(mem := Submit(s.mem, id, kind, request, now).mem), a);
      if out != Ok {
        return;
      }
      r := Dispatch(id, a, c);
      ghost var b := Dispatched(a, c);
      if r != Sent {
        var target := if r.ErrDispatcherClosed? then Abandoned else Failed;
        RollBackTask(id, target, later, b, c);
      }
    }

    method Record(id: TaskID, kind: Kind, request: string, now: Time, ghost s: Sys) returns (out: Outcome)
      requires Shows(s) && id !in store.tasks && id !in store.released
      modifies store, store.disk
      ensures Shows(s.(mem := Submit(s.mem, id, kind, request, now).mem)) && fresh(Footprint() - old(Footprint()))
      ensures out == Submit(s.mem, id, kind, request, now).out
              && (out != Ok ==> Submit(s.mem, id, kind, request, now).mem == s.mem)
    {
      hide MemoryStore.Valid, MemoryStore.View, Submit;
      RefusedSubmit(s.mem, id, kind, request, now);
      out := store.Submit(id, kind, request, now);
    }

    lemma RefusedSubmit(m: Mem, id: TaskID, kind: Kind, request: string, now: Time)
      ensures Submit(m, id, kind, request, now).out != Ok ==> Submit(m, id, kind, request, now).mem == m
    {
    }

    method RollBackTask(id: TaskID, target: State, later: Time, ghost s: Sys, ghost c: nat)
      requires Shows(s) && c < |s.calls| && s.calls[c] == RollingBack(id, target) && KeepsIdentity(RollBackEdit(target))
      modifies store, store.terminal, store.tasks.Values, store.disk
      ensures Shows(RollBackStep(s, c, later)) && fresh(Footprint() - old(Footprint()))
    {
      hide Shows, Transition, KeepsIdentity, RollBackEdit;
      var _ := Move(id, RollBackEdit(target), later, s);
      ShowsSame(s.(mem := Transition(s.mem, id, RollBackEdit(target), later).mem), RollBackStep(s, c, later));
    }

    /** AbandonRunning; `order` is how Go ranges over the map, `clock` the store's clock at each
        transition. */
    method AbandonRunning(reason: string, order: seq<TaskID>, clock: TaskID -> Time, ghost s: Sys)
      requires Shows(s) && IsListing(order, s.running)
      modifies Footprint()
      ensures Shows(AbandonedFrom(BeginAbandonStep(s, order), |s.calls|, reason, clock))
      ensures fresh(Footprint() - old(Footprint()))
    {
      RunningShown(s);
      hide Shows, Transition, AbandonOneStep, FireOneStep, Items;
      var ids, cancels := SnapshotRunning(order);
      ghost var t, c := BeginAbandonStep(s, order), |s.calls|;
      ShowsSame(s, t);
      AbandonItems(ids, cancels, reason, clock, t, c);
    }

    method AbandonItems(ids: seq<TaskID>, cancels: seq<Ctx>, reason: string, clock: TaskID -> Time, ghost s: Sys,
          ghost c: nat)
      requires Shows(s) && c < |s.calls| && s.calls[c].Abandoning? && s.calls[c].next == 0 && !s.calls[c].settled
      requires |ids| == |cancels| == |s.calls[c].items|
      requires forall k :: 0 <= k < |ids| ==> s.calls[c].items[k] == Item(ids[k], cancels[k])
      modifies Footprint()
      ensures Shows(AbandonedFrom(s, c, reason, clock)) && fresh(Footprint() - old(Footprint()))
    {
      hide Shows, Transition, AbandonOneStep, FireOneStep, AbandonedFrom;
      ghost var t, items := s, s.calls[c].items;
      for i := 0 to |ids|
        invariant Shows(t) && c < |t.calls| && t.calls[c] == Abandoning(items, i, false)
        invariant AbandonedFrom(t, c, reason, clock) == AbandonedFrom(s, c, reason, clock)
        invariant fresh(Footprint() - old(Footprint()))
      {
        AbandonTask(ids[i], cancels[i], reason, clock(ids[i]), t, c);
        AbandonMoves(t, c, reason, clock(ids[i]));
        AbandonNext(t, c, reason, clock);
        t := FireOneStep(AbandonOneStep(t, c, reason, clock(ids[i])), c);
      }
      AbandonDone(t, c, reason, clock);
      ShowsSame(t, WithCall(t, c, AbandonReturned(items)));
    }

    lemma AbandonNext(s: Sys, c: nat, reason: string, clock: TaskID -> Time)
      requires c < |s.calls| && s.calls[c].Abandoning? && s.calls[c].next < |s.calls[c].items| && !s.calls[c].settled
      ensures var k := s.calls[c];
              var t := FireOneStep(AbandonOneStep(s, c, reason, clock(k.items[k.next].id)), c);
              && c < |t.calls| && t.calls[c] == Abandoning(k.items, k.next + 1, false)
              && AbandonedFrom(s, c, reason, clock) == AbandonedFrom(t, c, reason, clock)
    {
      hide Transition;
    }

    lemma AbandonDone(s: Sys, c: nat, reason: string, clock: TaskID -> Time)
      requires c < |s.calls| && s.calls[c].Abandoning? && s.calls[c].next == |s.calls[c].items| && !s.calls[c].settled
      ensures AbandonedFrom(s, c, reason, clock) == WithCall(s, c, AbandonReturned(s.calls[c].items))
    {
    }

    /** The two slices AbandonRunning fills under runningMu. */
    method SnapshotRunning(order: seq<TaskID>) returns (ids: seq<TaskID>, cancels: seq<Ctx>)
      requires forall id :: id in order ==> id in running
      ensures ids == order && |cancels| == |order|
      ensures forall k :: 0 <= k < |order| ==> Item(ids[k], cancels[k]) == Items(order, running)[k]
    {
      ids, cancels := [], [];
      for i := 0 to |order|
        invariant ids == order[..i] && |cancels| == i
        invariant forall k :: 0 <= k < i ==> cancels[k] == running[order[k]]
      {
        ids := ids + [order[i]];
        cancels := cancels + [running[order[i]]];
      }
    }

    lemma RunningShown(s: Sys)
      requires Shows(s)
      ensures running == s.running
    {
      hide MemoryStore.Valid, MemoryStore.View;
    }

    lemma AbandonMoves(s: Sys, c: nat, reason: string, now: Time)
      requires c < |s.calls| && s.calls[c].Abandoning? && !s.calls[c].settled && s.calls[c].next < |s.calls[c].items|
      ensures var a, k := AbandonOneStep(s, c, reason, now), s.calls[c];
              && c < |a.calls| && a.calls[c] == Abandoning(k.items, k.next, true)
              && c < |FireOneStep(a, c).calls| && FireOneStep(a, c).calls[c] == Abandoning(k.items, k.next + 1, false)
    {
      hide Transition;
    }

    /** One item: the transition to abandoned, then the cancel func, whoever won the race. */
    method AbandonTask(id: TaskID, ctx: Ctx, reason: string, now: Time, ghost s: Sys, ghost c: nat)
      requires Shows(s) && c < |s.calls| && s.calls[c].Abandoning? && !s.calls[c].settled
      requires s.calls[c].next < |s.calls[c].items| && s.calls[c].items[s.calls[c].next] == Item(id, ctx)
      modifies Footprint()
      ensures Shows(FireOneStep(AbandonOneStep(s, c, reason, now), c)) && fresh(Footprint() - old(Footprint()))
    {
      hide Shows, Transition, KeepsIdentity, AbandonEdit;
      AbandonKeepsIdentity(reason);
      var _ := Move(id, AbandonEdit(reason), now, s);
      ghost var a := AbandonOneStep(s, c, reason, now);
      ShowsSame(s.(mem := Transition(s.mem, id, AbandonEdit(reason), now).mem), a);
      CancelCtx(ctx, a);
      ShowsSame(a.(cancelled := a.cancelled + {ctx}), FireOneStep(a, c));
    }

    /** Close up to the wait for the workers: the flag, then the channel; a second call does nothing. */
    method Close(ghost s: Sys)
      requires Shows(s) && s.flag == s.chanClosed
      modifies this`closed, this`chanClosed
      ensures Shows(if s.flag then s else Next(Next(s, SetFlag), CloseChannel))
    {
      hide MemoryStore.Valid, MemoryStore.View;
      if closed {
        return;
      }
      closed := true;
      chanClosed := true;
    }

    /** The object does not show the workers, the calls or the history. */
    lemma ShowsSame(s: Sys, t: Sys)
      requires Shows(s) && t.mem == s.mem && t.queue == s.queue && t.cap == s.cap && t.flag == s.flag
      requires t.chanClosed == s.chanClosed && t.running == s.running && t.cancelled == s.cancelled
               && |t.ctxs| == |s.ctxs|
      ensures Shows(t)
    {
      hide MemoryStore.Valid, MemoryStore.View;
    }
  }

  lemma EditsKeepIdentity(result: Result)
    ensures KeepsIdentity(RunEdit()) && KeepsIdentity(FinishEdit(result))
    ensures KeepsIdentity(RollBackEdit(Failed)) && KeepsIdentity(RollBackEdit(Abandoned))
  {
  }

  lemma AbandonKeepsIdentity(reason: string)
    ensures KeepsIdentity(AbandonEdit(reason))
  {
  }
}
