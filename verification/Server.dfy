/** The server object: what the receive loop does with one frame and a worker with its jobs, executed
    without interruption (internal/server/server.go). Each method is proved to perform a run of the
    engine. */
module Servers {
  import opened Tasks
  import opened Ledger
  import opened Engine
  import EngineLedger

  // ---------- sequences of steps ----------

  /** The counters and the runner once an execution is over. */
  function Ended(s: Eng, r: nat, n: nat): Eng
    requires r < |s.runners| && n < |s.at|
  {
    var t := s.(gauge := s.gauge - 1, completed := s.completed + 1, wg := s.wg - 1,
                runners := s.runners[r := Free], at := s.at[n := Done]);
    if r == 0 then t.(recv := Reading) else t
  }

  /** runJob: execute, then clear the ledger, cancel the context and settle the counters. */
  function RanCall(s: Eng, r: nat, n: nat): Eng
    requires r < |s.runners| && n < |s.at| && n < |s.jobs| && s.jobs[n].Call?
  {
    Ended(s.(pending := Cleared(s.pending, s.jobs[n].id), cancelled := s.cancelled + {n}), r, n)
  }

  /** runOnLoop: a cancel notification fires what it finds, any other frame leaves the ledger alone. */
  function RanOnLoop(s: Eng, n: nat): Eng
    requires |s.runners| > 0 && n < |s.at| && n < |s.jobs| && !s.jobs[n].Call?
  {
    if s.jobs[n].CancelNote? then
      var (pending, hit) := Revoked(s.pending, s.jobs[n].target);
      var t := s.(pending := pending);
      Ended(match hit
            case None => t
            case Some(h) => t.(hits := s.hits + {h}, cancelled := s.cancelled + {h}), 0, n)
    else Ended(s, 0, n)
  }

  /** A tools/call entered in the ledger and counted, about to be offered to the queue. */
  function Prepared(s: Eng, id: RequestID): Eng {
    var n := |s.jobs|;
    var (pending, prev) := Enrolled(s.pending, id, n);
    s.(jobs := s.jobs + [Call(id)], at := s.at + [AtRecv], pending := pending,
       cancelled := if prev.Some? then s.cancelled + {prev.value} else s.cancelled,
       wg := s.wg + 1, gauge := s.gauge + 1, recv := Offering(n))
  }

  /** One trip of recvLoop. */
  function Received(s: Eng, frame: Frame): Eng
    requires |s.runners| > 0 && |s.at| == |s.jobs|
  {
    var n := |s.jobs|;
    match frame
    case Empty => s
    case Call(id) =>
      var t := OfferStep(Prepared(s, id));
      if t.recv.Serving? then RanCall(t, 0, n) else t
    case _ =>
      var t := s.(jobs := s.jobs + [frame], at := s.at + [AtRecv], wg := s.wg + 1, gauge := s.gauge + 1);
      RanOnLoop(ServeStep(t, n), n)
  }

  predicate QueueOk(s: Eng) {
    forall i :: 0 <= i < |s.queue| ==> s.queue[i] < |s.at| && s.queue[i] < |s.jobs| && s.jobs[s.queue[i]].Call?
  }

  /** A worker taking and running jobs until the queue is empty. */
  function Worked(s: Eng, r: nat): Eng
    requires 0 < r < |s.runners| && s.runners[r].Free? && QueueOk(s)
    decreases |s.queue|
  {
    if s.queue == [] then s else Worked(RanCall(TakeStep(s, r), r, s.queue[0]), r)
  }

  ghost predicate Reaches(s: Eng, t: Eng) {
    exists es :: IsRun(s, es) && After(s, es) == t
  }

  lemma ReachesSelf(s: Eng)
    ensures Reaches(s, s)
  {
    assert IsRun(s, []) && After(s, []) == s;
  }

  lemma ReachesStep(s: Eng, t: Eng, e: Event)
    requires Reaches(s, t) && Enabled(t, e)
    ensures Reaches(s, Next(t, e))
  {
    hide Enabled, Next;
    var es :| IsRun(s, es) && After(s, es) == t;
    EngineLedger.RunOne(t, e);
    EngineLedger.RunConcat(s, es, [e]);
    assert IsRun(s, es + [e]);
  }

  lemma EndedIsRun(s: Eng, t: Eng, r: nat)
    requires Reaches(s, t) && r < |t.runners| && t.runners[r].Uncounting? && t.runners[r].n < |t.at|
    ensures Reaches(s, Ended(t, r, t.runners[r].n))
  {
    hide Reaches;
    var n := t.runners[r].n;
    ReachesStep(s, t, Uncount(r));
    var a := WithRunner(t, r, Completing(n)).(gauge := t.gauge - 1);
    ReachesStep(s, a, Complete(r));
    var b := WithRunner(a, r, Leaving(n)).(completed := a.completed + 1);
    ReachesStep(s, b, Leave(r));
    assert Next(b, Leave(r)) == Ended(t, r, n);
  }

  lemma RanCallIsRun(s: Eng, t: Eng, r: nat)
    requires Reaches(s, t) && r < |t.runners| && t.runners[r].Executing?
    requires t.runners[r].n < |t.at| && t.runners[r].n < |t.jobs| && t.jobs[t.runners[r].n].Call?
    ensures Reaches(s, RanCall(t, r, t.runners[r].n))
  {
    hide Reaches;
    var n := t.runners[r].n;
    var id := t.jobs[n].id;
    ReachesStep(s, t, Return(r));
    var a := WithRunner(t, r, if id.Null? then Releasing(n) else Unregistering(n));
    var b := WithRunner(t, r, Releasing(n)).(pending := Cleared(t.pending, id));
    if id.Null? {
      assert a == b;
    } else {
      ReachesStep(s, a, Unregister(r));
      assert Next(a, Unregister(r)) == b;
    }
    ReachesStep(s, b, Release(r));
    var d := WithRunner(b, r, Uncounting(n)).(cancelled := b.cancelled + {n});
    EndedIsRun(s, d, r);
    assert Ended(d, r, n) == RanCall(t, r, n);
  }

  lemma RanOnLoopIsRun(s: Eng, t: Eng)
    requires Reaches(s, t) && |t.runners| > 0 && t.runners[0].Executing?
    requires t.runners[0].n < |t.at| && t.runners[0].n < |t.jobs| && !t.jobs[t.runners[0].n].Call?
    ensures Reaches(s, RanOnLoop(t, t.runners[0].n))
  {
    hide Reaches;
    var n := t.runners[0].n;
    ReachesStep(s, t, Return(0));
    var a := ReturnStep(t, 0);
    if a.runners[0].Firing? {
      ReachesStep(s, a, FireHit(0));
    }
    var b :=
      if a.runners[0].Firing? then WithRunner(a, 0, Uncounting(n)).(cancelled := a.cancelled + {a.runners[0].hit})
      else a;
    EndedIsRun(s, b, 0);
    assert Ended(b, 0, n) == RanOnLoop(t, n);
  }

  lemma PreparedIsRun(s: Eng, id: RequestID)
    requires s.recv.Reading? && |s.runners| > 0 && |s.at| == |s.jobs|
    ensures Reaches(s, Prepared(s, id))
  {
    hide Reaches;
    var n := |s.jobs|;
    ReachesSelf(s);
    ReachesStep(s, s, Read(Call(id)));
    var a := ReadStep(s, Call(id));
    if !id.Null? {
      ReachesStep(s, a, Register);
      ReachesStep(s, RegisterStep(a), FirePrev);
    }
    var b := if id.Null? then a else FirePrevStep(RegisterStep(a));
    ReachesStep(s, b, Reserve);
    ReachesStep(s, b.(wg := b.wg + 1, recv := Counting(n)), Count);
  }

  /** Handling one frame without interruption is a run of the engine. */
  lemma ReceivedIsRun(s: Eng, frame: Frame)
    requires s.recv.Reading? && |s.runners| > 0 && |s.at| == |s.jobs|
    ensures Reaches(s, Received(s, frame))
  {
    hide Reaches, RanCall, RanOnLoop;
    var n := |s.jobs|;
    if frame.Empty? {
      ReachesSelf(s);
    } else if frame.Call? {
      PreparedIsRun(s, frame.id);
      ReachesStep(s, Prepared(s, frame.id), Offer);
      var t := OfferStep(Prepared(s, frame.id));
      if t.recv.Serving? {
        RanCallIsRun(s, t, 0);
      }
    } else {
      ReachesSelf(s);
      ReachesStep(s, s, Read(frame));
      var a := ReadStep(s, frame);
      ReachesStep(s, a, Reserve);
      var b := a.(wg := a.wg + 1, recv := Counting(n));
      ReachesStep(s, b, Count);
      var d := ServeStep(s.(jobs := s.jobs + [frame], at := s.at + [AtRecv], wg := s.wg + 1, gauge := s.gauge + 1), n);
      assert Next(b, Count) == d;
      RanOnLoopIsRun(s, d);
    }
  }

  lemma {:induction false} WorkedIsRun(s: Eng, t: Eng, r: nat)
    requires Reaches(s, t) && 0 < r < |t.runners| && t.runners[r].Free? && QueueOk(t)
    ensures Reaches(s, Worked(t, r))
    decreases |t.queue|
  {
    hide Reaches;
    if t.queue != [] {
      ReachesStep(s, t, Take(r));
      RanCallIsRun(s, TakeStep(t, r), r);
      WorkedIsRun(s, RanCall(TakeStep(t, r), r, t.queue[0]), r);
    }
  }

  // ---------- the object ----------

  class Server {
    const registry: CancellationRegistry
    const cap: nat
    var workQueue: seq<nat>
    /** The WaitGroup counter and the metrics. */
    var inflight: int
    var gauge: int
    var completed: nat
    var fallback: nat
    /** Every frame accepted so far; a job is its index here. */
    var frames: seq<Frame>
    ghost var ended: set<nat>

    /** The fields are those of engine state `s`; per-request contexts are shown by the ledger's firings
        and the jobs that have ended. */
    ghost predicate Shows(s: Eng)
      reads this, registry
    {
      && s.queue == workQueue && s.cap == cap && s.wg == inflight && s.gauge == gauge
      && s.completed == completed && s.fallback == fallback && s.jobs == frames && s.pending == registry.pending
      && s.cancelled == ended + (set c: nat | c in registry.fired)
    }

    constructor (config: Config, ghost s: Eng)
      requires Initial(s, config)
      ensures Shows(s) && fresh(registry)
    {
      registry := new CancellationRegistry();
      cap := NormalizeConfig(config).queueSize;
      workQueue, inflight, gauge, completed, fallback, frames, ended := [], 0, 0, 0, 0, [], {};
    }

    /** The deferred counters of runJob and runOnLoop. */
    method Settle(ghost s: Eng, ghost r: nat, ghost n: nat)
      requires Shows(s) && r < |s.runners| && n < |s.at|
      modifies this`gauge, this`completed, this`inflight
      ensures Shows(Ended(s, r, n))
    {
      gauge := gauge - 1;
      completed := completed + 1;
      inflight := inflight - 1;
    }

    /** runJob: the deferred calls in their order, after the handler has run. */
    method RunJob(n: nat, ghost s: Eng, ghost r: nat)
      requires Shows(s) && r < |s.runners| && n < |s.at| && n < |s.jobs| && s.jobs[n].Call?
      modifies this`gauge, this`completed, this`inflight, this`ended, registry
      ensures Shows(RanCall(s, r, n))
    {
      hide Ended;
      var id := frames[n].id;
      if !id.Null? {
        registry.Done(id);
      }
      ended := ended + {n};
      Settle(s.(pending := Cleared(s.pending, id), cancelled := s.cancelled + {n}), r, n);
    }

    /** `for j := range s.workQueue` while there are jobs. */
    method Work(ghost s: Eng, ghost r: nat)
      requires Shows(s) && 0 < r < |s.runners| && s.runners[r].Free? && QueueOk(s)
      modifies this, registry
      ensures Shows(Worked(s, r)) && workQueue == []
    {
      ghost var t := s;
      while |workQueue| > 0
        invariant Shows(t) && r < |t.runners| && t.runners[r].Free? && QueueOk(t) && Worked(t, r) == Worked(s, r)
        decreases |workQueue|
      {
        var n := workQueue[0];
        workQueue := workQueue[1..];
        RunJob(n, TakeStep(t, r), r);
        t := RanCall(TakeStep(t, r), r, n);
      }
    }

    /** runOnLoop, with handleCancelled as the handler of a cancel notification. */
    method RunOnLoop(n: nat, ghost s: Eng)
      requires Shows(s) && |s.runners| > 0 && n < |s.at| && n < |s.jobs| && !s.jobs[n].Call?
      modifies this`gauge, this`completed, this`inflight, registry
      ensures Shows(RanOnLoop(s, n))
    {
      hide Ended;
      if frames[n].CancelNote? {
        var _ := registry.Cancel(frames[n].target);
        ghost var (pending, hit) := Revoked(s.pending, s.jobs[n].target);
        ghost var t := s.(pending := pending);
        Settle(match hit case None => t case Some(h) => t.(hits := s.hits + {h}, cancelled := s.cancelled + {h}), 0, n);
      } else {
        Settle(s, 0, n);
      }
    }

    /** recvLoop from the envelope peek to the next read. */
    method Receive(frame: Frame, ghost s: Eng)
      requires Shows(s) && |s.runners| > 0 && |s.at| == |s.jobs|
      modifies this, registry
      ensures Shows(Received(s, frame))
    {
      hide RanCall, RanOnLoop;
      if frame.Empty? {
        return;
      }
      var n := |frames|;
      frames := frames + [frame];
      if !frame.Call? {
        inflight := inflight + 1;
        gauge := gauge + 1;
        ghost var t := s.(jobs := s.jobs + [frame], at := s.at + [AtRecv], wg := s.wg + 1, gauge := s.gauge + 1);
        RunOnLoop(n, ServeStep(t, n));
        return;
      }
      if !frame.id.Null? {
        registry.Register(frame.id, n);
      }
      inflight := inflight + 1;
      gauge := gauge + 1;
      ghost var t := OfferStep(Prepared(s, frame.id));
      if |workQueue| < cap {
        workQueue := workQueue + [n];
      } else {
        fallback := fallback + 1;
        RunJob(n, t, 0);
      }
    }
  }
}
