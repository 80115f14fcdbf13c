/** The server engine: one receive loop, a bounded queue with synchronous fallback, a fixed pool of
    workers, and the accounting that shutdown waits on (internal/server/server.go). Each channel
    operation, atomic counter update and ledger critical section is one step. */
module Engine {
  import opened Tasks
  import opened Ledger

  datatype Config = Config(maxConcurrent: int, queueSize: int)

  const DEFAULT_CONCURRENT := 16
  const DEFAULT_QUEUE := 64
  const CONCURRENT_CAP := 100
  const QUEUE_CAP := 10000

  /** normalizeConfig, without the shutdown timeout. */
  function NormalizeConfig(c: Config): Config {
    Config(if c.maxConcurrent <= 0 then DEFAULT_CONCURRENT
           else if c.maxConcurrent > CONCURRENT_CAP then CONCURRENT_CAP else c.maxConcurrent,
           if c.queueSize <= 0 then DEFAULT_QUEUE
           else if c.queueSize > QUEUE_CAP then QUEUE_CAP else c.queueSize)
  }

  /** What the envelope of a frame shows: empty, a tools/call, a notifications/cancelled, or the rest. */
  datatype Frame = Empty | Call(id: RequestID) | CancelNote(target: RequestID) | OtherFrame

  /** Where an execution stands; jobs are numbered in the order they were accepted, and the steps after
      Executing are runJob's deferred ones in order. */
  datatype Runner =
    | Free
    | Executing(n: nat)
    | Firing(n: nat, hit: nat)
    | Unregistering(n: nat)
    | Releasing(n: nat)
    | Uncounting(n: nat)
    | Completing(n: nat)
    | Leaving(n: nat)
    | Exited
  {
    predicate IsBusy() {
      !Free? && !Exited?
    }

    predicate IsCounted() {
      IsBusy() && !Completing? && !Leaving?
    }

    predicate IsIncomplete() {
      IsBusy() && !Leaving?
    }
  }

  /** The receive loop: between reads, preparing a job, executing one itself, or returned. */
  datatype Recv =
    | Reading
    | Registering(n: nat)
    | Replacing(n: nat, prev: Option<nat>)
    | Reserving(n: nat)
    | Counting(n: nat)
    | Offering(n: nat)
    | Serving
    | Stopped
  {
    predicate HasJob() {
      Registering? || Replacing? || Reserving? || Counting? || Offering?
    }

    predicate IsReserved() {
      Counting? || Offering?
    }
  }

  datatype Phase = Up | Draining | Drained | Returned

  /** History: where job n is. */
  datatype Place = AtRecv | AtQueue | AtRunner(r: nat) | Done

  /** Runner 0 is the receive loop executing a job itself; the others are the workers. `jobs`, `at`,
      `executed` and `hits` are history: the frames accepted, where each is, the jobs whose handler was
      started in order, and the jobs a cancel notification found. */
  datatype Eng = Eng(
    recv: Recv,
    queue: seq<nat>,
    cap: nat,
    phase: Phase,
    runners: seq<Runner>,
    pending: map<string, nat>,
    cancelled: set<nat>,
    wg: int,
    gauge: int,
    completed: nat,
    fallback: nat,
    jobs: seq<Frame>,
    at: seq<Place>,
    executed: seq<nat>,
    hits: set<nat>)

  datatype Event =
    | Read(frame: Frame)
    | Stop
    | Register
    | FirePrev
    | Reserve
    | Count
    | Offer
    | Take(r: nat)
    | Return(r: nat)
    | FireHit(r: nat)
    | Unregister(r: nat)
    | Release(r: nat)
    | Uncount(r: nat)
    | Complete(r: nat)
    | Leave(r: nat)
    | Exit(r: nat)
    | CloseQueue
    | Drain(timedOut: bool)
    | ReturnRun
  {
    predicate IsRecvStep() {
      Read? || Stop? || Register? || FirePrev? || Reserve? || Count? || Offer?
    }

    predicate IsPhaseStep() {
      CloseQueue? || Drain? || ReturnRun?
    }

    predicate IsRunnerStep() {
      !IsRecvStep() && !IsPhaseStep()
    }
  }

  predicate NeedsLedger(f: Frame) {
    f.Call? && !f.id.Null?
  }

  ghost predicate Initial(s: Eng, c: Config) {
    var n := NormalizeConfig(c);
    s == Eng(Reading, [], n.queueSize, Up, seq(n.maxConcurrent + 1, _ => Free),
               map[], {}, 0, 0, 0, 0, [], [], [], {})
  }

  ghost predicate Enabled(s: Eng, e: Event) {
    match e
    case Read(_) => s.recv.Reading?
    case Stop => s.recv.Reading?
    case Register => s.recv.Registering? && s.recv.n < |s.jobs| && s.jobs[s.recv.n].Call?
    case FirePrev => s.recv.Replacing?
    case Reserve => s.recv.Reserving?
    case Count => s.recv.Counting? && s.recv.n < |s.jobs| && s.recv.n < |s.at| && |s.runners| > 0
    case Offer => s.recv.Offering? && s.recv.n < |s.at| && |s.runners| > 0
    case Take(r) => 0 < r < |s.runners| && s.runners[r].Free? && s.queue != [] && s.queue[0] < |s.at|
    case Return(r) => r < |s.runners| && s.runners[r].Executing? && s.runners[r].n < |s.jobs|
    case FireHit(r) => r < |s.runners| && s.runners[r].Firing?
    case Unregister(r) => r < |s.runners| && s.runners[r].Unregistering? && s.runners[r].n < |s.jobs|
        && s.jobs[s.runners[r].n].Call?
    case Release(r) => r < |s.runners| && s.runners[r].Releasing?
    case Uncount(r) => r < |s.runners| && s.runners[r].Uncounting?
    case Complete(r) => r < |s.runners| && s.runners[r].Completing?
    case Leave(r) => r < |s.runners| && s.runners[r].Leaving? && s.runners[r].n < |s.at|
    case Exit(r) => 0 < r < |s.runners| && s.runners[r].Free? && s.queue == [] && !s.phase.Up?
    case CloseQueue => s.recv.Stopped? && s.phase.Up?
    case Drain(timedOut) => s.phase.Draining? && (timedOut || s.wg == 0)
    case ReturnRun => s.phase.Drained? && forall r :: 0 < r < |s.runners| ==> s.runners[r].Exited?
  }

  function WithRunner(s: Eng, r: nat, k: Runner): Eng
    requires r < |s.runners|
  {
    s.(runners := s.runners[r := k])
  }

  /** A frame read from the transport; an empty one is skipped. */
  function ReadStep(s: Eng, frame: Frame): Eng {
    if frame.Empty? then s
    else
      var n := |s.jobs|;
      s.(jobs := s.jobs + [frame], at := s.at + [AtRecv],
         recv := if NeedsLedger(frame) then Registering(n) else Reserving(n))
  }

  function RegisterStep(s: Eng): Eng
    requires s.recv.Registering? && s.recv.n < |s.jobs| && s.jobs[s.recv.n].Call?
  {
    var (pending, prev) := Enrolled(s.pending, s.jobs[s.recv.n].id, s.recv.n);
    s.(pending := pending, recv := Replacing(s.recv.n, prev))
  }

  function FirePrevStep(s: Eng): Eng
    requires s.recv.Replacing?
  {
    s.(cancelled := if s.recv.prev.Some? then s.cancelled + {s.recv.prev.value} else s.cancelled,
       recv := Reserving(s.recv.n))
  }

  /** Execution on the receive loop itself. */
  function ServeStep(s: Eng, n: nat): Eng
    requires n < |s.at| && |s.runners| > 0
  {
    WithRunner(s, 0, Executing(n)).(recv := Serving, at := s.at[n := AtRunner(0)], executed := s.executed + [n])
  }

  /** Non-tools/call traffic stays on the loop; a tools/call goes on to the queue. */
  function CountStep(s: Eng): Eng
    requires s.recv.Counting? && s.recv.n < |s.jobs| && s.recv.n < |s.at| && |s.runners| > 0
  {
    var t := s.(gauge := s.gauge + 1);
    if s.jobs[s.recv.n].Call? then t.(recv := Offering(s.recv.n)) else ServeStep(t, s.recv.n)
  }

  /** The select on the work queue: enqueue if there is room, otherwise fall back to the loop. */
  function OfferStep(s: Eng): Eng
    requires s.recv.Offering? && s.recv.n < |s.at| && |s.runners| > 0
  {
    var n := s.recv.n;
    if |s.queue| < s.cap then s.(queue := s.queue + [n], at := s.at[n := AtQueue], recv := Reading)
    else ServeStep(s.(fallback := s.fallback + 1), n)
  }

  function TakeStep(s: Eng, r: nat): Eng
    requires r < |s.runners| && s.queue != [] && s.queue[0] < |s.at|
  {
    var n := s.queue[0];
    WithRunner(s, r, Executing(n)).(queue := s.queue[1..], at := s.at[n := AtRunner(r)], executed := s.executed + [n])
  }

  /** The handler returns. A cancel notification has looked its target up in the ledger. */
  function ReturnStep(s: Eng, r: nat): Eng
    requires r < |s.runners| && s.runners[r].Executing? && s.runners[r].n < |s.jobs|
  {
    var n := s.runners[r].n;
    match s.jobs[n]
    case Call(id) => WithRunner(s, r, if id.Null? then Releasing(n) else Unregistering(n))
    case CancelNote(target) =>
      var (pending, hit) := Revoked(s.pending, target);
      (match hit
       case None => WithRunner(s, r, Uncounting(n)).(pending := pending)
       case Some(h) => WithRunner(s, r, Firing(n, h)).(pending := pending, hits := s.hits + {h}))
    case _ => WithRunner(s, r, Uncounting(n))
  }

  function LeaveStep(s: Eng, r: nat): Eng
    requires r < |s.runners| && s.runners[r].Leaving? && s.runners[r].n < |s.at|
  {
    var t := WithRunner(s, r, Free).(wg := s.wg - 1, at := s.at[s.runners[r].n := Done]);
    if r == 0 then t.(recv := Reading) else t
  }

  ghost function Next(s: Eng, e: Event): Eng
    requires Enabled(s, e)
  {
    match e
    case Read(frame) => ReadStep(s, frame)
    case Stop => s.(recv := Stopped)
    case Register => RegisterStep(s)
    case FirePrev => FirePrevStep(s)
    case Reserve => s.(wg := s.wg + 1, recv := Counting(s.recv.n))
    case Count => CountStep(s)
    case Offer => OfferStep(s)
    case Take(r) => TakeStep(s, r)
    case Return(r) => ReturnStep(s, r)
    case FireHit(r) => WithRunner(s, r, Uncounting(s.runners[r].n)).(cancelled := s.cancelled + {s.runners[r].hit})
    case Unregister(r) =>
      WithRunner(s, r, Releasing(s.runners[r].n)).(pending := Cleared(s.pending, s.jobs[s.runners[r].n].id))
    case Release(r) => WithRunner(s, r, Uncounting(s.runners[r].n)).(cancelled := s.cancelled + {s.runners[r].n})
    case Uncount(r) => WithRunner(s, r, Completing(s.runners[r].n)).(gauge := s.gauge - 1)
    case Complete(r) => WithRunner(s, r, Leaving(s.runners[r].n)).(completed := s.completed + 1)
    case Leave(r) => LeaveStep(s, r)
    case Exit(r) => WithRunner(s, r, Exited)
    case CloseQueue => s.(phase := Draining)
    case Drain(_) => s.(phase := Drained)
    case ReturnRun => s.(phase := Returned)
  }

  ghost predicate IsRun(s: Eng, es: seq<Event>)
    decreases |es|
  {
    es == [] || (Enabled(s, es[0]) && IsRun(Next(s, es[0]), es[1..]))
  }

  ghost function After(s: Eng, es: seq<Event>): Eng
    requires IsRun(s, es)
    decreases |es|
  {
    if es == [] then s else After(Next(s, es[0]), es[1..])
  }
}
