/** What the dispatcher protocol guarantees in every run: no stranded task, one run per task, final
    outcomes, truthful Wait and Cancel, a complete abandon, backpressure and bounded memory. */
module DispatchLaws {
  import opened Collections
  import opened Tasks
  import opened StoreSpec
  import opened Manifests
  import opened DispatchSteps
  import opened DispatchTokens
  import opened DispatchStore
  import opened DispatchInvariant
  import Replay

  /** The done channel is closed: the task is terminal, or was evicted after having been terminal. A
      record that vanished while live is not over. */
  predicate Over(m: Mem, id: TaskID) {
    id in m.released && (id in m.entries ==> m.entries[id].task.state.IsTerminal())
  }

  lemma ReleasedIsOver(m: Mem, id: TaskID)
    requires MemValid(m) && id in m.released
    ensures Over(m, id)
  {
    hide MemValid;
    TerminalIsReleased(m, id);
  }

  /** What replay leaves is a state the dispatcher may start from. */
  lemma ReplayIsInitial(m0: Mem, disk: Disk, ok: Health, listing: seq<string>, load: Replay.Clock,
        abandon: Replay.Clock, s: Sys)
    requires MemValid(m0) && m0.entries == map[] && !m0.closed && forall n :: n in listing ==> n in disk.files
    requires s.mem == Replay.NewDisk(m0, disk, ok, listing, load, abandon).mem
    requires s == Sys(s.mem, [], s.cap, false, false, s.workers, map[], [], {}, map[], [], [])
    ensures forall workers, queueSize ::
              (s.cap == Clamp(queueSize, 256, 10000) && s.workers == seq(Clamp(workers, 16, 100), _ => Idle))
              ==> Initial(s, workers, queueSize)
  {
    hide MemValid, Replay.NewDisk;
    Replay.ReplayRecovers(m0, disk, ok, listing, load, abandon, "");
    forall id | id in s.mem.entries && s.mem.entries[id].task.pid == s.mem.pid
      ensures s.mem.entries[id].task.state.IsTerminal()
    {
      Replay.ReplayRecovers(m0, disk, ok, listing, load, abandon, id);
    }
  }

  // ---------- the pool and the channel ----------

  /** In every reachable state the pool and the channel have the configured sizes: 16 and 256 by default,
      at most 100 and 10000. */
  lemma PoolIsConfigured(s0: Sys, workers: int, queueSize: int, es: seq<Event>, pool: int, room: int)
    requires Initial(s0, workers, queueSize) && IsRun(s0, es)
    requires IsBound(workers, 16, 100, pool) && IsBound(queueSize, 256, 10000, room)
    ensures var s := After(s0, es); |s.workers| == pool && s.cap == room && |s.queue| <= room
  {
    hide Inv, IsRun, After, MemValid, TokensOk, WorkersOk;
    InitialInv(s0, workers, queueSize);
    RunKeepsInv(s0, es);
    RunShape(s0, es);
    InvParts(After(s0, es));
  }

  /** The tasks handed to the channel along a run, and those the workers took from it. */
  ghost function Sent(s: Sys, es: seq<Event>): seq<TaskID>
    requires IsRun(s, es)
    decreases |es|
  {
    if es == [] then []
    else
      (if es[0].Send? && !s.chanClosed && |s.queue| < s.cap then [s.calls[es[0].c].id] else [])
      + Sent(Next(s, es[0]), es[1..])
  }

  ghost function TakenBy(s: Sys, es: seq<Event>): seq<TaskID>
    requires IsRun(s, es)
    decreases |es|
  {
    if es == [] then []
    else
      var t := Next(s, es[0]);
      (if es[0].Take? && t.workers[es[0].w].Taken? then [t.workers[es[0].w].id] else []) + TakenBy(t, es[1..])
  }

  lemma QueueStep(s: Sys, e: Event)
    requires Enabled(s, e)
    ensures var t := Next(s, e);
            && (e.Take? ==> e.w < |t.workers| && t.workers[e.w].Taken? && s.queue == [t.workers[e.w].id] + t.queue)
            && (e.Send? && !s.chanClosed && |s.queue| < s.cap ==> t.queue == s.queue + [s.calls[e.c].id])
            && (!e.Take? && !(e.Send? && !s.chanClosed && |s.queue| < s.cap) ==> t.queue == s.queue)
  {
    if e.IsClientStep() {
      hide Next, Enabled;
      ClientFrame(s, e);
    } else if KeepsTaskStep(e) {
      hide Next, Enabled;
      WorkerFrame(s, e);
    } else {
      hide Transition, Submit;
    }
  }

  /** Tasks reach the workers in the order in which they were dispatched. */
  lemma {:induction false} FirstInFirstOut(s: Sys, es: seq<Event>)
    requires IsRun(s, es)
    ensures s.queue + Sent(s, es) == TakenBy(s, es) + After(s, es).queue
    decreases |es|
  {
    hide Enabled, Next;
    if es != [] {
      QueueStep(s, es[0]);
      var t := Next(s, es[0]);
      FirstInFirstOut(t, es[1..]);
      if es[0].Take? {
        assert s.queue + Sent(s, es) == [t.workers[es[0].w].id] + (t.queue + Sent(t, es[1..]));
      } else {
        assert s.queue + Sent(s, es) == t.queue + Sent(t, es[1..]);
      }
    }
  }

  // ---------- every unfinished task has exactly one holder ----------

  /** A submit handler, the channel or a worker is responsible for this task. */
  ghost predicate Holds(s: Sys, p: Place, id: TaskID) {
    match p
    case InCall(c) => c < |s.calls| && s.calls[c].HasToken() && s.calls[c].id == id
    case InQueue => id in s.queue
    case InWorker(w) => w < |s.workers| && (s.workers[w].IsEarly() || s.workers[w].IsLate()) && s.workers[w].id == id
    case Gone => false
  }

  ghost predicate HeldOnce(s: Sys, id: TaskID) {
    && (exists p :: Holds(s, p, id))
    && (forall p, q :: Holds(s, p, id) && Holds(s, q, id) ==> p == q)
    && (forall i, j :: 0 <= i < j < |s.queue| ==> s.queue[i] != s.queue[j])
  }

  lemma HolderIsPlace(s: Sys, p: Place, id: TaskID)
    requires Tokens(s) && Holds(s, p, id)
    ensures id in s.at && s.at[id] == p
  {
    hide WorkersOk, PlacesOk;
  }

  lemma PlaceIsHolder(s: Sys, id: TaskID)
    requires Tokens(s) && id in s.at && !s.at[id].Gone?
    requires s.at[id].InWorker? ==> s.at[id].w < |s.workers| && !s.workers[s.at[id].w].IsPast()
    ensures Holds(s, s.at[id], id)
  {
    hide WorkersOk, CallsPlaced, QueuePlaced, WorkersPlaced;
    assert PlaceOk(s.calls, s.queue, s.workers, id, s.at[id]);
  }

  /** In every reachable state with the store open, an unfinished task of this process is held by
      exactly one submit handler, queue slot or worker (a running one by a worker), or else a Cancel
      call has fired its cancel func and still owes its transition. */
  lemma NoTaskIsStranded(s0: Sys, workers: int, queueSize: int, es: seq<Event>, id: TaskID)
    requires Initial(s0, workers, queueSize) && IsRun(s0, es)
    requires var s := After(s0, es);
             && !s.mem.closed && id in s.mem.entries && s.mem.entries[id].task.pid == s.mem.pid
             && !s.mem.entries[id].task.state.IsTerminal()
    ensures var s := After(s0, es); HeldOnce(s, id) || Owing(s.calls, id)
    ensures var s := After(s0, es);
            s.mem.entries[id].task.state == Running && !Owing(s.calls, id) ==>
              exists w :: 0 <= w < |s.workers| && s.workers[w].IsLate() && s.workers[w].id == id
  {
    hide Initial, Inv, After, IsRun, Tokens, StateOk;
    InitialInv(s0, workers, queueSize);
    RunKeepsInv(s0, es);
    UnfinishedIsHeld(After(s0, es), id);
  }

  lemma UnfinishedIsHeld(s: Sys, id: TaskID)
    requires Inv(s) && !s.mem.closed && id in s.mem.entries && s.mem.entries[id].task.pid == s.mem.pid
    requires !s.mem.entries[id].task.state.IsTerminal()
    ensures HeldOnce(s, id) || Owing(s.calls, id)
    ensures s.mem.entries[id].task.state == Running && !Owing(s.calls, id) ==>
              exists w :: 0 <= w < |s.workers| && s.workers[w].IsLate() && s.workers[w].id == id
  {
    hide Inv, Tokens, Owing, MemValid;
    InvParts(s);
    IsPlaced(s, id);
    assert StateOk(s.mem, s.calls, s.workers, id, s.at[id]);
    if !Owing(s.calls, id) {
      PlaceIsHolder(s, id);
      HeldOnceBy(s, id);
    }
  }

  lemma IsPlaced(s: Sys, id: TaskID)
    requires Inv(s) && id in s.mem.entries && s.mem.entries[id].task.pid == s.mem.pid
    requires !s.mem.entries[id].task.state.IsTerminal()
    ensures id in s.at && id !in s.mem.released
  {
    hide MemValid, Tokens, StatesOk, CancelledOk, CallsOk, QueueBound, CancelsOk;
    TerminalIsReleased(s.mem, id);
  }

  lemma HeldOnceBy(s: Sys, id: TaskID)
    requires Tokens(s) && id in s.at && Holds(s, s.at[id], id)
    ensures HeldOnce(s, id)
  {
    hide Holds, WorkersOk, CallsPlaced, WorkersPlaced, PlacesOk;
    forall p | Holds(s, p, id)
      ensures p == s.at[id]
    {
      HolderIsPlace(s, p, id);
    }
  }

  // ---------- nothing is left over ----------

  /** The dispatcher has closed, its workers have left, and every call has returned. */
  ghost predicate Quiescent(s: Sys) {
    && s.chanClosed
    && (forall w :: 0 <= w < |s.workers| ==> s.workers[w].Exited?)
    && (forall c :: 0 <= c < |s.calls| ==> s.calls[c].IsDone())
  }

  /** Once the dispatcher has closed and all calls have returned, with the store still open, every task
      submitted here is terminal or evicted, and so is every other record of this process. */
  lemma QuiescentMeansSettled(s0: Sys, workers: int, queueSize: int, es: seq<Event>)
    requires Initial(s0, workers, queueSize) && IsRun(s0, es)
    requires var s := After(s0, es); Quiescent(s) && !s.mem.closed
    ensures var s := After(s0, es);
            && (forall id :: id in s.at ==> Over(s.mem, id))
            && (forall id :: id in s.mem.entries && s.mem.entries[id].task.pid == s.mem.pid ==> Over(s.mem, id))
  {
    hide Initial, Inv, After, IsRun, Quiescent;
    var s := After(s0, es);
    InitialInv(s0, workers, queueSize);
    RunKeepsInv(s0, es);
    RunShape(s0, es);
    HasWorkers(s0, workers, queueSize);
    forall id | id in s.at || (id in s.mem.entries && s.mem.entries[id].task.pid == s.mem.pid)
      ensures Over(s.mem, id)
    {
      QuiescentIsOver(s, id);
    }
  }

  lemma HasWorkers(s: Sys, workers: int, queueSize: int)
    requires Initial(s, workers, queueSize)
    ensures |s.workers| > 0
  {
    hide MemValid;
  }

  lemma QuiescentIsOver(s: Sys, id: TaskID)
    requires Inv(s) && Quiescent(s) && !s.mem.closed && |s.workers| > 0
    requires id in s.at || (id in s.mem.entries && s.mem.entries[id].task.pid == s.mem.pid)
    ensures Over(s.mem, id)
  {
    hide Inv, Tokens, MemValid, HeldOnce, Owing;
    InvParts(s);
    TerminalIsReleased(s.mem, id);
    if id in s.mem.entries && !s.mem.entries[id].task.state.IsTerminal() {
      InvKnown(s);
      UnfinishedIsHeld(s, id);
      NobodyHolds(s, id);
    }
  }

  lemma InvKnown(s: Sys)
    requires Inv(s)
    ensures Known(s)
  {
    hide MemValid, Tokens, Known, CallOk, KnownId, StateOk, CancelsOk, QueueBound;
  }

  lemma NobodyHolds(s: Sys, id: TaskID)
    requires Quiescent(s) && Tokens(s) && |s.workers| > 0
    ensures !HeldOnce(s, id) && !Owing(s.calls, id)
  {
    hide TokensOk, WorkersOk;
    assert s.workers[0].Exited?;
  }

  // ---------- one run, one outcome ----------

  /** Over any run a task's handler is started at most once, and whatever executes was started. */
  lemma HandlerRunsOnce(s0: Sys, workers: int, queueSize: int, es: seq<Event>)
    requires Initial(s0, workers, queueSize) && IsRun(s0, es)
    ensures var s := After(s0, es);
            && (forall i, j :: 0 <= i < j < |s.runs| ==> s.runs[i] != s.runs[j])
            && (forall w :: 0 <= w < |s.workers| && s.workers[w].IsLate() ==> s.workers[w].id in s.runs)
  {
    hide Initial, Inv, After, IsRun, TokensOk, CtxsOk, RunningOk, ChannelOk;
    InitialInv(s0, workers, queueSize);
    RunKeepsInv(s0, es);
    InvParts(After(s0, es));
  }

  /** Only the worker whose queued-to-running step succeeds starts the handler: the store moved the
      task from queued to running in that very step, and nobody had started it before. */
  lemma StartMeansQueued(s: Sys, w: nat, now: Time)
    requires Inv(s) && Enabled(s, Start(w, now))
    ensures var t, id := Next(s, Start(w, now)), s.workers[w].id;
            && (t.workers[w].Executing? <==>
                  (!s.mem.closed && id in s.mem.entries && s.mem.entries[id].task.state == Queued))
            && (t.workers[w].Executing? ==> id !in s.runs && t.runs == s.runs + [id]
                                            && id in t.mem.entries && t.mem.entries[id].task.state == Running)
            && (!t.workers[w].Executing? ==>
                  t.runs == s.runs && t.mem == s.mem && (s.mem.closed || id in s.mem.released))
  {
    hide Inv, MemValid, Transition, TokensOk, CtxsOk, RunningOk, ExecutingOk, ChannelOk;
    InvParts(s);
    var id := s.workers[w].id;
    HeldByWorker(s, w);
    assert StateOk(s.mem, s.calls, s.workers, id, s.at[id]);
    Starts(s.mem, id, now);
  }

  lemma HeldByWorker(s: Sys, w: nat)
    requires Tokens(s)
    ensures w < |s.workers| && s.workers[w].HasJob() ==>
              s.workers[w].id in s.at && s.at[s.workers[w].id] == InWorker(w)
  {
    hide Tokens;
    HolderOfWorker(s, w);
  }

  /** A recorded outcome is never changed by a later worker, canceller or abandoner: for the rest of
      the run the task keeps its terminal state or is evicted, and it does not come back. */
  lemma {:induction false} OutcomeNeverChanges(s: Sys, es: seq<Event>, id: TaskID)
    requires Inv(s) && IsRun(s, es) && id in s.mem.released
    ensures var t := After(s, es);
            && id in t.mem.released
            && (id in t.mem.entries ==>
                  id in s.mem.entries && t.mem.entries[id].task.state == s.mem.entries[id].task.state)
    decreases |es|
  {
    hide Inv, Next, Enabled, MemValid, CallOk, Tokens, StateOk, KnownId, CancelledOk;
    if es != [] {
      InvParts(s);
      InvStep(s, es[0]);
      StepGrows(s, es[0]);
      if es[0].SubmitTask? {
        SubmittedIsFresh(s, es[0], id);
        SubmitGrows(s, es[0]);
      } else {
        StoreKept(s, es[0], id);
      }
      OutcomeNeverChanges(Next(s, es[0]), es[1..], id);
    }
  }

  lemma SubmittedIsFresh(s: Sys, e: Event, id: TaskID)
    requires Enabled(s, e) && e.SubmitTask? && id in s.mem.released
    ensures e.id != id
  {
  }

  // ---------- Wait and Cancel tell the truth ----------

  /** A Wait that returned without an error returned a terminal task; a waiter still blocked has a live
      task or can be woken at once, even if its task has been evicted; and a Cancel that returned nil
      leaves its task terminal or evicted for good. */
  lemma AnswersAreTrue(s0: Sys, workers: int, queueSize: int, es: seq<Event>, c: nat)
    requires Initial(s0, workers, queueSize) && IsRun(s0, es) && c < |After(s0, es).calls|
    ensures var s := After(s0, es);
            match s.calls[c]
            case WaitReturned(id, Finished(task)) => task.state.IsTerminal() && Over(s.mem, id)
            case Waiting(id) =>
              (id in s.mem.entries && !s.mem.entries[id].task.state.IsTerminal()) || Enabled(s, Wake(c))
            case CancelReturned(id, Ok) => Over(s.mem, id)
            case _ => true
  {
    hide Initial, Inv, After, IsRun, Tokens, MemValid;
    InitialInv(s0, workers, queueSize);
    RunKeepsInv(s0, es);
    var s := After(s0, es);
    InvParts(s);
    assert CallOk(s, s.calls[c]);
    if s.calls[c].WaitReturned? || s.calls[c].Waiting? || s.calls[c].CancelReturned? {
      TerminalIsReleased(s.mem, s.calls[c].id);
    }
  }

  // ---------- bounds ----------

  /** Backpressure needs a stale entry: when the channel is at least as large as the admission bound and
      Dispatch finds it full, the task being dispatched or one in the channel has already left
      queued. */
  lemma FullChannelHasStaleEntry(s: Sys, c: nat)
    requires Inv(s) && s.cap >= s.mem.maxQueue && Enabled(s, Send(c))
    requires Next(s, Send(c)).calls[c].RollingBack?
    ensures exists id :: (id == s.calls[c].id || id in s.queue) &&
              !(id in s.mem.entries && s.mem.entries[id].task.state == Queued)
  {
    hide Inv, MemValid, WorkersOk, PlacesOk, WorkersPlaced, StateOk, KnownId, CancelledOk, CallOk;
    InvParts(s);
    var id := s.calls[c].id;
    var all := s.queue + [id];
    assert forall i :: 0 <= i < |all| ==>
          all[i] in s.at && s.at[all[i]] == if i < |s.queue| then InQueue else InCall(c);
    var fits := forall x :: x in all ==> x in s.mem.entries && s.mem.entries[x].task.state == Queued;
    if fits {
      assert all[|s.queue|] == id;
      AllQueuedFit(s.mem, all);
      QueueBounded(s, id);
    }
    var x :| x in all && !(x in s.mem.entries && s.mem.entries[x].task.state == Queued);
  }

  lemma AllQueuedFit(m: Mem, all: seq<TaskID>)
    requires forall i, j :: 0 <= i < j < |all| ==> all[i] != all[j]
    requires forall x :: x in all ==> x in m.entries && m.entries[x].task.state == Queued
    ensures |all| <= |InState(m.entries, Queued)|
  {
    DistinctSize(all);
    SubsetSize(Elements(all), InState(m.entries, Queued));
  }

  lemma QueueBounded(s: Sys, id: TaskID)
    requires Inv(s) && id in s.at && id in s.mem.entries && s.mem.entries[id].task.state == Queued
    ensures |InState(s.mem.entries, Queued)| <= s.mem.maxQueue
  {
    hide Tokens, Known, CancelsOk, StatesOk, CancelledOk, CallsOk, HeapValid;
  }

  // ---------- sizes that no step changes ----------

  ghost predicate SameShape(s: Sys, t: Sys) {
    && t.cap == s.cap && |t.workers| == |s.workers|
    && t.mem.pid == s.mem.pid && t.mem.maxQueue == s.mem.maxQueue && t.mem.maxRet == s.mem.maxRet
  }

  lemma StepShape(s: Sys, e: Event)
    requires Enabled(s, e) && Inv(s)
    ensures SameShape(s, Next(s, e))
  {
    hide Inv, Tokens, StateOk, KnownId, MemValid, CancelledOk, CallOk;
    InvParts(s);
    StepGrows(s, e);
    if e.IsClientStep() {
      hide Next, Enabled;
      ClientFrame(s, e);
    } else if KeepsTaskStep(e) {
      hide Next, Enabled;
      WorkerFrame(s, e);
    }
  }

  lemma {:induction false} RunShape(s: Sys, es: seq<Event>)
    requires Inv(s) && IsRun(s, es)
    ensures SameShape(s, After(s, es))
    decreases |es|
  {
    hide Inv, Next, Enabled;
    if es != [] {
      StepShape(s, es[0]);
      InvStep(s, es[0]);
      RunShape(Next(s, es[0]), es[1..]);
    }
  }

  /** The server configures channel and store with the same number; a channel at least as large as the
      admission bound is enough. In every run, a Dispatch that reports a full queue has met a task that is
      no longer queued. */
  lemma QueueFullMeansStale(s0: Sys, workers: int, tasks: int, es: seq<Event>, c: nat)
    requires Initial(s0, workers, tasks) && s0.mem.maxQueue <= Clamp(tasks, 256, 10000) && IsRun(s0, es)
    requires var s := After(s0, es);
             Enabled(s, Send(c)) && Next(s, Send(c)).calls[c] == RollingBack(s.calls[c].id, Failed)
    ensures var s := After(s0, es);
            exists id :: (id == s.calls[c].id || id in s.queue) &&
              !(id in s.mem.entries && s.mem.entries[id].task.state == Queued)
  {
    hide Inv, After, IsRun, Next;
    InitialInv(s0, workers, tasks);
    RunKeepsInv(s0, es);
    RunShape(s0, es);
    FullChannelHasStaleEntry(After(s0, es), c);
  }

  // ---------- bounded memory ----------

  ghost function JobIds(workers: seq<Worker>): set<TaskID> {
    set w | 0 <= w < |workers| && workers[w].HasJob() :: workers[w].id
  }

  lemma {:induction false} JobIdsSize(workers: seq<Worker>)
    ensures |JobIds(workers)| <= |workers|
  {
    if workers != [] {
      var p, k := workers[..|workers| - 1], workers[|workers| - 1];
      JobIdsSize(p);
      assert workers == p + [k];
      assert JobIds(workers) == JobIds(p) + if k.HasJob() then {k.id} else {};
    }
  }

  /** How many Cancel calls are between firing and transitioning. */
  ghost function OwingCount(calls: seq<Call>): nat {
    if calls == [] then 0
    else OwingCount(calls[..|calls| - 1]) + if calls[|calls| - 1].CancelOwing? then 1 else 0
  }

  ghost function OwingIds(calls: seq<Call>): set<TaskID> {
    set c | 0 <= c < |calls| && calls[c].CancelOwing? :: calls[c].id
  }

  lemma {:induction false} OwingIdsSize(calls: seq<Call>)
    ensures |OwingIds(calls)| <= OwingCount(calls)
  {
    if calls != [] {
      var p, k := calls[..|calls| - 1], calls[|calls| - 1];
      OwingIdsSize(p);
      assert calls == p + [k];
      assert OwingIds(calls) == OwingIds(p) + if k.CancelOwing? then {k.id} else {};
    }
  }

  ghost predicate AllOwn(m: Mem) {
    forall id :: id in m.entries ==> m.entries[id].task.pid == m.pid
  }

  lemma StepOwn(s: Sys, e: Event)
    requires Enabled(s, e) && Inv(s) && AllOwn(s.mem)
    ensures AllOwn(Next(s, e).mem)
  {
    hide Inv, Tokens, StateOk, KnownId, MemValid, CancelledOk, CallOk, Next, Enabled;
    InvParts(s);
    if e.SubmitTask? {
      SubmitGrows(s, e);
    } else {
      forall id | id in Next(s, e).mem.entries
        ensures Next(s, e).mem.entries[id].task.pid == Next(s, e).mem.pid
      {
        StoreKept(s, e, id);
      }
    }
  }

  lemma {:induction false} RunOwn(s: Sys, es: seq<Event>)
    requires Inv(s) && IsRun(s, es) && AllOwn(s.mem)
    ensures AllOwn(After(s, es).mem)
    decreases |es|
  {
    hide Inv, Next, Enabled, AllOwn;
    if es != [] {
      StepOwn(s, es[0]);
      InvStep(s, es[0]);
      RunOwn(Next(s, es[0]), es[1..]);
    }
  }

  lemma RunningIsCarried(s: Sys, id: TaskID)
    requires Inv(s) && AllOwn(s.mem) && !s.mem.closed && id in InState(s.mem.entries, Running)
    ensures id in JobIds(s.workers) + OwingIds(s.calls)
  {
    hide Inv, Tokens, MemValid, HeldOnce;
    UnfinishedIsHeld(s, id);
  }

  /** Bounded memory: with no record of another process and the store open, there are never more tasks
      than MaxQueued + MaxRetained + workers + the Cancel calls between firing and transitioning. */
  lemma MemoryIsBounded(s0: Sys, workers: int, queueSize: int, es: seq<Event>)
    requires Initial(s0, workers, queueSize) && AllOwn(s0.mem) && IsRun(s0, es) && !After(s0, es).mem.closed
    ensures var s := After(s0, es);
            |s.mem.entries| <= s0.mem.maxQueue + s0.mem.maxRet + |s0.workers| + OwingCount(s.calls)
  {
    hide Inv, After, IsRun, Initial, AllOwn, OwingCount;
    var s := After(s0, es);
    InitialInv(s0, workers, queueSize);
    RunKeepsInv(s0, es);
    RunShape(s0, es);
    RunOwn(s0, es);
    SizeIsBounded(s);
  }

  lemma SizeIsBounded(s: Sys)
    requires Inv(s) && AllOwn(s.mem) && !s.mem.closed
    ensures |s.mem.entries| <= s.mem.maxQueue + s.mem.maxRet + |s.workers| + OwingCount(s.calls)
  {
    hide Inv, AllOwn, OwingCount, JobIds, OwingIds, InState, Tokens;
    var r := InState(s.mem.entries, Running);
    forall id | id in r
      ensures id in JobIds(s.workers) + OwingIds(s.calls)
    {
      RunningIsCarried(s, id);
    }
    SubsetSize(r, JobIds(s.workers) + OwingIds(s.calls));
    JobIdsSize(s.workers);
    OwingIdsSize(s.calls);
    CountsOf(s);
    QueuedIsBounded(s);
  }

  lemma CountsOf(s: Sys)
    requires Inv(s)
    ensures |s.mem.entries| == s.mem.queued + |InState(s.mem.entries, Running)| + |s.mem.heap|
            && |s.mem.heap| <= s.mem.maxRet
  {
    hide Tokens, Known, CancelsOk, StatesOk, CancelledOk, CallsOk, QueueBound, HeapValid, EntryValid, InState;
    SizeIsSum(s.mem);
  }

  lemma QueuedIsBounded(s: Sys)
    requires Inv(s) && AllOwn(s.mem)
    ensures s.mem.queued <= s.mem.maxQueue
  {
    hide Tokens, CancelsOk, StatesOk, CancelledOk, CallsOk, HeapValid;
    if s.mem.queued > 0 {
      var id :| id in InState(s.mem.entries, Queued);
      assert EntryValid(id, s.mem.entries[id], s.mem.released);
    }
  }
}
