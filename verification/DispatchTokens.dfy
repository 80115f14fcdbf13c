/** Who holds a task: the bookkeeping half of the dispatcher's invariant, which does not look at the
    store at all. */
module DispatchTokens {
  import opened Tasks
  import opened StoreSpec
  import opened DispatchSteps

  // ---------- one holder per task ----------

  ghost predicate CallsPlaced(calls: seq<Call>, at: map<TaskID, Place>) {
    forall c :: 0 <= c < |calls| && calls[c].HasToken() ==> calls[c].id in at && at[calls[c].id] == InCall(c)
  }

  ghost predicate QueuePlaced(queue: seq<TaskID>, at: map<TaskID, Place>) {
    && (forall i :: 0 <= i < |queue| ==> queue[i] in at && at[queue[i]] == InQueue)
    && (forall i, j :: 0 <= i < j < |queue| ==> queue[i] != queue[j])
  }

  ghost predicate WorkersPlaced(workers: seq<Worker>, at: map<TaskID, Place>) {
    forall w :: 0 <= w < |workers| && workers[w].HasJob() ==> workers[w].id in at && at[workers[w].id] == InWorker(w)
  }

  ghost predicate PlaceOk(calls: seq<Call>, queue: seq<TaskID>, workers: seq<Worker>, id: TaskID, p: Place) {
    match p
    case InCall(c) => c < |calls| && calls[c].HasToken() && calls[c].id == id
    case InQueue => id in queue
    case InWorker(w) => w < |workers| && workers[w].HasJob() && workers[w].id == id
    case Gone => true
  }

  ghost predicate PlacesOk(calls: seq<Call>, queue: seq<TaskID>, workers: seq<Worker>, at: map<TaskID, Place>) {
    forall id :: id in at ==> PlaceOk(calls, queue, workers, id, at[id])
  }

  ghost predicate TokensOk(calls: seq<Call>, queue: seq<TaskID>, workers: seq<Worker>, at: map<TaskID, Place>) {
    && CallsPlaced(calls, at)
    && QueuePlaced(queue, at)
    && WorkersPlaced(workers, at)
    && PlacesOk(calls, queue, workers, at)
  }

  lemma TokensCallKept(calls: seq<Call>, queue: seq<TaskID>, workers: seq<Worker>, at: map<TaskID, Place>, c: nat,
        k: Call)
    requires TokensOk(calls, queue, workers, at) && c < |calls|
    requires k.HasToken() == calls[c].HasToken() && (k.HasToken() ==> k.id == calls[c].id)
    ensures TokensOk(calls[c := k], queue, workers, at)
  {
  }

  lemma TokensCallAdded(calls: seq<Call>, queue: seq<TaskID>, workers: seq<Worker>, at: map<TaskID, Place>, k: Call)
    requires TokensOk(calls, queue, workers, at) && !k.HasToken()
    ensures TokensOk(calls + [k], queue, workers, at)
  {
  }

  lemma TokensWorkerKept(calls: seq<Call>, queue: seq<TaskID>, workers: seq<Worker>, at: map<TaskID, Place>, w: nat,
        k: Worker)
    requires TokensOk(calls, queue, workers, at) && w < |workers|
    requires k.HasJob() == workers[w].HasJob() && (k.HasJob() ==> k.id == workers[w].id)
    ensures TokensOk(calls, queue, workers[w := k], at)
  {
  }

  lemma TokensSubmitted(calls: seq<Call>, queue: seq<TaskID>, workers: seq<Worker>, at: map<TaskID, Place>, id: TaskID)
    requires TokensOk(calls, queue, workers, at) && id !in at
    ensures TokensOk(calls + [Submitted(id)], queue, workers, at[id := InCall(|calls|)])
  {
  }

  lemma TokensCallEnds(calls: seq<Call>, queue: seq<TaskID>, workers: seq<Worker>, at: map<TaskID, Place>, c: nat,
        k: Call)
    requires TokensOk(calls, queue, workers, at) && c < |calls| && calls[c].HasToken() && !k.HasToken()
    ensures TokensOk(calls[c := k], queue, workers, at[calls[c].id := Gone])
    ensures TokensOk(calls[c := k], queue + [calls[c].id], workers, at[calls[c].id := InQueue])
  {
    var id := calls[c].id;
    assert id !in queue;
  }

  lemma TokensTaken(calls: seq<Call>, queue: seq<TaskID>, workers: seq<Worker>, at: map<TaskID, Place>, w: nat,
        k: Worker)
    requires TokensOk(calls, queue, workers, at) && w < |workers| && !workers[w].HasJob() && queue != []
    requires k.HasJob() && k.id == queue[0]
    ensures TokensOk(calls, queue[1..], workers[w := k], at[queue[0] := InWorker(w)])
  {
    forall id | id in at && id != queue[0] && at[id] == InQueue
      ensures id in queue[1..]
    {
      var i :| 0 <= i < |queue| && queue[i] == id;
      assert queue[1..][i - 1] == id;
    }
  }

  lemma TokensReleased(calls: seq<Call>, queue: seq<TaskID>, workers: seq<Worker>, at: map<TaskID, Place>, w: nat)
    requires TokensOk(calls, queue, workers, at) && w < |workers| && workers[w].HasJob()
    ensures TokensOk(calls, queue, workers[w := Idle], at[workers[w].id := Gone])
  {
  }

  // ---------- contexts and d.running ----------

  ghost predicate CtxsOk(workers: seq<Worker>, at: map<TaskID, Place>, ctxs: seq<TaskID>) {
    && (forall w :: 0 <= w < |workers| && workers[w].HasJob() ==>
          workers[w].ctx < |ctxs| && ctxs[workers[w].ctx] == workers[w].id)
    && (forall x :: 0 <= x < |ctxs| ==> ctxs[x] in at && (at[ctxs[x]].InWorker? || at[ctxs[x]].Gone?))
  }

  /** d.running lists exactly the tasks of the workers between publish and unpublish. */
  ghost predicate RunningOk(workers: seq<Worker>, running: map<TaskID, Ctx>, at: map<TaskID, Place>) {
    && (forall w :: 0 <= w < |workers| && workers[w].IsPublic() ==>
          workers[w].id in running && running[workers[w].id] == workers[w].ctx)
    && (forall id :: id in running ==>
          id in at && at[id].InWorker? && at[id].w < |workers| && workers[at[id].w].IsPublic()
              && workers[at[id].w].id == id)
  }

  // ---------- the handlers started so far ----------

  ghost predicate RunsOk(workers: seq<Worker>, at: map<TaskID, Place>, runs: seq<TaskID>) {
    && (forall i, j :: 0 <= i < j < |runs| ==> runs[i] != runs[j])
    && (forall i :: 0 <= i < |runs| ==> runs[i] in at && HasStarted(workers, runs[i], at[runs[i]]))
  }

  ghost predicate HasStarted(workers: seq<Worker>, id: TaskID, p: Place) {
    p.Gone? || (p.InWorker? && p.w < |workers| && (workers[p.w].IsLate() || workers[p.w].IsPast())
            && workers[p.w].id == id)
  }

  /** A worker executes only what it has started. */
  ghost predicate ExecutingOk(workers: seq<Worker>, runs: seq<TaskID>) {
    forall w :: 0 <= w < |workers| && workers[w].IsLate() ==> workers[w].id in runs
  }

  ghost predicate ChannelOk(s: Sys) {
    && |s.queue| <= s.cap
    && (s.chanClosed ==> s.flag)
    && (forall w :: 0 <= w < |s.workers| && s.workers[w].Exited? ==> s.chanClosed && s.queue == [])
  }

  ghost predicate WorkersOk(workers: seq<Worker>, running: map<TaskID, Ctx>, at: map<TaskID, Place>,
        ctxs: seq<TaskID>, runs: seq<TaskID>) {
    && CtxsOk(workers, at, ctxs)
    && RunningOk(workers, running, at)
    && RunsOk(workers, at, runs)
    && ExecutingOk(workers, runs)
  }

  ghost predicate Tokens(s: Sys) {
    && TokensOk(s.calls, s.queue, s.workers, s.at)
    && WorkersOk(s.workers, s.running, s.at, s.ctxs, s.runs)
    && ChannelOk(s)
  }

  /** Moving a task that no worker has had leaves the workers' books right. */
  lemma AtMoved(workers: seq<Worker>, running: map<TaskID, Ctx>, at: map<TaskID, Place>, ctxs: seq<TaskID>,
                runs: seq<TaskID>,
                id: TaskID, p: Place)
    requires WorkersOk(workers, running, at, ctxs, runs)
    requires id in at ==> at[id].InCall?
    ensures WorkersOk(workers, running, at[id := p], ctxs, runs)
  {
  }

  function RunningAfter(running: map<TaskID, Ctx>, k: Worker, l: Worker): map<TaskID, Ctx>
    requires l.HasJob()
  {
    if l.IsPublic() && !k.IsPublic() then running[l.id := l.ctx]
    else if k.IsPublic() && !l.IsPublic() then running - {l.id}
    else running
  }

  function RunsAfter(runs: seq<TaskID>, k: Worker, l: Worker): seq<TaskID>
    requires l.HasJob()
  {
    if k.IsEarly() && l.IsLate() then runs + [l.id] else runs
  }

  predicate GoesForward(k: Worker, l: Worker) {
    && (!k.IsEarly() ==> !l.IsEarly())
    && (l.IsLate() ==> k.IsEarly() || k.IsLate())
  }

  /** A worker that keeps its task moves on; it publishes, starts and unpublishes as its place says. */
  lemma WorkerMoved(s: Sys, w: nat, k: Worker, running: map<TaskID, Ctx>, runs: seq<TaskID>)
    requires w < |s.workers| && WorkersPlaced(s.workers, s.at) && WorkersOk(s.workers, s.running, s.at, s.ctxs, s.runs)
    requires s.workers[w].HasJob() && k.HasJob() && k.id == s.workers[w].id && k.ctx == s.workers[w].ctx
    requires running == RunningAfter(s.running, s.workers[w], k)
    requires runs == RunsAfter(s.runs, s.workers[w], k) && GoesForward(s.workers[w], k)
    ensures WorkersOk(s.workers[w := k], running, s.at, s.ctxs, runs)
  {
    WorkerMovedRunning(s, w, k, running);
    WorkerMovedRuns(s, w, k, runs);
  }

  lemma WorkerMovedRunning(s: Sys, w: nat, k: Worker, running: map<TaskID, Ctx>)
    requires w < |s.workers| && WorkersPlaced(s.workers, s.at) && RunningOk(s.workers, s.running, s.at)
    requires s.workers[w].HasJob() && k.HasJob() && k.id == s.workers[w].id && k.ctx == s.workers[w].ctx
    requires running == RunningAfter(s.running, s.workers[w], k)
    ensures RunningOk(s.workers[w := k], running, s.at)
  {
    assert s.at[k.id] == InWorker(w);
  }

  lemma WorkerMovedRuns(s: Sys, w: nat, k: Worker, runs: seq<TaskID>)
    requires w < |s.workers| && WorkersPlaced(s.workers, s.at) && RunsOk(s.workers, s.at, s.runs)
             && ExecutingOk(s.workers, s.runs)
    requires s.workers[w].HasJob() && k.HasJob() && k.id == s.workers[w].id
    requires runs == RunsAfter(s.runs, s.workers[w], k) && GoesForward(s.workers[w], k)
    ensures RunsOk(s.workers[w := k], s.at, runs) && ExecutingOk(s.workers[w := k], runs)
  {
    assert s.at[k.id] == InWorker(w);
  }

  lemma WorkerTook(s: Sys, w: nat)
    requires w < |s.workers| && s.workers[w].Idle? && s.queue != [] && QueuePlaced(s.queue, s.at)
    requires WorkersOk(s.workers, s.running, s.at, s.ctxs, s.runs)
    ensures var t := TakeStep(s, w); WorkersOk(t.workers, t.running, t.at, t.ctxs, t.runs)
  {
    hide CtxsOk, RunningOk, RunsOk, ExecutingOk;
    TookCtxs(s, w);
    TookRunning(s, w);
    TookRuns(s, w);
  }

  lemma TookCtxs(s: Sys, w: nat)
    requires w < |s.workers| && s.queue != [] && QueuePlaced(s.queue, s.at) && CtxsOk(s.workers, s.at, s.ctxs)
    ensures var t := TakeStep(s, w); CtxsOk(t.workers, t.at, t.ctxs)
  {
  }

  lemma TookRunning(s: Sys, w: nat)
    requires w < |s.workers| && s.workers[w].Idle? && s.queue != [] && QueuePlaced(s.queue, s.at)
    requires RunningOk(s.workers, s.running, s.at)
    ensures var t := TakeStep(s, w); RunningOk(t.workers, t.running, t.at)
  {
  }

  lemma TookRuns(s: Sys, w: nat)
    requires w < |s.workers| && s.workers[w].Idle? && s.queue != [] && QueuePlaced(s.queue, s.at)
    requires RunsOk(s.workers, s.at, s.runs) && ExecutingOk(s.workers, s.runs)
    ensures var t := TakeStep(s, w); RunsOk(t.workers, t.at, t.runs) && ExecutingOk(t.workers, t.runs)
  {
  }

  lemma WorkerReleased(s: Sys, w: nat)
    requires w < |s.workers| && s.workers[w].Releasing? && WorkersPlaced(s.workers, s.at)
    requires WorkersOk(s.workers, s.running, s.at, s.ctxs, s.runs)
    ensures var t := ReleaseStep(s, w); WorkersOk(t.workers, t.running, t.at, t.ctxs, t.runs)
  {
    assert s.at[s.workers[w].id] == InWorker(w);
  }

  lemma TokensClient(s: Sys, e: Event)
    requires Enabled(s, e) && e.IsClientStep() && Tokens(s)
    ensures Tokens(Next(s, e))
  {
    hide TokensOk, WorkersOk, Enabled, Next;
    ClientFrame(s, e);
    var t, c := Next(s, e), CallOf(s, e);
    if c < |s.calls| {
      TokensCallKept(s.calls, s.queue, s.workers, s.at, c, t.calls[c]);
    } else {
      TokensCallAdded(s.calls, s.queue, s.workers, s.at, t.calls[c]);
    }
  }

  lemma TokensSubmit(s: Sys, e: Event)
    requires Enabled(s, e) && e.IsSubmitStep() && Tokens(s)
    ensures Tokens(Next(s, e))
  {
    hide CallsPlaced, QueuePlaced, WorkersPlaced, PlacesOk, WorkersOk, Transition, Submit;
    var t := Next(s, e);
    match e
    case SubmitTask(id, _, _, _) =>
      TokensSubmitted(s.calls, s.queue, s.workers, s.at, id);
      AtMoved(s.workers, s.running, s.at, s.ctxs, s.runs, id, InCall(|s.calls|));
    case CheckFlag(c) => TokensCallKept(s.calls, s.queue, s.workers, s.at, c, t.calls[c]);
    case Send(c) =>
      CallPlace(s, c);
      if t.calls[c].HasToken() {
        TokensCallKept(s.calls, s.queue, s.workers, s.at, c, t.calls[c]);
      } else {
        TokensCallEnds(s.calls, s.queue, s.workers, s.at, c, t.calls[c]);
        AtMoved(s.workers, s.running, s.at, s.ctxs, s.runs, s.calls[c].id, InQueue);
      }
    case RollBack(c, _) =>
      CallPlace(s, c);
      TokensCallEnds(s.calls, s.queue, s.workers, s.at, c, t.calls[c]);
      AtMoved(s.workers, s.running, s.at, s.ctxs, s.runs, s.calls[c].id, Gone);
  }

  lemma CallPlace(s: Sys, c: nat)
    requires c < |s.calls| && s.calls[c].HasToken() && CallsPlaced(s.calls, s.at)
    ensures s.calls[c].id in s.at && s.at[s.calls[c].id] == InCall(c)
  {
  }

  ghost predicate KeepsTask(s: Sys, t: Sys, w: nat) {
    && w < |s.workers| && w < |t.workers| && s.workers[w].HasJob() && t.workers[w].HasJob()
    && t == s.(mem := t.mem, workers := s.workers[w := t.workers[w]], running := t.running, runs := t.runs)
    && t.workers[w].id == s.workers[w].id && t.workers[w].ctx == s.workers[w].ctx
    && t.running == RunningAfter(s.running, s.workers[w], t.workers[w])
    && t.runs == RunsAfter(s.runs, s.workers[w], t.workers[w])
    && GoesForward(s.workers[w], t.workers[w])
  }

  predicate KeepsTaskStep(e: Event) {
    e.IsWorkerStep() && !e.Take? && !e.Release? && !e.Exit?
  }

  /** The steps of runJob in which a worker keeps its task. */
  lemma WorkerFrame(s: Sys, e: Event)
    requires Enabled(s, e) && KeepsTaskStep(e)
    ensures KeepsTask(s, Next(s, e), e.w)
  {
    if e.Register? {
      RegisterFrame(s, e);
    } else if e.Publish? || e.Start? {
      EarlyFrame(s, e);
    } else {
      LateFrame(s, e);
    }
  }

  lemma RegisterFrame(s: Sys, e: Event)
    requires Enabled(s, e) && e.Register?
    ensures KeepsTask(s, Next(s, e), e.w)
  {
    hide RegisterCancel;
  }

  lemma EarlyFrame(s: Sys, e: Event)
    requires Enabled(s, e) && (e.Publish? || e.Start?)
    ensures KeepsTask(s, Next(s, e), e.w)
  {
    hide Transition;
  }

  lemma LateFrame(s: Sys, e: Event)
    requires Enabled(s, e) && (e.Return? || e.CheckCtx? || e.Finish? || e.Unpublish?)
    ensures KeepsTask(s, Next(s, e), e.w)
  {
    hide Transition;
  }

  lemma TokensWorker(s: Sys, e: Event)
    requires Enabled(s, e) && e.IsWorkerStep() && Tokens(s)
    ensures Tokens(Next(s, e))
  {
    hide CallsPlaced, QueuePlaced, WorkersPlaced, PlacesOk, WorkersOk;
    if e.Take? {
      TokensTaken(s.calls, s.queue, s.workers, s.at, e.w, Next(s, e).workers[e.w]);
      WorkerTook(s, e.w);
    } else if e.Release? {
      TokensReleased(s.calls, s.queue, s.workers, s.at, e.w);
      WorkerReleased(s, e.w);
    } else if e.Exit? {
      TokensWorkerKept(s.calls, s.queue, s.workers, s.at, e.w, Exited);
      WorkerLeft(s, e.w);
    } else {
      TokensKept(s, e);
    }
  }

  lemma TokensKept(s: Sys, e: Event)
    requires Enabled(s, e) && KeepsTaskStep(e) && Tokens(s)
    ensures Tokens(Next(s, e))
  {
    hide CallsPlaced, QueuePlaced, WorkersPlaced, PlacesOk, WorkersOk, Enabled, Next;
    WorkerFrame(s, e);
    var t, w := Next(s, e), e.w;
    TokensWorkerKept(s.calls, s.queue, s.workers, s.at, w, t.workers[w]);
    WorkerMoved(s, w, t.workers[w], t.running, t.runs);
  }

  lemma WorkerLeft(s: Sys, w: nat)
    requires w < |s.workers| && s.workers[w].Idle? && WorkersPlaced(s.workers, s.at)
    requires WorkersOk(s.workers, s.running, s.at, s.ctxs, s.runs)
    ensures WorkersOk(s.workers[w := Exited], s.running, s.at, s.ctxs, s.runs)
  {
  }

  /** The holder of every task, the published contexts and the started handlers stay consistent. */
  lemma TokensStep(s: Sys, e: Event)
    requires Enabled(s, e) && Tokens(s)
    ensures Tokens(Next(s, e))
  {
    hide TokensOk, WorkersOk, Transition, RegisterCancel;
    if e.IsClientStep() {
      TokensClient(s, e);
    } else if e.IsSubmitStep() {
      TokensSubmit(s, e);
    } else if e.IsWorkerStep() {
      TokensWorker(s, e);
    }
  }
}
