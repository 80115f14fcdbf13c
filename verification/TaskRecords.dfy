/** Where every field of a task's record comes from: over every run of the dispatcher protocol, the record
    of a task submitted here says what was asked for, when it was started, what its handler returned and
    who ended it, and nothing else (internal/tools/dispatcher.go:246-380, internal/tools/async.go:243-280,
    internal/taskstore/memory.go:164-172 and 230-358). */
module TaskRecords {
  import opened Tasks
  import opened StoreSpec
  import opened StoreLaws
  import opened StoreFacts
  import opened DispatchSteps
  import opened DispatchTokens
  import opened DispatchStore
  import opened DispatchInvariant

  // ---------- what happened ----------

  /** A step that took effect, and the task it was about. */
  datatype Deed = Deed(e: Event, id: TaskID)

  function CallId(k: Call): TaskID {
    if k.Abandoning? then (if k.next < |k.items| then k.items[k.next].id else "")
    else if k.AbandonReturned? then ""
    else k.id
  }

  function TaskOf(s: Sys, e: Event): TaskID {
    if e.SubmitTask? then e.id
    else if e.IsWorkerStep() then (if e.w < |s.workers| && s.workers[e.w].HasJob() then s.workers[e.w].id else "")
    else if e.CheckFlag? || e.Send? || e.RollBack? || e.CommitCancel? || e.AbandonOne? then
      (if e.c < |s.calls| then CallId(s.calls[e.c]) else "")
    else ""
  }

  /** A step on the store took effect if it changed the store; a Dispatch step is a deed if it refuses the
      task: the flag is set, or the open channel is full. */
  ghost predicate TookEffect(s: Sys, e: Event)
    requires Enabled(s, e)
  {
    && (e.WritesStore() ==> Next(s, e).mem != s.mem)
    && (e.CheckFlag? ==> s.flag)
    && (e.Send? ==> !s.chanClosed && |s.queue| >= s.cap)
  }

  ghost function Done(s: Sys, e: Event): set<Deed>
    requires Enabled(s, e)
  {
    if TookEffect(s, e) then {Deed(e, TaskOf(s, e))} else {}
  }

  ghost function Log(s: Sys, es: seq<Event>): set<Deed>
    requires IsRun(s, es)
    decreases |es|
  {
    if es == [] then {} else Done(s, es[0]) + Log(Next(s, es[0]), es[1..])
  }

  ghost predicate Did(log: set<Deed>, e: Event, id: TaskID) {
    Deed(e, id) in log
  }

  // ---------- what a record says ----------

  /** The outcome of a handler, as a record shows it. */
  predicate Carries(t: Task, r: Result) {
    match r
    case Success(result) => t.state == Completed && t.result == result && t.error == ""
    case HandlerError(message) => t.state == Failed && t.result == None && t.error == message
    case ToolError(message) => t.state == Failed && t.result == None && t.error == message
    case NilResult => t.state == Failed && t.result == None && t.error == "handler returned nil result"
  }

  ghost predicate StartedIn(log: set<Deed>, t: Task) {
    t.startedAt == 0 || exists w :: Did(log, Start(w, t.startedAt), t.id)
  }

  /** One worker started the task, its handler returned this outcome, and the worker recorded it. */
  ghost predicate RanToEnd(log: set<Deed>, t: Task) {
    exists w, r :: FinishedBy(log, t, w, r)
  }

  ghost predicate FinishedBy(log: set<Deed>, t: Task, w: nat, r: Result) {
    && Did(log, Start(w, t.startedAt), t.id) && Did(log, Return(w, r), t.id) && Did(log, Finish(w, t.finishedAt), t.id)
    && Carries(t, r) && t.cancelHint == ""
  }

  /** Its submit handler found the channel full and rolled it back. */
  ghost predicate Refused(log: set<Deed>, t: Task) {
    && (exists c :: Did(log, Send(c), t.id) && Did(log, RollBack(c, t.finishedAt), t.id))
    && t.error == "dispatch: tools: dispatcher queue full" && t.startedAt == 0 && t.result == None && t.cancelHint == ""
  }

  ghost predicate CancelledBy(log: set<Deed>, t: Task) {
    && (exists c, hint :: Did(log, CommitCancel(c, hint, t.finishedAt), t.id)
          && t.cancelHint == if hint == "" then "client" else hint)
    && t.result == None && t.error == "" && StartedIn(log, t)
  }

  ghost predicate AbandonedBy(log: set<Deed>, t: Task) {
    && t.result == None && t.error == "" && t.cancelHint != "" && StartedIn(log, t)
    && ((exists c, reason :: Did(log, AbandonOne(c, reason, t.finishedAt), t.id)
           && t.cancelHint == if reason == "" then "shutdown" else reason)
        || (exists c :: Did(log, CheckFlag(c), t.id) && Did(log, RollBack(c, t.finishedAt), t.id)
              && t.cancelHint == "dispatcher_closed" && t.startedAt == 0))
  }

  predicate NoOutcome(t: Task) {
    t.finishedAt == 0 && t.result == None && t.error == "" && t.cancelHint == ""
  }

  /** Everything in the record comes from a deed in the log. */
  ghost predicate Story(log: set<Deed>, t: Task) {
    && Did(log, SubmitTask(t.id, t.kind, t.request, t.submittedAt), t.id)
    && match t.state
       case Queued => NoOutcome(t) && t.startedAt == 0
       case Running => NoOutcome(t) && exists w :: Did(log, Start(w, t.startedAt), t.id)
       case Completed => RanToEnd(log, t)
       case Failed => RanToEnd(log, t) || Refused(log, t)
       case Cancelled => CancelledBy(log, t)
       case Abandoned => AbandonedBy(log, t)
       case OtherState(_) => false
  }

  /** And everything the log says was submitted, started, returned and recorded shows in the record. */
  ghost predicate Shown(log: set<Deed>, t: Task) {
    forall d :: d in log && d.id == t.id ==> DeedShown(d.e, t)
  }

  predicate DeedShown(e: Event, t: Task) {
    match e
    case SubmitTask(_, kind, request, now) => t.kind == kind && t.request == request && t.submittedAt == now
    case Start(_, now) => t.state != Queued && t.startedAt == now
    case Return(_, result) => t.state == Completed || t.state == Failed ==> Carries(t, result)
    case Finish(_, now) => (t.state == Completed || t.state == Failed) && t.finishedAt == now
    case _ => true
  }

  lemma StoryGrows(log: set<Deed>, more: set<Deed>, t: Task)
    requires Story(log, t) && log <= more
    ensures Story(more, t)
  {
    hide Carries;
    if t.state == Completed || t.state == Failed {
      if RanToEnd(log, t) {
        var w, r :| FinishedBy(log, t, w, r);
        assert FinishedBy(more, t, w, r);
      }
    }
    if t.state == Running {
      var w :| Did(log, Start(w, t.startedAt), t.id);
      assert Did(more, Start(w, t.startedAt), t.id);
    }
    if t.state == Failed && Refused(log, t) {
      var c :| Did(log, Send(c), t.id) && Did(log, RollBack(c, t.finishedAt), t.id);
      assert Did(more, Send(c), t.id) && Did(more, RollBack(c, t.finishedAt), t.id);
    }
    if StartedIn(log, t) {
      StartedGrows(log, more, t);
    }
    if t.state == Cancelled {
      var c, hint :| Did(log, CommitCancel(c, hint, t.finishedAt), t.id)
          && t.cancelHint == if hint == "" then "client" else hint;
      assert Did(more, CommitCancel(c, hint, t.finishedAt), t.id);
    }
    if t.state == Abandoned {
      AbandonedGrows(log, more, t);
    }
  }

  lemma StartedGrows(log: set<Deed>, more: set<Deed>, t: Task)
    requires StartedIn(log, t) && log <= more
    ensures StartedIn(more, t)
  {
    if t.startedAt != 0 {
      var w :| Did(log, Start(w, t.startedAt), t.id);
      assert Did(more, Start(w, t.startedAt), t.id);
    }
  }

  lemma AbandonedGrows(log: set<Deed>, more: set<Deed>, t: Task)
    requires AbandonedBy(log, t) && log <= more
    ensures AbandonedBy(more, t)
  {
    StartedGrows(log, more, t);
    if c, reason :| (Did(log, AbandonOne(c, reason, t.finishedAt), t.id)
                     && t.cancelHint == if reason == "" then "shutdown" else reason) {
      assert Did(more, AbandonOne(c, reason, t.finishedAt), t.id);
    } else {
      var c :| Did(log, CheckFlag(c), t.id) && Did(log, RollBack(c, t.finishedAt), t.id);
      assert Did(more, CheckFlag(c), t.id) && Did(more, RollBack(c, t.finishedAt), t.id);
    }
  }

  // ---------- how far a task has got ----------

  datatype Stage = Unheard | Pending | Busy(w: nat) | Answered(w: nat, result: Result) | Past

  function StageOf(s: Sys, x: TaskID): Stage {
    if x !in s.at then Unheard
    else
      match s.at[x]
      case InCall(_) => Pending
      case InQueue => Pending
      case Gone => Past
      case InWorker(w) =>
        if w >= |s.workers| || s.workers[w].IsPast() || !s.workers[w].HasJob() then Past
        else if s.workers[w].IsEarly() then Pending
        else if s.workers[w].Executing? then Busy(w)
        else Answered(w, s.workers[w].result)
  }

  /** What a step may do to the stage of x. */
  ghost predicate StageMoves(s: Sys, e: Event, x: TaskID)
    requires Enabled(s, e)
  {
    var p, q := StageOf(s, x), StageOf(Next(s, e), x);
    match e
    case SubmitTask(id, _, _, _) => q == if x == id && Next(s, e).mem != s.mem then Pending else p
    case RollBack(c, _) => if s.calls[c].id == x then p == Pending && q == Past else q == p
    case Register(w) => if s.workers[w].id == x then p == Pending && (q == Pending || q == Past) else q == p
    case Start(w, _) =>
      if s.workers[w].id == x then p == Pending && q == if Next(s, e).mem != s.mem then Busy(w) else Past else q == p
    case Return(w, r) => if s.workers[w].id == x then p == Busy(w) && q == Answered(w, r) else q == p
    case CheckCtx(w) =>
      if s.workers[w].id == x then p == Answered(w, s.workers[w].result) && (q == p || q == Past) else q == p
    case Finish(w, _) => if s.workers[w].id == x then p == Answered(w, s.workers[w].result) && q == Past else q == p
    case _ => q == p
  }

  lemma StageStep(s: Sys, e: Event, x: TaskID)
    requires Enabled(s, e) && Inv(s)
    ensures StageMoves(s, e, x)
  {
    hide Inv, Tokens, MemValid, StateOk, KnownId, CancelledOk, CallOk, Transition, Submit, RegisterCancel;
    InvParts(s);
    if e.IsWorkerStep() {
      HolderOfWorker(s, e.w);
      if e.Start? {
        StartMoves(s, e);
      }
      WorkerStage(s, e, x);
    } else if e.IsSubmitStep() {
      SubmitStage(s, e, x);
    } else {
      ClientOrCloseFrame(s, e);
    }
  }

  /** The queued-to-running step changes the store exactly when the worker goes on to execute. */
  lemma StartMoves(s: Sys, e: Event)
    requires Enabled(s, e) && Inv(s) && e.Start?
    ensures Next(s, e).mem != s.mem <==> Next(s, e).workers[e.w].Executing?
  {
    hide Inv, Tokens, MemValid, CancelledOk, CallOk, Transition;
    InvParts(s);
    HolderOfWorker(s, e.w);
    var id := s.workers[e.w].id;
    assert StateOk(s.mem, s.calls, s.workers, id, s.at[id]);
    Starts(s.mem, id, e.now);
  }

  lemma WorkerStage(s: Sys, e: Event, x: TaskID)
    requires Enabled(s, e) && e.IsWorkerStep() && Tokens(s)
    requires e.Start? ==> (Next(s, e).mem != s.mem <==> Next(s, e).workers[e.w].Executing?)
    ensures StageMoves(s, e, x)
  {
    hide Tokens, Next, StageMoves, StageOf;
    HolderOfWorker(s, e.w);
    if x in s.at && s.at[x] != InWorker(e.w) && !(e.Take? && x == s.queue[0]) {
      OtherFrame(s, e, x);
      ElsewhereStage(s, e, x);
    } else if KeepsTaskStep(e) {
      WorkerFrame(s, e);
      OwnStage(s, e, x);
    } else {
      EndStage(s, e, x);
    }
  }

  lemma ElsewhereStage(s: Sys, e: Event, x: TaskID)
    requires Enabled(s, e) && e.IsWorkerStep() && x in s.at && s.at[x] != InWorker(e.w)
    requires var t := Next(s, e);
             && x in t.at && t.at[x] == s.at[x] && e.w < |s.workers| && e.w < |t.workers|
             && t.workers == s.workers[e.w := t.workers[e.w]]
    requires s.workers[e.w].HasJob() ==> s.workers[e.w].id in s.at && s.at[s.workers[e.w].id] == InWorker(e.w)
    ensures StageMoves(s, e, x)
  {
    hide Next;
  }

  lemma EndStage(s: Sys, e: Event, x: TaskID)
    requires Enabled(s, e) && (e.Take? || e.Release? || e.Exit?)
    requires x in s.at ==> s.at[x] == InWorker(e.w) || (e.Take? && x == s.queue[0])
    requires x in s.at && s.at[x] == InWorker(e.w) ==> s.workers[e.w].HasJob() && s.workers[e.w].id == x
    requires s.workers[e.w].HasJob() ==> s.workers[e.w].id in s.at && s.at[s.workers[e.w].id] == InWorker(e.w)
    requires s.queue != [] ==> s.queue[0] in s.at && s.at[s.queue[0]] == InQueue
    ensures StageMoves(s, e, x)
  {
  }

  lemma OwnStage(s: Sys, e: Event, x: TaskID)
    requires Enabled(s, e) && KeepsTaskStep(e) && KeepsTask(s, Next(s, e), e.w)
    requires x in s.at ==> s.at[x] == InWorker(e.w) && s.workers[e.w].id == x
    requires s.workers[e.w].id in s.at
    requires e.Start? ==> (Next(s, e).mem != s.mem <==> Next(s, e).workers[e.w].Executing?)
    ensures StageMoves(s, e, x)
  {
    hide Transition, RegisterCancel;
  }

  lemma SubmitStage(s: Sys, e: Event, x: TaskID)
    requires Enabled(s, e) && e.IsSubmitStep() && Inv(s)
    ensures StageMoves(s, e, x)
  {
    hide Inv, Tokens, MemValid, StateOk, KnownId, CancelledOk, CallOk, Transition, Submit;
    InvParts(s);
    if e.SubmitTask? {
      SubmitGrows(s, e);
    } else {
      HolderOfCall(s, e.c);
    }
  }

  // ---------- what a step may do to a record ----------

  /** From t to u the record takes over what the handler returned. */
  predicate Adopts(t: Task, u: Task, r: Result) {
    match r
    case Success(result) => u.state == Completed && u.result == result && u.error == t.error
    case HandlerError(message) => u.state == Failed && u.result == t.result && u.error == message
    case ToolError(message) => u.state == Failed && u.result == t.result && u.error == message
    case NilResult => u.state == Failed && u.result == t.result && u.error == "handler returned nil result"
  }

  /** The record of x changes from t to u. */
  ghost predicate Changes(s: Sys, e: Event, x: TaskID, t: Task, u: Task)
    requires Enabled(s, e)
  {
    match e
    case Start(w, now) =>
      s.workers[w].id == x && t.state == Queued
      && u == t.(state := Running, startedAt := if t.startedAt == 0 then now else t.startedAt)
    case Finish(w, now) =>
      s.workers[w].id == x && t.state == Running
      && u.finishedAt == (if t.finishedAt == 0 then now else t.finishedAt)
      && u == t.(state := u.state, finishedAt := u.finishedAt, result := u.result, error := u.error)
      && Adopts(t, u, s.workers[w].result)
    case RollBack(c, now) =>
      s.calls[c].id == x && t.state == Queued
      && var at := if t.finishedAt == 0 then now else t.finishedAt;
         if s.calls[c].target == Abandoned
         then u == t.(state := Abandoned, finishedAt := at,
                      cancelHint := if t.cancelHint == "" then "dispatcher_closed" else t.cancelHint)
         else u == t.(state := Failed, finishedAt := at, error := "dispatch: tools: dispatcher queue full")
    case CommitCancel(c, hint, now) =>
      s.calls[c].id == x && (t.state == Queued || t.state == Running || t.state == Cancelled)
      && u == t.(state := Cancelled, finishedAt := now, cancelHint := if hint == "" then "client" else hint)
    case AbandonOne(c, reason, now) =>
      CallId(s.calls[c]) == x && (t.state == Queued || t.state == Running)
      && u == t.(state := Abandoned, finishedAt := if t.finishedAt == 0 then now else t.finishedAt,
                 cancelHint := if t.cancelHint != "" then t.cancelHint else if reason == "" then "shutdown" else reason)
    case _ => false
  }

  /** What the records of held and abandoned tasks are like; with it a second edit in the same state
      changes nothing, except for a second cancellation. */
  ghost predicate Settling(s: Sys, x: TaskID) {
    x in s.mem.entries ==>
      && (StageOf(s, x) != Past ==> s.mem.entries[x].task.state != Completed && s.mem.entries[x].task.state != Failed)
      && (s.mem.entries[x].task.state == Abandoned ==> s.mem.entries[x].task.cancelHint != "")
  }

  ghost predicate RecordMoves(s: Sys, e: Event, x: TaskID)
    requires Enabled(s, e)
  {
    var n := Next(s, e).mem;
    x in n.entries ==>
      && x in s.mem.entries
      && (n.entries[x].task == s.mem.entries[x].task || Changes(s, e, x, s.mem.entries[x].task, n.entries[x].task))
      && ((e.Start? || e.Finish?) && TaskOf(s, e) == x && n != s.mem ==>
            Changes(s, e, x, s.mem.entries[x].task, n.entries[x].task))
  }

  lemma RecordElsewhere(s: Sys, e: Event, x: TaskID)
    requires Enabled(s, e) && Inv(s) && !e.SubmitTask? && x != Subject(s, e)
    ensures RecordMoves(s, e, x)
  {
    hide Inv, MemValid, Next, Enabled, Tokens, StateOk, KnownId, CancelledOk, CallOk, Subject, Changes;
    InvParts(s);
    StoreKept(s, e, x);
    if e.Start? || e.Finish? {
      TaskIsSubject(s, e);
    }
  }

  lemma TaskIsSubject(s: Sys, e: Event)
    requires Enabled(s, e) && (e.Start? || e.Finish?)
    ensures TaskOf(s, e) == Subject(s, e)
  {
  }

  lemma RecordStarted(s: Sys, e: Event)
    requires Enabled(s, e) && Inv(s) && e.Start?
    ensures RecordMoves(s, e, s.workers[e.w].id)
  {
    hide Inv, MemValid, Tokens, KnownId, CancelledOk, CallOk, Transition;
    InvParts(s);
    HolderOfWorker(s, e.w);
    var x := s.workers[e.w].id;
    assert StateOk(s.mem, s.calls, s.workers, x, s.at[x]);
    TerminalIsReleased(s.mem, x);
    Edited(s.mem, x, RunEdit(), e.now);
  }

  /** Both facts about a transition, for an edit that keeps identity. */
  lemma Edited(m: Mem, x: TaskID, fn: TransitionFn, now: Time)
    requires MemValid(m) && KeepsIdentity(fn)
    ensures var s := Transition(m, x, fn, now);
            && (s.mem == m || (s.out == Ok && x in m.entries && fn(m.entries[x].task).Applied?))
            && (s.mem != m && x in s.mem.entries ==>
                  EditShows(m.entries[x].task, fn(m.entries[x].task).task, s.mem.entries[x].task, now))
  {
    hide MemValid, Transition;
    TransitionRecords(m, x, fn, now);
    TransitionRefuses(m, x, fn, now);
  }

  ghost predicate EditShows(t: Task, edit: Task, u: Task, now: Time) {
    && SameButStamps(u, edit)
    && (if edit.state == t.state then u.startedAt == edit.startedAt && u.finishedAt == edit.finishedAt
        else
          && MayMove(t.state, edit.state)
          && u.startedAt == (if edit.state == Running && edit.startedAt == 0 then now else edit.startedAt)
          && u.finishedAt == (if edit.state != Running && edit.finishedAt == 0 then now else edit.finishedAt))
  }

  lemma EditsKeep(s: Sys, e: Event)
    ensures e.Start? ==> KeepsIdentity(RunEdit())
    ensures e.Finish? && e.w < |s.workers| && s.workers[e.w].Finishing? ==>
              KeepsIdentity(FinishEdit(s.workers[e.w].result))
    ensures e.RollBack? && e.c < |s.calls| && s.calls[e.c].RollingBack? ==>
              KeepsIdentity(RollBackEdit(s.calls[e.c].target))
    ensures e.CommitCancel? ==> KeepsIdentity(CancelEdit(e.hint, e.now))
    ensures e.AbandonOne? ==> KeepsIdentity(AbandonEdit(e.reason))
  {
  }

  lemma RecordFinished(s: Sys, e: Event)
    requires Enabled(s, e) && Inv(s) && e.Finish? && Settling(s, s.workers[e.w].id)
    ensures RecordMoves(s, e, s.workers[e.w].id)
  {
    hide Inv, MemValid, Tokens, KnownId, CancelledOk, CallOk, Transition;
    InvParts(s);
    HolderOfWorker(s, e.w);
    var x, r := s.workers[e.w].id, s.workers[e.w].result;
    assert StateOk(s.mem, s.calls, s.workers, x, s.at[x]);
    TerminalIsReleased(s.mem, x);
    EditsKeep(s, e);
    Edited(s.mem, x, FinishEdit(r), e.now);
  }

  lemma RecordRolledBack(s: Sys, e: Event)
    requires Enabled(s, e) && Inv(s) && e.RollBack? && Settling(s, s.calls[e.c].id)
    ensures RecordMoves(s, e, s.calls[e.c].id)
  {
    hide Inv, MemValid, Tokens, KnownId, CancelledOk, Transition;
    InvParts(s);
    HolderOfCall(s, e.c);
    var x, target := s.calls[e.c].id, s.calls[e.c].target;
    assert CallOk(s, s.calls[e.c]);
    assert StateOk(s.mem, s.calls, s.workers, x, s.at[x]);
    TerminalIsReleased(s.mem, x);
    EditsKeep(s, e);
    Edited(s.mem, x, RollBackEdit(target), e.now);
  }

  lemma RecordCancelled(s: Sys, e: Event)
    requires Enabled(s, e) && Inv(s) && e.CommitCancel?
    ensures RecordMoves(s, e, s.calls[e.c].id)
  {
    hide Inv, MemValid, Tokens, StateOk, KnownId, CancelledOk, CallOk, Transition;
    InvParts(s);
    var x := s.calls[e.c].id;
    EditsKeep(s, e);
    Edited(s.mem, x, CancelEdit(e.hint, e.now), e.now);
  }

  lemma RecordAbandoned(s: Sys, e: Event)
    requires Enabled(s, e) && Inv(s) && e.AbandonOne? && Settling(s, CallId(s.calls[e.c]))
    ensures RecordMoves(s, e, CallId(s.calls[e.c]))
  {
    hide Inv, MemValid, Tokens, StateOk, KnownId, CancelledOk, CallOk, Transition;
    InvParts(s);
    var x := CallId(s.calls[e.c]);
    EditsKeep(s, e);
    Edited(s.mem, x, AbandonEdit(e.reason), e.now);
  }

  lemma RecordRegistered(s: Sys, e: Event)
    requires Enabled(s, e) && Inv(s) && e.Register?
    ensures RecordMoves(s, e, s.workers[e.w].id)
  {
    hide Inv, MemValid, Tokens, StateOk, KnownId, CancelledOk, CallOk, RegisterCancel;
    InvParts(s);
    RegisterEvolves(s.mem, s.workers[e.w].id, s.workers[e.w].ctx, s.workers[e.w].id);
  }

  lemma RecordStep(s: Sys, e: Event, x: TaskID)
    requires Enabled(s, e) && Inv(s) && !e.SubmitTask? && Settling(s, x)
    ensures RecordMoves(s, e, x)
  {
    hide Inv, Next, RecordMoves, Settling;
    if x != Subject(s, e) {
      RecordElsewhere(s, e, x);
    } else if e.Start? {
      RecordStarted(s, e);
    } else if e.Finish? {
      RecordFinished(s, e);
    } else if e.RollBack? {
      RecordRolledBack(s, e);
    } else if e.CommitCancel? {
      RecordCancelled(s, e);
    } else if e.AbandonOne? {
      RecordAbandoned(s, e);
    } else if e.Register? {
      RecordRegistered(s, e);
    } else {
      RecordUntouched(s, e, x);
    }
  }

  lemma RecordUntouched(s: Sys, e: Event, x: TaskID)
    requires Enabled(s, e) && (e.CloseStore? || !e.WritesStore())
    ensures RecordMoves(s, e, x)
  {
    if !e.CloseStore? {
      hide Next;
      StoreUntouched(s, e);
    }
  }

  // ---------- what is known of every task after every step ----------

  /** The deeds of a task fit the stage it has reached. */
  ghost predicate DeedsFit(log: set<Deed>, x: TaskID, p: Stage) {
    && (forall d :: d in log && d.id == x ==> DeedFits(d.e, p))
    && (p.Answered? ==> Did(log, Return(p.w, p.result), x))
  }

  predicate DeedFits(e: Event, p: Stage) {
    match e
    case SubmitTask(_, _, _, _) => p != Unheard
    case Start(_, _) => p.Busy? || p.Answered? || p.Past?
    case Return(_, result) => p.Past? || (p.Answered? && p.result == result)
    case Finish(_, _) => p.Past?
    case _ => true
  }

  ghost predicate RecordTold(log: set<Deed>, t: Task, p: Stage) {
    && Story(log, t) && Shown(log, t)
    && (p != Past ==> t.state != Completed && t.state != Failed)
    && (p.Busy? && t.state == Running ==> Did(log, Start(p.w, t.startedAt), t.id))
    && (p.Answered? && t.state == Running ==> Did(log, Start(p.w, t.startedAt), t.id))
  }

  ghost predicate Told(log: set<Deed>, s: Sys, x: TaskID) {
    && DeedsFit(log, x, StageOf(s, x))
    && (x in s.at && x in s.mem.entries ==>
          s.mem.entries[x].task.id == x && RecordTold(log, s.mem.entries[x].task, StageOf(s, x)))
  }

  lemma DeedsStep(log: set<Deed>, s: Sys, e: Event, x: TaskID)
    requires Enabled(s, e) && StageMoves(s, e, x) && DeedsFit(log, x, StageOf(s, x))
    requires e.SubmitTask? && e.id == x ==> StageOf(s, x) == Unheard
    ensures DeedsFit(log + Done(s, e), x, StageOf(Next(s, e), x))
  {
    hide Next, StageOf;
  }

  lemma TellsStart(log: set<Deed>, s: Sys, e: Event, x: TaskID, t: Task, u: Task, p: Stage, q: Stage)
    requires Enabled(s, e) && e.Start? && Changes(s, e, x, t, u) && t.id == x && RecordTold(log, t, p)
    requires DeedsFit(log, x, p) && p.Pending? && q == Busy(e.w)
    ensures RecordTold(log + {Deed(e, x)}, u, q)
  {
    var now := log + {Deed(e, x)};
    assert Did(now, Start(e.w, u.startedAt), x);
    assert Did(log, SubmitTask(x, t.kind, t.request, t.submittedAt), x);
    assert Did(now, SubmitTask(x, u.kind, u.request, u.submittedAt), x);
  }

  lemma TellsFinish(log: set<Deed>, s: Sys, e: Event, x: TaskID, t: Task, u: Task, p: Stage)
    requires Enabled(s, e) && e.Finish? && Changes(s, e, x, t, u) && t.id == x && RecordTold(log, t, p)
    requires DeedsFit(log, x, p) && p == Answered(e.w, s.workers[e.w].result)
    ensures RecordTold(log + {Deed(e, x)}, u, Past)
  {
    var now := log + {Deed(e, x)};
    assert Did(log, Start(e.w, t.startedAt), x) && Did(log, Return(e.w, p.result), x);
    assert Did(now, Start(e.w, u.startedAt), x) && Did(now, Return(e.w, p.result), x);
    assert Did(now, Finish(e.w, u.finishedAt), x);
    assert FinishedBy(now, u, e.w, p.result);
    assert Did(log, SubmitTask(x, t.kind, t.request, t.submittedAt), x);
    assert Did(now, SubmitTask(x, u.kind, u.request, u.submittedAt), x);
  }

  lemma TellsRollBack(log: set<Deed>, s: Sys, e: Event, x: TaskID, t: Task, u: Task, p: Stage)
    requires Enabled(s, e) && e.RollBack? && Changes(s, e, x, t, u) && t.id == x && RecordTold(log, t, p)
    requires DeedsFit(log, x, p) && p.Pending?
    requires s.calls[e.c].target == Abandoned ==> Did(log, CheckFlag(e.c), x)
    requires s.calls[e.c].target != Abandoned ==> Did(log, Send(e.c), x)
    ensures RecordTold(log + {Deed(e, x)}, u, Past)
  {
    var now := log + {Deed(e, x)};
    assert Did(now, RollBack(e.c, u.finishedAt), x);
    assert s.calls[e.c].target == Abandoned ==> Did(now, CheckFlag(e.c), x);
    assert s.calls[e.c].target != Abandoned ==> Did(now, Send(e.c), x);
    assert Did(log, SubmitTask(x, t.kind, t.request, t.submittedAt), x);
    assert Did(now, SubmitTask(x, u.kind, u.request, u.submittedAt), x);
  }

  lemma TellsCancel(log: set<Deed>, s: Sys, e: Event, x: TaskID, t: Task, u: Task, p: Stage)
    requires Enabled(s, e) && e.CommitCancel? && Changes(s, e, x, t, u) && t.id == x && RecordTold(log, t, p)
    ensures RecordTold(log + {Deed(e, x)}, u, p)
  {
    var now := log + {Deed(e, x)};
    assert Did(now, CommitCancel(e.c, e.hint, u.finishedAt), x);
    LiveStarted(log, now, t);
    assert Did(log, SubmitTask(x, t.kind, t.request, t.submittedAt), x);
    assert Did(now, SubmitTask(x, u.kind, u.request, u.submittedAt), x);
  }

  lemma LiveStarted(log: set<Deed>, more: set<Deed>, t: Task)
    requires Story(log, t) && (t.state == Queued || t.state == Running || t.state == Cancelled) && log <= more
    ensures StartedIn(more, t) && t.result == None && t.error == ""
  {
    StartedGrows(log, more, t);
  }

  lemma TellsAbandon(log: set<Deed>, s: Sys, e: Event, x: TaskID, t: Task, u: Task, p: Stage)
    requires Enabled(s, e) && e.AbandonOne? && Changes(s, e, x, t, u) && t.id == x && RecordTold(log, t, p)
    ensures RecordTold(log + {Deed(e, x)}, u, p)
  {
    var now := log + {Deed(e, x)};
    assert Did(now, AbandonOne(e.c, e.reason, u.finishedAt), x);
    LiveStarted(log, now, t);
    assert Did(log, SubmitTask(x, t.kind, t.request, t.submittedAt), x);
    assert Did(now, SubmitTask(x, u.kind, u.request, u.submittedAt), x);
  }

  lemma ToldSame(log: set<Deed>, s: Sys, e: Event, x: TaskID, t: Task)
    requires Enabled(s, e) && t.id == x && RecordTold(log, t, StageOf(s, x)) && StageMoves(s, e, x)
    requires !e.SubmitTask? && DeedsFit(log, x, StageOf(s, x))
    requires (e.Start? || e.Finish?) && TaskOf(s, e) == x ==> Next(s, e).mem == s.mem
    ensures RecordTold(log + Done(s, e), t, StageOf(Next(s, e), x))
  {
    hide Next, StageOf, Story, Carries;
    StoryGrows(log, log + Done(s, e), t);
    var p, q := StageOf(s, x), StageOf(Next(s, e), x);
    assert p.Answered? && t.state == Running ==> Did(log, Start(p.w, t.startedAt), x);
    assert p.Busy? && t.state == Running ==> Did(log, Start(p.w, t.startedAt), x);
    assert q.Answered? ==> (p.Busy? || p.Answered?) && p.w == q.w;
    assert q.Busy? ==> p == q;
  }

  /** A roll-back is owed to what Dispatch found, and an answer shows a record that was told. */
  ghost predicate CallTold(log: set<Deed>, s: Sys, c: nat)
    requires c < |s.calls|
  {
    match s.calls[c]
    case RollingBack(id, target) => if target == Abandoned then Did(log, CheckFlag(c), id) else Did(log, Send(c), id)
    case WaitReturned(id, answer) => AnswerTold(log, s, id, answer)
    case _ => true
  }

  ghost predicate AnswerTold(log: set<Deed>, s: Sys, id: TaskID, a: Answer) {
    match a
    case Finished(task) => task.id == id && Recorded(s.mem, id) && (id in s.at ==> Story(log, task))
    case TimedOut(Some(task)) => task.id == id && Recorded(s.mem, id) && (id in s.at ==> Story(log, task))
    case _ => true
  }

  ghost predicate Recorded(m: Mem, id: TaskID) {
    id in m.entries || id in m.released
  }

  ghost predicate AllTold(log: set<Deed>, s: Sys) {
    && (forall x :: Told(log, s, x))
    && (forall c :: 0 <= c < |s.calls| ==> CallTold(log, s, c))
  }

  lemma ToldSettles(log: set<Deed>, s: Sys, x: TaskID)
    requires Told(log, s, x) && x in s.at
    ensures Settling(s, x)
  {
  }

  /** The record of a task that was submitted before this step. */
  lemma ToldChanged(log: set<Deed>, s: Sys, e: Event, x: TaskID)
    requires Enabled(s, e) && !e.SubmitTask? && x in s.at && Told(log, s, x)
    requires StageMoves(s, e, x) && RecordMoves(s, e, x) && x in Next(s, e).mem.entries
    requires e.RollBack? ==> CallTold(log, s, e.c)
    ensures var u := Next(s, e).mem.entries[x].task;
            u.id == x && RecordTold(log + Done(s, e), u, StageOf(Next(s, e), x))
  {
    hide Next, StageOf, RecordTold, DeedsFit;
    var t, u, p := s.mem.entries[x].task, Next(s, e).mem.entries[x].task, StageOf(s, x);
    if u == t && !((e.Start? || e.Finish?) && TaskOf(s, e) == x && Next(s, e).mem != s.mem) {
      ToldSame(log, s, e, x, t);
    } else {
      assert Changes(s, e, x, t, u) && TaskOf(s, e) == x;
      ChangeIsDone(s, e, x, t, u);
      if e.Start? {
        TellsStart(log, s, e, x, t, u, p, Busy(e.w));
      } else if e.Finish? {
        TellsFinish(log, s, e, x, t, u, p);
      } else if e.RollBack? {
        TellsRollBack(log, s, e, x, t, u, p);
      } else if e.CommitCancel? {
        TellsCancel(log, s, e, x, t, u, p);
      } else {
        TellsAbandon(log, s, e, x, t, u, p);
      }
    }
  }

  lemma ChangeIsDone(s: Sys, e: Event, x: TaskID, t: Task, u: Task)
    requires Enabled(s, e) && Changes(s, e, x, t, u)
    requires x in s.mem.entries && x in Next(s, e).mem.entries
    requires s.mem.entries[x].task == t && Next(s, e).mem.entries[x].task == u
    requires u != t || ((e.Start? || e.Finish?) && Next(s, e).mem != s.mem)
    ensures Done(s, e) == {Deed(e, x)} && TaskOf(s, e) == x
  {
    hide Next;
  }

  /** The record a submission has just created. */
  lemma ToldSubmitted(log: set<Deed>, s: Sys, e: Event)
    requires Enabled(s, e) && Inv(s) && e.SubmitTask? && Told(log, s, e.id) && Next(s, e).mem != s.mem
    ensures Told(log + Done(s, e), Next(s, e), e.id)
  {
    hide Inv, Tokens, MemValid, StateOk, KnownId, CancelledOk, CallOk, Submit;
    InvParts(s);
    StageStep(s, e, e.id);
    SubmitRecords(s.mem, e.id, e.kind, e.request, e.now);
    var now, u := log + Done(s, e), Next(s, e).mem.entries[e.id].task;
    assert Did(now, SubmitTask(u.id, u.kind, u.request, u.submittedAt), u.id);
    DeedsStep(log, s, e, e.id);
  }

  lemma ToldStep(log: set<Deed>, s: Sys, e: Event, x: TaskID)
    requires Enabled(s, e) && Inv(s) && AllTold(log, s)
    ensures Told(log + Done(s, e), Next(s, e), x)
  {
    hide Inv, Next, RecordTold, DeedsFit, StageMoves, RecordMoves, CallTold;
    assert Told(log, s, x);
    StageStep(s, e, x);
    if e.SubmitTask? {
      SubmitTold(log, s, e, x);
    } else {
      DeedsStep(log, s, e, x);
      AtKept(s, e);
      if x in s.at && x in Next(s, e).mem.entries {
        ToldSettles(log, s, x);
        RecordStep(s, e, x);
        if e.RollBack? {
          assert CallTold(log, s, e.c);
        }
        ToldChanged(log, s, e, x);
      }
    }
  }

  lemma SubmitTold(log: set<Deed>, s: Sys, e: Event, x: TaskID)
    requires Enabled(s, e) && Inv(s) && e.SubmitTask? && Told(log, s, x)
    ensures Told(log + Done(s, e), Next(s, e), x)
  {
    hide Inv, RecordTold, DeedsFit, Next;
    if Next(s, e).mem == s.mem {
      RefusedLeaves(s, e);
      assert log + Done(s, e) == log;
    } else if x == e.id {
      ToldSubmitted(log, s, e);
    } else {
      OthersTold(log, s, e, x);
    }
  }

  lemma RefusedLeaves(s: Sys, e: Event)
    requires Enabled(s, e) && e.SubmitTask? && Next(s, e).mem == s.mem
    ensures Next(s, e) == s
  {
    SubmitRecords(s.mem, e.id, e.kind, e.request, e.now);
  }

  lemma OthersTold(log: set<Deed>, s: Sys, e: Event, x: TaskID)
    requires Enabled(s, e) && Inv(s) && e.SubmitTask? && Told(log, s, x) && x != e.id
    ensures Told(log + Done(s, e), Next(s, e), x)
  {
    hide Inv, Tokens, MemValid, StateOk, KnownId, CancelledOk, CallOk, Next, StageOf, RecordTold, Done;
    StageStep(s, e, x);
    InvParts(s);
    SubmitGrows(s, e);
    OnlyOf(log, s, e, x);
    FitsStill(log, log + Done(s, e), x, StageOf(s, x));
    if x in s.at && x in s.mem.entries {
      RecordStill(log, log + Done(s, e), s.mem.entries[x].task, StageOf(s, x));
    }
  }

  lemma OnlyOf(log: set<Deed>, s: Sys, e: Event, x: TaskID)
    requires Enabled(s, e) && e.SubmitTask? && x != e.id
    ensures forall d :: d in log + Done(s, e) && d.id == x ==> d in log
  {
  }

  lemma FitsStill(log: set<Deed>, more: set<Deed>, x: TaskID, p: Stage)
    requires DeedsFit(log, x, p) && log <= more && forall d :: d in more && d.id == x ==> d in log
    ensures DeedsFit(more, x, p)
  {
  }

  lemma RecordStill(log: set<Deed>, more: set<Deed>, t: Task, p: Stage)
    requires RecordTold(log, t, p) && log <= more && forall d :: d in more && d.id == t.id ==> d in log
    ensures RecordTold(more, t, p)
  {
    hide Story;
    StoryGrows(log, more, t);
  }

  // ---------- calls ----------

  lemma AnswerGrows(log: set<Deed>, more: set<Deed>, s: Sys, t: Sys, id: TaskID, a: Answer)
    requires AnswerTold(log, s, id, a) && log <= more && Grows(s, t)
    requires id in t.at && Recorded(s.mem, id) ==> id in s.at
    ensures AnswerTold(more, t, id, a)
  {
    hide Story;
    match a
    case Finished(task) => if id in s.at { StoryGrows(log, more, task); }
    case TimedOut(Some(task)) => if id in s.at { StoryGrows(log, more, task); }
    case _ =>
  }

  /** Nothing recorded is submitted anew. */
  lemma OldStaysOld(s: Sys, e: Event, id: TaskID)
    requires Enabled(s, e) && Inv(s) && id in Next(s, e).at && Recorded(s.mem, id)
    ensures id in s.at
  {
    hide Inv, Next;
    if e.SubmitTask? {
      hide Tokens, MemValid, StateOk, KnownId, CancelledOk, CallOk;
      InvParts(s);
      SubmitGrows(s, e);
    } else {
      AtKept(s, e);
    }
  }

  lemma CallKept(log: set<Deed>, s: Sys, e: Event, c: nat)
    requires Enabled(s, e) && Inv(s) && c < |s.calls| && CallTold(log, s, c)
    requires c < |Next(s, e).calls| && Next(s, e).calls[c] == s.calls[c]
    ensures CallTold(log + Done(s, e), Next(s, e), c)
  {
    hide Inv, Next, AnswerTold, Tokens, StateOk, MemValid, KnownId, CancelledOk, CallOk, Grows, Recorded;
    InvParts(s);
    StepGrows(s, e);
    if s.calls[c].WaitReturned? {
      var id := s.calls[c].id;
      if id in Next(s, e).at && Recorded(s.mem, id) {
        OldStaysOld(s, e, id);
      }
      AnswerGrows(log, log + Done(s, e), s, Next(s, e), id, s.calls[c].answer);
    }
  }

  /** CheckFlag and Send: a refusal is noted in the log. */
  lemma RefusalNoted(log: set<Deed>, s: Sys, e: Event)
    requires Enabled(s, e) && (e.CheckFlag? || e.Send?)
    ensures e.c < |Next(s, e).calls| && CallTold(log + Done(s, e), Next(s, e), e.c)
  {
  }

  /** A Wait returns a record that was told. */
  lemma WaitNoted(log: set<Deed>, s: Sys, e: Event)
    requires Enabled(s, e) && Inv(s) && (e.BeginWait? || e.Wake? || e.TimeOut?)
    requires Told(log, s, if e.BeginWait? then e.id else s.calls[e.c].id)
    ensures CallOf(s, e) < |Next(s, e).calls| && CallTold(log + Done(s, e), Next(s, e), CallOf(s, e))
  {
    hide Inv, Tokens, MemValid, StateOk, KnownId, CancelledOk, CallOk, Story, Told, Done;
    InvParts(s);
    var id := if e.BeginWait? then e.id else s.calls[e.c].id;
    if id in s.mem.entries {
      HeldTold(log, log + Done(s, e), s, id);
    }
    hide Enabled, Inv;
    AnswerNoted(log + Done(s, e), s, e, id);
  }

  lemma AnswerNoted(log: set<Deed>, s: Sys, e: Event, id: TaskID)
    requires Enabled(s, e) && MemValid(s.mem) && (e.BeginWait? || e.Wake? || e.TimeOut?)
    requires id == if e.BeginWait? then e.id else s.calls[e.c].id
    requires id in s.mem.entries ==>
               s.mem.entries[id].task.id == id && (id in s.at ==> Story(log, s.mem.entries[id].task))
    ensures CallOf(s, e) < |Next(s, e).calls| && CallTold(log, Next(s, e), CallOf(s, e))
  {
    hide MemValid, Story;
  }

  lemma HeldTold(log: set<Deed>, more: set<Deed>, s: Sys, id: TaskID)
    requires MemValid(s.mem) && Told(log, s, id) && log <= more && id in s.mem.entries
    ensures s.mem.entries[id].task.id == id && (id in s.at ==> Story(more, s.mem.entries[id].task))
  {
    hide MemValid, Story;
    IdOf(s.mem, id);
    if id in s.at {
      StoryGrows(log, more, s.mem.entries[id].task);
    }
  }

  lemma CallStep(log: set<Deed>, s: Sys, e: Event, c: nat)
    requires Enabled(s, e) && Inv(s) && AllTold(log, s) && c < |Next(s, e).calls|
    ensures CallTold(log + Done(s, e), Next(s, e), c)
  {
    hide Inv, Next, CallTold, Told;
    if c < |s.calls| && Next(s, e).calls[c] == s.calls[c] {
      assert CallTold(log, s, c);
      CallKept(log, s, e, c);
    } else if e.CheckFlag? || e.Send? {
      OneCall(s, e, c);
      RefusalNoted(log, s, e);
    } else if e.BeginWait? || e.Wake? || e.TimeOut? {
      OneCall(s, e, c);
      assert Told(log, s, if e.BeginWait? then e.id else s.calls[e.c].id);
      WaitNoted(log, s, e);
    } else {
      OtherCall(log + Done(s, e), s, e, c);
    }
  }

  /** A step changes one call at most. */
  lemma OneCall(s: Sys, e: Event, c: nat)
    requires Enabled(s, e) && c < |Next(s, e).calls| && !(c < |s.calls| && Next(s, e).calls[c] == s.calls[c])
    ensures e.CheckFlag? || e.Send? ==> c == e.c
    ensures e.BeginWait? || e.Wake? || e.TimeOut? ==> c == CallOf(s, e)
  {
    if e.IsClientStep() {
      hide Next, Enabled;
      ClientFrame(s, e);
    }
  }

  lemma OtherCall(log: set<Deed>, s: Sys, e: Event, c: nat)
    requires Enabled(s, e) && c < |Next(s, e).calls| && !(c < |s.calls| && Next(s, e).calls[c] == s.calls[c])
    requires !e.CheckFlag? && !e.Send? && !e.BeginWait? && !e.Wake? && !e.TimeOut?
    ensures CallTold(log, Next(s, e), c)
  {
    hide Transition, Submit, CancelCommit, CancelRead;
    if !e.IsClientStep() && !e.IsSubmitStep() {
      CallsUntouched(s, e);
    }
  }

  // ---------- every run ----------

  lemma AllToldStep(log: set<Deed>, s: Sys, e: Event)
    requires Enabled(s, e) && Inv(s) && AllTold(log, s)
    ensures AllTold(log + Done(s, e), Next(s, e))
  {
    hide Inv, Next, Enabled, Told, CallTold, Done;
    forall x
      ensures Told(log + Done(s, e), Next(s, e), x)
    {
      ToldStep(log, s, e, x);
    }
    forall c | 0 <= c < |Next(s, e).calls|
      ensures CallTold(log + Done(s, e), Next(s, e), c)
    {
      CallStep(log, s, e, c);
    }
  }

  lemma {:induction false} RunTold(log: set<Deed>, s: Sys, es: seq<Event>)
    requires Inv(s) && AllTold(log, s) && IsRun(s, es)
    ensures AllTold(log + Log(s, es), After(s, es))
    decreases |es|
  {
    hide Inv, Next, Enabled, AllTold, Done;
    if es == [] {
      assert log + {} == log;
    } else {
      InvStep(s, es[0]);
      AllToldStep(log, s, es[0]);
      RunTold(log + Done(s, es[0]), Next(s, es[0]), es[1..]);
      assert log + Done(s, es[0]) + Log(Next(s, es[0]), es[1..]) == log + Log(s, es);
    }
  }

  /** Over every run the record of a task submitted here and still held is accounted for in both
      directions: every field of it comes from a step that took effect, and whatever was submitted, started,
      returned and recorded for the task shows in it. So a completed task carries its handler's result, a
      failed one the handler's error or the fixed text of its refusal, and its three times are those of its
      submission, its start and its end. */
  lemma EveryRecordIsAccountedFor(s0: Sys, workers: int, queueSize: int, es: seq<Event>, id: TaskID)
    requires Initial(s0, workers, queueSize) && IsRun(s0, es)
    requires id in After(s0, es).at && id in After(s0, es).mem.entries
    ensures var log, t := Log(s0, es), After(s0, es).mem.entries[id].task;
            t.id == id && Story(log, t) && Shown(log, t)
  {
    hide Inv, Story, Shown;
    FromTheStart(s0, workers, queueSize, es);
    assert Told(Log(s0, es), After(s0, es), id);
  }

  /** A Wait that returned a task, or timed out with a snapshot, returned a record that is accounted for. */
  lemma AnswersAreAccountedFor(s0: Sys, workers: int, queueSize: int, es: seq<Event>, c: nat)
    requires Initial(s0, workers, queueSize) && IsRun(s0, es)
    requires c < |After(s0, es).calls| && After(s0, es).calls[c].WaitReturned?
    ensures var s, k := After(s0, es), After(s0, es).calls[c];
            && (k.answer.Finished? ==>
                  k.answer.task.id == k.id && (k.id in s.at ==> Story(Log(s0, es), k.answer.task)))
            && (k.answer.TimedOut? && k.answer.snapshot.Some? ==>
                  k.answer.snapshot.value.id == k.id && (k.id in s.at ==> Story(Log(s0, es), k.answer.snapshot.value)))
  {
    hide Inv, Story, Told;
    FromTheStart(s0, workers, queueSize, es);
    assert CallTold(Log(s0, es), After(s0, es), c);
  }

  /** A Finish on a running task of an open store: the task is over, and if it is still held, its record
      carries exactly what the handler returned, and nothing else in it has changed but the finish time. */
  lemma FinishCarriesOutcome(s0: Sys, workers: int, queueSize: int, es: seq<Event>, w: nat, now: Time)
    requires Initial(s0, workers, queueSize) && IsRun(s0, es) && Enabled(After(s0, es), Finish(w, now))
    requires var s := After(s0, es);
             var id := s.workers[w].id;
             !s.mem.closed && id in s.mem.entries && s.mem.entries[id].task.state == Running
    ensures var s := After(s0, es);
            var n, id := Next(s, Finish(w, now)).mem, s.workers[w].id;
            && id in n.released
            && (id in n.entries ==>
                  var t, u := s.mem.entries[id].task, n.entries[id].task;
                  && Carries(u, s.workers[w].result) && u.finishedAt == now && u.startedAt == t.startedAt
                  && u.id == id && u.kind == t.kind && u.request == t.request && u.submittedAt == t.submittedAt
                  && u.pid == t.pid && u.cancelHint == t.cancelHint)
  {
    hide Initial, IsRun, After, Inv, Story, Shown;
    FromTheStart(s0, workers, queueSize, es);
    InitialInv(s0, workers, queueSize);
    RunKeepsInv(s0, es);
    var s, e := After(s0, es), Finish(w, now);
    RunningFinishes(Log(s0, es), s, e);
  }

  lemma RunningFinishes(log: set<Deed>, s: Sys, e: Event)
    requires Enabled(s, e) && Inv(s) && AllTold(log, s) && e.Finish? && !s.mem.closed
    requires s.workers[e.w].id in s.mem.entries && s.mem.entries[s.workers[e.w].id].task.state == Running
    ensures var n, id := Next(s, e).mem, s.workers[e.w].id;
            && id in n.released
            && (id in n.entries ==>
                  var t, u := s.mem.entries[id].task, n.entries[id].task;
                  && Carries(u, s.workers[e.w].result) && u.finishedAt == e.now && u.startedAt == t.startedAt
                  && u.id == id && u.kind == t.kind && u.request == t.request && u.submittedAt == t.submittedAt
                  && u.pid == t.pid && u.cancelHint == t.cancelHint)
  {
    hide Inv, Tokens, MemValid, StateOk, KnownId, CancelledOk, CallOk, Next, StageOf, Shown, DeedsFit, CallTold;
    var id := s.workers[e.w].id;
    InvParts(s);
    HolderOfWorker(s, e.w);
    assert Told(log, s, id);
    ToldSettles(log, s, id);
    FinishSettles(s, e);
    StoreValidStep(s, e);
    TerminalIsReleased(Next(s, e).mem, id);
    RecordFinished(s, e);
  }

  lemma FromTheStart(s0: Sys, workers: int, queueSize: int, es: seq<Event>)
    requires Initial(s0, workers, queueSize) && IsRun(s0, es)
    ensures AllTold(Log(s0, es), After(s0, es))
  {
    hide Inv, MemValid, Log, After, IsRun;
    InitialInv(s0, workers, queueSize);
    assert AllTold({}, s0);
    RunTold({}, s0, es);
    assert {} + Log(s0, es) == Log(s0, es);
  }
}
