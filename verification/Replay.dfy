/** NewDisk: load every manifest, then abandon this process's unfinished tasks
    (internal/taskstore/disk.go:90-171 and 263-310). */
module Replay {
  import opened Tasks
  import opened StoreSpec
  import opened StoreLaws
  import opened StoreFacts
  import opened Manifests
  import opened Mirror
  import TaskIDs

  /** The clock read while the given task is being processed. */
  type Clock = TaskID -> Time

  predicate IsManifestName(name: string) {
    && !(|name| > 0 && name[0] == '.')
    && |name| >= 5 && name[|name| - 5..] == ".json"
  }

  /** Read are the files with a visible stem before the extension: no hidden file, no temporary one, and
      not the bare extension. */
  lemma ManifestNames(name: string)
    ensures IsManifestName(name) <==> exists stem: string :: stem != "" && stem[0] != '.' && name == stem + ".json"
  {
    if IsManifestName(name) {
      var stem := name[..|name| - 5];
      assert name == stem + ".json";
      assert stem != "" && stem[0] == name[0];
    }
    if stem: string :| stem != "" && stem[0] != '.' && name == stem + ".json" {
      assert name[|name| - 5..] == ".json" && name[0] == stem[0];
    }
  }

  /** readAllManifests keeps a file when its name is visible and ends in .json and its task has a valid
      id and kind. */
  predicate IsRead(name: string, t: Task) {
    IsManifestName(name) && TaskIDs.IsValid(t.id) && t.kind.IsValid()
  }

  /** The parsed tasks, in the order the directory listing gives the names. */
  function ReadAll(files: map<string, Task>, listing: seq<string>): seq<Task>
    requires forall n :: n in listing ==> n in files
    decreases |listing|
  {
    if listing == [] then []
    else
      (if IsRead(listing[0], files[listing[0]]) then [files[listing[0]]] else []) + ReadAll(files, listing[1..])
  }

  function RestoreAll(m: Mem, ts: seq<Task>, clock: Clock): Mem
    decreases |ts|
  {
    if ts == [] then m else RestoreAll(Restore(m, ts[0], clock(ts[0].id)).0, ts[1..], clock)
  }

  predicate IsLive(s: State) {
    s == Queued || s == Running
  }

  /** Ids restored as queued or running under the store's own pid. */
  function Abandonable(m: Mem, ts: seq<Task>, clock: Clock): seq<TaskID>
    decreases |ts|
  {
    if ts == [] then []
    else
      var (r, out) := Restore(m, ts[0], clock(ts[0].id));
      (if out == Ok && ts[0].pid == m.pid && IsLive(ts[0].state) then [ts[0].id] else [])
      + Abandonable(r, ts[1..], clock)
  }

  function AbandonEdit(): TransitionFn {
    (t: Task) => Applied(t.(state := Abandoned,
          cancelHint := if t.cancelHint == "" then "process_restart" else t.cancelHint))
  }

  datatype World = World(mem: Mem, disk: Disk)

  function AbandonAll(w: World, ok: Health, ids: seq<TaskID>, clock: Clock): World
    decreases |ids|
  {
    if ids == [] then w
    else
      var s := Transition(w.mem, ids[0], AbandonEdit(), clock(ids[0]));
      AbandonAll(World(s.mem, AfterHooks(w.disk, ok, s)), ok, ids[1..], clock)
  }

  function NewDisk(m0: Mem, disk: Disk, ok: Health, listing: seq<string>, load: Clock, abandon: Clock): World
    requires forall n :: n in listing ==> n in disk.files
  {
    var ts := ReadAll(disk.files, listing);
    AbandonAll(World(RestoreAll(m0, ts, load), disk), ok, Abandonable(m0, ts, load), abandon)
  }

  // ---------- recovery, for every directory ----------

  /** What memory holds for a manifest: terminal tasks without a FinishedAt are stamped. */
  function Loaded(t: Task, now: Time): Task {
    if t.state.IsTerminal() then Stamped(t, now) else t
  }

  ghost predicate LoadedFrom(x: TaskID, e: Entry, ts: seq<Task>, clock: Clock) {
    exists i :: 0 <= i < |ts| && ts[i].id == x && e.task == Loaded(ts[i], clock(x)) && TaskIDs.IsValid(x)
  }

  /** Every record either was there before or comes from a manifest, and an own unfinished record
      that is new is listed for abandonment. */
  lemma {:induction false} RestoreAllLoads(m: Mem, ts: seq<Task>, clock: Clock, x: TaskID)
    requires MemValid(m)
    ensures var r := RestoreAll(m, ts, clock);
            && MemValid(r) && r.pid == m.pid && r.closed == m.closed && r.maxRet == m.maxRet
            && (x in r.entries ==>
                  (x in m.entries && r.entries[x] == m.entries[x]) || LoadedFrom(x, r.entries[x], ts, clock))
            && (x in r.entries && r.entries[x].task.pid == m.pid && IsLive(r.entries[x].task.state) ==>
                  (x in m.entries && r.entries[x] == m.entries[x]) || x in Abandonable(m, ts, clock))
    decreases |ts|
  {
    hide MemValid, Restore, TaskIDs.IsValid;
    if ts != [] {
      var t := ts[0];
      var now := clock(t.id);
      var m1 := Restore(m, t, now).0;
      RestoreValid(m, t, now);
      RestoreEffect(m, t, now, x);
      RestoreAllLoads(m1, ts[1..], clock, x);
      var r := RestoreAll(m, ts, clock);
      if x in r.entries {
        if LoadedFrom(x, r.entries[x], ts[1..], clock) {
          var i :| 0 <= i < |ts[1..]| && ts[1..][i].id == x && r.entries[x].task == Loaded(ts[1..][i], clock(x))
              && TaskIDs.IsValid(x);
          assert ts[i + 1] == ts[1..][i];
        } else if !(x in m.entries && r.entries[x] == m.entries[x]) {
          assert ts[0].id == x && r.entries[x].task == Loaded(ts[0], clock(x));
        }
      }
    }
  }

  lemma AbandonKeepsIdentity()
    ensures KeepsIdentity(AbandonEdit())
  {
  }

  /** What becomes of a task that was read: an own unfinished one is abandoned, any other is as it was,
      with a finish time if it is terminal and had none. */
  predicate RecoversAs(u: Task, t: Task, pid: int, loaded: Time, abandoned: Time) {
    && u.id == t.id && u.kind == t.kind && u.pid == t.pid && u.submittedAt == t.submittedAt
    && u.startedAt == t.startedAt && u.request == t.request && u.result == t.result && u.error == t.error
    && if t.pid == pid && (t.state == Queued || t.state == Running)
       then u.state == Abandoned && u.cancelHint == (if t.cancelHint == "" then "process_restart" else t.cancelHint)
            && u.finishedAt == if t.finishedAt == 0 then abandoned else t.finishedAt
       else u.state == t.state && u.cancelHint == t.cancelHint
            && u.finishedAt == if t.finishedAt == 0 && t.state != Queued && t.state != Running then loaded
                               else t.finishedAt
  }

  /** Abandoning an unfinished own record of an open store succeeds. */
  lemma AbandonMoves(m: Mem, id: TaskID, now: Time)
    requires id != "" && !m.closed && id in m.entries && m.entries[id].task.pid == m.pid
             && IsLive(m.entries[id].task.state)
    ensures Transition(m, id, AbandonEdit(), now).out == Ok
  {
    hide Trimmed, TrimmedIds;
  }

  /** The listed records are this process's own and unfinished, or have been abandoned already. */
  ghost predicate ToAbandon(w: World, ids: seq<TaskID>, x: TaskID) {
    && (x in w.mem.entries && x in ids ==>
          && w.mem.entries[x].task.pid == w.mem.pid
          && (IsLive(w.mem.entries[x].task.state)
              || (w.mem.entries[x].task.state == Abandoned && w.mem.entries[x].task.cancelHint != "")))
    && (x in w.mem.entries && w.mem.entries[x].task.pid == w.mem.pid && IsLive(w.mem.entries[x].task.state) ==>
          x in ids)
  }

  /** Abandoning an abandoned record that has a hint changes nothing. */
  lemma AbandonAgain(m: Mem, id: TaskID, now: Time)
    requires id in m.entries && m.entries[id].task.state == Abandoned && m.entries[id].task.cancelHint != ""
    ensures var n := Transition(m, id, AbandonEdit(), now).mem;
            id in n.entries && n.entries[id] == m.entries[id]
  {
  }

  lemma AbandonOne(m: Mem, id: TaskID, now: Time)
    requires MemValid(m) && !m.closed && id != "" && id in m.entries && m.entries[id].task.pid == m.pid
    requires IsLive(m.entries[id].task.state)
             || (m.entries[id].task.state == Abandoned && m.entries[id].task.cancelHint != "")
    ensures var n := Transition(m, id, AbandonEdit(), now).mem;
            id in n.entries ==>
              var t, u := m.entries[id].task, n.entries[id].task;
              if IsLive(t.state) then RecoversAs(u, t, m.pid, 0, now) && u.cancelHint != "" else u == t
  {
    hide MemValid, Transition;
    AbandonKeepsIdentity();
    if IsLive(m.entries[id].task.state) {
      AbandonMoves(m, id, now);
    } else {
      AbandonAgain(m, id, now);
    }
    TransitionRecords(m, id, AbandonEdit(), now);
  }

  /** Once all those listed have been abandoned, an own unfinished record is abandoned or trimmed, and every
      other record is as it was or, if it was terminal, perhaps trimmed. */
  lemma {:induction false} AbandonAllSettles(w: World, ok: Health, ids: seq<TaskID>, clock: Clock, x: TaskID)
    requires MemValid(w.mem) && !w.mem.closed && "" !in w.mem.entries && ToAbandon(w, ids, x)
    ensures var r := AbandonAll(w, ok, ids, clock).mem;
            && MemValid(r) && r.pid == w.mem.pid
            && (x in r.entries ==>
                  x in w.mem.entries
                  && if w.mem.entries[x].task.pid == r.pid && IsLive(w.mem.entries[x].task.state)
                     then RecoversAs(r.entries[x].task, w.mem.entries[x].task, r.pid, 0, clock(x))
                     else r.entries[x].task == w.mem.entries[x].task)
            && (x in w.mem.entries && w.mem.entries[x].task.pid != r.pid && IsLive(w.mem.entries[x].task.state) ==>
                  x in r.entries)
    decreases |ids|
  {
    hide MemValid, Transition, AfterHooks;
    if ids != [] {
      AbandonKeepsIdentity();
      var s := Transition(w.mem, ids[0], AbandonEdit(), clock(ids[0]));
      TransitionValid(w.mem, ids[0], AbandonEdit(), clock(ids[0]));
      TransitionEffect(w.mem, ids[0], AbandonEdit(), clock(ids[0]), x);
      if x == ids[0] && x in w.mem.entries {
        AbandonOne(w.mem, x, clock(x));
      }
      TransitionEffect(w.mem, ids[0], AbandonEdit(), clock(ids[0]), "");
      AbandonAllSettles(World(s.mem, AfterHooks(w.disk, ok, s)), ok, ids[1..], clock, x);
    }
  }

  /** What is listed for abandonment is in memory, own and unfinished, when the load is over. */
  lemma {:induction false} ListedIsLive(m: Mem, ts: seq<Task>, clock: Clock, x: TaskID)
    requires MemValid(m) && x in Abandonable(m, ts, clock)
    ensures var n := RestoreAll(m, ts, clock);
            x in n.entries && n.entries[x].task.pid == m.pid && IsLive(n.entries[x].task.state)
    decreases |ts|
  {
    hide MemValid, Restore, TaskIDs.IsValid;
    if ts != [] {
      var t, now := ts[0], clock(ts[0].id);
      var (n, out) := Restore(m, t, now);
      RestoreValid(m, t, now);
      RestoreEffect(m, t, now, t.id);
      if out == Ok && t.pid == m.pid && IsLive(t.state) && x == t.id {
        LiveStays(n, ts[1..], clock, x);
      } else {
        ListedIsLive(n, ts[1..], clock, x);
      }
    }
  }

  lemma {:induction false} ReadAllFrom(files: map<string, Task>, listing: seq<string>, t: Task)
    requires forall n :: n in listing ==> n in files
    ensures t in ReadAll(files, listing) <==> exists n :: n in listing && files[n] == t && IsRead(n, t)
    decreases |listing|
  {
    if listing != [] {
      hide IsRead;
      ReadAllFrom(files, listing[1..], t);
      assert listing == [listing[0]] + listing[1..];
      if n :| n in listing && files[n] == t && IsRead(n, t) {
        assert n == listing[0] || n in listing[1..];
      }
    }
  }

  /** Manifests that would be read sit under the name of their own id. */
  ghost predicate FilesNamed(files: map<string, Task>) {
    forall n :: n in files && IsRead(n, files[n]) ==> n == FileName(files[n].id)
  }

  ghost predicate FilesAgree(files: map<string, Task>, entries: map<TaskID, Entry>) {
    forall x :: x in entries ==> FileName(x) in files && files[FileName(x)].state == entries[x].task.state
  }

  /** The hooks of one step: at most one deletion, then the snapshot. */
  lemma AgreeHooks(files: map<string, Task>, entries: map<TaskID, Entry>, after: map<TaskID, Entry>,
                   evicted: seq<TaskID>, t: Task)
    requires FilesAgree(files, entries) && |evicted| <= 1 && (evicted != [] ==> evicted[0] !in after)
    requires t.id in after ==> after[t.id].task == t
    requires forall x :: x in after && x != t.id ==> x in entries && after[x] == entries[x]
    ensures var kept := if evicted == [] then files else files - {FileName(evicted[0])};
            FilesAgree(kept[FileName(t.id) := t], after)
  {
    hide FileName;
    NamesMatch();
  }

  /** Every store step but a load keeps each record's manifest at the record's state, if the hooks
      succeed. Nothing is asked of finish times: a record that evicts itself leaves a manifest behind, but
      is no longer held. */
  lemma AgreeStep(m: Mem, d: Disk, ok: Health, op: Op)
    requires MemValid(m) && Healthy(ok) && FilesAgree(d.files, m.entries) && OpOk(m, op) && !op.RestoreOp?
    ensures FilesAgree(AfterHooks(d, ok, Apply(m, op)).files, Apply(m, op).mem.entries)
  {
    hide MemValid, Committed, AfterHooks, FilesAgree;
    var s := Apply(m, op);
    if s.written == None {
      NoWriteAgrees(m, d, ok, op);
    } else if op.SubmitOp? {
      HooksOf(d, ok, s);
      AgreeHooks(d.files, m.entries, s.mem.entries, s.evicted, s.written.value);
    } else {
      TransitionIsCommit(m, op);
      IdOf(m, op.id);
      var t := op.fn(m.entries[op.id].task).task;
      EvictedGone(m, op.id, t, op.now);
      CommittedWrites(m, op.id, t, op.now);
      HooksOf(d, ok, s);
      forall x | x in s.mem.entries && x != op.id
        ensures x in m.entries && s.mem.entries[x] == m.entries[x]
      {
        TransitionEffect(m, op.id, op.fn, op.now, x);
      }
      AgreeHooks(d.files, m.entries, s.mem.entries, s.evicted, s.written.value);
    }
  }

  /** A failed call, RegisterCancel and Close change no record's state and write nothing. */
  lemma NoWriteAgrees(m: Mem, d: Disk, ok: Health, op: Op)
    requires FilesAgree(d.files, m.entries) && Apply(m, op).written == None && !op.RestoreOp?
    ensures FilesAgree(AfterHooks(d, ok, Apply(m, op)).files, Apply(m, op).mem.entries)
  {
    hide Committed, AfterHooks;
    if op.TransitionOp? {
      FailedTransition(m, op.id, op.fn, op.now);
    }
    NoHooks(d, ok, Apply(m, op));
  }

  lemma CommittedWrites(m: Mem, id: TaskID, t: Task, now: Time)
    requires id in m.entries
    ensures Committed(m, id, t, now).written.Some? <==> Committed(m, id, t, now).out == Ok
  {
  }

  lemma {:induction false} AbandonAllAgrees(w: World, ok: Health, ids: seq<TaskID>, clock: Clock)
    requires MemValid(w.mem) && Healthy(ok) && FilesAgree(w.disk.files, w.mem.entries)
    ensures var r := AbandonAll(w, ok, ids, clock); MemValid(r.mem) && FilesAgree(r.disk.files, r.mem.entries)
    decreases |ids|
  {
    hide MemValid, FilesAgree, AfterHooks, Transition;
    if ids != [] {
      AbandonKeepsIdentity();
      AgreeStep(w.mem, w.disk, ok, TransitionOp(ids[0], AbandonEdit(), clock(ids[0])));
      TransitionValid(w.mem, ids[0], AbandonEdit(), clock(ids[0]));
      var s := Transition(w.mem, ids[0], AbandonEdit(), clock(ids[0]));
      AbandonAllAgrees(World(s.mem, AfterHooks(w.disk, ok, s)), ok, ids[1..], clock);
    }
  }

  /** Agreement lasts over any run. */
  lemma {:induction false} RunAgrees(m: Mem, d: Disk, ok: Health, ops: seq<Op>)
    requires MemValid(m) && Healthy(ok) && FilesAgree(d.files, m.entries) && RunOk(m, ops) && NoRestore(ops)
    ensures FilesAgree(RunDisk(m, d, ok, ops).files, Run(m, ops).entries)
    decreases |ops|
  {
    hide MemValid, FilesAgree, AfterHooks, Apply, OpOk;
    if ops != [] {
      StepKeepsValid(m, ops[0]);
      AgreeStep(m, d, ok, ops[0]);
      assert NoRestore(ops[1..]);
      RunAgrees(Apply(m, ops[0]).mem, AfterHooks(d, ok, Apply(m, ops[0])), ok, ops[1..]);
    }
  }

  /** x came from a manifest that was read, with this task in it. */
  ghost predicate ReadAs(files: map<string, Task>, x: TaskID, t: Task) {
    exists n :: n in files && files[n] == t && IsRead(n, t) && t.id == x
  }

  lemma LoadPhase(m0: Mem, disk: Disk, listing: seq<string>, load: Clock, x: TaskID)
    requires MemValid(m0) && m0.entries == map[] && forall n :: n in listing ==> n in disk.files
    ensures var r := RestoreAll(m0, ReadAll(disk.files, listing), load);
            && MemValid(r) && r.pid == m0.pid && r.closed == m0.closed
            && (x in r.entries ==>
                  x != "" && exists t :: ReadAs(disk.files, x, t) && r.entries[x].task == Loaded(t, load(x)))
            && (x in r.entries && r.entries[x].task.pid == r.pid && IsLive(r.entries[x].task.state) ==>
                  x in Abandonable(m0, ReadAll(disk.files, listing), load))
  {
    hide MemValid;
    var ts := ReadAll(disk.files, listing);
    RestoreAllLoads(m0, ts, load, x);
    var r := RestoreAll(m0, ts, load);
    if x in r.entries {
      var i :| 0 <= i < |ts| && ts[i].id == x && r.entries[x].task == Loaded(ts[i], load(x)) && TaskIDs.IsValid(x);
      ReadAllFrom(disk.files, listing, ts[i]);
      var n :| n in listing && disk.files[n] == ts[i] && IsRead(n, ts[i]);
      assert ReadAs(disk.files, x, ts[i]);
    }
  }

  /** Replay recovery, for every directory, listing order and health of the disk: the store is valid, every
      record comes from a manifest that was read and says field by field what became of it, and no record of
      this process is left queued or running. */
  lemma ReplayRecovers(m0: Mem, disk: Disk, ok: Health, listing: seq<string>, load: Clock, abandon: Clock, x: TaskID)
    requires MemValid(m0) && m0.entries == map[] && !m0.closed && forall n :: n in listing ==> n in disk.files
    ensures var r := NewDisk(m0, disk, ok, listing, load, abandon).mem;
            && MemValid(r) && r.pid == m0.pid
            && (x in r.entries ==>
                  exists t :: ReadAs(disk.files, x, t)
                    && RecoversAs(r.entries[x].task, t, m0.pid, load(x), abandon(x)))
            && (x in r.entries && r.entries[x].task.pid == r.pid ==> r.entries[x].task.state.IsTerminal())
  {
    hide MemValid, RestoreAll, AbandonAll, Abandonable, ReadAs;
    var ts := ReadAll(disk.files, listing);
    var loaded := RestoreAll(m0, ts, load);
    LoadPhase(m0, disk, listing, load, x);
    LoadPhase(m0, disk, listing, load, "");
    LoadedToAbandon(m0, disk, ts, load, x);
    AbandonAllSettles(World(loaded, disk), ok, Abandonable(m0, ts, load), abandon, x);
    if x in loaded.entries {
      IdOf(loaded, x);
    }
  }

  lemma LoadedToAbandon(m0: Mem, disk: Disk, ts: seq<Task>, load: Clock, x: TaskID)
    requires MemValid(m0) && m0.entries == map[]
    ensures ToAbandon(World(RestoreAll(m0, ts, load), disk), Abandonable(m0, ts, load), x)
  {
    hide MemValid, RestoreAll, Abandonable, TaskIDs.IsValid;
    RestoreAllLoads(m0, ts, load, x);
    if x in Abandonable(m0, ts, load) {
      ListedIsLive(m0, ts, load, x);
    }
  }

  // ---------- what survives ----------

  /** Loading more manifests never drops a live record. */
  lemma {:induction false} LiveStays(m: Mem, ts: seq<Task>, clock: Clock, x: TaskID)
    requires MemValid(m) && x in m.entries && !m.entries[x].task.state.IsTerminal()
    ensures var r := RestoreAll(m, ts, clock); x in r.entries && r.entries[x] == m.entries[x]
    decreases |ts|
  {
    hide MemValid, Restore;
    if ts != [] {
      RestoreValid(m, ts[0], clock(ts[0].id));
      RestoreEffect(m, ts[0], clock(ts[0].id), x);
      LiveStays(Restore(m, ts[0], clock(ts[0].id)).0, ts[1..], clock, x);
    }
  }

  ghost predicate DistinctIds(ts: seq<Task>) {
    forall i, j :: 0 <= i < j < |ts| ==> ts[i].id != ts[j].id
  }

  lemma LoadsLive(m: Mem, t: Task, now: Time)
    requires TaskIDs.IsValid(t.id) && t.kind.IsValid() && IsLive(t.state) && t.id !in m.entries
    ensures var (r, out) := Restore(m, t, now); out == Ok && t.id in r.entries && r.entries[t.id].task == t
  {
    hide TaskIDs.IsValid;
  }

  /** Every live manifest read ends up in memory as it was read. */
  lemma {:induction false} LiveLoads(m: Mem, ts: seq<Task>, clock: Clock, i: nat)
    requires MemValid(m) && i < |ts| && DistinctIds(ts) && ts[i].id !in m.entries
    requires TaskIDs.IsValid(ts[i].id) && ts[i].kind.IsValid() && IsLive(ts[i].state)
    ensures var r := RestoreAll(m, ts, clock); ts[i].id in r.entries && r.entries[ts[i].id].task == ts[i]
    decreases |ts|
  {
    hide MemValid, Restore, TaskIDs.IsValid;
    var t := ts[0];
    var now := clock(t.id);
    RestoreValid(m, t, now);
    if i == 0 {
      LoadsLive(m, t, now);
      LiveStays(Restore(m, t, now).0, ts[1..], clock, t.id);
    } else {
      RestoreEffect(m, t, now, ts[i].id);
      assert ts[1..][i - 1] == ts[i];
      LiveLoads(Restore(m, t, now).0, ts[1..], clock, i - 1);
    }
  }

  /** A queued or running manifest of another process that is read is in memory after NewDisk, exactly
      as it was read: nobody abandons it. */
  lemma ForeignLiveSurvives(m0: Mem, disk: Disk, ok: Health, listing: seq<string>, load: Clock, abandon: Clock, t: Task)
    requires MemValid(m0) && m0.entries == map[] && !m0.closed && forall n :: n in listing ==> n in disk.files
    requires DistinctIds(ReadAll(disk.files, listing)) && t in ReadAll(disk.files, listing)
    requires t.pid != m0.pid && IsLive(t.state)
    ensures var r := NewDisk(m0, disk, ok, listing, load, abandon).mem;
            t.id in r.entries && r.entries[t.id].task == t
  {
    hide MemValid, RestoreAll, AbandonAll, Abandonable, TaskIDs.IsValid;
    var ts := ReadAll(disk.files, listing);
    var loaded := RestoreAll(m0, ts, load);
    ReadAllFrom(disk.files, listing, t);
    var i :| 0 <= i < |ts| && ts[i] == t;
    LiveLoads(m0, ts, load, i);
    LoadPhase(m0, disk, listing, load, t.id);
    LoadPhase(m0, disk, listing, load, "");
    LoadedToAbandon(m0, disk, ts, load, t.id);
    AbandonAllSettles(World(loaded, disk), ok, Abandonable(m0, ts, load), abandon, t.id);
  }

  /** When the promise that a restart leaves nothing unfinished holds: with distinct ids among the
      manifests read, every record after NewDisk is terminal if and only if no manifest read is queued or
      running under another pid. */
  lemma AllSettledIff(m0: Mem, disk: Disk, ok: Health, listing: seq<string>, load: Clock, abandon: Clock)
    requires MemValid(m0) && m0.entries == map[] && !m0.closed && forall n :: n in listing ==> n in disk.files
    requires DistinctIds(ReadAll(disk.files, listing))
    ensures var r := NewDisk(m0, disk, ok, listing, load, abandon).mem;
            (forall x :: x in r.entries ==> r.entries[x].task.state.IsTerminal())
            <==> (forall t :: t in ReadAll(disk.files, listing) && t.pid != m0.pid ==> !IsLive(t.state))
  {
    hide MemValid, NewDisk;
    var r := NewDisk(m0, disk, ok, listing, load, abandon).mem;
    forall t | t in ReadAll(disk.files, listing) && t.pid != m0.pid && IsLive(t.state)
      ensures t.id in r.entries && r.entries[t.id].task == t
    {
      ForeignLiveSurvives(m0, disk, ok, listing, load, abandon, t);
    }
    forall x | x in r.entries && !r.entries[x].task.state.IsTerminal()
      ensures exists t :: t in ReadAll(disk.files, listing) && t.pid != m0.pid && IsLive(t.state)
    {
      UnsettledIsForeign(m0, disk, ok, listing, load, abandon, x);
    }
  }

  lemma UnsettledIsForeign(m0: Mem, disk: Disk, ok: Health, listing: seq<string>, load: Clock, abandon: Clock,
        x: TaskID)
    requires MemValid(m0) && m0.entries == map[] && !m0.closed && forall n :: n in listing ==> n in disk.files
    requires var r := NewDisk(m0, disk, ok, listing, load, abandon).mem;
             x in r.entries && !r.entries[x].task.state.IsTerminal()
    ensures exists t :: t in ReadAll(disk.files, listing) && t.pid != m0.pid && IsLive(t.state)
  {
    hide MemValid, RestoreAll, AbandonAll, Abandonable, TaskIDs.IsValid;
    var ts := ReadAll(disk.files, listing);
    var loaded := RestoreAll(m0, ts, load);
    LoadPhase(m0, disk, listing, load, x);
    LoadPhase(m0, disk, listing, load, "");
    RestoreAllLoads(m0, ts, load, x);
    LoadedToAbandon(m0, disk, ts, load, x);
    AbandonAllSettles(World(loaded, disk), ok, Abandonable(m0, ts, load), abandon, x);
    IdOf(AbandonAll(World(loaded, disk), ok, Abandonable(m0, ts, load), abandon).mem, x);
    var i :| 0 <= i < |ts| && ts[i].id == x && loaded.entries[x].task == Loaded(ts[i], load(x)) && TaskIDs.IsValid(x);
    IdOf(loaded, x);
    assert ts[i] in ts;
  }

  /** One queued manifest of process 8 in the directory of process 7. */
  function ForeignQueued(): Task {
    Task(TaskIDs.Print(8, "", "", 0), GenerateImage, Queued, 8, 1, ZERO_TIME, ZERO_TIME, "", None, "", "")
  }

  lemma ForeignFileIsRead()
    ensures IsRead(FileName(ForeignQueued().id), ForeignQueued())
  {
    var id := ForeignQueued().id;
    TaskIDs.PidRoundTrip(8, "", "", 0);
    TaskIDs.PrintShape(8, "", "", 0);
    assert FileName(id)[|FileName(id)| - 5..] == ".json";
    assert id[0] == 't';
  }

  /** The documented promise fails here: after the start of process 7 that task is still queued. */
  lemma ForeignQueuedStaysQueued(ok: Health, load: Clock, abandon: Clock)
    ensures var t := ForeignQueued();
            var m := NewDisk(NewMem(7, 10, 10), Disk(map[FileName(t.id) := t], 0), ok, [FileName(t.id)], load,
                  abandon).mem;
            t.id in m.entries && m.entries[t.id].task == t && t.state == Queued
  {
    hide TaskIDs.IsValid, IsRead, NewDisk;
    var t := ForeignQueued();
    var files := map[FileName(t.id) := t];
    var listing := [FileName(t.id)];
    ForeignFileIsRead();
    NewMemValid(7, 10, 10);
    assert listing[1..] == [];
    assert ReadAll(files, listing) == [t];
    ForeignLiveSurvives(NewMem(7, 10, 10), Disk(files, 0), ok, listing, load, abandon, t);
  }

  /** With files named after their ids and a healthy disk, memory and directory agree on the state of
      every record held, after the start and after any run that follows it. */
  lemma ReplayAgrees(m0: Mem, disk: Disk, ok: Health, listing: seq<string>, load: Clock, abandon: Clock, ops: seq<Op>)
    requires MemValid(m0) && m0.entries == map[] && !m0.closed && forall n :: n in listing ==> n in disk.files
    requires Healthy(ok) && FilesNamed(disk.files)
    requires RunOk(NewDisk(m0, disk, ok, listing, load, abandon).mem, ops) && NoRestore(ops)
    ensures var r := NewDisk(m0, disk, ok, listing, load, abandon);
            && FilesAgree(r.disk.files, r.mem.entries)
            && FilesAgree(RunDisk(r.mem, r.disk, ok, ops).files, Run(r.mem, ops).entries)
  {
    hide MemValid, AbandonAll, RestoreAll, RunDisk, Run, RunOk;
    var ts := ReadAll(disk.files, listing);
    var loaded := RestoreAll(m0, ts, load);
    forall x | x in loaded.entries
      ensures FileName(x) in disk.files && disk.files[FileName(x)].state == loaded.entries[x].task.state
    {
      LoadPhase(m0, disk, listing, load, x);
    }
    RestoreAllLoads(m0, ts, load, "");
    AbandonAllAgrees(World(loaded, disk), ok, Abandonable(m0, ts, load), abandon);
    var r := NewDisk(m0, disk, ok, listing, load, abandon);
    RunAgrees(r.mem, r.disk, ok, ops);
  }
}
