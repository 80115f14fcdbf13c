/** Restarting twice is restarting once (internal/taskstore/disk.go:115-171,
    internal/taskstore/memory.go:506-530). */
module Restart {
  import opened Collections
  import opened Tasks
  import opened TerminalHeap
  import opened StoreSpec
  import opened StoreLaws
  import opened Manifests
  import opened Retention
  import opened Mirror
  import opened Replay
  import TaskIDs

  /** What a directory says about each task: the readable manifests with a known state, by id. */
  ghost function Loadables(files: map<string, Task>): map<TaskID, Task> {
    map n | n in files && IsRead(n, files[n]) && files[n].state.IsKnown() && n == FileName(files[n].id)
      :: files[n].id := files[n]
  }

  ghost function Times(book: map<TaskID, Task>): map<TaskID, Time> {
    map x | x in book && book[x].state.IsTerminal() :: book[x].finishedAt
  }

  ghost predicate AllStamped(book: map<TaskID, Task>) {
    forall x :: x in book && book[x].state.IsTerminal() ==> book[x].finishedAt != ZERO_TIME
  }

  /** The book with the tasks in `done` only. */
  ghost function Only(book: map<TaskID, Task>, done: set<TaskID>): map<TaskID, Task> {
    map x | x in book && x in done :: book[x]
  }

  /** Memory holds what the book says: every unfinished task, and the newest of the terminal ones. */
  ghost predicate Holds(m: Mem, book: map<TaskID, Task>) {
    && Retains(m, Times(book))
    && (forall x :: x in m.entries ==> x in book && m.entries[x] == Entry(book[x], None))
    && (forall x :: x in book && IsLive(book[x].state) ==> x in m.entries)
    && (forall x :: x in book ==>
          book[x].state.IsKnown() && book[x].id == x && TaskIDs.IsValid(x) && book[x].kind.IsValid())
  }

  lemma HoldsParts(m: Mem, book: map<TaskID, Task>)
    requires Holds(m, book)
    ensures MemValid(m) && Retains(m, Times(book))
  {
  }

  lemma LoadStep(m: Mem, book: map<TaskID, Task>, t: Task, now: Time)
    requires Holds(m, book) && t.id !in book && (t.state.IsTerminal() ==> t.finishedAt != ZERO_TIME)
    requires TaskIDs.IsValid(t.id) && t.kind.IsValid() && t.state.IsKnown()
    ensures Holds(Restore(m, t, now).0, book[t.id := t])
  {
    hide Retains, MemValid, Trimmed, Push, TaskIDs.IsValid;
    HoldsParts(m, book);
    var r := Restore(m, t, now).0;
    RestoreRetains(m, t, now, Times(book));
    assert Times(book[t.id := t]) == if t.state.IsTerminal() then Times(book)[t.id := t.finishedAt] else Times(book);
    hide Restore, Times;
    forall x | x in r.entries
      ensures x in book[t.id := t] && r.entries[x] == Entry(book[t.id := t][x], None)
    {
      RestoreEffect(m, t, now, x);
      RestoredEntry(m, t, now);
    }
    forall x | x in book && IsLive(book[x].state)
      ensures x in r.entries
    {
      RestoreEffect(m, t, now, x);
    }
    RestoreEffect(m, t, now, t.id);
  }

  lemma RestoredEntry(m: Mem, t: Task, now: Time)
    requires MemValid(m)
    ensures Restore(m, t, now).1 == Ok && t.id in Restore(m, t, now).0.entries
            ==> Restore(m, t, now).0.entries[t.id].cancel == None
  {
    hide MemValid, Sound, Trimmed, Push, TaskIDs.IsValid;
    if Restore(m, t, now).1 == Ok && t.state.IsTerminal() {
      var open := m.(released := m.released - {t.id});
      ReopenValid(m, t.id);
      EnteredNew(open, Stamped(t, now));
      TrimmedSubset(Entered(open, t.id, Stamped(t, now), None), t.id);
    }
  }

  /** The manifests still to load agree with the whole book, and are not loaded yet. */
  ghost predicate Pending(ts: seq<Task>, book: map<TaskID, Task>, done: set<TaskID>) {
    forall i :: 0 <= i < |ts| ==>
      var t := ts[i];
      && t.id !in done && TaskIDs.IsValid(t.id) && t.kind.IsValid()
      && (t.state.IsKnown() ==> t.id in book && book[t.id] == t)
      && (!t.state.IsKnown() ==> t.id !in book)
  }

  ghost function IdsOf(ts: seq<Task>): set<TaskID> {
    set t | t in ts :: t.id
  }

  lemma OnlyOneMore(book: map<TaskID, Task>, done: set<TaskID>, t: Task)
    requires t.id !in done && (t.state.IsKnown() ==> t.id in book && book[t.id] == t)
             && (!t.state.IsKnown() ==> t.id !in book)
    ensures Only(book, done + {t.id}) == if t.state.IsKnown() then Only(book, done)[t.id := t] else Only(book, done)
    ensures t.id !in Only(book, done)
  {
  }

  lemma NoIds(ts: seq<Task>, done: set<TaskID>)
    requires ts == []
    ensures done + IdsOf(ts) == done
  {
  }

  lemma PendingRest(ts: seq<Task>, book: map<TaskID, Task>, done: set<TaskID>)
    requires ts != [] && Pending(ts, book, done) && DistinctIds(ts)
    ensures Pending(ts[1..], book, done + {ts[0].id}) && DistinctIds(ts[1..])
    ensures done + {ts[0].id} + IdsOf(ts[1..]) == done + IdsOf(ts)
  {
    forall i | 0 <= i < |ts[1..]|
      ensures ts[1..][i].id != ts[0].id && ts[1..][i] == ts[i + 1]
    {
    }
  }

  lemma {:induction false} LoadAll(m: Mem, ts: seq<Task>, clock: Clock, book: map<TaskID, Task>, done: set<TaskID>)
    requires Holds(m, Only(book, done)) && AllStamped(book) && DistinctIds(ts) && Pending(ts, book, done)
    ensures Holds(RestoreAll(m, ts, clock), Only(book, done + IdsOf(ts)))
    decreases |ts|
  {
    hide Holds, TaskIDs.IsValid, IdsOf, Only;
    if ts == [] {
      NoIds(ts, done);
    } else {
      var t := ts[0];
      var m1 := Restore(m, t, clock(t.id)).0;
      OnlyOneMore(book, done, t);
      PendingRest(ts, book, done);
      if t.state.IsKnown() {
        LoadStep(m, Only(book, done), t, clock(t.id));
      }
      LoadAll(m1, ts[1..], clock, book, done + {t.id});
    }
  }

  /** A listing names every file once. */
  ghost predicate IsListing(files: map<string, Task>, listing: seq<string>) {
    && (forall n :: n in listing <==> n in files)
    && (forall i, j :: 0 <= i < j < |listing| ==> listing[i] != listing[j])
  }

  lemma {:induction false} ReadAllDistinct(files: map<string, Task>, listing: seq<string>)
    requires FilesNamed(files) && (forall n :: n in listing ==> n in files)
    requires forall i, j :: 0 <= i < j < |listing| ==> listing[i] != listing[j]
    ensures DistinctIds(ReadAll(files, listing))
    decreases |listing|
  {
    if listing != [] {
      hide IsRead;
      ReadAllDistinct(files, listing[1..]);
      var rest := ReadAll(files, listing[1..]);
      forall j | 0 <= j < |rest| && IsRead(listing[0], files[listing[0]])
        ensures rest[j].id != files[listing[0]].id
      {
        ReadAllFrom(files, listing[1..], rest[j]);
        var n :| n in listing[1..] && files[n] == rest[j] && IsRead(n, rest[j]);
        var k :| 0 <= k < |listing[1..]| && listing[1..][k] == n;
        assert listing[k + 1] == n != listing[0];
      }
    }
  }

  /** The load phase fills memory with what the directory says, whatever the listing order. */
  lemma LoadHolds(m0: Mem, files: map<string, Task>, listing: seq<string>, clock: Clock)
    requires Retains(m0, map[]) && m0.entries == map[]
    requires FilesNamed(files) && IsListing(files, listing) && AllStamped(Loadables(files))
    ensures Holds(RestoreAll(m0, ReadAll(files, listing), clock), Loadables(files))
  {
    ReadAllDistinct(files, listing);
    PendingAll(files, listing);
    AllRead(files, listing);
    hide *;
    var ts := ReadAll(files, listing);
    var book := Loadables(files);
    OnlyNothing(book);
    NothingHeld(m0);
    LoadAll(m0, ts, clock, book, {});
    OnlyAll(book, {} + IdsOf(ts));
  }

  lemma AllRead(files: map<string, Task>, listing: seq<string>)
    requires forall n :: n in listing <==> n in files
    ensures Loadables(files).Keys <= IdsOf(ReadAll(files, listing))
  {
    hide IsRead, TaskIDs.IsValid;
    var book := Loadables(files);
    forall x | x in book
      ensures x in IdsOf(ReadAll(files, listing))
    {
      ReadAllFrom(files, listing, book[x]);
      assert FileName(x) in files;
      assert book[x] in ReadAll(files, listing);
    }
  }

  lemma OnlyAll(book: map<TaskID, Task>, done: set<TaskID>)
    requires book.Keys <= done
    ensures Only(book, done) == book
  {
  }

  lemma OnlyNothing(book: map<TaskID, Task>)
    ensures Only(book, {}) == map[]
  {
  }

  lemma NothingHeld(m0: Mem)
    requires Retains(m0, map[]) && m0.entries == map[]
    ensures Holds(m0, map[])
  {
    assert Times(map[]) == map[];
  }

  lemma PendingAll(files: map<string, Task>, listing: seq<string>)
    requires FilesNamed(files) && forall n :: n in listing ==> n in files
    ensures Pending(ReadAll(files, listing), Loadables(files), {})
  {
    hide TaskIDs.IsValid;
    var ts := ReadAll(files, listing);
    forall i | 0 <= i < |ts|
      ensures TaskIDs.IsValid(ts[i].id) && ts[i].kind.IsValid()
      ensures ts[i].state.IsKnown() ==> ts[i].id in Loadables(files) && Loadables(files)[ts[i].id] == ts[i]
      ensures !ts[i].state.IsKnown() ==> ts[i].id !in Loadables(files)
    {
      ReadAllFrom(files, listing, ts[i]);
      var n :| n in listing && files[n] == ts[i] && IsRead(n, ts[i]);
      assert n == FileName(ts[i].id);
    }
  }

  // ---------- abandoning ----------

  function AbandonedTask(t: Task, now: Time): Task {
    Stamped(t.(state := Abandoned, cancelHint := if t.cancelHint == "" then "process_restart" else t.cancelHint), now)
  }

  /** The manifests agree with the book, and every record in memory has one. */
  ghost predicate FilesHold(files: map<string, Task>, book: map<TaskID, Task>, held: set<TaskID>) {
    && FilesNamed(files)
    && (forall x :: x in Loadables(files) ==> x in book && book[x] == Loadables(files)[x])
    && held <= Loadables(files).Keys
  }

  lemma OwnFileIsRead(t: Task)
    requires TaskIDs.IsValid(t.id) && t.kind.IsValid()
    ensures IsRead(FileName(t.id), t)
  {
    assert TaskIDs.PREFIX <= t.id;
    assert FileName(t.id)[0] == TaskIDs.PREFIX[0];
  }

  lemma LoadablesPut(files: map<string, Task>, t: Task, x: TaskID)
    requires TaskIDs.IsValid(t.id) && t.kind.IsValid() && t.state.IsKnown() && FilesNamed(files)
    ensures FilesNamed(files[FileName(t.id) := t])
    ensures x in Loadables(files[FileName(t.id) := t]) <==> x == t.id || x in Loadables(files)
    ensures x in Loadables(files[FileName(t.id) := t]) ==>
              Loadables(files[FileName(t.id) := t])[x] == if x == t.id then t else Loadables(files)[x]
  {
    hide TaskIDs.IsValid, IsManifestName;
    OwnFileIsRead(t);
    FileNameInjective(x, t.id);
    var g := files[FileName(t.id) := t];
    assert FileName(x) in files && x != t.id ==> g[FileName(x)] == files[FileName(x)];
    assert g[FileName(t.id)] == t;
  }

  lemma LoadablesDrop(files: map<string, Task>, id: TaskID, x: TaskID)
    requires FilesNamed(files)
    ensures FilesNamed(files - {FileName(id)})
    ensures x in Loadables(files - {FileName(id)}) <==> x != id && x in Loadables(files)
    ensures x in Loadables(files - {FileName(id)}) ==> Loadables(files - {FileName(id)})[x] == Loadables(files)[x]
  {
    hide TaskIDs.IsValid, IsRead;
    FileNameInjective(x, id);
    assert FileName(x) in files && x != id ==> FileName(x) in files - {FileName(id)};
  }

  lemma FilesPut(files: map<string, Task>, book: map<TaskID, Task>, held: set<TaskID>, t: Task)
    requires FilesHold(files, book, held) && TaskIDs.IsValid(t.id) && t.kind.IsValid() && t.state.IsKnown()
    ensures FilesHold(files[FileName(t.id) := t], book[t.id := t], held + {t.id})
  {
    hide TaskIDs.IsValid, Loadables, FilesNamed;
    var put := files[FileName(t.id) := t];
    forall x
      ensures FilesNamed(put)
      ensures x in Loadables(put) ==> x in book[t.id := t] && book[t.id := t][x] == Loadables(put)[x]
      ensures x in held + {t.id} ==> x in Loadables(put)
    {
      LoadablesPut(files, t, x);
    }
  }

  lemma FilesDrop(files: map<string, Task>, book: map<TaskID, Task>, held: set<TaskID>, id: TaskID)
    requires FilesHold(files, book, held)
    ensures FilesHold(files - {FileName(id)}, book, held - {id})
  {
    hide Loadables, FilesNamed;
    forall x
      ensures FilesNamed(files - {FileName(id)})
      ensures x in Loadables(files - {FileName(id)}) ==> x in book && book[x] == Loadables(files - {FileName(id)})[x]
      ensures x in held - {id} ==> x in Loadables(files - {FileName(id)})
    {
      LoadablesDrop(files, id, x);
    }
  }

  lemma FilesFewer(files: map<string, Task>, book: map<TaskID, Task>, held: set<TaskID>, fewer: set<TaskID>)
    requires FilesHold(files, book, held) && fewer <= held
    ensures FilesHold(files, book, fewer)
  {
    hide Loadables, FilesNamed;
  }

  /** The hooks of one step: at most one deletion, then the snapshot. */
  lemma FilesHooks(files: map<string, Task>, book: map<TaskID, Task>, held: set<TaskID>, after: set<TaskID>,
                   evicted: seq<TaskID>, t: Task)
    requires FilesHold(files, book, held) && TaskIDs.IsValid(t.id) && t.kind.IsValid() && t.state.IsKnown()
    requires |evicted| <= 1 && (evicted != [] ==> evicted[0] !in after) && after <= held
    ensures var kept := if evicted == [] then files else files - {FileName(evicted[0])};
            FilesHold(kept[FileName(t.id) := t], book[t.id := t], after)
  {
    hide FilesHold, TaskIDs.IsValid;
    if evicted == [] {
      FilesPut(files, book, held, t);
      FilesFewer(files[FileName(t.id) := t], book[t.id := t], held + {t.id}, after);
    } else {
      var kept := files - {FileName(evicted[0])};
      FilesDrop(files, book, held, evicted[0]);
      FilesPut(kept, book, held - {evicted[0]}, t);
      FilesFewer(kept[FileName(t.id) := t], book[t.id := t], held - {evicted[0]} + {t.id}, after);
    }
  }

  lemma AbandonFires(m: Mem, id: TaskID, now: Time)
    requires MemValid(m) && !m.closed && id != "" && id in m.entries
    requires m.entries[id].task.pid == m.pid && IsLive(m.entries[id].task.state)
    ensures var t := m.entries[id].task;
            var s := Transition(m, id, AbandonEdit(), now);
            && s == Committed(m, id, AbandonEdit()(t).task, now)
            && s.out == Ok && s.written == Some(AbandonedTask(t, now))
            && |s.evicted| <= 1 && (s.evicted != [] ==> s.evicted[0] !in s.mem.entries)
            && MemValid(s.mem) && s.mem.closed == m.closed && s.mem.pid == m.pid && s.mem.maxRet == m.maxRet
  {
    hide MemValid, Trimmed, TrimmedIds, Entered, Left;
    AbandonKeepsIdentity();
    TransitionValid(m, id, AbandonEdit(), now);
    TransitionEffect(m, id, AbandonEdit(), now, id);
    IdOf(m, id);
    EvictedGone(m, id, AbandonEdit()(m.entries[id].task).task, now);
  }

  lemma AbandonEntries(m: Mem, id: TaskID, now: Time, x: TaskID)
    requires MemValid(m) && !m.closed && id != "" && id in m.entries
    requires m.entries[id].task.pid == m.pid && IsLive(m.entries[id].task.state) && m.entries[id].cancel == None
    ensures var s := Transition(m, id, AbandonEdit(), now);
            && (x in s.mem.entries ==> x in m.entries)
            && (x in s.mem.entries ==>
                  s.mem.entries[x] ==
                  if x == id then Entry(AbandonedTask(m.entries[id].task, now), None) else m.entries[x])
            && (x in m.entries && x != id && IsLive(m.entries[x].task.state) ==> x in s.mem.entries)
  {
    hide MemValid, Transition;
    AbandonFires(m, id, now);
    AbandonKeepsIdentity();
    TransitionEffect(m, id, AbandonEdit(), now, x);
  }

  lemma AbandonMem(m: Mem, id: TaskID, now: Time, book: map<TaskID, Task>)
    requires Holds(m, book) && !m.closed && id in book && book[id].pid == m.pid && IsLive(book[id].state)
    ensures Holds(Transition(m, id, AbandonEdit(), now).mem, book[id := AbandonedTask(book[id], now)])
    ensures id in m.entries && id != "" && m.entries[id] == Entry(book[id], None)
  {
    hide Retains, MemValid, Transition, Committed, TaskIDs.IsValid;
    HoldsParts(m, book);
    NotEmptyId(id);
    AbandonFires(m, id, now);
    AbandonTimes(m, id, now, book);
    AbandonContents(m, id, now, book);
  }

  lemma AbandonTimes(m: Mem, id: TaskID, now: Time, book: map<TaskID, Task>)
    requires Retains(m, Times(book)) && MemValid(m) && id in m.entries && id in book && m.entries[id].task == book[id]
    requires book[id].id == id && IsLive(book[id].state)
    requires MemValid(Committed(m, id, AbandonEdit()(book[id]).task, now).mem)
    ensures Retains(Committed(m, id, AbandonEdit()(book[id]).task, now).mem,
                Times(book[id := AbandonedTask(book[id], now)]))
  {
    hide Retains, MemValid, Committed;
    var u := AbandonedTask(book[id], now);
    CommitRetains(m, id, AbandonEdit()(book[id]).task, now, Times(book));
    assert Times(book[id := u]) == Times(book)[id := u.finishedAt];
  }

  lemma AbandonContents(m: Mem, id: TaskID, now: Time, book: map<TaskID, Task>)
    requires MemValid(m) && !m.closed && id != "" && id in m.entries && id in book
    requires m.entries[id].task.pid == m.pid && IsLive(m.entries[id].task.state)
    requires forall x :: x in m.entries ==> x in book && m.entries[x] == Entry(book[x], None)
    requires forall x :: x in book && IsLive(book[x].state) ==> x in m.entries
    ensures var r := Transition(m, id, AbandonEdit(), now).mem;
            var after := book[id := AbandonedTask(book[id], now)];
            && (forall x :: x in r.entries ==> x in after && r.entries[x] == Entry(after[x], None))
            && (forall x :: x in after && IsLive(after[x].state) ==> x in r.entries)
  {
    hide MemValid, Transition;
    forall x
      ensures var r := Transition(m, id, AbandonEdit(), now).mem;
              && (x in r.entries ==> x in m.entries
                                     && r.entries[x] ==
                                        if x == id then Entry(AbandonedTask(book[id], now), None) else m.entries[x])
              && (x in m.entries && x != id && IsLive(m.entries[x].task.state) ==> x in r.entries)
    {
      AbandonEntries(m, id, now, x);
    }
  }

  lemma NotEmptyId(id: TaskID)
    requires TaskIDs.IsValid(id)
    ensures id != ""
  {
  }

  lemma AbandonStep(w: World, ok: Health, id: TaskID, now: Time, book: map<TaskID, Task>)
    requires Holds(w.mem, book) && FilesHold(w.disk.files, book, w.mem.entries.Keys) && Healthy(ok) && !w.mem.closed
    requires id in book && book[id].pid == w.mem.pid && IsLive(book[id].state)
    ensures var u := AbandonedTask(book[id], now);
            var s := Transition(w.mem, id, AbandonEdit(), now);
            && Holds(s.mem, book[id := u])
            && FilesHold(AfterHooks(w.disk, ok, s).files, book[id := u], s.mem.entries.Keys)
            && s.mem.closed == w.mem.closed && s.mem.pid == w.mem.pid && s.mem.maxRet == w.mem.maxRet
  {
    hide Retains, MemValid, FilesHold, AfterHooks, Transition, TaskIDs.IsValid, Committed;
    HoldsParts(w.mem, book);
    AbandonMem(w.mem, id, now, book);
    AbandonFires(w.mem, id, now);
    forall x
      ensures x in Transition(w.mem, id, AbandonEdit(), now).mem.entries ==> x in w.mem.entries
    {
      AbandonEntries(w.mem, id, now, x);
    }
    var s := Transition(w.mem, id, AbandonEdit(), now);
    HooksOf(w.disk, ok, s);
    FilesHooks(w.disk.files, book, w.mem.entries.Keys, s.mem.entries.Keys, s.evicted, AbandonedTask(book[id], now));
  }

  /** The book once the tasks in `done` have been abandoned. */
  ghost function Recovered(book: map<TaskID, Task>, done: set<TaskID>, clock: Clock): map<TaskID, Task> {
    map x | x in book :: if x in done then AbandonedTask(book[x], clock(x)) else book[x]
  }

  ghost predicate Distinct(ids: seq<TaskID>) {
    forall i, j :: 0 <= i < j < |ids| ==> ids[i] != ids[j]
  }

  ghost function SetOf(ids: seq<TaskID>): set<TaskID> {
    set x | x in ids
  }

  lemma RecoveredPut(book: map<TaskID, Task>, done: set<TaskID>, clock: Clock, id: TaskID)
    requires id in book && id !in done
    ensures Recovered(book, done + {id}, clock)
            == Recovered(book, done, clock)[id := AbandonedTask(book[id], clock(id))]
    ensures id in Recovered(book, done, clock) && Recovered(book, done, clock)[id] == book[id]
  {
  }

  lemma {:induction false} AbandonAllHolds(w: World, ok: Health, ids: seq<TaskID>, clock: Clock,
        book: map<TaskID, Task>, done: set<TaskID>)
    requires Holds(w.mem, Recovered(book, done, clock))
             && FilesHold(w.disk.files, Recovered(book, done, clock), w.mem.entries.Keys)
    requires Healthy(ok) && !w.mem.closed && Distinct(ids)
    requires forall x :: x in ids ==> x in book && x !in done && book[x].pid == w.mem.pid && IsLive(book[x].state)
    ensures var r := AbandonAll(w, ok, ids, clock);
            && Holds(r.mem, Recovered(book, done + SetOf(ids), clock))
            && FilesHold(r.disk.files, Recovered(book, done + SetOf(ids), clock), r.mem.entries.Keys)
            && r.mem.pid == w.mem.pid && r.mem.maxRet == w.mem.maxRet
    decreases |ids|
  {
    hide Holds, FilesHold, Recovered, Transition, AfterHooks;
    if ids == [] {
      assert done + SetOf(ids) == done;
    } else {
      var id := ids[0];
      assert id in ids;
      RecoveredPut(book, done, clock, id);
      AbandonStep(w, ok, id, clock(id), Recovered(book, done, clock));
      var s := Transition(w.mem, id, AbandonEdit(), clock(id));
      assert done + {id} + SetOf(ids[1..]) == done + SetOf(ids);
      AbandonAllHolds(World(s.mem, AfterHooks(w.disk, ok, s)), ok, ids[1..], clock, book, done + {id});
    }
  }

  // ---------- the restart ----------

  /** This process's unfinished tasks. */
  ghost function OwnLive(book: map<TaskID, Task>, pid: int): set<TaskID> {
    set x | x in book && book[x].pid == pid && IsLive(book[x].state)
  }

  lemma {:induction false} AbandonableSound(m: Mem, ts: seq<Task>, clock: Clock, book: map<TaskID, Task>)
    requires DistinctIds(ts) && Pending(ts, book, {})
    ensures Distinct(Abandonable(m, ts, clock))
    ensures forall x :: x in Abandonable(m, ts, clock) ==> x in IdsOf(ts) && x in OwnLive(book, m.pid)
    decreases |ts|
  {
    hide MemValid, Trimmed, Entered, TaskIDs.IsValid;
    if ts != [] {
      var (r, out) := Restore(m, ts[0], clock(ts[0].id));
      assert r.pid == m.pid by {
        RestoreKeepsPid(m, ts[0], clock(ts[0].id));
      }
      AbandonableSound(r, ts[1..], clock, book);
      assert IdsOf(ts) == {ts[0].id} + IdsOf(ts[1..]);
      HeadIsNew(ts);
      assert ts[0].id !in Abandonable(r, ts[1..], clock);
    }
  }

  lemma HeadIsNew(ts: seq<Task>)
    requires ts != [] && DistinctIds(ts)
    ensures ts[0].id !in IdsOf(ts[1..]) && DistinctIds(ts[1..])
  {
    forall t | t in ts[1..]
      ensures t.id != ts[0].id
    {
      var i :| 0 <= i < |ts[1..]| && ts[1..][i] == t;
      assert ts[i + 1] == t;
    }
  }

  lemma {:induction false} TrimmedKeepsPid(m: Mem)
    ensures Trimmed(m).pid == m.pid
    decreases |m.heap|
  {
    if |m.heap| > m.maxRet {
      TrimmedKeepsPid(DropRoot(m));
    }
  }

  lemma RestoreKeepsPid(m: Mem, t: Task, now: Time)
    ensures Restore(m, t, now).0.pid == m.pid
  {
    TrimmedKeepsPid(Entered(m.(released := m.released - {t.id}), t.id, Stamped(t, now), None));
  }

  /** What one start leaves behind, in memory and on disk. */
  lemma StartHolds(m0: Mem, disk: Disk, ok: Health, listing: seq<string>, load: Clock, abandon: Clock)
    requires Retains(m0, map[]) && m0.entries == map[] && !m0.closed && Healthy(ok)
    requires FilesNamed(disk.files) && IsListing(disk.files, listing) && AllStamped(Loadables(disk.files))
    ensures var book := Loadables(disk.files);
            var final := Recovered(book, OwnLive(book, m0.pid), abandon);
            var r := NewDisk(m0, disk, ok, listing, load, abandon);
            && Holds(r.mem, final) && FilesHold(r.disk.files, final, r.mem.entries.Keys)
            && r.mem.pid == m0.pid && r.mem.maxRet == m0.maxRet
  {
    var ts := ReadAll(disk.files, listing);
    var book := Loadables(disk.files);
    hide *;
    ReadOnce(disk.files, listing);
    LoadHolds(m0, disk.files, listing, load);
    FilesHoldFirst(disk.files, RestoreAll(m0, ts, load));
    StartFrom(m0, disk, ok, ts, load, abandon, book);
    NewDiskIs(m0, disk, ok, listing, load, abandon);
  }

  lemma StartFrom(m0: Mem, disk: Disk, ok: Health, ts: seq<Task>, load: Clock, abandon: Clock, book: map<TaskID, Task>)
    requires Retains(m0, map[]) && m0.entries == map[] && !m0.closed && Healthy(ok)
    requires DistinctIds(ts) && Pending(ts, book, {}) && Holds(RestoreAll(m0, ts, load), book)
    requires FilesHold(disk.files, book, RestoreAll(m0, ts, load).entries.Keys)
    ensures var final := Recovered(book, OwnLive(book, m0.pid), abandon);
            var r := AbandonAll(World(RestoreAll(m0, ts, load), disk), ok, Abandonable(m0, ts, load), abandon);
            && Holds(r.mem, final) && FilesHold(r.disk.files, final, r.mem.entries.Keys)
            && r.mem.pid == m0.pid && r.mem.maxRet == m0.maxRet
  {
    hide *;
    AbandonableSound(m0, ts, load, book);
    ListedAreOwn(m0, ts, load, book);
    RecoveredNone(book, abandon);
    RestoreAllKeeps(m0, ts, load);
    assert {} + SetOf(Abandonable(m0, ts, load)) == OwnLive(book, m0.pid);
    OwnIsOwn(book, m0.pid, Abandonable(m0, ts, load));
    AbandonAllHolds(World(RestoreAll(m0, ts, load), disk), ok, Abandonable(m0, ts, load), abandon, book, {});
  }

  lemma ReadOnce(files: map<string, Task>, listing: seq<string>)
    requires FilesNamed(files) && IsListing(files, listing)
    ensures DistinctIds(ReadAll(files, listing)) && Pending(ReadAll(files, listing), Loadables(files), {})
  {
    hide FilesNamed, Pending, Loadables;
    ReadAllDistinct(files, listing);
    PendingAll(files, listing);
  }

  lemma OwnIsOwn(book: map<TaskID, Task>, pid: int, ids: seq<TaskID>)
    requires SetOf(ids) == OwnLive(book, pid)
    ensures forall x :: x in ids ==> x in book && x !in {} && book[x].pid == pid && IsLive(book[x].state)
  {
    forall x | x in ids
      ensures x in OwnLive(book, pid)
    {
      assert x in SetOf(ids);
    }
  }

  lemma NewDiskIs(m0: Mem, disk: Disk, ok: Health, listing: seq<string>, load: Clock, abandon: Clock)
    requires forall n :: n in listing ==> n in disk.files
    ensures var ts := ReadAll(disk.files, listing);
            NewDisk(m0, disk, ok, listing, load, abandon)
            == AbandonAll(World(RestoreAll(m0, ts, load), disk), ok, Abandonable(m0, ts, load), abandon)
  {
  }

  lemma RecoveredNone(book: map<TaskID, Task>, clock: Clock)
    ensures Recovered(book, {}, clock) == book
  {
  }

  lemma FilesHoldFirst(files: map<string, Task>, m: Mem)
    requires FilesNamed(files) && Holds(m, Loadables(files))
    ensures FilesHold(files, Loadables(files), m.entries.Keys)
  {
    hide Loadables, Retains, TaskIDs.IsValid;
  }

  lemma RestoreAllKeeps(m0: Mem, ts: seq<Task>, load: Clock)
    requires Retains(m0, map[])
    ensures RestoreAll(m0, ts, load).pid == m0.pid && RestoreAll(m0, ts, load).closed == m0.closed
    ensures RestoreAll(m0, ts, load).maxRet == m0.maxRet
  {
    RestoreAllLoads(m0, ts, load, "");
  }

  lemma ListedAreOwn(m0: Mem, ts: seq<Task>, load: Clock, book: map<TaskID, Task>)
    requires Retains(m0, map[]) && m0.entries == map[] && Holds(RestoreAll(m0, ts, load), book)
    requires forall x :: x in Abandonable(m0, ts, load) ==> x in OwnLive(book, m0.pid)
    ensures SetOf(Abandonable(m0, ts, load)) == OwnLive(book, m0.pid)
  {
    hide Holds, Retains, RestoreAll, Abandonable, OwnLive;
    forall x | x in OwnLive(book, m0.pid)
      ensures x in Abandonable(m0, ts, load)
    {
      OwnIsListed(m0, ts, load, book, x);
    }
  }

  lemma OwnIsListed(m0: Mem, ts: seq<Task>, load: Clock, book: map<TaskID, Task>, x: TaskID)
    requires Retains(m0, map[]) && m0.entries == map[] && Holds(RestoreAll(m0, ts, load), book)
    requires x in OwnLive(book, m0.pid)
    ensures x in Abandonable(m0, ts, load)
  {
    RetainsParts(m0, map[]);
    hide Retains, MemValid, TaskIDs.IsValid;
    RestoreAllLoads(m0, ts, load, x);
  }

  lemma NewestOfPart(kept: set<TaskID>, ever: map<TaskID, Time>, part: map<TaskID, Time>, k: nat)
    requires IsNewest(kept, ever, k) && kept <= part.Keys <= ever.Keys && forall x :: x in part ==> part[x] == ever[x]
    ensures IsNewest(kept, part, k)
  {
    assert |part.Keys| == |part| && |ever.Keys| == |ever|;
    SubsetSize(kept, part.Keys);
    SubsetSize(part.Keys, ever.Keys);
    if |ever| <= k {
      SameSize(kept, ever.Keys);
    }
  }

  lemma HoldsNewestOf(m: Mem, book: map<TaskID, Task>)
    requires Holds(m, book)
    ensures IsNewest(Terminals(m.entries), Times(book), m.maxRet)
  {
    hide TaskIDs.IsValid;
    HeldAreNewest(m.heap, Times(book), m.maxRet);
  }

  ghost predicate PartOf(part: map<TaskID, Task>, book: map<TaskID, Task>) {
    forall x :: x in part ==> x in book && book[x] == part[x]
  }

  lemma SameTerminals(a: Mem, b: Mem, book: map<TaskID, Task>, part: map<TaskID, Task>)
    requires Holds(a, book) && Holds(b, part) && a.maxRet == b.maxRet && DistinctTimes(Times(book))
    requires a.entries.Keys <= part.Keys && PartOf(part, book)
    ensures Terminals(a.entries) == Terminals(b.entries)
  {
    hide Holds, IsNewest, Terminals, Times, PartOf;
    HoldsNewestOf(a, book);
    HoldsNewestOf(b, part);
    TerminalsInPart(a, book, part);
    NewestOfPart(Terminals(a.entries), Times(book), Times(part), a.maxRet);
    NewestIsUnique(Terminals(a.entries), Terminals(b.entries), Times(part), a.maxRet);
  }

  /** Two stores that hold two books, the second a part of the first that covers the first store. */
  lemma SameMemory(a: Mem, b: Mem, book: map<TaskID, Task>, part: map<TaskID, Task>)
    requires Holds(a, book) && Holds(b, part) && a.maxRet == b.maxRet && DistinctTimes(Times(book))
    requires a.entries.Keys <= part.Keys && PartOf(part, book)
    ensures a.entries == b.entries
  {
    hide *;
    SameTerminals(a, b, book, part);
    forall x
      ensures x in a.entries <==> x in b.entries
      ensures x in a.entries && x in b.entries ==> a.entries[x] == b.entries[x]
    {
      SameRecord(a, b, book, part, x);
    }
  }

  lemma SameRecord(a: Mem, b: Mem, book: map<TaskID, Task>, part: map<TaskID, Task>, x: TaskID)
    requires Holds(a, book) && Holds(b, part) && Terminals(a.entries) == Terminals(b.entries)
    requires a.entries.Keys <= part.Keys && PartOf(part, book)
    ensures x in a.entries <==> x in b.entries
    ensures x in a.entries && x in b.entries ==> a.entries[x] == b.entries[x]
  {
    hide Retains, TaskIDs.IsValid;
    assert x in Terminals(a.entries) <==> x in Terminals(b.entries);
  }

  lemma TerminalsInPart(a: Mem, book: map<TaskID, Task>, part: map<TaskID, Task>)
    requires Holds(a, book) && a.entries.Keys <= part.Keys && PartOf(part, book)
    ensures Terminals(a.entries) <= Times(part).Keys <= Times(book).Keys
    ensures forall x :: x in Times(part) ==> Times(part)[x] == Times(book)[x]
  {
    hide Retains, TaskIDs.IsValid;
  }

  lemma NothingToAbandon(book: map<TaskID, Task>, pid: int, clock: Clock, part: map<TaskID, Task>)
    requires PartOf(part, Recovered(book, OwnLive(book, pid), clock))
    ensures OwnLive(part, pid) == {}
  {
    var final := Recovered(book, OwnLive(book, pid), clock);
    forall x | x in part
      ensures x !in OwnLive(part, pid)
    {
      assert final[x] == part[x];
      assert x in OwnLive(book, pid) ==> part[x].state == Abandoned;
    }
  }

  /** Restart is idempotent: replaying the directory that a replay left, under the same pid and
      configuration, in any listing order and with any clocks, gives the same tasks in memory and
      leaves the directory alone. */
  lemma RestartIsIdempotent(m0: Mem, disk: Disk, ok: Health, listing: seq<string>, load: Clock, abandon: Clock,
                            listing2: seq<string>, load2: Clock, abandon2: Clock)
    requires Retains(m0, map[]) && m0.entries == map[] && !m0.closed && Healthy(ok)
    requires FilesNamed(disk.files) && IsListing(disk.files, listing)
    requires var book := Loadables(disk.files);
             var final := Recovered(book, OwnLive(book, m0.pid), abandon);
             AllStamped(book) && AllStamped(final) && DistinctTimes(Times(final))
    requires IsListing(NewDisk(m0, disk, ok, listing, load, abandon).disk.files, listing2)
    ensures var first := NewDisk(m0, disk, ok, listing, load, abandon);
            var second := NewDisk(m0, first.disk, ok, listing2, load2, abandon2);
            second.mem.entries == first.mem.entries && second.disk == first.disk
  {
    var book := Loadables(disk.files);
    var final := Recovered(book, OwnLive(book, m0.pid), abandon);
    var first := NewDisk(m0, disk, ok, listing, load, abandon);
    var second := NewDisk(m0, first.disk, ok, listing2, load2, abandon2);
    var book2 := Loadables(first.disk.files);
    hide *;
    StartHolds(m0, disk, ok, listing, load, abandon);
    FilesHoldParts(first.disk.files, final, first.mem.entries.Keys);
    StartHolds(m0, first.disk, ok, listing2, load2, abandon2);
    NothingToAbandon(book, m0.pid, abandon, book2);
    RecoveredNone(book2, abandon2);
    SameMemory(first.mem, second.mem, final, book2);
    DiskUntouched(m0, first.disk, ok, listing2, load2, abandon2);
  }

  lemma FilesHoldParts(files: map<string, Task>, book: map<TaskID, Task>, held: set<TaskID>)
    requires FilesHold(files, book, held) && AllStamped(book)
    ensures FilesNamed(files) && AllStamped(Loadables(files)) && held <= Loadables(files).Keys
    ensures PartOf(Loadables(files), book)
  {
    hide FilesNamed, Loadables;
  }

  lemma DiskUntouched(m0: Mem, disk: Disk, ok: Health, listing: seq<string>, load: Clock, abandon: Clock)
    requires FilesNamed(disk.files) && IsListing(disk.files, listing) && OwnLive(Loadables(disk.files), m0.pid) == {}
    ensures NewDisk(m0, disk, ok, listing, load, abandon).disk == disk
  {
    var ts := ReadAll(disk.files, listing);
    NewDiskIs(m0, disk, ok, listing, load, abandon);
    ReadOnce(disk.files, listing);
    AbandonableSound(m0, ts, load, Loadables(disk.files));
    hide Abandonable, ReadAll, Loadables, OwnLive, FilesNamed, IsListing;
    FirstIsIn(Abandonable(m0, ts, load));
  }

  lemma FirstIsIn<T>(s: seq<T>)
    ensures s == [] || s[0] in s
  {
  }
}
