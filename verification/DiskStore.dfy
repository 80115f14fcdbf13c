/** NewDisk step by step, on the class (internal/taskstore/disk.go:90-171 and 263-310). */
module DiskStores {
  import opened Tasks
  import opened StoreSpec
  import opened Manifests
  import opened MemoryStores
  import opened Replay

  method ReadAllManifests(dir: Directory, listing: seq<string>) returns (parsed: seq<Task>)
    requires forall n :: n in listing ==> n in dir.files
    ensures parsed == ReadAll(dir.files, listing)
  {
    parsed := [];
    for i := 0 to |listing|
      invariant parsed + ReadAll(dir.files, listing[i..]) == ReadAll(dir.files, listing)
    {
      ReadNext(dir.files, listing, i);
      var t := dir.files[listing[i]];
      if IsRead(listing[i], t) {
        parsed := parsed + [t];
      }
    }
  }

  lemma ReadNext(files: map<string, Task>, listing: seq<string>, i: nat)
    requires i < |listing| && forall n :: n in listing ==> n in files
    ensures var rest := ReadAll(files, listing[i + 1..]);
            ReadAll(files, listing[i..]) ==
            if IsRead(listing[i], files[listing[i]]) then [files[listing[i]]] + rest else rest
  {
    hide IsRead;
    assert listing[i..][1..] == listing[i + 1..];
  }

  /** The listing comes from the file system; the clocks give the readings of each phase. */
  method NewDisk(dir: Directory, listing: seq<string>, pid: int, maxQueued: int, maxRetained: int, load: Clock,
        abandon: Clock)
    returns (s: MemoryStore)
    requires forall n :: n in listing ==> n in dir.files
    modifies dir
    ensures s.Valid() && s.disk == dir && fresh(s.Footprint())
    ensures World(s.View(), dir.View()) ==
            Replay.NewDisk(NewMem(pid, maxQueued, maxRetained), old(dir.View()), dir.succeeds, listing, load, abandon)
  {
    hide MemoryStore.Valid, MemoryStore.View, RestoreAll, Abandonable, AbandonAll, ReadAll, NewMem;
    var parsed := ReadAllManifests(dir, listing);
    s := new MemoryStore(pid, maxQueued, maxRetained, dir);
    var abandonable := LoadPhase(s, parsed, load);
    AbandonPhase(s, abandonable, abandon);
  }

  method LoadPhase(s: MemoryStore, parsed: seq<Task>, load: Clock) returns (abandonable: seq<TaskID>)
    requires s.Valid()
    modifies s.Footprint()
    ensures s.Valid() && fresh(s.Footprint() - old(s.Footprint()))
    ensures s.View() == RestoreAll(old(s.View()), parsed, load)
    ensures abandonable == Abandonable(old(s.View()), parsed, load)
  {
    hide MemoryStore.Valid, MemoryStore.View, MemoryStore.Linked, RestoreAll, Abandonable, StoreSpec.Restore,
          MemValid, IsLive;
    abandonable := [];
    ghost var m0 := s.View();
    for i := 0 to |parsed|
      invariant s.Valid() && fresh(s.Footprint() - old(s.Footprint()))
      invariant RestoreAll(s.View(), parsed[i..], load) == RestoreAll(m0, parsed, load)
      invariant abandonable + Abandonable(s.View(), parsed[i..], load) == Abandonable(m0, parsed, load)
    {
      var t := parsed[i];
      LoadNext(s.View(), parsed, i, load);
      s.SizeOfHeap();
      PidOf(s);
      InFootprint(s);
      var out := s.Restore(t, load(t.id));
      if out == Ok && t.pid == s.pid && IsLive(t.state) {
        abandonable := abandonable + [t.id];
      }
    }
    LoadDone(s.View(), load);
    assert parsed[|parsed|..] == [];
  }

  lemma PidOf(s: MemoryStore)
    ensures s.View().pid == s.pid
  {
  }

  lemma InFootprint(s: MemoryStore)
    ensures s in s.Footprint() && s.terminal in s.Footprint() && s.tasks.Values <= s.Footprint()
  {
  }

  lemma LoadNext(m: Mem, parsed: seq<Task>, i: nat, load: Clock)
    requires i < |parsed|
    ensures var t := parsed[i];
            var (r, out) := Restore(m, t, load(t.id));
            && RestoreAll(m, parsed[i..], load) == RestoreAll(r, parsed[i + 1..], load)
            && Abandonable(m, parsed[i..], load) ==
               (if out == Ok && t.pid == m.pid && IsLive(t.state) then [t.id] else []) +
                   Abandonable(r, parsed[i + 1..], load)
  {
    hide Restore, IsLive;
    assert parsed[i..][1..] == parsed[i + 1..];
  }

  lemma LoadDone(m: Mem, load: Clock)
    ensures RestoreAll(m, [], load) == m && Abandonable(m, [], load) == []
  {
  }

  method AbandonPhase(s: MemoryStore, ids: seq<TaskID>, abandon: Clock)
    requires s.Valid() && s.disk != null
    modifies s.Footprint(), s.disk
    ensures s.Valid() && fresh(s.Footprint() - old(s.Footprint()))
    ensures World(s.View(), s.disk.View())
            == AbandonAll(old(World(s.View(), s.disk.View())), s.disk.succeeds, ids, abandon)
  {
    hide MemoryStore.Valid, MemoryStore.View, MemoryStore.Linked, AbandonAll, AbandonEdit, KeepsIdentity;
    AbandonKeepsIdentity();
    ghost var w0 := World(s.View(), s.disk.View());
    for i := 0 to |ids|
      invariant s.Valid() && fresh(s.Footprint() - old(s.Footprint()))
      invariant AbandonAll(World(s.View(), s.disk.View()), s.disk.succeeds, ids[i..], abandon)
                == AbandonAll(w0, s.disk.succeeds, ids, abandon)
    {
      AbandonNext(World(s.View(), s.disk.View()), s.disk.succeeds, ids, i, abandon);
      AbandonOne(s, ids[i], abandon(ids[i]));
    }
    assert ids[|ids|..] == [];
    AbandonDone(World(s.View(), s.disk.View()), s.disk.succeeds, abandon);
  }

  method AbandonOne(s: MemoryStore, id: TaskID, now: Time)
    requires s.Valid() && s.disk != null && KeepsIdentity(AbandonEdit())
    modifies s.Footprint(), s.disk
    ensures s.Valid() && fresh(s.Footprint() - old(s.Footprint()))
    ensures var t := StoreSpec.Transition(old(s.View()), id, AbandonEdit(), now);
            World(s.View(), s.disk.View()) == World(t.mem, AfterHooks(old(s.disk.View()), s.disk.succeeds, t))
  {
    hide StoreSpec.Transition, AfterHooks;
    InFootprint(s);
    var _ := s.Transition(id, AbandonEdit(), now);
  }

  lemma AbandonNext(w: World, ok: Health, ids: seq<TaskID>, i: nat, abandon: Clock)
    requires i < |ids|
    ensures var s := StoreSpec.Transition(w.mem, ids[i], AbandonEdit(), abandon(ids[i]));
            AbandonAll(w, ok, ids[i..], abandon)
                == AbandonAll(World(s.mem, AfterHooks(w.disk, ok, s)), ok, ids[i + 1..], abandon)
  {
    hide StoreSpec.Transition, AfterHooks;
    assert ids[i..][1..] == ids[i + 1..];
  }

  lemma AbandonDone(w: World, ok: Health, abandon: Clock)
    ensures AbandonAll(w, ok, [], abandon) == w
  {
  }
}
