/** The manifest directory behind DiskStore's two hooks (internal/taskstore/disk.go:177-261).
    Writes go through a temporary file and a rename, so a file is replaced whole or not at all. */
module Manifests {
  import opened Tasks
  import opened StoreSpec

  /** File name to parsed content, and the number of filesystem operations attempted so far. */
  datatype Disk = Disk(files: map<string, Task>, ops: nat)

  /** Whether the n-th filesystem operation succeeds: the environment's choice. */
  type Health = nat -> bool

  function FileName(id: TaskID): string {
    id + ".json"
  }

  /** Hook failures are logged and swallowed. */
  function Persist(d: Disk, ok: Health, t: Task): Disk {
    Disk(if ok(d.ops) then d.files[FileName(t.id) := t] else d.files, d.ops + 1)
  }

  function Delete(d: Disk, ok: Health, id: TaskID): Disk {
    Disk(if ok(d.ops) then d.files - {FileName(id)} else d.files, d.ops + 1)
  }

  function DeleteAll(d: Disk, ok: Health, ids: seq<TaskID>): (r: Disk)
    ensures ids == [] ==> r == d
    decreases |ids|
  {
    if ids == [] then d else DeleteAll(Delete(d, ok, ids[0]), ok, ids[1..])
  }

  /** What one store step does to the directory: evictions first, then the snapshot. */
  function AfterHooks(d: Disk, ok: Health, s: Step): Disk {
    var e := DeleteAll(d, ok, s.evicted);
    match s.written
    case None => e
    case Some(t) => Persist(e, ok, t)
  }

  lemma {:induction false} DeleteAllSnoc(d: Disk, ok: Health, ids: seq<TaskID>, id: TaskID)
    ensures DeleteAll(d, ok, ids + [id]) == Delete(DeleteAll(d, ok, ids), ok, id)
    decreases |ids|
  {
    if ids != [] {
      assert (ids + [id])[1..] == ids[1..] + [id];
      DeleteAllSnoc(Delete(d, ok, ids[0]), ok, ids[1..], id);
    }
  }

  class Directory {
    var files: map<string, Task>
    var ops: nat
    const succeeds: Health

    ghost function View(): Disk
      reads this
    {
      Disk(files, ops)
    }

    constructor (files: map<string, Task>, succeeds: Health)
      ensures this.files == files && ops == 0 && this.succeeds == succeeds
    {
      this.files := files;
      this.ops := 0;
      this.succeeds := succeeds;
    }

    /** The OnTransition hook. */
    method PersistManifest(t: Task)
      modifies this
      ensures View() == Persist(old(View()), succeeds, t)
      ensures files == if succeeds(old(ops)) then old(files)[t.id + ".json" := t] else old(files)
      ensures ops == old(ops) + 1
    {
      if succeeds(ops) {
        files := files[FileName(t.id) := t];
      }
      ops := ops + 1;
    }

    /** The OnEvict hook; a missing file counts as deleted. */
    method DeleteManifest(id: TaskID)
      modifies this
      ensures View() == Delete(old(View()), succeeds, id)
      ensures files == if succeeds(old(ops)) then old(files) - {id + ".json"} else old(files)
      ensures ops == old(ops) + 1
    {
      if succeeds(ops) {
        files := files - {FileName(id)};
      }
      ops := ops + 1;
    }
  }

  lemma FileNameInjective(a: TaskID, b: TaskID)
    ensures FileName(a) == FileName(b) ==> a == b
  {
    if FileName(a) == FileName(b) {
      assert a == FileName(a)[..|FileName(a)| - 5];
      assert b == FileName(b)[..|FileName(b)| - 5];
    }
  }
}
