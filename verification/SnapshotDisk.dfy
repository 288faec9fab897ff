/**
 The part of the filesystem that holds the snapshots of one VM, with what is durable and
 what a power loss can still undo.
 */
module SnapshotDisk {
  import opened Basics

  type Inode = nat

  /** Changes of a directory. Each is atomic; a rename is one change. */
  datatype DirOp =
    | Link(name: string, inode: Inode)
    | Unlink(name: string)
    | Move(src: string, dst: string, inode: Inode)

  type Names = map<string, Inode>

  function Apply(m: Names, op: DirOp): Names {
    match op
    case Link(n, i) => m[n := i]
    case Unlink(n) => m - {n}
    case Move(s, d, i) => (m - {s})[d := i]
  }

  /** The names of a directory on disk, and the changes since its last fsync. */
  datatype Dir = Dir(durable: Names, pending: seq<DirOp>) {
    function Add(op: DirOp): Dir { Dir(durable, pending + [op]) }
  }

  const EMPTY_DIR := Dir(map[], [])

  /** The directory if only the marked changes reach the disk, in their order. */
  function Kept(m: Names, ops: seq<DirOp>, keep: seq<bool>): Names
    requires |keep| == |ops|
    decreases |ops|
  {
    if ops == [] then m
    else
      var n := |ops| - 1;
      var before := Kept(m, ops[..n], keep[..n]);
      if keep[n] then Apply(before, ops[n]) else before
  }

  function All(n: nat): seq<bool> { seq(n, _ => true) }

  /** What a process sees. */
  function Live(d: Dir): Names { Kept(d.durable, d.pending, All(|d.pending|)) }

  /** What a power loss can leave: any of the changes may be missing. */
  ghost predicate CanBe(d: Dir, m: Names) {
    exists keep: seq<bool> :: |keep| == |d.pending| && m == Kept(d.durable, d.pending, keep)
  }

  lemma LiveCanBe(d: Dir)
    ensures CanBe(d, Live(d))
  {
  }

  lemma LiveAdd(d: Dir, op: DirOp)
    ensures Live(d.Add(op)) == Apply(Live(d), op)
  {
    var n := |d.pending|;
    assert (d.pending + [op])[..n] == d.pending && All(n + 1)[..n] == All(n);
  }

  /** One more change makes every possibility one of two. */
  lemma CanBeAdd(d: Dir, op: DirOp, m: Names)
    requires CanBe(d.Add(op), m)
    ensures CanBe(d, m) || exists m0 :: CanBe(d, m0) && m == Apply(m0, op)
  {
    var n := |d.pending|;
    var keep: seq<bool> :| |keep| == n + 1 && m == Kept(d.durable, d.pending + [op], keep);
    assert (d.pending + [op])[..n] == d.pending;
    assert CanBe(d, Kept(d.durable, d.pending, keep[..n]));
  }

  lemma CanBeSynced(names: Names, m: Names)
    ensures CanBe(Dir(names, []), m) <==> m == names
    ensures Live(Dir(names, [])) == names
  {
  }

  /** The bytes of a rootfs as it was at one time, a record, or anything else. */
  datatype Content = Rootfs(time: nat) | Record(id: string) | Torn(bytes: nat)

  /** synced: a power loss leaves the content as it is. */
  datatype File = File(content: Content, synced: bool)

  /** The directory of the VM. linked: its own entry, one level up, is durable. */
  datatype VmDir = VmDir(dir: Dir, linked: bool)

  /** subs are the directories inside that of the VM; new inodes are numbered from next. */
  datatype Fs = Fs(vm: Option<VmDir>, subs: map<Inode, Dir>, files: map<Inode, File>, next: Inode)

  /** A power loss and a reboot can turn the one into the other. */
  ghost predicate Lost(fs: Fs, fs': Fs) {
    && (match fs.vm
        case None => fs'.vm.None?
        case Some(v) =>
          || (!v.linked && fs'.vm.None?)
          || (fs'.vm.Some? && fs'.vm.value.linked && fs'.vm.value.dir.pending == []
              && CanBe(v.dir, fs'.vm.value.dir.durable)))
    && fs'.next == fs.next
    && fs'.subs.Keys == fs.subs.Keys
    && (forall t :: t in fs.subs ==> fs'.subs[t].pending == [] && CanBe(fs.subs[t], fs'.subs[t].durable))
    && fs'.files.Keys == fs.files.Keys
    && (forall f :: f in fs.files ==> fs'.files[f].synced && (fs.files[f].synced ==> fs'.files[f] == fs.files[f]))
  }
}
