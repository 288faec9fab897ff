/** CreateSnapshot and ListSnapshots over a filesystem that can lose power at any step. */
module Snapshots {
  import opened Basics
  import opened SnapshotDisk

  const RECORD := "metadata.json"
  const ROOTFS := "rootfs"

  function Temporary(id: string): string { ".tmp-" + id }

  /** newSnapshotID, with the random part as it comes: it may come twice. */
  function SnapshotID(random: string): string { "snap-" + random }

  predicate Hidden(name: string) { name != "" && name[0] == '.' }

  // ------------------------------------------------------------------
  // Steps
  // ------------------------------------------------------------------

  /** The states that a call goes through after the first, and whether it succeeds. */
  datatype Steps = Steps(trace: seq<Fs>, ok: bool)

  function End(fs: Fs, trace: seq<Fs>): Fs {
    if trace == [] then fs else trace[|trace| - 1]
  }

  function AndThen(a: Steps, b: Steps): Steps { Steps(a.trace + b.trace, b.ok) }

  function VmNames(fs: Fs): Names { if fs.vm.Some? then Live(fs.vm.value.dir) else map[] }

  function ChangeVm(fs: Fs, op: DirOp): Fs {
    if fs.vm.None? then fs else fs.(vm := Some(fs.vm.value.(dir := fs.vm.value.dir.Add(op))))
  }

  function SubNames(fs: Fs, t: Inode): Names { if t in fs.subs then Live(fs.subs[t]) else map[] }

  function ChangeSub(fs: Fs, t: Inode, op: DirOp): Fs {
    if t in fs.subs then fs.(subs := fs.subs[t := fs.subs[t].Add(op)]) else fs
  }

  function SetFile(fs: Fs, f: Inode, file: File): Fs { fs.(files := fs.files[f := file]) }

  function MakeHome(fs: Fs): seq<Fs> {
    if fs.vm.Some? then [] else [fs.(vm := Some(VmDir(EMPTY_DIR, false)))]
  }

  function MakeSub(fs: Fs, id: string): seq<Fs> {
    if Temporary(id) in VmNames(fs) then []
    else [ChangeVm(fs.(subs := fs.subs[fs.next := EMPTY_DIR], next := fs.next + 1), Link(Temporary(id), fs.next))]
  }

  /** MkdirAll of the temporary directory. What exists already is fine. */
  function MakeTemporary(fs: Fs, id: string): Steps {
    AndThen(Steps(MakeHome(fs), true), Steps(MakeSub(End(fs, MakeHome(fs)), id), true))
  }

  /** A new file with some bytes, under its name. */
  function Made(fs: Fs, t: Inode, name: string, torn: nat): Fs {
    ChangeSub(SetFile(fs, fs.next, File(Torn(torn), false)).(next := fs.next + 1), t, Link(name, fs.next))
  }

  datatype WriteOutcome = Written | NotSynced | Removed

  /** A new file: made, filled, made durable. Removed: it fails, and the file goes again. */
  function WriteNew(fs: Fs, t: Inode, name: string, content: Content, torn: nat, o: WriteOutcome): Steps {
    if t !in fs.subs || name in SubNames(fs, t) then Steps([], false)
    else
      var f, made := fs.next, Made(fs, t, name, torn);
      var full := SetFile(made, f, File(content, false));
      match o
      case Written => Steps([made, full, SetFile(full, f, File(content, true))], true)
      case NotSynced => Steps([made, full], false)
      case Removed => Steps([made, ChangeSub(made, t, Unlink(name))], false)
  }

  /** CloneOk and so on: how cloneFile goes, and copyFile when there is no reflink. */
  datatype CopyOutcome = CloneOk | CloneError(o: WriteOutcome) | NoReflink(copy: WriteOutcome)

  function CopyRootfs(fs: Fs, t: Inode, time: nat, torn: nat, o: CopyOutcome): Steps {
    match o
    case CloneOk => WriteNew(fs, t, ROOTFS, Rootfs(time), torn, Written)
    case CloneError(w) => WriteNew(fs, t, ROOTFS, Rootfs(time), torn, if w == Written then NotSynced else w)
    case NoReflink(w) =>
      var clone := WriteNew(fs, t, ROOTFS, Rootfs(time), torn, Removed);
      // A destination that exists is another error, and nothing is copied.
      if clone.trace == [] then clone
      else AndThen(clone, WriteNew(End(fs, clone.trace), t, ROOTFS, Rootfs(time), torn, w))
  }

  /** The end of writeFileAtomic: the new file takes its name, or it goes. */
  function RenameRecord(fs: Fs, t: Inode, temp: string, g: Inode, ok: bool): Steps {
    if ok then Steps([ChangeSub(fs, t, Move(temp, RECORD, g))], true)
    else Steps([ChangeSub(fs, t, Unlink(temp))], false)
  }

  /** writeFileAtomic. suffix is what CreateTemp found free. */
  function SaveRecord(fs: Fs, t: Inode, id: string, suffix: string, torn: nat, o: WriteOutcome, rename: bool): Steps {
    var temp := RECORD + "-" + suffix;
    var write := WriteNew(fs, t, temp, Record(id), torn, o);
    if write.trace == [] || o == Removed then write
    else AndThen(write, RenameRecord(End(fs, write.trace), t, temp, fs.next, write.ok && rename))
  }

  function FsyncSub(fs: Fs, t: Inode, ok: bool): Steps {
    if !ok || t !in fs.subs then Steps([], false)
    else Steps([fs.(subs := fs.subs[t := Dir(Live(fs.subs[t]), [])])], true)
  }

  /** os.Rename of a directory: the target may be missing, or an empty directory. */
  predicate CanRename(fs: Fs, id: string) {
    id in VmNames(fs) ==> VmNames(fs)[id] in fs.subs && SubNames(fs, VmNames(fs)[id]) == map[]
  }

  function Rename(fs: Fs, id: string, ok: bool): Steps {
    if !ok || Temporary(id) !in VmNames(fs) || !CanRename(fs, id) then Steps([], false)
    else Steps([ChangeVm(fs, Move(Temporary(id), id, VmNames(fs)[Temporary(id)]))], true)
  }

  function FsyncVm(fs: Fs, ok: bool): Steps {
    if !ok || fs.vm.None? then Steps([], false)
    else Steps([fs.(vm := Some(fs.vm.value.(dir := Dir(Live(fs.vm.value.dir), []))))], true)
  }

  /** The files that the cleanup removes, one by one, and whether it gets to the directory. */
  function RemoveFiles(fs: Fs, t: Inode, names: seq<string>): seq<Fs>
    decreases |names|
  {
    if names == [] then []
    else
      var fs1 := ChangeSub(fs, t, Unlink(names[0]));
      [fs1] + RemoveFiles(fs1, t, names[1..])
  }

  function RemoveTemporary(fs: Fs, id: string, names: seq<string>, whole: bool): seq<Fs> {
    if Temporary(id) !in VmNames(fs) then []
    else
      var removed := RemoveFiles(fs, VmNames(fs)[Temporary(id)], names);
      var last := End(fs, removed);
      removed
      + if whole && SubNames(last, VmNames(fs)[Temporary(id)]) == map[] then [ChangeVm(last, Unlink(Temporary(id)))]
        else []
  }

  /** How the calls inside one CreateSnapshot go. time is when the rootfs is copied. */
  datatype Outcome = Outcome(
    mkdir: bool, time: nat, torn: nat, copy: CopyOutcome, stat: bool, suffix: string, record: WriteOutcome,
    renameRecord: bool, syncSub: bool, rename: bool, syncVm: bool, cleanup: seq<string>, cleaned: bool)

  /** copyRootfs and saveSnapshot, up to the fsync of the temporary directory. */
  function Fill(fs: Fs, t: Inode, id: string, o: Outcome): Steps {
    var copy := CopyRootfs(fs, t, o.time, o.torn, o.copy);
    if !copy.ok || !o.stat then Steps(copy.trace, false)
    else
      var save := AndThen(copy, SaveRecord(End(fs, copy.trace), t, id, o.suffix, o.torn, o.record, o.renameRecord));
      if !save.ok then save
      else AndThen(save, FsyncSub(End(fs, save.trace), t, o.syncSub))
  }

  /** The rename to the final name, and the fsync of the directory of the VM. */
  function Publish(fs: Fs, id: string, o: Outcome): Steps {
    var move := Rename(fs, id, o.rename);
    if !move.ok then move else AndThen(move, FsyncVm(End(fs, move.trace), o.syncVm))
  }

  function Attempt(fs: Fs, id: string, o: Outcome): Steps {
    if Temporary(id) !in VmNames(fs) then Steps([], false)
    else
      var fill := Fill(fs, VmNames(fs)[Temporary(id)], id, o);
      if !fill.ok then fill else AndThen(fill, Publish(End(fs, fill.trace), id, o))
  }

  /** CreateSnapshot: the cleanup is deferred, so it runs whatever happens after MkdirAll. */
  function CreateSnapshot(fs: Fs, id: string, o: Outcome): Steps {
    if !o.mkdir then Steps([], false)
    else
      var made := MakeTemporary(fs, id);
      var body := AndThen(made, Attempt(End(fs, made.trace), id, o));
      Steps(body.trace + RemoveTemporary(End(fs, body.trace), id, o.cleanup, o.cleaned), body.ok)
  }

  // ------------------------------------------------------------------
  // What is listed
  // ------------------------------------------------------------------

  /** ListSnapshots takes this name for a snapshot. */
  predicate Listed(fs: Fs, name: string) {
    && name in VmNames(fs) && !Hidden(name)
    && var names := SubNames(fs, VmNames(fs)[name]);
       RECORD in names && names[RECORD] in fs.files && fs.files[names[RECORD]].content.Record?
  }

  /** The names that are taken, in the order of the directory. */
  function ListedNames(fs: Fs, names: seq<string>): seq<string>
    decreases |names|
  {
    if names == [] then []
    else
      var last := names[|names| - 1];
      ListedNames(fs, names[..|names| - 1]) + if Listed(fs, last) then [last] else []
  }

  /** A snapshot whose files, names and contents no power loss can touch. */
  predicate Sealed(fs: Fs, t: Inode, id: string) {
    && t in fs.subs && fs.subs[t].pending == []
    && var names := fs.subs[t].durable;
       && ROOTFS in names && names[ROOTFS] in fs.files
       && fs.files[names[ROOTFS]].content.Rootfs? && fs.files[names[ROOTFS]].synced
       && RECORD in names && names[RECORD] in fs.files
       && fs.files[names[RECORD]] == File(Record(id), true)
  }
}
