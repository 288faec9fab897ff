/** The snapshot code as it runs: it changes the filesystem in place, call by call. */
module SnapshotStore {
  import opened Basics
  import opened SnapshotDisk
  import opened Snapshots
  import opened SnapshotProofs
  import opened SnapshotRuns

  class Store {
    var fs: Fs
    ghost var trace: seq<Fs>

    /** Whatever is listed, now and at every step so far, is complete and durable. */
    ghost predicate Valid()
      reads this
    {
      FsOk(fs) && TraceOk(trace)
    }

    constructor (start: Fs)
      ensures fs == start && trace == []
      ensures FsOk(start) ==> Valid()
    {
      fs, trace := start, [];
    }

    /** From this filesystem and trace, these steps have just been made. */
    ghost predicate Did(from: Fs, t: seq<Fs>, s: seq<Fs>)
      reads this
    {
      fs == End(from, s) && trace == t + s
    }

    lemma DidThen(from: Fs, t: seq<Fs>, a: seq<Fs>, b: seq<Fs>)
      requires Did(End(from, a), t + a, b)
      ensures Did(from, t, a + b)
    {
    }

    method Move(next: Fs)
      modifies this
      ensures fs == next && trace == old(trace) + [next]
    {
      fs := next;
      trace := trace + [next];
    }

    method MkdirTemporary(id: string)
      modifies this
      ensures Did(old(fs), old(trace), MakeTemporary(old(fs), id).trace)
    {
      ghost var home := MakeHome(fs);
      if fs.vm.None? {
        Move(fs.(vm := Some(VmDir(EMPTY_DIR, false))));
      }
      ghost var sub := MakeSub(fs, id);
      if Temporary(id) !in VmNames(fs) {
        Move(ChangeVm(fs.(subs := fs.subs[fs.next := EMPTY_DIR], next := fs.next + 1), Link(Temporary(id), fs.next)));
      }
      DidThen(old(fs), old(trace), home, sub);
    }

    method WriteFile(t: Inode, name: string, content: Content, torn: nat, o: WriteOutcome) returns (ok: bool)
      modifies this
      ensures var w := WriteNew(old(fs), t, name, content, torn, o); Did(old(fs), old(trace), w.trace) && ok == w.ok
    {
      if t !in fs.subs || name in SubNames(fs, t) {
        return false;
      }
      var f := fs.next;
      Move(Made(fs, t, name, torn));
      if o == Removed {
        Move(ChangeSub(fs, t, Unlink(name)));
        return false;
      }
      Move(SetFile(fs, f, File(content, false)));
      if o == NotSynced {
        return false;
      }
      Move(SetFile(fs, f, File(content, true)));
      return true;
    }

    method Copy(t: Inode, time: nat, torn: nat, o: CopyOutcome) returns (ok: bool)
      modifies this
      ensures var c := CopyRootfs(old(fs), t, time, torn, o); Did(old(fs), old(trace), c.trace) && ok == c.ok
    {
      var content := Content.Rootfs(time);
      match o {
        case CloneOk => ok := WriteFile(t, ROOTFS, content, torn, Written);
        case CloneError(w) => ok := WriteFile(t, ROOTFS, content, torn, if w == Written then NotSynced else w);
        case NoReflink(w) =>
          var taken := t !in fs.subs || ROOTFS in SubNames(fs, t);
          ghost var clone := WriteNew(fs, t, ROOTFS, content, torn, Removed);
          ok := WriteFile(t, ROOTFS, content, torn, Removed);
          if taken {
            return false;
          }
          ghost var fs1 := fs;
          ok := WriteFile(t, ROOTFS, content, torn, w);
          DidThen(old(fs), old(trace), clone.trace, WriteNew(fs1, t, ROOTFS, content, torn, w).trace);
      }
    }

    method Save(t: Inode, id: string, suffix: string, torn: nat, o: WriteOutcome, rename: bool) returns (ok: bool)
      modifies this
      ensures var s := SaveRecord(old(fs), t, id, suffix, torn, o, rename);
              Did(old(fs), old(trace), s.trace) && ok == s.ok
    {
      var temp := RECORD + "-" + suffix;
      var g := fs.next;
      if t !in fs.subs || temp in SubNames(fs, t) {
        return false;
      }
      ghost var write := WriteNew(fs, t, temp, Record(id), torn, o);
      ok := WriteFile(t, temp, Record(id), torn, o);
      if o == Removed {
        return false;
      }
      ghost var fs1 := fs;
      ok := ok && rename;
      Move(ChangeSub(fs, t, if ok then DirOp.Move(temp, RECORD, g) else Unlink(temp)));
      DidThen(old(fs), old(trace), write.trace, RenameRecord(fs1, t, temp, g, ok).trace);
    }

    method SyncSub(t: Inode, works: bool) returns (ok: bool)
      modifies this
      ensures var s := FsyncSub(old(fs), t, works); Did(old(fs), old(trace), s.trace) && ok == s.ok
    {
      if !works || t !in fs.subs {
        return false;
      }
      Move(fs.(subs := fs.subs[t := Dir(Live(fs.subs[t]), [])]));
      return true;
    }

    method PublishSnapshot(id: string, o: Outcome) returns (ok: bool)
      modifies this
      ensures var p := Publish(old(fs), id, o); Did(old(fs), old(trace), p.trace) && ok == p.ok
    {
      if !o.rename || Temporary(id) !in VmNames(fs) || !CanRename(fs, id) {
        return false;
      }
      Move(ChangeVm(fs, DirOp.Move(Temporary(id), id, VmNames(fs)[Temporary(id)])));
      if !o.syncVm || fs.vm.None? {
        return false;
      }
      Move(fs.(vm := Some(fs.vm.value.(dir := Dir(Live(fs.vm.value.dir), [])))));
      return true;
    }

    method FillTemporary(t: Inode, id: string, o: Outcome) returns (ok: bool)
      modifies this
      ensures var f := Fill(old(fs), t, id, o); Did(old(fs), old(trace), f.trace) && ok == f.ok
    {
      ghost var copy := CopyRootfs(fs, t, o.time, o.torn, o.copy);
      ok := Copy(t, o.time, o.torn, o.copy);
      if !ok || !o.stat {
        return false;
      }
      ghost var record := SaveRecord(fs, t, id, o.suffix, o.torn, o.record, o.renameRecord);
      ok := Save(t, id, o.suffix, o.torn, o.record, o.renameRecord);
      DidThen(old(fs), old(trace), copy.trace, record.trace);
      if !ok {
        return;
      }
      ghost var sync := FsyncSub(fs, t, o.syncSub);
      ok := SyncSub(t, o.syncSub);
      DidThen(old(fs), old(trace), copy.trace + record.trace, sync.trace);
    }

    /** RemoveAll: the files one by one, then the directory if nothing is left in it. */
    method RemoveAll(id: string, names: seq<string>, whole: bool)
      modifies this
      ensures Did(old(fs), old(trace), RemoveTemporary(old(fs), id, names, whole))
    {
      if Temporary(id) !in VmNames(fs) {
        return;
      }
      var t := VmNames(fs)[Temporary(id)];
      var i := 0;
      ghost var removed := [];
      while i < |names|
        invariant 0 <= i <= |names|
        invariant Did(old(fs), old(trace), removed)
        invariant removed + RemoveFiles(fs, t, names[i..]) == RemoveFiles(old(fs), t, names)
      {
        ghost var rest := RemoveFiles(fs, t, names[i..]);
        Move(ChangeSub(fs, t, Unlink(names[i])));
        removed := removed + [fs];
        i := i + 1;
        assert rest == [fs] + RemoveFiles(fs, t, names[i..]);
      }
      assert removed == RemoveFiles(old(fs), t, names);
      if whole && SubNames(fs, t) == map[] {
        Move(ChangeVm(fs, Unlink(Temporary(id))));
      }
    }

    method AttemptSnapshot(id: string, o: Outcome) returns (ok: bool)
      modifies this
      ensures var a := Attempt(old(fs), id, o); Did(old(fs), old(trace), a.trace) && ok == a.ok
    {
      if Temporary(id) !in VmNames(fs) {
        return false;
      }
      var t := VmNames(fs)[Temporary(id)];
      ghost var fill := Fill(fs, t, id, o);
      ok := FillTemporary(t, id, o);
      if ok {
        ghost var publish := Publish(fs, id, o);
        ok := PublishSnapshot(id, o);
        DidThen(old(fs), old(trace), fill.trace, publish.trace);
      }
    }

    /** The source's CreateSnapshot, under a new random id. */
    method Create(random: string, o: Outcome) returns (ok: bool)
      requires Valid()
      modifies this
      ensures var c := CreateSnapshot(old(fs), SnapshotID(random), o);
              Did(old(fs), old(trace), c.trace) && ok == c.ok
      ensures Valid()
      ensures ok ==> exists t :: Holds(fs, SnapshotID(random), t, o.time)
    {
      CreateSnapshotOk(fs, SnapshotID(random), o);
      ghost var t := SuccessFixes(fs, SnapshotID(random), o);
      ok := TakeSnapshot(SnapshotID(random), o);
    }

    method TakeSnapshot(id: string, o: Outcome) returns (ok: bool)
      modifies this
      ensures var c := CreateSnapshot(old(fs), id, o); Did(old(fs), old(trace), c.trace) && ok == c.ok
    {
      if !o.mkdir {
        return false;
      }
      ghost var made := MakeTemporary(fs, id);
      MkdirTemporary(id);
      ghost var attempt := Attempt(fs, id, o);
      ok := AttemptSnapshot(id, o);
      DidThen(old(fs), old(trace), made.trace, attempt.trace);
      ghost var cleanup := RemoveTemporary(fs, id, o.cleanup, o.cleaned);
      RemoveAll(id, o.cleanup, o.cleaned);
      DidThen(old(fs), old(trace), made.trace + attempt.trace, cleanup);
    }
  }

  /**
   ListSnapshots. names is what ReadDir returns, each name once. When the invariant holds the
   records are those of exactly the listed directories, one each, in the order of the names.
   */
  method ListSnapshots(fs: Fs, names: seq<string>) returns (records: seq<string>)
    requires forall n :: n in names <==> n in VmNames(fs)
    ensures |records| == |ListedNames(fs, names)|
    ensures FsOk(fs) ==> records == ListedNames(fs, names) && forall n :: n in records <==> Listed(fs, n)
  {
    records := [];
    for i := 0 to |names|
      invariant |records| == |ListedNames(fs, names[..i])|
      invariant FsOk(fs) ==> records == ListedNames(fs, names[..i])
      invariant FsOk(fs) ==> forall n :: n in records <==> n in names[..i] && Listed(fs, n)
    {
      assert names[..i + 1] == names[..i] + [names[i]] && names[..i + 1][..i] == names[..i];
      if Listed(fs, names[i]) {
        if FsOk(fs) {
          ListedIsSealed(fs, names[i]);
          CanBeSynced(fs.subs[VmNames(fs)[names[i]]].durable, map[]);
        }
        var entries := SubNames(fs, VmNames(fs)[names[i]]);
        records := records + [fs.files[entries[RECORD]].content.id];
      }
    }
    assert names[..|names|] == names;
  }
}
