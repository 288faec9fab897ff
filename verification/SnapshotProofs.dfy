/** Snapshot publishing is crash consistent: at every step, over every run, after every power loss. */
module SnapshotProofs {
  import opened Basics
  import opened SnapshotDisk
  import opened Snapshots

  // ------------------------------------------------------------------
  // Invariant
  // ------------------------------------------------------------------

  /** Whatever survives, nothing but this name leads to the directory t. */
  ghost predicate OnlyAt(d: Dir, n: string, t: Inode) {
    forall m, k :: CanBe(d, m) && k in m && m[k] == t ==> k == n
  }

  ghost predicate OneName(d: Dir) {
    forall m, k, n :: CanBe(d, m) && k in m && n in m && m[k] == m[n] ==> k == n
  }

  ghost predicate NamesOk(fs: Fs, d: Dir) {
    forall m, k :: CanBe(d, m) && k in m ==> m[k] in fs.subs && (!Hidden(k) ==> Sealed(fs, m[k], k))
  }

  ghost predicate HiddenAlone(d: Dir) {
    forall k :: k in Live(d) && Hidden(k) ==> OnlyAt(d, k, Live(d)[k])
  }

  ghost predicate NumbersOk(fs: Fs) {
    && (forall t :: t in fs.subs ==> t < fs.next)
    && (forall f :: f in fs.files ==> f < fs.next)
  }

  /** Every name that could ever be listed, in any possible outcome of a power loss, is sealed. */
  ghost predicate FsOk(fs: Fs) {
    NumbersOk(fs)
    && (fs.vm.Some? ==> OneName(fs.vm.value.dir) && NamesOk(fs, fs.vm.value.dir) && HiddenAlone(fs.vm.value.dir))
  }

  ghost predicate TraceOk(trace: seq<Fs>) { forall i :: 0 <= i < |trace| ==> FsOk(trace[i]) }

  lemma TraceThen(fs: Fs, a: seq<Fs>, b: seq<Fs>)
    requires TraceOk(a) && TraceOk(b)
    ensures TraceOk(a + b) && End(fs, a + b) == End(End(fs, a), b)
  {
  }

  lemma EndThen(fs: Fs, a: seq<Fs>, b: seq<Fs>)
    ensures End(fs, a + b) == End(End(fs, a), b)
  {
  }

  /** What is listed is complete and durable, and its record names it. */
  lemma ListedIsSealed(fs: Fs, name: string)
    requires FsOk(fs) && Listed(fs, name)
    ensures Sealed(fs, VmNames(fs)[name], name)
  {
  }

  // ------------------------------------------------------------------
  // Work inside one unpublished directory
  // ------------------------------------------------------------------

  /** Nothing changes but the directory t and files that are new. */
  ghost predicate OnlyIn(fs: Fs, fs': Fs, t: Inode) {
    && fs'.vm == fs.vm && fs.next <= fs'.next && NumbersOk(fs')
    && (forall s :: s in fs.subs ==> s in fs'.subs && (s != t ==> fs'.subs[s] == fs.subs[s]))
    && (forall f :: f in fs.files ==> f in fs'.files && fs'.files[f] == fs.files[f])
  }

  ghost predicate Unpublished(fs: Fs, t: Inode) {
    fs.vm.Some? ==> forall m, k :: CanBe(fs.vm.value.dir, m) && k in m && m[k] == t ==> Hidden(k)
  }

  lemma OnlyInOk(fs: Fs, fs': Fs, t: Inode)
    requires FsOk(fs) && OnlyIn(fs, fs', t) && Unpublished(fs, t)
    ensures FsOk(fs') && Unpublished(fs', t)
  {
  }

  ghost predicate TraceIn(fs: Fs, trace: seq<Fs>, t: Inode) {
    forall i :: 0 <= i < |trace| ==> OnlyIn(fs, trace[i], t)
  }

  lemma TraceInThen(fs: Fs, a: seq<Fs>, b: seq<Fs>, t: Inode)
    requires NumbersOk(fs) && TraceIn(fs, a, t) && TraceIn(End(fs, a), b, t)
    ensures TraceIn(fs, a + b, t) && End(fs, a + b) == End(End(fs, a), b) && OnlyIn(fs, End(fs, a), t)
  {
  }

  lemma ChangeSubIn(fs: Fs, t: Inode, op: DirOp)
    requires NumbersOk(fs)
    ensures OnlyIn(fs, ChangeSub(fs, t, op), t)
    ensures t in fs.subs ==> SubNames(ChangeSub(fs, t, op), t) == Apply(SubNames(fs, t), op)
  {
    if t in fs.subs {
      LiveAdd(fs.subs[t], op);
    }
  }

  lemma SetFileIn(fs: Fs, mid: Fs, file: File, t: Inode)
    requires OnlyIn(fs, mid, t) && fs.next < mid.next && NumbersOk(fs)
    ensures OnlyIn(fs, SetFile(mid, fs.next, file), t)
  {
  }

  lemma MadeIn(fs: Fs, t: Inode, name: string, torn: nat)
    requires NumbersOk(fs) && t in fs.subs
    ensures var made := Made(fs, t, name, torn);
            && OnlyIn(fs, made, t) && fs.next < made.next && NumbersOk(made) && t in made.subs
            && SubNames(made, t) == SubNames(fs, t)[name := fs.next]
  {
    var blank := SetFile(fs, fs.next, File(Torn(torn), false)).(next := fs.next + 1);
    ChangeSubIn(blank, t, Link(name, fs.next));
  }

  lemma WriteTraceIn(fs: Fs, t: Inode, name: string, content: Content, torn: nat, o: WriteOutcome)
    requires NumbersOk(fs)
    ensures TraceIn(fs, WriteNew(fs, t, name, content, torn, o).trace, t)
  {
    if t in fs.subs && name !in SubNames(fs, t) {
      var made := Made(fs, t, name, torn);
      var full := SetFile(made, fs.next, File(content, false));
      var done := SetFile(full, fs.next, File(content, true));
      var gone := ChangeSub(made, t, Unlink(name));
      WriteStatesIn(fs, t, name, content, torn);
      match o {
        case Written => TraceOfThree(fs, made, full, done, t);
        case NotSynced => TraceOfThree(fs, made, made, full, t);
        case Removed => TraceOfThree(fs, made, made, gone, t);
      }
    }
  }

  lemma TraceOfThree(fs: Fs, a: Fs, b: Fs, c: Fs, t: Inode)
    requires OnlyIn(fs, a, t) && OnlyIn(fs, b, t) && OnlyIn(fs, c, t)
    ensures TraceIn(fs, [a, b, c], t) && TraceIn(fs, [b, c], t)
  {
  }

  lemma WriteStatesIn(fs: Fs, t: Inode, name: string, content: Content, torn: nat)
    requires NumbersOk(fs) && t in fs.subs
    ensures var made := Made(fs, t, name, torn);
            var full := SetFile(made, fs.next, File(content, false));
            && OnlyIn(fs, made, t) && OnlyIn(fs, full, t) && OnlyIn(fs, SetFile(full, fs.next, File(content, true)), t)
            && OnlyIn(fs, ChangeSub(made, t, Unlink(name)), t)
  {
    MadeIn(fs, t, name, torn);
    var made := Made(fs, t, name, torn);
    SetFileIn(fs, made, File(content, false), t);
    SetFileIn(fs, SetFile(made, fs.next, File(content, false)), File(content, true), t);
    ChangeSubIn(made, t, Unlink(name));
  }

  /** A write that succeeds leaves a durable file of that content under that name. */
  lemma WriteNewIn(fs: Fs, t: Inode, name: string, content: Content, torn: nat, o: WriteOutcome)
    requires NumbersOk(fs)
    ensures var w := WriteNew(fs, t, name, content, torn, o); var last := End(fs, w.trace);
            && TraceIn(fs, w.trace, t)
            && (w.ok ==> t in last.subs && fs.next in last.files && last.files[fs.next] == File(content, true)
                         && SubNames(last, t) == SubNames(fs, t)[name := fs.next])
            && (w.trace == [] ==> !w.ok)
  {
    WriteTraceIn(fs, t, name, content, torn, o);
    if t in fs.subs && name !in SubNames(fs, t) && o == Written {
      MadeIn(fs, t, name, torn);
    }
  }

  lemma CopyRootfsIn(fs: Fs, t: Inode, time: nat, torn: nat, o: CopyOutcome)
    requires NumbersOk(fs)
    ensures var c := CopyRootfs(fs, t, time, torn, o); var last := End(fs, c.trace);
            && TraceIn(fs, c.trace, t)
            && (c.ok ==> t in last.subs && ROOTFS in SubNames(last, t) && SubNames(last, t)[ROOTFS] in last.files
                         && last.files[SubNames(last, t)[ROOTFS]] == File(Content.Rootfs(time), true))
  {
    var content := Content.Rootfs(time);
    WriteNewIn(fs, t, ROOTFS, content, torn, Written);
    WriteNewIn(fs, t, ROOTFS, content, torn, NotSynced);
    WriteNewIn(fs, t, ROOTFS, content, torn, Removed);
    if o.NoReflink? {
      var clone := WriteNew(fs, t, ROOTFS, content, torn, Removed);
      var fs1 := End(fs, clone.trace);
      if clone.trace != [] {
        WriteNewIn(fs1, t, ROOTFS, content, torn, o.copy);
        TraceInThen(fs, clone.trace, WriteNew(fs1, t, ROOTFS, content, torn, o.copy).trace, t);
      }
    }
  }

  lemma RenameRecordIn(fs: Fs, t: Inode, suffix: string, g: Inode, ok: bool)
    requires NumbersOk(fs)
    ensures var temp := RECORD + "-" + suffix; var r := RenameRecord(fs, t, temp, g, ok); var last := End(fs, r.trace);
            && TraceIn(fs, r.trace, t) && last.files == fs.files && last.subs.Keys == fs.subs.Keys
            && (r.ok && t in fs.subs ==> SubNames(last, t) == Apply(SubNames(fs, t), Move(temp, RECORD, g)))
  {
    var temp := RECORD + "-" + suffix;
    ChangeSubIn(fs, t, if ok then Move(temp, RECORD, g) else Unlink(temp));
  }

  ghost predicate HasRecord(fs: Fs, t: Inode, id: string) {
    && t in fs.subs && RECORD in SubNames(fs, t) && SubNames(fs, t)[RECORD] in fs.files
    && fs.files[SubNames(fs, t)[RECORD]] == File(Record(id), true)
  }

  /** The names of the directory when the record has been written and renamed. */
  lemma RecordMoved(names: Names, suffix: string, g: Inode)
    ensures var temp := RECORD + "-" + suffix; var after := Apply(names[temp := g], Move(temp, RECORD, g));
            && RECORD in after && after[RECORD] == g
            && (ROOTFS in names ==> ROOTFS in after && after[ROOTFS] == names[ROOTFS])
  {
    assert (RECORD + "-" + suffix)[0] == 'm' && ROOTFS[0] == 'r';
  }

  lemma SaveRecordTrace(fs: Fs, t: Inode, id: string, suffix: string, torn: nat, o: WriteOutcome, rename: bool)
    requires NumbersOk(fs)
    ensures TraceIn(fs, SaveRecord(fs, t, id, suffix, torn, o, rename).trace, t)
  {
    var temp := RECORD + "-" + suffix;
    var write := WriteNew(fs, t, temp, Record(id), torn, o);
    WriteNewIn(fs, t, temp, Record(id), torn, o);
    if write.trace != [] && o != Removed {
      var fs1 := End(fs, write.trace);
      TraceInThen(fs, write.trace, [], t);
      RenameRecordIn(fs1, t, suffix, fs.next, write.ok && rename);
      TraceInThen(fs, write.trace, RenameRecord(fs1, t, temp, fs.next, write.ok && rename).trace, t);
    }
  }

  lemma SaveRecordIn(fs: Fs, t: Inode, id: string, suffix: string, torn: nat, o: WriteOutcome, rename: bool)
    requires NumbersOk(fs)
    ensures var s := SaveRecord(fs, t, id, suffix, torn, o, rename); var last := End(fs, s.trace);
            && TraceIn(fs, s.trace, t)
            && (s.ok ==> HasRecord(last, t, id)
                         && (ROOTFS in SubNames(fs, t) ==>
                               ROOTFS in SubNames(last, t) && SubNames(last, t)[ROOTFS] == SubNames(fs, t)[ROOTFS]))
  {
    SaveRecordTrace(fs, t, id, suffix, torn, o, rename);
    if SaveRecord(fs, t, id, suffix, torn, o, rename).ok {
      var temp := RECORD + "-" + suffix;
      var write := WriteNew(fs, t, temp, Record(id), torn, o);
      WriteNewIn(fs, t, temp, Record(id), torn, o);
      var fs1 := End(fs, write.trace);
      TraceInThen(fs, write.trace, [], t);
      RenameRecordIn(fs1, t, suffix, fs.next, true);
      RecordMoved(SubNames(fs, t), suffix, fs.next);
    }
  }

  /** The rootfs in t is durable, and is the copy that was made at this time. */
  ghost predicate HasCopy(fs: Fs, t: Inode, time: nat) {
    && t in fs.subs && fs.subs[t].pending == [] && ROOTFS in fs.subs[t].durable
    && fs.subs[t].durable[ROOTFS] in fs.files
    && fs.files[fs.subs[t].durable[ROOTFS]] == File(Content.Rootfs(time), true)
  }

  lemma FsyncSubIn(fs: Fs, t: Inode, ok: bool)
    requires NumbersOk(fs)
    ensures TraceIn(fs, FsyncSub(fs, t, ok).trace, t)
    ensures FsyncSub(fs, t, ok).ok ==>
              var last := End(fs, FsyncSub(fs, t, ok).trace);
              t in last.subs && last.subs[t] == Dir(SubNames(fs, t), []) && last.files == fs.files
  {
  }

  /** A temporary directory that is filled without an error is sealed before it is published. */
  lemma FillIn(fs: Fs, t: Inode, id: string, o: Outcome)
    requires NumbersOk(fs)
    ensures var f := Fill(fs, t, id, o);
            && TraceIn(fs, f.trace, t)
            && (f.ok ==> Sealed(End(fs, f.trace), t, id) && HasCopy(End(fs, f.trace), t, o.time))
  {
    var copy := CopyRootfs(fs, t, o.time, o.torn, o.copy);
    CopyRootfsIn(fs, t, o.time, o.torn, o.copy);
    if copy.ok && o.stat {
      var fs1 := End(fs, copy.trace);
      var record := SaveRecord(fs1, t, id, o.suffix, o.torn, o.record, o.renameRecord);
      TraceInThen(fs, copy.trace, [], t);
      SaveRecordIn(fs1, t, id, o.suffix, o.torn, o.record, o.renameRecord);
      TraceInThen(fs, copy.trace, record.trace, t);
      if record.ok {
        var save := AndThen(copy, record);
        var fs2 := End(fs, save.trace);
        FillSeals(fs1, record.trace, t, id, o);
        TraceInThen(fs, save.trace, [], t);
        FsyncSubIn(fs2, t, o.syncSub);
        TraceInThen(fs, save.trace, FsyncSub(fs2, t, o.syncSub).trace, t);
      }
    }
  }

  lemma FillSeals(fs: Fs, trace: seq<Fs>, t: Inode, id: string, o: Outcome)
    requires NumbersOk(fs) && TraceIn(fs, trace, t)
    requires t in fs.subs && ROOTFS in SubNames(fs, t) && SubNames(fs, t)[ROOTFS] in fs.files
    requires fs.files[SubNames(fs, t)[ROOTFS]] == File(Content.Rootfs(o.time), true)
    requires var last := End(fs, trace);
             && HasRecord(last, t, id)
             && ROOTFS in SubNames(last, t) && SubNames(last, t)[ROOTFS] == SubNames(fs, t)[ROOTFS]
    ensures var last := End(fs, trace);
            FsyncSub(last, t, o.syncSub).ok ==>
              var done := End(last, FsyncSub(last, t, o.syncSub).trace); Sealed(done, t, id) && HasCopy(done, t, o.time)
  {
  }

  // ------------------------------------------------------------------
  // Changes of the directory of the VM
  // ------------------------------------------------------------------

  lemma HiddenUnpublished(fs: Fs, id: string)
    requires FsOk(fs) && Temporary(id) in VmNames(fs)
    ensures Unpublished(fs, VmNames(fs)[Temporary(id)])
    ensures VmNames(fs)[Temporary(id)] in fs.subs
  {
  }

  lemma NewVmOk(fs: Fs)
    requires NumbersOk(fs)
    ensures FsOk(fs.(vm := Some(VmDir(EMPTY_DIR, false))))
  {
  }

  lemma MakeSubOk(fs: Fs, id: string)
    requires FsOk(fs) && fs.vm.Some?
    ensures TraceOk(MakeSub(fs, id)) && FsOk(End(fs, MakeSub(fs, id)))
    ensures Temporary(id) in VmNames(End(fs, MakeSub(fs, id)))
  {
    if Temporary(id) !in VmNames(fs) {
      LinkOk(fs, Temporary(id));
    }
  }

  lemma MakeTemporaryOk(fs: Fs, id: string)
    requires FsOk(fs)
    ensures TraceOk(MakeTemporary(fs, id).trace) && FsOk(End(fs, MakeTemporary(fs, id).trace))
    ensures Temporary(id) in VmNames(End(fs, MakeTemporary(fs, id).trace))
  {
    NewVmOk(fs);
    var fs1 := End(fs, MakeHome(fs));
    MakeSubOk(fs1, id);
    TraceThen(fs, MakeHome(fs), MakeSub(fs1, id));
  }

  /** A new name for a new directory. */
  lemma LinkNames(d: Dir, n: string, t: Inode)
    requires OneName(d) && HiddenAlone(d) && n !in Live(d)
    requires forall m, k :: CanBe(d, m) && k in m ==> m[k] != t
    ensures var d' := d.Add(Link(n, t));
            && Live(d') == Live(d)[n := t]
            && (forall m, k :: CanBe(d', m) && k in m ==>
                  (k == n && m[k] == t) || exists m0 :: CanBe(d, m0) && k in m0 && m[k] == m0[k])
            && OneName(d') && HiddenAlone(d')
  {
    var d' := d.Add(Link(n, t));
    LiveAdd(d, Link(n, t));
    LiveCanBe(d);
    forall m | CanBe(d', m) ensures CanBe(d, m) || exists m0 :: CanBe(d, m0) && m == Apply(m0, Link(n, t)) {
      CanBeAdd(d, Link(n, t), m);
    }
    forall k | k in Live(d') && Hidden(k) ensures OnlyAt(d', k, Live(d')[k]) {
      if k != n {
        assert OnlyAt(d, k, Live(d)[k]);
      }
    }
  }

  lemma BlankOk(fs: Fs)
    requires FsOk(fs)
    ensures var blank := fs.(subs := fs.subs[fs.next := EMPTY_DIR], next := fs.next + 1);
            FsOk(blank) && Unpublished(fs, fs.next)
  {
    var blank := fs.(subs := fs.subs[fs.next := EMPTY_DIR], next := fs.next + 1);
    assert OnlyIn(fs, blank, fs.next);
    assert fs.next !in fs.subs;
    OnlyInOk(fs, blank, fs.next);
  }

  /** The new directory is in the file table already; a name is added for it. */
  lemma LinkBlankOk(fs: Fs, n: string, t: Inode)
    requires FsOk(fs) && fs.vm.Some? && Hidden(n) && n !in VmNames(fs) && t in fs.subs
    requires forall m, k :: CanBe(fs.vm.value.dir, m) && k in m ==> m[k] != t
    ensures FsOk(ChangeVm(fs, Link(n, t))) && n in VmNames(ChangeVm(fs, Link(n, t)))
  {
    var d := fs.vm.value.dir;
    var fs' := ChangeVm(fs, Link(n, t));
    LinkNames(d, n, t);
    forall m, k | CanBe(d.Add(Link(n, t)), m) && k in m
      ensures m[k] in fs'.subs && (!Hidden(k) ==> Sealed(fs', m[k], k))
    {
      if k != n || m[k] != t {
        var m0 :| CanBe(d, m0) && k in m0 && m[k] == m0[k];
        assert m0[k] in fs.subs && (!Hidden(k) ==> Sealed(fs, m0[k], k));
      }
    }
  }

  lemma LinkOk(fs: Fs, n: string)
    requires FsOk(fs) && fs.vm.Some? && Hidden(n) && n !in VmNames(fs)
    ensures var fs' := ChangeVm(fs.(subs := fs.subs[fs.next := EMPTY_DIR], next := fs.next + 1), Link(n, fs.next));
            FsOk(fs') && n in VmNames(fs')
  {
    var d := fs.vm.value.dir;
    forall m, k | CanBe(d, m) && k in m ensures m[k] != fs.next {
      assert m[k] in fs.subs;
    }
    BlankOk(fs);
    LinkBlankOk(fs.(subs := fs.subs[fs.next := EMPTY_DIR], next := fs.next + 1), n, fs.next);
  }

  lemma UnlinkOk(fs: Fs, n: string)
    requires FsOk(fs) && fs.vm.Some?
    ensures FsOk(ChangeVm(fs, Unlink(n)))
  {
    var d := fs.vm.value.dir;
    var d' := d.Add(Unlink(n));
    LiveAdd(d, Unlink(n));
    forall m | CanBe(d', m) ensures CanBe(d, m) || exists m0 :: CanBe(d, m0) && m == Apply(m0, Unlink(n)) {
      CanBeAdd(d, Unlink(n), m);
    }
    assert OneName(d');
    assert NamesOk(ChangeVm(fs, Unlink(n)), d');
  }

  /** A directory that is only at src, at any power loss, is then only at src or only at dst. */
  lemma MoveNames(d: Dir, src: string, dst: string, t: Inode)
    requires OneName(d) && HiddenAlone(d) && src in Live(d) && Live(d)[src] == t && Hidden(src) && !Hidden(dst)
    ensures var d' := d.Add(Move(src, dst, t));
            && Live(d') == Apply(Live(d), Move(src, dst, t))
            && (forall m, k :: CanBe(d', m) && k in m ==>
                  (k == dst && m[k] == t) || exists m0 :: CanBe(d, m0) && k in m0 && m[k] == m0[k])
            && OneName(d')
  {
    var d' := d.Add(Move(src, dst, t));
    LiveAdd(d, Move(src, dst, t));
    assert OnlyAt(d, src, t);
    forall m | CanBe(d', m) ensures CanBe(d, m) || exists m0 :: CanBe(d, m0) && m == Apply(m0, Move(src, dst, t)) {
      CanBeAdd(d, Move(src, dst, t), m);
    }
  }

  lemma MoveHidden(d: Dir, src: string, dst: string, t: Inode)
    requires OneName(d) && HiddenAlone(d) && src in Live(d) && Live(d)[src] == t && Hidden(src) && !Hidden(dst)
    ensures HiddenAlone(d.Add(Move(src, dst, t)))
  {
    var d' := d.Add(Move(src, dst, t));
    LiveCanBe(d);
    MoveNames(d, src, dst, t);
    forall k | k in Live(d') && Hidden(k) ensures OnlyAt(d', k, Live(d')[k]) {
      assert k in Live(d) && Live(d')[k] == Live(d)[k] && Live(d)[k] != t;
      assert OnlyAt(d, k, Live(d)[k]);
    }
  }

  /** Publishing a sealed directory keeps the invariant, whatever part of it survives. */
  lemma MoveOk(fs: Fs, src: string, dst: string)
    requires FsOk(fs) && src in VmNames(fs) && Hidden(src) && !Hidden(dst) && Sealed(fs, VmNames(fs)[src], dst)
    ensures FsOk(ChangeVm(fs, Move(src, dst, VmNames(fs)[src])))
  {
    var d, t := fs.vm.value.dir, VmNames(fs)[src];
    var fs' := ChangeVm(fs, Move(src, dst, t));
    MoveNames(d, src, dst, t);
    MoveHidden(d, src, dst, t);
    forall m, k | CanBe(d.Add(Move(src, dst, t)), m) && k in m
      ensures m[k] in fs'.subs && (!Hidden(k) ==> Sealed(fs', m[k], k))
    {
      if k != dst || m[k] != t {
        var m0 :| CanBe(d, m0) && k in m0 && m[k] == m0[k];
        assert m0[k] in fs.subs;
      }
    }
  }

  lemma FsyncVmOk(fs: Fs, ok: bool)
    requires FsOk(fs)
    ensures TraceOk(FsyncVm(fs, ok).trace) && FsOk(End(fs, FsyncVm(fs, ok).trace))
  {
  }

  lemma RemoveFilesIn(fs: Fs, t: Inode, names: seq<string>)
    requires NumbersOk(fs)
    ensures TraceIn(fs, RemoveFiles(fs, t, names), t)
    decreases |names|
  {
    if names != [] {
      var fs1 := ChangeSub(fs, t, Unlink(names[0]));
      ChangeSubIn(fs, t, Unlink(names[0]));
      RemoveFilesIn(fs1, t, names[1..]);
      TraceInThen(fs, [fs1], RemoveFiles(fs1, t, names[1..]), t);
    }
  }

  lemma TraceInOk(fs: Fs, trace: seq<Fs>, t: Inode)
    requires FsOk(fs) && Unpublished(fs, t) && TraceIn(fs, trace, t)
    ensures TraceOk(trace) && FsOk(End(fs, trace)) && Unpublished(End(fs, trace), t) && End(fs, trace).vm == fs.vm
  {
  }

  lemma RemoveTemporaryOk(fs: Fs, id: string, names: seq<string>, whole: bool)
    requires FsOk(fs)
    ensures TraceOk(RemoveTemporary(fs, id, names, whole))
  {
    if Temporary(id) in VmNames(fs) {
      var t := VmNames(fs)[Temporary(id)];
      HiddenUnpublished(fs, id);
      RemoveFilesIn(fs, t, names);
      TraceInOk(fs, RemoveFiles(fs, t, names), t);
      UnlinkOk(End(fs, RemoveFiles(fs, t, names)), Temporary(id));
    }
  }

  // ------------------------------------------------------------------
  // CreateSnapshot
  // ------------------------------------------------------------------

  lemma PublishOk(fs: Fs, id: string, o: Outcome)
    requires FsOk(fs) && !Hidden(id)
    requires Temporary(id) in VmNames(fs) && Sealed(fs, VmNames(fs)[Temporary(id)], id)
    ensures TraceOk(Publish(fs, id, o).trace)
  {
    var move := Rename(fs, id, o.rename);
    if move.ok {
      MoveOk(fs, Temporary(id), id);
      FsyncVmOk(End(fs, move.trace), o.syncVm);
      TraceThen(fs, move.trace, FsyncVm(End(fs, move.trace), o.syncVm).trace);
    }
  }

  lemma AttemptOk(fs: Fs, id: string, o: Outcome)
    requires FsOk(fs) && !Hidden(id)
    ensures TraceOk(Attempt(fs, id, o).trace)
  {
    if Temporary(id) in VmNames(fs) {
      var t := VmNames(fs)[Temporary(id)];
      var fill := Fill(fs, t, id, o);
      HiddenUnpublished(fs, id);
      FillIn(fs, t, id, o);
      TraceInOk(fs, fill.trace, t);
      if fill.ok {
        PublishOk(End(fs, fill.trace), id, o);
        TraceThen(fs, fill.trace, Publish(End(fs, fill.trace), id, o).trace);
      }
    }
  }

  lemma TraceEndOk(fs: Fs, trace: seq<Fs>)
    requires FsOk(fs) && TraceOk(trace)
    ensures FsOk(End(fs, trace))
  {
  }

  /** At every step of every attempt, with any failure, what could be listed is sealed. */
  lemma CreateSnapshotOk(fs: Fs, id: string, o: Outcome)
    requires FsOk(fs) && !Hidden(id)
    ensures TraceOk(CreateSnapshot(fs, id, o).trace)
  {
    if o.mkdir {
      var made := MakeTemporary(fs, id);
      MakeTemporaryOk(fs, id);
      var fs1 := End(fs, made.trace);
      AttemptOk(fs1, id, o);
      TraceThen(fs, made.trace, Attempt(fs1, id, o).trace);
      var body := AndThen(made, Attempt(fs1, id, o));
      TraceEndOk(fs, body.trace);
      RemoveTemporaryOk(End(fs, body.trace), id, o.cleanup, o.cleaned);
    }
  }
}
