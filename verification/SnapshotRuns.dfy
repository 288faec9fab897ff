/** Runs of CreateSnapshot with crashes and power losses, and what a success is worth. */
module SnapshotRuns {
  import opened Basics
  import opened SnapshotDisk
  import opened Snapshots
  import opened SnapshotProofs

  // ------------------------------------------------------------------
  // Power loss
  // ------------------------------------------------------------------

  lemma LostOk(fs: Fs, fs': Fs)
    requires FsOk(fs) && Lost(fs, fs')
    ensures FsOk(fs')
  {
  }

  // ------------------------------------------------------------------
  // Runs
  // ------------------------------------------------------------------

  /**
   Finished: an attempt returns. Crashed: the process dies at one of its steps. PowerCut: the
   power goes at one of them. Restart: it goes between attempts.
   */
  datatype Event =
    | Finished(random: string, o: Outcome)
    | Crashed(random: string, o: Outcome, at: nat)
    | PowerCut(random: string, o: Outcome, at: nat)
    | Restart

  ghost predicate Next(fs: Fs, e: Event, fs': Fs) {
    match e
    case Finished(r, o) => fs' == End(fs, CreateSnapshot(fs, SnapshotID(r), o).trace)
    case Crashed(r, o, at) =>
      var trace := CreateSnapshot(fs, SnapshotID(r), o).trace;
      at < |trace| && fs' == trace[at]
    case PowerCut(r, o, at) =>
      var trace := CreateSnapshot(fs, SnapshotID(r), o).trace;
      at < |trace| && Lost(trace[at], fs')
    case Restart => Lost(fs, fs')
  }

  /** From fs, these events can lead to fs'. */
  ghost predicate Run(fs: Fs, events: seq<Event>, fs': Fs)
    decreases |events|
  {
    if events == [] then fs' == fs
    else exists mid :: Next(fs, events[0], mid) && Run(mid, events[1..], fs')
  }

  lemma NextOk(fs: Fs, e: Event, fs': Fs)
    requires FsOk(fs) && Next(fs, e, fs')
    ensures FsOk(fs')
  {
    if e.Restart? {
      LostOk(fs, fs');
    } else {
      CreateSnapshotOk(fs, SnapshotID(e.random), e.o);
      if e.PowerCut? {
        LostOk(CreateSnapshot(fs, SnapshotID(e.random), e.o).trace[e.at], fs');
      }
    }
  }

  lemma {:induction false} RunOk(fs: Fs, events: seq<Event>, fs': Fs)
    requires Run(fs, events, fs') && FsOk(fs)
    ensures FsOk(fs')
    decreases |events|
  {
    if events != [] {
      var mid :| Next(fs, events[0], mid) && Run(mid, events[1..], fs');
      NextOk(fs, events[0], mid);
      RunOk(mid, events[1..], fs');
    }
  }

  /**
   After any number of attempts, each cut anywhere or not at all, every directory that is
   listed holds a complete rootfs and its own record, both durable.
   */
  lemma ListedIsComplete(fs: Fs, events: seq<Event>, fs': Fs, name: string)
    requires Run(fs, events, fs') && FsOk(fs) && Listed(fs', name)
    ensures FsOk(fs') && Sealed(fs', VmNames(fs')[name], name)
  {
    RunOk(fs, events, fs');
    ListedIsSealed(fs', name);
  }

  /** A machine without snapshots. */
  lemma NoSnapshotsOk()
    ensures FsOk(Fs(None, map[], map[], 0))
  {
  }

  // ------------------------------------------------------------------
  // Success
  // ------------------------------------------------------------------

  /** The name leads to t, whatever a power loss leaves of the directory of the VM. */
  ghost predicate Fixed(fs: Fs, id: string, t: Inode) {
    fs.vm.Some? && forall m :: CanBe(fs.vm.value.dir, m) ==> id in m && m[id] == t
  }

  ghost predicate Holds(fs: Fs, id: string, t: Inode, time: nat) { Fixed(fs, id, t) && HasCopy(fs, t, time) }

  lemma FixedIsListed(fs: Fs, id: string, t: Inode)
    requires FsOk(fs) && Fixed(fs, id, t) && !Hidden(id)
    ensures Listed(fs, id) && VmNames(fs)[id] == t && Sealed(fs, t, id) && SubNames(fs, t) != map[]
  {
  }

  lemma PublishFixes(fs: Fs, id: string, o: Outcome)
    requires fs.vm.Some? && !Hidden(id) && Publish(fs, id, o).ok
    ensures var last := End(fs, Publish(fs, id, o).trace);
            && Fixed(last, id, VmNames(fs)[Temporary(id)]) && last.subs == fs.subs && last.files == fs.files
            && Temporary(id) !in VmNames(last) && last.vm.value.linked == fs.vm.value.linked
  {
  }

  lemma AttemptFixes(fs: Fs, id: string, o: Outcome)
    requires FsOk(fs) && !Hidden(id)
    ensures var last := End(fs, Attempt(fs, id, o).trace);
            Attempt(fs, id, o).ok ==>
            && Holds(last, id, VmNames(fs)[Temporary(id)], o.time) && Temporary(id) !in VmNames(last)
            && last.vm.value.linked == fs.vm.value.linked
  {
    if Attempt(fs, id, o).ok {
      var t := VmNames(fs)[Temporary(id)];
      var fill := Fill(fs, t, id, o);
      HiddenUnpublished(fs, id);
      FillIn(fs, t, id, o);
      TraceInOk(fs, fill.trace, t);
      var fs1 := End(fs, fill.trace);
      PublishFixes(fs1, id, o);
      EndThen(fs, fill.trace, Publish(fs1, id, o).trace);
    }
  }

  lemma SuccessTrace(fs: Fs, id: string, o: Outcome)
    ensures var made := MakeTemporary(fs, id).trace; var attempt := Attempt(End(fs, made), id, o);
            CreateSnapshot(fs, id, o).ok ==>
            && attempt.ok
            && (Temporary(id) !in VmNames(End(End(fs, made), attempt.trace)) ==>
                  End(fs, CreateSnapshot(fs, id, o).trace) == End(End(fs, made), attempt.trace))
  {
    var made := MakeTemporary(fs, id).trace;
    var attempt := Attempt(End(fs, made), id, o).trace;
    EndThen(fs, made, attempt);
  }

  /** A success has made name and copy durable, in a directory that is as durable as before. */
  lemma SuccessFixes(fs: Fs, id: string, o: Outcome) returns (t: Inode)
    requires FsOk(fs) && !Hidden(id)
    ensures CreateSnapshot(fs, id, o).ok ==>
              var last := End(fs, CreateSnapshot(fs, id, o).trace);
              Holds(last, id, t, o.time) && FsOk(last) && (last.vm.value.linked <==> fs.vm.Some? && fs.vm.value.linked)
  {
    MakeTemporaryOk(fs, id);
    var fs1 := End(fs, MakeTemporary(fs, id).trace);
    t := VmNames(fs1)[Temporary(id)];
    SuccessTrace(fs, id, o);
    AttemptFixes(fs1, id, o);
    CreateSnapshotOk(fs, id, o);
    TraceEndOk(fs, CreateSnapshot(fs, id, o).trace);
  }

  /** A power loss that drops the entry of the directory of the VM, and nothing else that matters. */
  lemma DirectoryCanGo(fs: Fs) returns (fs': Fs)
    requires fs.vm.Some? && !fs.vm.value.linked
    ensures Lost(fs, fs') && fs'.vm.None?
  {
    fs' := Fs(None, map t | t in fs.subs :: Dir(Live(fs.subs[t]), []),
              map f | f in fs.files :: File(fs.files[f].content, true), fs.next);
    forall t | t in fs.subs ensures CanBe(fs.subs[t], fs'.subs[t].durable) {
      LiveCanBe(fs.subs[t]);
    }
  }

  lemma LostFixed(fs: Fs, fs': Fs, id: string, t: Inode)
    requires Lost(fs, fs') && Fixed(fs, id, t) && fs'.vm.Some?
    ensures Fixed(fs', id, t)
  {
  }

  /**
   A successful CreateSnapshot survives every power loss exactly when the entry of the
   directory of the VM was durable before it. For the first snapshot of a VM it is not.
   */
  lemma SuccessSurvives(fs: Fs, id: string, o: Outcome)
    requires FsOk(fs) && !Hidden(id)
    ensures CreateSnapshot(fs, id, o).ok ==>
              ((forall fs' :: Lost(End(fs, CreateSnapshot(fs, id, o).trace), fs') ==> Listed(fs', id))
               <==> fs.vm.Some? && fs.vm.value.linked)
  {
    var t := SuccessFixes(fs, id, o);
    if CreateSnapshot(fs, id, o).ok {
      SurvivesIfLinked(End(fs, CreateSnapshot(fs, id, o).trace), id, t);
    }
  }

  lemma SurvivesIfLinked(fs: Fs, id: string, t: Inode)
    requires FsOk(fs) && Fixed(fs, id, t) && !Hidden(id)
    ensures (forall fs' :: Lost(fs, fs') ==> Listed(fs', id)) <==> fs.vm.value.linked
  {
    if fs.vm.value.linked {
      forall fs' | Lost(fs, fs') ensures Listed(fs', id) {
        LostOk(fs, fs');
        LostFixed(fs, fs', id, t);
        FixedIsListed(fs', id, t);
      }
    } else {
      var gone := DirectoryCanGo(fs);
      assert !Listed(gone, id);
    }
  }

  // ------------------------------------------------------------------
  // Nothing undoes a success
  // ------------------------------------------------------------------

  /** The snapshot is durable all the way, in this very directory, with this copy. */
  ghost predicate Kept(fs: Fs, id: string, t: Inode, time: nat) {
    FsOk(fs) && Holds(fs, id, t, time) && fs.vm.value.linked
  }

  lemma LostHolds(fs: Fs, fs': Fs, id: string, t: Inode, time: nat)
    requires Lost(fs, fs') && Holds(fs, id, t, time) && fs'.vm.Some?
    ensures Holds(fs', id, t, time)
  {
  }

  /** A change of another name. */
  lemma ChangeFixed(fs: Fs, op: DirOp, id: string, t: Inode)
    requires Fixed(fs, id, t) && !Hidden(id)
    requires match op
             case Link(n, _) => Hidden(n)
             case Unlink(n) => Hidden(n)
             case Move(src, dst, _) => Hidden(src) && dst != id
    ensures Fixed(ChangeVm(fs, op), id, t)
  {
    var d := fs.vm.value.dir;
    forall m | CanBe(d.Add(op), m) ensures id in m && m[id] == t {
      CanBeAdd(d, op, m);
    }
  }

  ghost predicate TraceKeeps(trace: seq<Fs>, id: string, t: Inode, time: nat, linked: bool) {
    forall i :: 0 <= i < |trace| ==> Holds(trace[i], id, t, time) && trace[i].vm.value.linked == linked
  }

  lemma MakeKeeps(fs: Fs, id: string, kept: string, t: Inode, time: nat)
    requires NumbersOk(fs) && Holds(fs, kept, t, time) && !Hidden(kept)
    ensures TraceKeeps(MakeTemporary(fs, id).trace, kept, t, time, fs.vm.value.linked)
  {
    ChangeFixed(fs.(subs := fs.subs[fs.next := EMPTY_DIR], next := fs.next + 1), Link(Temporary(id), fs.next), kept, t);
  }

  lemma RenameKeeps(fs: Fs, id: string, ok: bool, kept: string, t: Inode, time: nat)
    requires FsOk(fs) && Holds(fs, kept, t, time) && !Hidden(kept)
    ensures TraceKeeps(Rename(fs, id, ok).trace, kept, t, time, fs.vm.value.linked)
  {
    FixedIsListed(fs, kept, t);
    if Rename(fs, id, ok).ok {
      assert id != kept;
      ChangeFixed(fs, Move(Temporary(id), id, VmNames(fs)[Temporary(id)]), kept, t);
    }
  }

  lemma FsyncVmKeeps(fs: Fs, ok: bool, kept: string, t: Inode, time: nat)
    requires Holds(fs, kept, t, time)
    ensures TraceKeeps(FsyncVm(fs, ok).trace, kept, t, time, fs.vm.value.linked)
  {
  }

  lemma PublishKeeps(fs: Fs, id: string, o: Outcome, kept: string, t: Inode, time: nat)
    requires FsOk(fs) && Holds(fs, kept, t, time) && !Hidden(kept)
    ensures TraceKeeps(Publish(fs, id, o).trace, kept, t, time, fs.vm.value.linked)
  {
    var move := Rename(fs, id, o.rename);
    RenameKeeps(fs, id, o.rename, kept, t, time);
    if move.ok {
      var fs1 := End(fs, move.trace);
      FsyncVmKeeps(fs1, o.syncVm, kept, t, time);
      KeepsThen(fs, move.trace, FsyncVm(fs1, o.syncVm).trace, kept, t, time, fs.vm.value.linked);
    }
  }

  lemma PublishedElsewhere(fs: Fs, s: Inode, kept: string, t: Inode)
    requires Fixed(fs, kept, t) && Unpublished(fs, s) && !Hidden(kept)
    ensures s != t
  {
    LiveCanBe(fs.vm.value.dir);
    assert kept in VmNames(fs);
  }

  lemma InsideKeeps(fs: Fs, trace: seq<Fs>, s: Inode, kept: string, t: Inode, time: nat)
    requires Holds(fs, kept, t, time) && TraceIn(fs, trace, s) && s != t
    ensures TraceKeeps(trace, kept, t, time, fs.vm.value.linked)
  {
  }

  lemma KeepsThen(fs: Fs, a: seq<Fs>, b: seq<Fs>, kept: string, t: Inode, time: nat, linked: bool)
    requires TraceKeeps(a, kept, t, time, linked) && TraceKeeps(b, kept, t, time, linked)
    ensures TraceKeeps(a + b, kept, t, time, linked) && End(fs, a + b) == End(End(fs, a), b)
  {
  }

  lemma AttemptKeeps(fs: Fs, id: string, o: Outcome, kept: string, t: Inode, time: nat)
    requires FsOk(fs) && Holds(fs, kept, t, time) && !Hidden(kept)
    ensures TraceKeeps(Attempt(fs, id, o).trace, kept, t, time, fs.vm.value.linked)
  {
    if Temporary(id) in VmNames(fs) {
      var s := VmNames(fs)[Temporary(id)];
      var fill := Fill(fs, s, id, o);
      HiddenUnpublished(fs, id);
      FillIn(fs, s, id, o);
      TraceInOk(fs, fill.trace, s);
      PublishedElsewhere(fs, s, kept, t);
      InsideKeeps(fs, fill.trace, s, kept, t, time);
      if fill.ok {
        var fs1 := End(fs, fill.trace);
        PublishKeeps(fs1, id, o, kept, t, time);
        KeepsThen(fs, fill.trace, Publish(fs1, id, o).trace, kept, t, time, fs.vm.value.linked);
      }
    }
  }

  lemma RemoveKeeps(fs: Fs, id: string, names: seq<string>, whole: bool, kept: string, t: Inode, time: nat)
    requires FsOk(fs) && Holds(fs, kept, t, time) && !Hidden(kept)
    ensures TraceKeeps(RemoveTemporary(fs, id, names, whole), kept, t, time, fs.vm.value.linked)
  {
    if Temporary(id) in VmNames(fs) {
      var s := VmNames(fs)[Temporary(id)];
      HiddenUnpublished(fs, id);
      RemoveFilesIn(fs, s, names);
      TraceInOk(fs, RemoveFiles(fs, s, names), s);
      PublishedElsewhere(fs, s, kept, t);
      InsideKeeps(fs, RemoveFiles(fs, s, names), s, kept, t, time);
      ChangeFixed(End(fs, RemoveFiles(fs, s, names)), Unlink(Temporary(id)), kept, t);
    }
  }

  lemma CreateKeeps(fs: Fs, id: string, o: Outcome, kept: string, t: Inode, time: nat)
    requires Kept(fs, kept, t, time) && !Hidden(kept) && !Hidden(id)
    ensures TraceKeeps(CreateSnapshot(fs, id, o).trace, kept, t, time, true)
  {
    if o.mkdir {
      var made := MakeTemporary(fs, id);
      MakeTemporaryOk(fs, id);
      MakeKeeps(fs, id, kept, t, time);
      var fs1 := End(fs, made.trace);
      var attempt := Attempt(fs1, id, o);
      AttemptOk(fs1, id, o);
      AttemptKeeps(fs1, id, o, kept, t, time);
      TraceThen(fs, made.trace, attempt.trace);
      KeepsThen(fs, made.trace, attempt.trace, kept, t, time, true);
      var fs2 := End(fs, made.trace + attempt.trace);
      TraceEndOk(fs, made.trace + attempt.trace);
      RemoveKeeps(fs2, id, o.cleanup, o.cleaned, kept, t, time);
      KeepsThen(fs, made.trace + attempt.trace, RemoveTemporary(fs2, id, o.cleanup, o.cleaned), kept, t, time, true);
    }
  }

  lemma NextKeeps(fs: Fs, e: Event, fs': Fs, id: string, t: Inode, time: nat)
    requires Kept(fs, id, t, time) && Next(fs, e, fs') && !Hidden(id)
    ensures Kept(fs', id, t, time)
  {
    NextOk(fs, e, fs');
    if e.Restart? {
      LostHolds(fs, fs', id, t, time);
    } else {
      CreateKeeps(fs, SnapshotID(e.random), e.o, id, t, time);
      if e.PowerCut? {
        LostHolds(CreateSnapshot(fs, SnapshotID(e.random), e.o).trace[e.at], fs', id, t, time);
      }
    }
  }

  lemma {:induction false} StaysKept(fs: Fs, events: seq<Event>, fs': Fs, id: string, t: Inode, time: nat)
    requires Run(fs, events, fs') && Kept(fs, id, t, time) && !Hidden(id)
    ensures Kept(fs', id, t, time)
    decreases |events|
  {
    if events != [] {
      var mid :| Next(fs, events[0], mid) && Run(mid, events[1..], fs');
      NextKeeps(fs, events[0], mid, id, t, time);
      StaysKept(mid, events[1..], fs', id, t, time);
    }
  }

  /**
   Once durable, a snapshot stays: after any attempts, crashes and power losses its name leads
   to the same directory, with the same copy, and it is listed.
   */
  lemma SnapshotsStay(fs: Fs, events: seq<Event>, fs': Fs, id: string, t: Inode, time: nat)
    requires Run(fs, events, fs') && Kept(fs, id, t, time) && !Hidden(id)
    ensures Listed(fs', id) && VmNames(fs')[id] == t && HasCopy(fs', t, time)
  {
    StaysKept(fs, events, fs', id, t, time);
    FixedIsListed(fs', id, t);
  }

  // ------------------------------------------------------------------
  // An attempt in which nothing fails
  // ------------------------------------------------------------------

  predicate NoFailure(o: Outcome) {
    o.mkdir && o.copy == CloneOk && o.stat && o.record == Written && o.renameRecord && o.syncSub && o.rename && o.syncVm
  }

  lemma CopyWorks(fs: Fs, t: Inode, time: nat, torn: nat)
    requires NumbersOk(fs) && t in fs.subs && SubNames(fs, t) == map[]
    ensures var c := CopyRootfs(fs, t, time, torn, CloneOk); var last := End(fs, c.trace);
            c.ok && NumbersOk(last) && t in last.subs && SubNames(last, t) == map[ROOTFS := fs.next]
  {
    WriteNewIn(fs, t, ROOTFS, Content.Rootfs(time), torn, Written);
  }

  lemma RecordWorks(fs: Fs, t: Inode, id: string, suffix: string, torn: nat)
    requires NumbersOk(fs) && t in fs.subs && SubNames(fs, t).Keys == {ROOTFS}
    ensures var r := SaveRecord(fs, t, id, suffix, torn, Written, true); r.ok && t in End(fs, r.trace).subs
  {
  }

  lemma FillWorks(fs: Fs, t: Inode, id: string, o: Outcome)
    requires NumbersOk(fs) && t in fs.subs && SubNames(fs, t) == map[] && NoFailure(o)
    ensures Fill(fs, t, id, o).ok
  {
    var copy := CopyRootfs(fs, t, o.time, o.torn, CloneOk);
    CopyWorks(fs, t, o.time, o.torn);
    var fs1 := End(fs, copy.trace);
    RecordWorks(fs1, t, id, o.suffix, o.torn);
    var record := SaveRecord(fs1, t, id, o.suffix, o.torn, Written, true);
    assert End(fs, copy.trace + record.trace) == End(fs1, record.trace);
  }

  lemma AttemptWorks(fs: Fs, id: string, o: Outcome)
    requires FsOk(fs) && NoFailure(o) && id !in VmNames(fs) && Temporary(id) in VmNames(fs)
    requires SubNames(fs, VmNames(fs)[Temporary(id)]) == map[]
    ensures Attempt(fs, id, o).ok
  {
    var t := VmNames(fs)[Temporary(id)];
    HiddenUnpublished(fs, id);
    FillWorks(fs, t, id, o);
    FillIn(fs, t, id, o);
    TraceInOk(fs, Fill(fs, t, id, o).trace, t);
  }

  lemma NewTemporary(fs: Fs, id: string)
    requires FsOk(fs) && id !in VmNames(fs) && Temporary(id) !in VmNames(fs)
    ensures var fs1 := End(fs, MakeTemporary(fs, id).trace);
            && id !in VmNames(fs1) && Temporary(id) in VmNames(fs1)
            && SubNames(fs1, VmNames(fs1)[Temporary(id)]) == map[]
  {
    var dir := if fs.vm.Some? then fs.vm.value.dir else EMPTY_DIR;
    CanBeSynced(map[], map[]);
    LiveAdd(dir, Link(Temporary(id), fs.next));
    assert Temporary(id)[0] == '.' && Hidden(Temporary(id)) && |Temporary(id)| > |id|;
  }

  /** With a new id, and no call that fails, CreateSnapshot succeeds. */
  lemma NothingFails(fs: Fs, id: string, o: Outcome)
    requires FsOk(fs) && NoFailure(o) && id !in VmNames(fs) && Temporary(id) !in VmNames(fs)
    ensures CreateSnapshot(fs, id, o).ok
  {
    MakeTemporaryOk(fs, id);
    NewTemporary(fs, id);
    AttemptWorks(End(fs, MakeTemporary(fs, id).trace), id, o);
  }

  /** What must work: the clone, or the copy where there is no reflink, and every call after it. */
  predicate AllCallsWork(o: Outcome) {
    && o.mkdir && (o.copy == CloneOk || o.copy == NoReflink(Written)) && o.stat
    && o.record == Written && o.renameRecord && o.syncSub && o.rename && o.syncVm
  }

  lemma CopyNeeds(fs: Fs, t: Inode, o: Outcome)
    ensures CopyRootfs(fs, t, o.time, o.torn, o.copy).ok ==> o.copy == CloneOk || o.copy == NoReflink(Written)
  {
  }

  lemma RecordNeeds(fs: Fs, t: Inode, id: string, o: Outcome)
    ensures SaveRecord(fs, t, id, o.suffix, o.torn, o.record, o.renameRecord).ok ==>
              o.record == Written && o.renameRecord
  {
  }

  lemma FillNeeds(fs: Fs, t: Inode, id: string, o: Outcome)
    requires Fill(fs, t, id, o).ok
    ensures (o.copy == CloneOk || o.copy == NoReflink(Written)) && o.stat
    ensures o.record == Written && o.renameRecord && o.syncSub
  {
    CopyNeeds(fs, t, o);
    RecordNeeds(End(fs, CopyRootfs(fs, t, o.time, o.torn, o.copy).trace), t, id, o);
  }

  lemma PublishNeeds(fs: Fs, id: string, o: Outcome)
    ensures Publish(fs, id, o).ok ==> o.rename && o.syncVm
  {
  }

  /** No success without all of them. */
  lemma SuccessNeeds(fs: Fs, id: string, o: Outcome)
    requires CreateSnapshot(fs, id, o).ok
    ensures AllCallsWork(o)
  {
    var fs1 := End(fs, MakeTemporary(fs, id).trace);
    var t := VmNames(fs1)[Temporary(id)];
    assert Attempt(fs1, id, o).ok && Fill(fs1, t, id, o).ok;
    FillNeeds(fs1, t, id, o);
    PublishNeeds(End(fs1, Fill(fs1, t, id, o).trace), id, o);
  }

  /** The first snapshot of a VM can be lost after its success: nothing has made its directory durable. */
  lemma FirstSnapshotCanVanish(random: string, o: Outcome) returns (after: Fs)
    requires NoFailure(o)
    ensures var fs := Fs(None, map[], map[], 0); var c := CreateSnapshot(fs, SnapshotID(random), o);
            c.ok && Lost(End(fs, c.trace), after) && !Listed(after, SnapshotID(random))
  {
    var fs := Fs(None, map[], map[], 0);
    NoSnapshotsOk();
    NothingFails(fs, SnapshotID(random), o);
    var t := SuccessFixes(fs, SnapshotID(random), o);
    after := DirectoryCanGo(End(fs, CreateSnapshot(fs, SnapshotID(random), o).trace));
  }

  // ------------------------------------------------------------------
  // The deferred cleanup
  // ------------------------------------------------------------------

  lemma {:induction false} FilesGo(fs: Fs, t: Inode, names: seq<string>)
    requires t in fs.subs
    ensures var last := End(fs, RemoveFiles(fs, t, names));
            && t in last.subs && last.vm == fs.vm && SubNames(last, t) == SubNames(fs, t) - (set n | n in names)
    decreases |names|
  {
    if names != [] {
      var fs1 := ChangeSub(fs, t, Unlink(names[0]));
      LiveAdd(fs.subs[t], Unlink(names[0]));
      FilesGo(fs1, t, names[1..]);
      EndThen(fs, [fs1], RemoveFiles(fs1, t, names[1..]));
      assert SubNames(fs1, t) == SubNames(fs, t) - {names[0]};
      assert (set n | n in names) == {names[0]} + (set n | n in names[1..]);
    }
  }

  /** The cleanup works: it gets to every file that is left, and to the directory. */
  predicate CleansUp(fs: Fs, id: string, o: Outcome)
    requires Temporary(id) in VmNames(fs)
  {
    o.cleaned && forall n :: n in SubNames(fs, VmNames(fs)[Temporary(id)]) ==> n in o.cleanup
  }

  /** The temporary directory goes exactly if the cleanup works, and no other name goes. */
  lemma TemporaryGoes(fs: Fs, id: string, o: Outcome)
    requires Temporary(id) in VmNames(fs) && VmNames(fs)[Temporary(id)] in fs.subs
    ensures var last := End(fs, RemoveTemporary(fs, id, o.cleanup, o.cleaned));
            VmNames(last) == if CleansUp(fs, id, o) then VmNames(fs) - {Temporary(id)} else VmNames(fs)
  {
    var t := VmNames(fs)[Temporary(id)];
    var removed := RemoveFiles(fs, t, o.cleanup);
    FilesGo(fs, t, o.cleanup);
    var fs1 := End(fs, removed);
    if CleansUp(fs, id, o) {
      assert SubNames(fs1, t) == map[];
      LiveAdd(fs1.vm.value.dir, Unlink(Temporary(id)));
      EndThen(fs, removed, [ChangeVm(fs1, Unlink(Temporary(id)))]);
    } else if o.cleaned {
      var n :| n in SubNames(fs, t) && n !in o.cleanup;
      assert n in SubNames(fs1, t);
    }
  }

  /** Whatever fails in an attempt, its temporary directory stays exactly if the cleanup fails. */
  lemma NoTemporaryStays(fs: Fs, id: string, o: Outcome)
    requires FsOk(fs) && o.mkdir && !Hidden(id)
    ensures var fs1 := End(fs, MakeTemporary(fs, id).trace); var fs2 := End(fs1, Attempt(fs1, id, o).trace);
            Temporary(id) in VmNames(End(fs, CreateSnapshot(fs, id, o).trace))
            <==> Temporary(id) in VmNames(fs2) && !CleansUp(fs2, id, o)
  {
    var made := MakeTemporary(fs, id).trace;
    var fs1 := End(fs, made);
    MakeTemporaryOk(fs, id);
    AttemptOk(fs1, id, o);
    var attempt := Attempt(fs1, id, o).trace;
    TraceEndOk(fs1, attempt);
    var fs2 := End(fs1, attempt);
    EndThen(fs, made, attempt);
    EndThen(fs, made + attempt, RemoveTemporary(fs2, id, o.cleanup, o.cleaned));
    if Temporary(id) in VmNames(fs2) {
      HiddenUnpublished(fs2, id);
      TemporaryGoes(fs2, id, o);
    }
  }

  /** A record that cannot be saved leaves the directory with the names it had. */
  lemma FailedSaveLeavesNothing(fs: Fs, t: Inode, id: string, suffix: string, torn: nat, o: WriteOutcome, rename: bool)
    requires !SaveRecord(fs, t, id, suffix, torn, o, rename).ok
    ensures SubNames(End(fs, SaveRecord(fs, t, id, suffix, torn, o, rename).trace), t) == SubNames(fs, t)
  {
    var temp := RECORD + "-" + suffix;
    if t in fs.subs && temp !in SubNames(fs, t) {
      var made := Made(fs, t, temp, torn);
      LiveAdd(fs.subs[t], Link(temp, fs.next));
      LiveAdd(made.subs[t], Unlink(temp));
      var write := WriteNew(fs, t, temp, Record(id), torn, o);
      var fs1 := End(fs, write.trace);
      if o != Removed {
        assert fs1.subs == made.subs;
        EndThen(fs, write.trace, RenameRecord(fs1, t, temp, fs.next, false).trace);
      }
    }
  }
}
