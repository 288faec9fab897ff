/** What a caller gets: what a success of each operation means, and when there is one. */
module LifecycleResults {
  import opened Config
  import opened Disk
  import opened Lifecycle
  import opened LifecycleClaims
  import opened LifecycleProofs

  // ------------------------------------------------------------------
  // A start ends with a guest that runs
  // ------------------------------------------------------------------

  /** Firecracker runs, and if it was off a guest was booted in it. */
  predicate Runs(was: Fc, now: Fc) { now != Off && (now == if was == Off then Booted else was) }

  lemma InitializeKeepsFc(w: World, m: Memory, o: StartOutcome)
    ensures SameFc(w, Initialize(w, m, o).trace)
  {
  }

  lemma StartVmRuns(w: World, m: Memory, o: StartOutcome)
    ensures StartVm(w, m, o).ok ==> Runs(w.fc, End(w, StartVm(w, m, o).trace).fc)
  {
    var init := if m.meta.initialized then Effect([], m, true) else Initialize(w, m, o);
    InitializeKeepsFc(w, m, o);
    if init.ok {
      EndThen(w, init.trace, BootFirecracker(End(w, init.trace), init.memory, o.boot).trace);
    }
  }

  lemma CreateKeepsFc(w: World, m: Memory, o: StartOutcome)
    ensures SameFc(w, Create(w, m, o).trace)
  {
  }

  lemma BringUpRuns(w: World, m: Memory, o: StartOutcome)
    ensures BringUp(w, m, o).ok ==> Runs(w.fc, End(w, BringUp(w, m, o).trace).fc)
  {
    var create := Create(w, m, o);
    CreateKeepsFc(w, m, o);
    if create.ok {
      var w1 := End(w, create.trace);
      var apply := ApplyPublicIPs(w1, create.memory, o.savePublic);
      ApplyPublicTame(w1, create.memory, o.savePublic);
      EndThen(w, create.trace, apply.trace);
      var w2 := End(w1, apply.trace);
      StartVmRuns(w2, apply.memory, o);
      EndThen(w, create.trace + apply.trace, StartVm(w2, apply.memory, o).trace);
    }
  }

  /** No start succeeds without a guest: Firecracker runs at the end, and is booted if it was off. */
  lemma StartRuns(w: World, m: Memory, o: StartOutcome)
    ensures Start(w, m, o).ok ==> Runs(w.fc, End(w, Start(w, m, o).trace).fc)
  {
    var wanted := SaveMetadata(w, m.(meta := m.meta.(running := true)), o.saveDesired);
    var w1 := End(w, wanted.trace);
    BringUpRuns(w1, wanted.memory, o);
    EndThen(w, wanted.trace, BringUp(w1, wanted.memory, o).trace);
  }

  /** What a start of an initialized VM needs: the namespace, tc, one save, and a boot if it is off. */
  predicate Works(fc: Fc, o: StartOutcome) { o.enter && o.tc && o.savePublic && (fc == Off ==> o.boot == BootOk) }

  lemma PublicWorks(w: World, m: Memory, save: bool)
    ensures var e := ApplyPublicIPs(w, m, save);
            e.ok == save && e.memory.meta.initialized == m.meta.initialized && e.memory.config == m.config
            && End(w, e.trace).fc == w.fc
  {
    ApplyPublicTame(w, m, save);
  }

  lemma CreateWorks(w: World, m: Memory, o: StartOutcome)
    ensures var e := Create(w, m, o);
            && e.ok == (o.enter && o.tc)
            && e.memory.meta == m.meta && e.memory.config == m.config
            && End(w, e.trace).fc == w.fc
  {
  }

  lemma StartVmWorks(w: World, m: Memory, o: StartOutcome)
    requires m.meta.initialized
    ensures StartVm(w, m, o).ok <==> (w.fc == Off ==> o.boot == BootOk)
  {
  }

  lemma BringUpWorks(w: World, m: Memory, o: StartOutcome)
    requires m.meta.initialized
    ensures BringUp(w, m, o).ok <==> Works(w.fc, o)
  {
    var create := Create(w, m, o);
    CreateWorks(w, m, o);
    if create.ok {
      var w1 := End(w, create.trace);
      var apply := ApplyPublicIPs(w1, create.memory, o.savePublic);
      PublicWorks(w1, create.memory, o.savePublic);
      EndThen(w, create.trace, apply.trace);
      StartVmWorks(End(w1, apply.trace), apply.memory, o);
    }
  }

  /** A start of an initialized VM succeeds exactly if those calls work, and then the guest runs. */
  lemma StartWorks(w: World, m: Memory, o: StartOutcome)
    requires m.meta.initialized
    ensures Start(w, m, o).ok <==> Works(w.fc, o)
    ensures Works(w.fc, o) ==> Runs(w.fc, End(w, Start(w, m, o).trace).fc)
  {
    var wanted := SaveMetadata(w, m.(meta := m.meta.(running := true)), o.saveDesired);
    BringUpWorks(End(w, wanted.trace), wanted.memory, o);
    StartRuns(w, m, o);
  }

  lemma StartVmNeeds(w: World, m: Memory, o: StartOutcome)
    requires !m.meta.initialized
    ensures StartVm(w, m, o).ok ==> OneSource(m.config) && o.source.Some? && o.saveInit
  {
  }

  lemma BringUpNeeds(w: World, m: Memory, o: StartOutcome)
    requires !m.meta.initialized
    ensures BringUp(w, m, o).ok ==>
              OneSource(m.config) && o.source.Some? && o.saveInit && o.enter && o.tc && o.savePublic
  {
    var create := Create(w, m, o);
    CreateWorks(w, m, o);
    if create.ok {
      var w1 := End(w, create.trace);
      var apply := ApplyPublicIPs(w1, create.memory, o.savePublic);
      PublicWorks(w1, create.memory, o.savePublic);
      EndThen(w, create.trace, apply.trace);
      StartVmNeeds(End(w1, apply.trace), apply.memory, o);
    }
  }

  /** A first start needs exactly one boot source, and more saves than a later one. */
  lemma FirstStartNeeds(w: World, m: Memory, o: StartOutcome)
    requires !m.meta.initialized
    ensures Start(w, m, o).ok ==>
              OneSource(m.config) && o.source.Some? && o.saveInit && o.enter && o.tc && o.savePublic
  {
    var wanted := SaveMetadata(w, m.(meta := m.meta.(running := true)), o.saveDesired);
    BringUpNeeds(End(w, wanted.trace), wanted.memory, o);
  }

  /** Where a start of an initialized VM that was off leaves Firecracker. */
  function FcAfter(o: StartOutcome): Fc {
    if !o.enter || !o.tc || !o.savePublic || o.boot == NoProcess then Off
    else if o.boot == NotConfigured then Unbooted
    else Booted
  }

  lemma BringUpEnds(w: World, m: Memory, o: StartOutcome)
    requires m.meta.initialized && w.fc == Off
    ensures var e := BringUp(w, m, o); End(w, e.trace).fc == FcAfter(o) && e.memory.meta.initialized
  {
    var create := Create(w, m, o);
    CreateWorks(w, m, o);
    if create.ok {
      var w1 := End(w, create.trace);
      var apply := ApplyPublicIPs(w1, create.memory, o.savePublic);
      PublicWorks(w1, create.memory, o.savePublic);
      EndThen(w, create.trace, apply.trace);
      var w2 := End(w1, apply.trace);
      EndThen(w, create.trace + apply.trace, StartVm(w2, apply.memory, o).trace);
    }
  }

  /** Whatever fails: Firecracker is left without a guest exactly if its configuration failed. */
  lemma StartEnds(w: World, m: Memory, o: StartOutcome)
    requires m.meta.initialized && w.fc == Off
    ensures var e := Start(w, m, o); End(w, e.trace).fc == FcAfter(o) && e.memory.meta.initialized
  {
    var wanted := SaveMetadata(w, m.(meta := m.meta.(running := true)), o.saveDesired);
    var w1 := End(w, wanted.trace);
    BringUpEnds(w1, wanted.memory, o);
    EndThen(w, wanted.trace, BringUp(w1, wanted.memory, o).trace);
  }

  /**
   So a success means a booted guest exactly if Firecracker was not running without one. A start
   whose boot failed leaves it so, and the next start answers that all is well.
   */
  lemma FailedBootThenOk(w: World, m: Memory, first: StartOutcome, second: StartOutcome)
    requires m.meta.initialized && w.fc == Off && FcAfter(first) == Unbooted && Works(Unbooted, second)
    ensures var e := Start(w, m, first); var w1 := End(w, e.trace); var f := Start(w1, e.memory, second);
            !e.ok && w1.fc == Unbooted && f.ok && End(w1, f.trace).fc == Unbooted
  {
    StartEnds(w, m, first);
    StartWorks(w, m, first);
    var e := Start(w, m, first);
    StartWorks(End(w, e.trace), e.memory, second);
  }

  /**
   A recovery boots an initialized VM exactly if its metadata loads and says running, and the calls
   of the start work. Any other it leaves off, or answers with an error for.
   */
  lemma RecoveryBoots(w: World, l: Loading, o: StartOutcome)
    requires WorldOk(w) && w.fc == Off && w.meta.initialized
    ensures var e := Recover(w, l, o);
            (e.ok && End(w, e.trace).fc == Booted) <==> l.Loaded? && w.meta.running && Works(Off, o)
    ensures !w.meta.running || l.NotLoaded? ==>
              QuietTrace(Recover(w, l, o).trace) || (l == NotLoaded(false) && Recover(w, l, o).trace == [])
  {
    var begun := NewRuntime(w, l);
    var w1 := End(w, begun.trace);
    if begun.memory.meta.running {
      StartWorks(w1, begun.memory, o);
      EndThen(w, begun.trace, Start(w1, begun.memory, o).trace);
    }
  }

  // ------------------------------------------------------------------
  // Firecracker stops before it is started again
  // ------------------------------------------------------------------

  /** A reboot stops Firecracker before anything else, and succeeds only with a guest booted anew. */
  lemma RebootStopsFirst(w: World, m: Memory, o: StartOutcome)
    ensures var e := Reboot(w, m, o);
            && e.trace != [] && e.trace[0] == w.(fc := Off)
            && (e.ok ==> End(w, e.trace).fc == Booted)
            && (m.meta.initialized ==> (e.ok <==> Works(Off, o)))
  {
    var off := w.(fc := Off);
    StartRuns(off, m, o);
    if m.meta.initialized {
      StartWorks(off, m, o);
    }
    EndThen(w, [off], Start(off, m, o).trace);
  }

  /**
   An offline snapshot of a running VM stops it first, and starts it again whether or not the
   copy worked; it succeeds exactly if both did. A VM that was off stays off.
   */
  lemma SnapshotRestarts(w: World, m: Memory, copied: bool, o: StartOutcome)
    requires Ready(w, m)
    ensures var e := CreateSnapshot(w, m, Offline(copied, o));
            if w.fc == Off then e.trace == [] && e.memory == m && e.ok == copied
            else
              && e.trace != [] && e.trace[0] == w.(fc := Off)
              && (e.ok <==> copied && Works(Off, o))
              && (Works(Off, o) ==> End(w, e.trace).fc == Booted)
              && e.memory.meta.running
  {
    if w.fc != Off {
      var off := w.(fc := Off);
      StartWorks(off, m, o);
      StartTame(off, m, o);
      EndThen(w, [off], Start(off, m, o).trace);
    }
  }

  /** With reflink the VM does not notice; an error of the clone that is no missing reflink ends it there. */
  lemma LiveSnapshotLeavesVm(w: World, m: Memory, o: CopyRootfs)
    requires !o.Offline?
    ensures CreateSnapshot(w, m, o) == Effect([], m, o.LiveClone?)
  {
  }

  // ------------------------------------------------------------------
  // The values reach config.toml and the memory
  // ------------------------------------------------------------------

  /** Refused while Firecracker runs; else the two values are stored under their names, and nothing else. */
  lemma ResizeSets(w: World, m: Memory, cpus: int, memory: int, load: bool, save: bool)
    ensures var e := Resize(w, m, cpus, memory, load, save); var last := End(w, e.trace);
            && (e.ok <==> w.fc == Off && load && save)
            && (!e.ok ==> last == w && e.memory == m)
            && (e.ok ==> && last.config.cpus == cpus && last.config.memory == memory
                         && last.config.(cpus := w.config.cpus, memory := w.config.memory) == w.config
                         && last.(config := w.config) == w
                         && e.memory.config == last.config && e.memory.(config := m.config) == m)
  {
  }

  /** What an edit asks of config.toml, and that it asks for nothing else. */
  predicate Carries(e: Edit, was: Config, now: Config) {
    match e
    case Keys(keys) => now.sshKeys == keys && now.(sshKeys := was.sshKeys) == was
    case Bandwidth => now == was
    case PublicIPs(a, b) =>
      && now.network.publicIPv4 == a && now.network.publicIPv6 == b
      && now.(network := now.network.(publicIPv4 := was.network.publicIPv4,
                                      publicIPv6 := was.network.publicIPv6)) == was
    case Rules(f) => now.firewall == f && now.(firewall := was.firewall) == was
  }

  lemma ApplyTakesConfig(w: World, m: Memory, c: Config, o: ApplyOutcome)
    ensures var e := ApplyConfig(w, m, c, o);
            && e.memory.config == c && e.memory.network == c.network && (e.ok ==> e.memory.firewall == c.firewall)
            && End(w, e.trace).config == w.config
            && (e.ok ==> o.savePublic && o.tc)
  {
    ApplyConfigTame(w, m, c, o);
  }

  lemma SavedAndApplied(w: World, m: Memory, c: Config, o: ApplyOutcome)
    ensures var e := SaveAndApply(w, m, c, o); var last := End(w, e.trace);
            && last.config == c && e.memory.config == c && e.memory.network == c.network
            && (e.ok ==> e.memory.firewall == c.firewall && o.savePublic && o.tc)
  {
    var w1 := w.(config := c);
    ApplyTakesConfig(w1, m, c, o);
    EndThen(w, [w1], ApplyConfig(w1, m, c, o).trace);
  }

  /**
   An edit that is refused changes nothing. Any other is in config.toml and in memory, under the
   names it has, although a later step may fail; after a success the firewall is taken over too.
   */
  lemma EditSets(w: World, m: Memory, e: Edit, load: bool, save: bool, o: ApplyOutcome)
    ensures var f := MutateConfig(w, m, e, load, save, o); var last := End(w, f.trace);
            if load && save && Validate(Edited(w.config, e)) then
              && Carries(e, w.config, last.config)
              && f.memory.config == last.config && f.memory.network == last.config.network
              && (f.ok ==> f.memory.firewall == last.config.firewall && o.savePublic && o.tc)
            else f == Effect([], m, false)
  {
    SavedAndApplied(w, m, Edited(w.config, e), o);
  }

  /**
   ResizeRootfs stores the limits under their names, and the size if it grew; on a success the
   disk, if there is one, is at least as long.
   */
  lemma ResizeRootfsSets(w: World, m: Memory, size: int, bandwidth: int, iops: int, o: ResizeOutcome)
    requires Ready(w, m) && Saved(w, m)
    ensures var e := ResizeRootfs(w, m, size, bandwidth, iops, o); var last := End(w, e.trace);
            e.ok ==>
              && last.config.bandwidth == bandwidth && last.config.iops == iops
              && last.config.size == (if size > w.config.size then size else w.config.size)
              && last.config.(bandwidth := w.config.bandwidth, iops := w.config.iops, size := w.config.size) == w.config
              && e.memory.config == last.config && e.memory.network == last.config.network
              && (last.rootfs.Whole? ==> last.rootfs.length >= size)
  {
    if o.load {
      var growing := size > w.config.size;
      var s := if growing then GrowRootfs(w.rootfs, size, w.fc == Off, o.grow) else Steps([], true);
      var trace := RootfsTrace(w, s.states);
      var w1 := End(w, trace);
      var c := w.config.(size := if growing then size else w.config.size, bandwidth := bandwidth, iops := iops);
      GrowFits(w, m, size, o.grow);
      SavedAndApplied(w1, m, c, o.apply);
      EndThen(w, trace, SaveAndApply(w1, m, c, o.apply).trace);
      ResizeRootfsFits(w, m, size, bandwidth, iops, o);
    }
  }
}
