/** What the operations promise: over every run, at every crash point, and with the exact exceptions. */
module LifecycleClaims {
  import opened Basics
  import opened Config
  import opened Disk
  import opened Lifecycle
  import opened LifecycleProofs

  // ------------------------------------------------------------------
  // The disk, and what runs
  // ------------------------------------------------------------------

  /**
   Every run of a new machine. A running Firecracker has the disk of the one build that
   completed, as long as the configuration asks, for a VM that is initialized and wanted, in
   memory and on disk, whichever saves have failed.
   */
  lemma LifecycleSafety(c: Config, events: seq<Event>, s: Machine)
    requires MachineRun(NewMachine(c), events, s)
    ensures s.world.builds <= 1
    ensures s.world.meta.initialized ==> s.world.rootfs.Whole? && s.world.rootfs.length >= s.world.config.size
    ensures s.world.fc != Off ==>
              && s.world.builds == 1 && s.world.rootfs.Whole? && s.Up?
              && s.memory.meta.running && s.memory.meta.initialized
              && s.world.meta.running && s.world.meta.initialized
  {
    NewMachineOk(c);
    RunFits(NewMachine(c), events, s);
  }

  /** Nothing fails from the network to the boot; saveInit alone is left open. */
  predicate AllWorks(o: StartOutcome, size: int) {
    && o.enter && o.tc && o.savePublic && o.boot == BootOk
    && o.source.Some? && o.source.value <= size && o.prepare.clone == Cloned(true) && o.prepare.grow == Grown
  }

  /** The disk is whole, and the VM booted if this could be saved. */
  ghost predicate Built(w: World, e: Effect, saveInit: bool) {
    var last := End(w, e.trace);
    && e.ok == saveInit && last.fc == (if saveInit then Booted else Off)
    && last.rootfs.Whole? && last.rootfs.length == w.config.size && last.meta.initialized == saveInit
  }

  /** Exactly one of the two boot sources is given. */
  predicate OneSource(c: Config) { (c.image != "") != (c.snapshot != "") }

  lemma BuildsAndBoots(w: World, m: Memory, o: StartOutcome)
    requires Ready(w, m) && Saved(w, m) && w.rootfs == Absent && w.fc == Off && OneSource(w.config)
    requires AllWorks(o, w.config.size) && m.meta.running
    ensures Built(w, StartVm(w, m, o), o.saveInit)
  {
    var s := PrepareRootfs(w.rootfs, o.source.value, m.config.size, o.prepare);
    PrepareOnce(w.rootfs, o.source.value, m.config.size, o.prepare);
    assert s.ok;
    var trace := RootfsTrace(w, s.states);
    var init := Initialize(w, m, o);
    EndThen(w, trace, SaveMetadata(End(w, trace), m.(meta := m.meta.(initialized := true)), o.saveInit).trace);
    assert init.ok == o.saveInit && End(w, init.trace).fc == Off && End(w, init.trace).rootfs == Whole(m.config.size);
    if init.ok {
      EndThen(w, init.trace, BootFirecracker(End(w, init.trace), init.memory, o.boot).trace);
    }
  }

  lemma BringUpBoots(w: World, m: Memory, o: StartOutcome)
    requires Ready(w, m) && Saved(w, m) && w.rootfs == Absent && w.fc == Off && OneSource(w.config)
    requires AllWorks(o, w.config.size) && m.meta.running
    ensures Built(w, BringUp(w, m, o), o.saveInit)
  {
    var create := Create(w, m, o);
    CreateFits(w, m, o);
    var w2 := End(w, create.trace);
    assert w2 == w.(table := w2.table);
    var apply := ApplyPublicIPs(w2, create.memory, o.savePublic);
    ApplyPublicFits(w2, create.memory, o.savePublic);
    SyncTableOnly(w2, create.memory);
    var w3 := End(w2, apply.trace);
    assert w3.rootfs == Absent && w3.fc == Off;
    BuildsAndBoots(w3, apply.memory, o);
    EndThen(w, create.trace, apply.trace);
    EndThen(w, create.trace + apply.trace, StartVm(w3, apply.memory, o).trace);
  }

  /**
   The invariants are not empty promises: the first start builds the disk and boots the VM,
   or fails with the disk whole when that alone cannot be saved.
   */
  lemma FirstStartBoots(w: World, m: Memory, o: StartOutcome)
    requires Ready(w, m) && w.rootfs == Absent && w.fc == Off && OneSource(w.config)
    requires AllWorks(o, w.config.size)
    ensures Built(w, Start(w, m, o), o.saveInit) && End(w, Start(w, m, o).trace).builds == 1
  {
    var m' := m.(meta := m.meta.(running := true));
    var wanted := SaveMetadata(w, m', o.saveDesired);
    SaveFits(w, m', o.saveDesired);
    var w1 := End(w, wanted.trace);
    BringUpBoots(w1, wanted.memory, o);
    EndThen(w, wanted.trace, BringUp(w1, wanted.memory, o).trace);
    StartFits(w, m, o);
  }

  // ------------------------------------------------------------------
  // Desired state and config, instant by instant
  // ------------------------------------------------------------------

  /**
   The config file stays, and metadata.json is the old one or written from this memory: its
   desired state and, once a root disk exists, its initialized.
   */
  ghost predicate Tame(w: World, m: Memory, trace: seq<World>) {
    forall i :: 0 <= i < |trace| ==>
                  && trace[i].config == w.config
                  && (trace[i].meta == w.meta || WrittenFrom(w, m, trace[i].meta))
  }

  ghost predicate WrittenFrom(w: World, m: Memory, meta: Metadata) {
    meta.running == m.meta.running && (w.rootfs != Absent ==> meta.initialized == m.meta.initialized)
  }

  ghost predicate TameEffect(w: World, m: Memory, e: Effect) {
    && Tame(w, m, e.trace) && e.memory.meta.running == m.meta.running
    && (w.rootfs != Absent ==> End(w, e.trace).rootfs != Absent && e.memory.meta.initialized == m.meta.initialized)
  }

  ghost predicate SameFc(w: World, trace: seq<World>) {
    forall i :: 0 <= i < |trace| ==> trace[i].fc == w.fc
  }

  lemma TameThen(w: World, m: Memory, e: Effect, f: Effect)
    requires TameEffect(w, m, e) && TameEffect(End(w, e.trace), e.memory, f)
    ensures TameEffect(w, m, AndThen(e, f))
  {
  }

  /** The NAT commands move nothing but the table. */
  ghost predicate TableOnly(w: World, trace: seq<World>) {
    forall i :: 0 <= i < |trace| ==> trace[i] == w.(table := trace[i].table)
  }

  lemma SyncTableOnly(w: World, m: Memory)
    ensures TableOnly(w, SyncPublic(w, m))
  {
  }

  lemma TableOnlyTame(w: World, m: Memory, trace: seq<World>)
    requires TableOnly(w, trace)
    ensures TameEffect(w, m, Effect(trace, m, true)) && SameFc(w, trace)
  {
  }

  lemma SaveTame(w: World, m: Memory, m': Memory, ok: bool)
    requires m'.meta.running == m.meta.running && m'.meta.initialized == m.meta.initialized
    ensures TameEffect(w, m, SaveMetadata(w, m', ok)) && SameFc(w, SaveMetadata(w, m', ok).trace)
  {
  }

  lemma ApplyPublicTame(w: World, m: Memory, save: bool)
    ensures TameEffect(w, m, ApplyPublicIPs(w, m, save)) && SameFc(w, ApplyPublicIPs(w, m, save).trace)
  {
    var trace := SyncPublic(w, m);
    var m' := m.(meta := m.meta.(public4 := m.config.network.publicIPv4, public6 := m.config.network.publicIPv6));
    SyncTableOnly(w, m);
    TableOnlyTame(w, m, trace);
    SaveTame(End(w, trace), m, m', save);
    TameThen(w, m, Effect(trace, m, true), SaveMetadata(End(w, trace), m', save));
  }

  lemma SetFirewallTame(w: World, m: Memory, f: FirewallConfig)
    ensures TameEffect(w, m, SetFirewall(w, m, f)) && SameFc(w, SetFirewall(w, m, f).trace)
  {
  }

  lemma ApplyConfigTame(w: World, m: Memory, c: Config, o: ApplyOutcome)
    ensures TameEffect(w, m, ApplyConfig(w, m, c, o)) && SameFc(w, ApplyConfig(w, m, c, o).trace)
  {
    var m1 := m.(config := c, network := c.network, applied := false, inStep := false);
    var public := ApplyPublicIPs(w, m1, o.savePublic);
    ApplyPublicTame(w, m1, o.savePublic);
    if public.ok && o.tc {
      SetFirewallTame(End(w, public.trace), public.memory, c.firewall);
      TameThen(w, m1, public, SetFirewall(End(w, public.trace), public.memory, c.firewall));
    }
  }

  lemma InitializeTame(w: World, m: Memory, o: StartOutcome)
    ensures TameEffect(w, m, Initialize(w, m, o))
  {
    if BootSourceCount(m.config) == 1 && o.source.Some? {
      var s := PrepareRootfs(w.rootfs, o.source.value, m.config.size, o.prepare);
      PrepareOnce(w.rootfs, o.source.value, m.config.size, o.prepare);
      var trace := RootfsTrace(w, s.states);
      assert Tame(w, m, trace);
      if s.ok {
        var m' := m.(meta := m.meta.(initialized := true));
        assert Tame(w, m, [End(w, trace).(meta := m'.meta)]);
      }
    }
  }

  lemma BootTame(w: World, m: Memory, boot: BootOutcome)
    ensures TameEffect(w, m, BootFirecracker(w, m, boot))
  {
  }

  lemma StartVmTame(w: World, m: Memory, o: StartOutcome)
    ensures TameEffect(w, m, StartVm(w, m, o))
  {
    var init := if m.meta.initialized then Effect([], m, true) else Initialize(w, m, o);
    InitializeTame(w, m, o);
    if init.ok {
      BootTame(End(w, init.trace), init.memory, o.boot);
      TameThen(w, m, init, BootFirecracker(End(w, init.trace), init.memory, o.boot));
    }
  }

  lemma BringUpTame(w: World, m: Memory, o: StartOutcome)
    ensures TameEffect(w, m, BringUp(w, m, o))
  {
    var create := Create(w, m, o);
    if create.ok {
      var w1 := End(w, create.trace);
      var apply := ApplyPublicIPs(w1, create.memory, o.savePublic);
      ApplyPublicTame(w1, create.memory, o.savePublic);
      TameThen(w, m, create, apply);
      var public := AndThen(create, apply);
      if public.ok {
        StartVmTame(End(w, public.trace), public.memory, o);
        TameThen(w, m, public, StartVm(End(w, public.trace), public.memory, o));
      }
    }
  }

  lemma StartTame(w: World, m: Memory, o: StartOutcome)
    ensures TameEffect(w, m.(meta := m.meta.(running := true)), Start(w, m, o))
  {
    var m' := m.(meta := m.meta.(running := true));
    var wanted := SaveMetadata(w, m', o.saveDesired);
    BringUpTame(End(w, wanted.trace), wanted.memory, o);
    TameThen(w, m', wanted, BringUp(End(w, wanted.trace), wanted.memory, o));
  }

  // ------------------------------------------------------------------
  // Stop is final
  // ------------------------------------------------------------------

  ghost predicate QuietTrace(trace: seq<World>) {
    forall i :: 0 <= i < |trace| ==> !trace[i].meta.running && trace[i].fc == Off
  }

  /**
   Once its first save has worked, no crash inside Stop makes a recovery start the VM, whether
   or not metadata.json loads.
   */
  lemma StopIsFinal(w: World, m: Memory, savePublic: bool, at: nat, host: bool, l: Loading, o: StartOutcome)
    requires at < |Stop(w, m, true, savePublic).trace|
    ensures var e := Recover(Killed(Stop(w, m, true, savePublic).trace[at], host), l, o);
            !e.memory.meta.running && QuietTrace(e.trace)
  {
    StopInstants(w, m, true, savePublic, at);
  }

  /** Stop returns no error when its saves fail: a recovery starts the VM iff both did. */
  lemma StopForgotten(w: World, m: Memory, saveDesired: bool, savePublic: bool)
    requires w.meta.running
    ensures var last := End(w, Stop(w, m, saveDesired, savePublic).trace);
            last.meta.running <==> !saveDesired && !savePublic
  {
  }

  ghost predicate Stopped(s: Machine) {
    !s.world.meta.running && s.world.fc == Off && (s.Up? ==> !s.memory.meta.running)
  }

  /** Someone asks for the VM to run. */
  predicate AsksForVm(e: Event) {
    (e.Done? || e.Cut?) && (e.op.StartOp? || e.op.RebootOp?)
  }

  lemma QuietApply(w: World, m: Memory, c: Config, o: ApplyOutcome)
    requires !w.meta.running && w.fc == Off && !m.meta.running
    ensures QuietTrace(ApplyConfig(w, m, c, o).trace) && !ApplyConfig(w, m, c, o).memory.meta.running
  {
    ApplyConfigTame(w, m, c, o);
  }

  lemma QuietThen(a: seq<World>, b: seq<World>)
    requires QuietTrace(a) && QuietTrace(b)
    ensures QuietTrace(a + b)
  {
  }

  lemma QuietSaveAndApply(w: World, m: Memory, c: Config, o: ApplyOutcome)
    requires !w.meta.running && w.fc == Off && !m.meta.running
    ensures QuietTrace(SaveAndApply(w, m, c, o).trace) && !SaveAndApply(w, m, c, o).memory.meta.running
  {
    QuietApply(w.(config := c), m, c, o);
    QuietThen([w.(config := c)], ApplyConfig(w.(config := c), m, c, o).trace);
  }

  lemma QuietResizeRootfs(w: World, m: Memory, size: int, bandwidth: int, iops: int, o: ResizeOutcome)
    requires !w.meta.running && w.fc == Off && !m.meta.running
    ensures var e := ResizeRootfs(w, m, size, bandwidth, iops, o); QuietTrace(e.trace) && !e.memory.meta.running
  {
    if o.load {
      var growing := size > w.config.size;
      var s := if growing then GrowRootfs(w.rootfs, size, w.fc == Off, o.grow) else Steps([], true);
      var trace := RootfsTrace(w, s.states);
      var w1 := End(w, trace);
      var c := w.config.(size := if growing then size else w.config.size, bandwidth := bandwidth, iops := iops);
      assert QuietTrace(trace) && !w1.meta.running && w1.fc == Off;
      QuietSaveAndApply(w1, m, c, o.apply);
      QuietThen(trace, SaveAndApply(w1, m, c, o.apply).trace);
    }
  }

  lemma QuietStop(w: World, m: Memory, saveDesired: bool, savePublic: bool)
    requires !w.meta.running && w.fc == Off && !m.meta.running
    ensures QuietTrace(Stop(w, m, saveDesired, savePublic).trace)
  {
    var trace := Stop(w, m, saveDesired, savePublic).trace;
    forall i | 0 <= i < |trace| ensures !trace[i].meta.running && trace[i].fc == Off {
      StopInstants(w, m, saveDesired, savePublic, i);
    }
  }

  lemma QuietMutate(w: World, m: Memory, e: Edit, load: bool, save: bool, o: ApplyOutcome)
    requires !w.meta.running && w.fc == Off && !m.meta.running
    ensures var f := MutateConfig(w, m, e, load, save, o); QuietTrace(f.trace) && !f.memory.meta.running
  {
    QuietSaveAndApply(w, m, Edited(w.config, e), o);
  }

  lemma QuietPerform(w: World, m: Memory, op: Op)
    requires !w.meta.running && w.fc == Off && !m.meta.running && !op.StartOp? && !op.RebootOp?
    ensures QuietTrace(Perform(w, m, op).trace) && !Perform(w, m, op).memory.meta.running
  {
    match op
    case StopOp(d, p) =>
      QuietStop(w, m, d, p);
      StopEnd(w, m, d, p);
    case ReloadOp(_, o) => QuietApply(w, m, w.config, o);
    case MutateOp(e, l, s, o) => QuietMutate(w, m, e, l, s, o);
    case ResizeRootfsOp(size, b, i, o) => QuietResizeRootfs(w, m, size, b, i, o);
    case _ =>
  }

  lemma StoppedStep(s: Machine, e: Event)
    requires Stopped(s) && Possible(s, e) && !AsksForVm(e)
    ensures Stopped(After(s, e))
  {
    match e
    case Done(op) => QuietPerform(s.world, s.memory, op);
    case Cut(op, _, _) => QuietPerform(s.world, s.memory, op);
    case _ =>
  }

  /** Nothing starts a stopped VM but a start or a reboot: no edit, snapshot, crash or recovery. */
  lemma {:induction false} StaysStopped(s: Machine, events: seq<Event>, s': Machine)
    requires Stopped(s) && MachineRun(s, events, s')
    requires forall i :: 0 <= i < |events| ==> !AsksForVm(events[i])
    ensures Stopped(s')
    decreases |events|
  {
    if events != [] {
      StoppedStep(s, events[0]);
      StaysStopped(After(s, events[0]), events[1..], s');
    }
  }

  // ------------------------------------------------------------------
  // Offline snapshots and reboots
  // ------------------------------------------------------------------

  ghost predicate KeepsDesired(w: World, trace: seq<World>) {
    forall i :: 0 <= i < |trace| ==> trace[i].meta.running == w.meta.running
  }

  lemma RunningRebootKeeps(w: World, m: Memory, o: StartOutcome)
    requires w.meta.running
    ensures KeepsDesired(w, Reboot(w, m, o).trace)
  {
    StartTame(w.(fc := Off), m, o);
  }

  lemma SnapshotKeeps(w: World, m: Memory, o: CopyRootfs)
    requires w.fc != Off ==> w.meta.running
    ensures KeepsDesired(w, CreateSnapshot(w, m, o).trace)
  {
    if o.Offline? && w.fc != Off {
      RunningRebootKeeps(w, m, o.start);
    }
  }

  /**
   At no crash point does a snapshot change the desired state on disk, whatever has failed before:
   one that stops the VM finds it running, and then the disk says so.
   */
  lemma SnapshotKeepsDesired(c: Config, events: seq<Event>, s: Machine, o: CopyRootfs)
    requires MachineRun(NewMachine(c), events, s) && s.Up?
    ensures KeepsDesired(s.world, CreateSnapshot(s.world, s.memory, o).trace)
  {
    LifecycleSafety(c, events, s);
    SnapshotKeeps(s.world, s.memory, o);
  }

  /** A reboot leaves the desired state alone exactly when the VM was wanted: it starts a stopped one. */
  lemma RebootKeepsDesired(w: World, m: Memory)
    ensures (forall o :: KeepsDesired(w, Reboot(w, m, o).trace)) <==> w.meta.running
    ensures forall o :: Reboot(w, m, o).memory.meta.running
  {
    forall o
      ensures Reboot(w, m, o).memory.meta.running && (w.meta.running ==> KeepsDesired(w, Reboot(w, m, o).trace))
    {
      StartTame(w.(fc := Off), m, o);
      if w.meta.running {
        RunningRebootKeeps(w, m, o);
      }
    }
    if !w.meta.running {
      var start := StartOutcome(true, false, None, false, true, true, None,
                                Prepare(CloneRefused, CopyFailed, 0, TruncateFailed), true, NoProcess);
      assert Reboot(w, m, start).trace[1].meta.running;
    }
  }

  // ------------------------------------------------------------------
  // The config file
  // ------------------------------------------------------------------

  /** Valid, and for the same host as before. */
  ghost predicate GoodConfig(c: Config, c': Config) { Validate(c') && SameHost(c.network, c'.network) }

  ghost predicate GoodConfigs(c: Config, trace: seq<World>) {
    forall i :: 0 <= i < |trace| ==> GoodConfig(c, trace[i].config)
  }

  lemma GoodSaveAndApply(w: World, m: Memory, c: Config, o: ApplyOutcome)
    requires GoodConfig(w.config, c)
    ensures GoodConfigs(w.config, SaveAndApply(w, m, c, o).trace)
  {
    var w1 := w.(config := c);
    ApplyConfigTame(w1, m, c, o);
    var trace := SaveAndApply(w, m, c, o).trace;
    forall i | 0 <= i < |trace| ensures trace[i].config == c {
      if i > 0 {
        assert trace[i] == ApplyConfig(w1, m, c, o).trace[i - 1];
      }
    }
  }

  lemma GoodResizeRootfs(w: World, m: Memory, size: int, bandwidth: int, iops: int, o: ResizeOutcome)
    requires Validate(w.config)
    ensures GoodConfigs(w.config, ResizeRootfs(w, m, size, bandwidth, iops, o).trace)
  {
    if o.load {
      var growing := size > w.config.size;
      var s := if growing then GrowRootfs(w.rootfs, size, w.fc == Off, o.grow) else Steps([], true);
      var w1 := End(w, RootfsTrace(w, s.states));
      var c := w.config.(size := if growing then size else w.config.size, bandwidth := bandwidth, iops := iops);
      GoodSaveAndApply(w1, m, c, o.apply);
    }
  }

  lemma GoodStop(w: World, m: Memory, saveDesired: bool, savePublic: bool)
    requires Validate(w.config)
    ensures GoodConfigs(w.config, Stop(w, m, saveDesired, savePublic).trace)
  {
    var trace := Stop(w, m, saveDesired, savePublic).trace;
    forall i | 0 <= i < |trace| ensures trace[i].config == w.config {
      StopInstants(w, m, saveDesired, savePublic, i);
    }
  }

  lemma GoodStart(w: World, m: Memory, o: StartOutcome)
    requires Validate(w.config)
    ensures GoodConfigs(w.config, Start(w, m, o).trace) && GoodConfigs(w.config, Reboot(w, m, o).trace)
  {
    StartTame(w, m, o);
    StartTame(w.(fc := Off), m, o);
  }

  predicate PositiveResize(op: Op) { op.ResizeOp? ==> op.cpus > 0 && op.memory > 0 }

  lemma GoodReload(w: World, m: Memory, load: bool, o: ApplyOutcome)
    requires Validate(w.config)
    ensures GoodConfigs(w.config, Reload(w, m, load, o).trace)
  {
    ApplyConfigTame(w, m, w.config, o);
  }

  lemma GoodMutate(w: World, m: Memory, e: Edit, load: bool, save: bool, o: ApplyOutcome)
    ensures GoodConfigs(w.config, MutateConfig(w, m, e, load, save, o).trace)
  {
    if load && save && Validate(Edited(w.config, e)) {
      GoodSaveAndApply(w, m, Edited(w.config, e), o);
    }
  }

  lemma GoodSnapshot(w: World, m: Memory, c: CopyRootfs)
    requires Validate(w.config)
    ensures GoodConfigs(w.config, CreateSnapshot(w, m, c).trace)
  {
    if c.Offline? {
      GoodStart(w, m, c.start);
    }
  }

  lemma GoodPerform(w: World, m: Memory, op: Op)
    requires Validate(w.config) && PositiveResize(op)
    ensures GoodConfigs(w.config, Perform(w, m, op).trace)
  {
    match op
    case StartOp(o) => GoodStart(w, m, o);
    case StopOp(d, p) => GoodStop(w, m, d, p);
    case RebootOp(o) => GoodStart(w, m, o);
    case ReloadOp(l, o) => GoodReload(w, m, l, o);
    case MutateOp(e, l, s, o) => GoodMutate(w, m, e, l, s, o);
    case ResizeOp(_, _, _, _) =>
    case ResizeRootfsOp(size, b, i, o) => GoodResizeRootfs(w, m, size, b, i, o);
    case SnapshotOp(c) => GoodSnapshot(w, m, c);
  }

  /** Resize saves what it is given: the file stays valid exactly when both are positive. */
  lemma ResizeValidity(w: World, m: Memory, cpus: int, memory: int)
    requires Validate(w.config) && w.fc == Off
    ensures Validate(End(w, Resize(w, m, cpus, memory, true, true).trace).config) <==> cpus > 0 && memory > 0
  {
  }

  /** With bad resources every validated edit and every reload fails, and the process cannot boot. */
  lemma BadResourcesLockOut(w: World, m: Memory)
    requires !ValidResources(w.config)
    ensures forall e, load, save, o :: MutateConfig(w, m, e, load, save, o) == Effect([], m, false)
    ensures forall load, o :: Reload(w, m, load, o) == Effect([], m, false)
    ensures forall l, o :: !Possible(Down(w), Boot(l, o))
  {
    forall e, load, save, o ensures MutateConfig(w, m, e, load, save, o) == Effect([], m, false) {
      assert !ValidResources(Edited(w.config, e));
    }
  }

  lemma GoodRecover(w: World, l: Loading, o: StartOutcome)
    requires Validate(w.config)
    ensures GoodConfigs(w.config, Recover(w, l, o).trace)
  {
    var begun := NewRuntime(w, l);
    GoodStart(End(w, begun.trace), begun.memory, o);
  }

  lemma GoodStep(s: Machine, e: Event)
    requires Validate(s.world.config) && Possible(s, e)
    requires e.Done? || e.Cut? ==> PositiveResize(e.op)
    ensures GoodConfig(s.world.config, After(s, e).world.config)
  {
    match e
    case Done(op) => GoodPerform(s.world, s.memory, op);
    case Cut(op, _, _) => GoodPerform(s.world, s.memory, op);
    case Die(_) =>
    case Boot(l, o) => GoodRecover(s.world, l, o);
    case BootCut(l, o, _, _) => GoodRecover(s.world, l, o);
  }

  /** Written through the API alone, with positive resizes, config.toml stays valid and keeps its host. */
  lemma {:induction false} ConfigStaysValid(s: Machine, events: seq<Event>, s': Machine)
    requires Validate(s.world.config) && MachineRun(s, events, s')
    requires forall i :: 0 <= i < |events| && (events[i].Done? || events[i].Cut?) ==> PositiveResize(events[i].op)
    ensures GoodConfig(s.world.config, s'.world.config)
    decreases |events|
  {
    if events != [] {
      GoodStep(s, events[0]);
      ConfigStaysValid(After(s, events[0]), events[1..], s');
    }
  }
}
