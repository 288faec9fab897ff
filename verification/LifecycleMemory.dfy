/**
 What metadata.json remembers of a VM: that its root disk was built. It is forgotten by a
 recovery that cannot load the file, and then the VM never boots again.
 */
module LifecycleMemory {
  import opened Basics
  import opened Config
  import opened Disk
  import opened Lifecycle
  import opened LifecycleClaims
  import opened LifecycleProofs

  // ------------------------------------------------------------------
  // Every operation writes the initialized that it remembers
  // ------------------------------------------------------------------

  ghost predicate Remembers(w: World, m: Memory, trace: seq<World>) {
    forall i :: 0 <= i < |trace| ==> trace[i].meta == w.meta || trace[i].meta.initialized == m.meta.initialized
  }

  /** Once a root disk exists: initialized is written as this process knows it, and the disk stays. */
  ghost predicate Firm(w: World, m: Memory, e: Effect) {
    w.rootfs != Absent ==>
      && Remembers(w, m, e.trace) && e.memory.meta.initialized == m.meta.initialized
      && End(w, e.trace).rootfs != Absent
  }

  lemma FirmThen(w: World, m: Memory, e: Effect, f: Effect)
    requires Firm(w, m, e) && Firm(End(w, e.trace), e.memory, f)
    ensures Firm(w, m, AndThen(e, f))
  {
  }

  lemma FirmApply(w: World, m: Memory, c: Config, o: ApplyOutcome)
    ensures Firm(w, m, ApplyConfig(w, m, c, o))
  {
    ApplyConfigTame(w, m, c, o);
  }

  lemma FirmSaveAndApply(w: World, m: Memory, c: Config, o: ApplyOutcome)
    ensures Firm(w, m, SaveAndApply(w, m, c, o))
  {
    var w1 := w.(config := c);
    FirmApply(w1, m, c, o);
    FirmThen(w, m, Effect([w1], m, true), ApplyConfig(w1, m, c, o));
  }

  lemma FirmStart(w: World, m: Memory, o: StartOutcome)
    ensures Firm(w, m, Start(w, m, o))
  {
    StartTame(w, m, o);
  }

  lemma FirmReboot(w: World, m: Memory, o: StartOutcome)
    ensures Firm(w, m, Reboot(w, m, o))
  {
    var off := w.(fc := Off);
    FirmStart(off, m, o);
    FirmThen(w, m, Effect([off], m, true), Start(off, m, o));
  }

  lemma FirmStop(w: World, m: Memory, saveDesired: bool, savePublic: bool)
    ensures Firm(w, m, Stop(w, m, saveDesired, savePublic))
  {
    var trace := Stop(w, m, saveDesired, savePublic).trace;
    forall i | 0 <= i < |trace|
      ensures trace[i].meta == w.meta || trace[i].meta.initialized == m.meta.initialized
    {
      StopInstants(w, m, saveDesired, savePublic, i);
    }
    StopEnd(w, m, saveDesired, savePublic);
  }

  lemma FirmResizeRootfs(w: World, m: Memory, size: int, bandwidth: int, iops: int, o: ResizeOutcome)
    ensures Firm(w, m, ResizeRootfs(w, m, size, bandwidth, iops, o))
  {
    if o.load {
      var growing := size > w.config.size;
      var s := if growing then GrowRootfs(w.rootfs, size, w.fc == Off, o.grow) else Steps([], true);
      var trace := RootfsTrace(w, s.states);
      var c := w.config.(size := if growing then size else w.config.size, bandwidth := bandwidth, iops := iops);
      assert Firm(w, m, Effect(trace, m, true));
      FirmSaveAndApply(End(w, trace), m, c, o.apply);
      FirmThen(w, m, Effect(trace, m, true), SaveAndApply(End(w, trace), m, c, o.apply));
    }
  }

  lemma FirmSnapshot(w: World, m: Memory, o: CopyRootfs)
    ensures Firm(w, m, CreateSnapshot(w, m, o))
  {
    if o.Offline? {
      FirmReboot(w, m, o.start);
    }
  }

  lemma FirmReload(w: World, m: Memory, load: bool, o: ApplyOutcome)
    ensures Firm(w, m, Reload(w, m, load, o))
  {
    FirmApply(w, m, w.config, o);
  }

  lemma FirmResize(w: World, m: Memory, cpus: int, memory: int, load: bool, save: bool)
    ensures Firm(w, m, Resize(w, m, cpus, memory, load, save))
  {
  }

  lemma FirmMutate(w: World, m: Memory, e: Edit, load: bool, save: bool, o: ApplyOutcome)
    ensures Firm(w, m, MutateConfig(w, m, e, load, save, o))
  {
    FirmSaveAndApply(w, m, Edited(w.config, e), o);
  }

  lemma FirmConfigOp(w: World, m: Memory, op: Op)
    requires WritesConfig(op)
    ensures Firm(w, m, Perform(w, m, op))
  {
    match op
    case ReloadOp(l, o) => FirmReload(w, m, l, o);
    case MutateOp(e, l, s, o) => FirmMutate(w, m, e, l, s, o);
    case ResizeOp(c, mem, l, s) => FirmResize(w, m, c, mem, l, s);
    case ResizeRootfsOp(size, b, i, o) => FirmResizeRootfs(w, m, size, b, i, o);
  }

  lemma FirmPerform(w: World, m: Memory, op: Op)
    ensures Firm(w, m, Perform(w, m, op))
  {
    match op
    case StartOp(o) => FirmStart(w, m, o);
    case StopOp(d, p) => FirmStop(w, m, d, p);
    case RebootOp(o) => FirmReboot(w, m, o);
    case SnapshotOp(o) => FirmSnapshot(w, m, o);
    case _ => FirmConfigOp(w, m, op);
  }

  // ------------------------------------------------------------------
  // A disk without an initialized VM
  // ------------------------------------------------------------------

  /** There is a root disk, and neither metadata.json nor the runtime knows that it was built. */
  ghost predicate Stuck(s: Machine) {
    s.world.rootfs != Absent && !s.world.meta.initialized && (s.Up? ==> !s.memory.meta.initialized)
  }

  lemma FirmRecover(w: World, l: Loading, o: StartOutcome)
    ensures Firm(w, NewRuntime(w, l).memory, Recover(w, l, o))
  {
    var begun := NewRuntime(w, l);
    FirmStart(End(w, begun.trace), begun.memory, o);
    FirmThen(w, begun.memory, begun, Run(End(w, begun.trace), begun.memory, o));
  }

  lemma StuckStep(s: Machine, e: Event)
    requires Stuck(s) && MachineOk(s) && Possible(s, e)
    ensures Stuck(After(s, e))
  {
    AfterFits(s, e);
    match e
    case Done(op) => FirmPerform(s.world, s.memory, op);
    case Cut(op, _, _) => FirmPerform(s.world, s.memory, op);
    case Die(_) =>
    case Boot(l, o) => FirmRecover(s.world, l, o);
    case BootCut(l, o, _, _) => FirmRecover(s.world, l, o);
  }

  lemma StuckVmFails(w: World, m: Memory, o: StartOutcome)
    requires w.rootfs != Absent && !m.meta.initialized
    ensures !StartVm(w, m, o).ok
  {
    if o.source.Some? {
      PrepareOnce(w.rootfs, o.source.value, m.config.size, o.prepare);
    }
  }

  lemma CreateKeepsDisk(w: World, m: Memory, o: StartOutcome)
    ensures End(w, Create(w, m, o).trace).rootfs == w.rootfs && Create(w, m, o).memory.meta == m.meta
  {
  }

  lemma StuckBringUpFails(w: World, m: Memory, o: StartOutcome)
    requires w.rootfs != Absent && !m.meta.initialized
    ensures !BringUp(w, m, o).ok
  {
    var create := Create(w, m, o);
    var w1 := End(w, create.trace);
    CreateKeepsDisk(w, m, o);
    if create.ok {
      var apply := ApplyPublicIPs(w1, create.memory, o.savePublic);
      ApplyPublicTame(w1, create.memory, o.savePublic);
      EndThen(w, create.trace, apply.trace);
      StuckVmFails(End(w1, apply.trace), apply.memory, o);
    }
  }

  lemma StuckStartFails(w: World, m: Memory, o: StartOutcome)
    requires w.rootfs != Absent && !m.meta.initialized
    ensures !Start(w, m, o).ok
  {
    var wanted := SaveMetadata(w, m.(meta := m.meta.(running := true)), o.saveDesired);
    StuckBringUpFails(End(w, wanted.trace), wanted.memory, o);
  }

  /** A VM with a root disk that it does not know as built never boots: every start fails. */
  lemma {:induction false} StuckForEver(s: Machine, events: seq<Event>, s': Machine)
    requires MachineOk(s) && Stuck(s) && MachineRun(s, events, s')
    ensures Stuck(s') && s'.world.fc == Off
    ensures s'.Up? ==> forall o :: !Start(s'.world, s'.memory, o).ok
    decreases |events|
  {
    if events == [] {
      forall o | s'.Up? ensures !Start(s'.world, s'.memory, o).ok {
        StuckStartFails(s'.world, s'.memory, o);
      }
    } else {
      AfterFits(s, events[0]);
      StuckStep(s, events[0]);
      StuckForEver(After(s, events[0]), events[1..], s');
    }
  }

  /** So a disk left half built by a crash or an error is never booted, replaced or finished. */
  lemma HalfBuiltForEver(s: Machine, events: seq<Event>, s': Machine)
    requires MachineOk(s) && s.world.rootfs.Half? && MachineRun(s, events, s')
    ensures s'.world.rootfs.Half? && s'.world.fc == Off && !s'.world.meta.initialized
  {
    RunFits(s, events, s');
    StuckForEver(s, events, s');
  }

  /** So is a whole disk whose initialized could not be saved, once that process dies. */
  lemma UnsavedBuildIsLost(w: World, m: Memory, o: StartOutcome, host: bool)
    requires Ready(w, m) && w.rootfs == Absent && w.fc == Off && OneSource(w.config)
    requires AllWorks(o, w.config.size) && !o.saveInit
    ensures var down := Down(Killed(End(w, Start(w, m, o).trace), host));
            down.world.rootfs.Whole? && Stuck(down) && MachineOk(down)
  {
    StartFits(w, m, o);
    TraceEnd(w, Start(w, m, o).trace);
    FirstStartBoots(w, m, o);
  }

  // ------------------------------------------------------------------
  // Initialized over runs
  // ------------------------------------------------------------------

  /** metadata.json says initialized, and this process was started without that, or is being so. */
  ghost predicate Blind(s: Machine, e: Event) {
    && s.world.meta.initialized
    && (s.Up? ==> !s.memory.meta.initialized)
    && (s.Down? ==> (e.Boot? || e.BootCut?) && e.loading.NotLoaded?)
  }

  ghost predicate Forgets(s: Machine, e: Event)
    requires Possible(s, e)
  {
    Blind(s, e) && After(s, e).world.meta != s.world.meta
  }

  lemma ForgetsStep(s: Machine, e: Event)
    requires MachineOk(s) && Possible(s, e) && s.world.meta.initialized
    ensures After(s, e).world.meta.initialized <==> !Forgets(s, e)
    ensures Forgets(s, e) ==> Stuck(After(s, e))
  {
    AfterFits(s, e);
    match e
    case Done(op) => FirmPerform(s.world, s.memory, op);
    case Cut(op, _, _) => FirmPerform(s.world, s.memory, op);
    case Die(_) =>
    case Boot(l, o) => FirmRecover(s.world, l, o);
    case BootCut(l, o, _, _) => FirmRecover(s.world, l, o);
  }

  /** On this run a process that could not load the metadata of an initialized VM writes it. */
  ghost predicate Forgotten(s: Machine, events: seq<Event>)
    decreases |events|
  {
    events != [] && Possible(s, events[0]) && (Forgets(s, events[0]) || Forgotten(After(s, events[0]), events[1..]))
  }

  /**
   Over every run: initialized turns back exactly when a recovery cannot load the metadata of
   the initialized VM, and that process then writes it, at once or in a later operation.
   */
  lemma {:induction false} InitializedIff(s: Machine, events: seq<Event>, s': Machine)
    requires MachineOk(s) && s.world.meta.initialized && MachineRun(s, events, s')
    ensures s'.world.meta.initialized <==> !Forgotten(s, events)
    decreases |events|
  {
    if events != [] {
      AfterFits(s, events[0]);
      ForgetsStep(s, events[0]);
      if Forgets(s, events[0]) {
        StuckForEver(After(s, events[0]), events[1..], s');
      } else {
        InitializedIff(After(s, events[0]), events[1..], s');
      }
    }
  }

  /** No recovery of an initialized VM fails to load its metadata. */
  ghost predicate AllLoad(s: Machine, events: seq<Event>)
    decreases |events|
  {
    events == []
    || (&& Possible(s, events[0])
        && (s.world.meta.initialized && (events[0].Boot? || events[0].BootCut?) ==> events[0].loading.Loaded?)
        && AllLoad(After(s, events[0]), events[1..]))
  }

  ghost predicate Known(s: Machine) { s.world.meta.initialized && (s.Up? ==> s.memory.meta.initialized) }

  /** Without such a failure initialized never turns back, on disk and in memory. */
  lemma {:induction false} InitializedStays(s: Machine, events: seq<Event>, s': Machine)
    requires MachineOk(s) && Known(s) && MachineRun(s, events, s') && AllLoad(s, events)
    ensures Known(s')
    decreases |events|
  {
    if events != [] {
      AfterFits(s, events[0]);
      ForgetsStep(s, events[0]);
      KnownStep(s, events[0]);
      InitializedStays(After(s, events[0]), events[1..], s');
    }
  }

  lemma KnownStep(s: Machine, e: Event)
    requires MachineOk(s) && Known(s) && Possible(s, e)
    requires (e.Boot? || e.BootCut?) ==> e.loading.Loaded?
    ensures After(s, e).Up? ==> After(s, e).memory.meta.initialized
  {
    match e
    case Done(op) => FirmPerform(s.world, s.memory, op);
    case Boot(l, o) => FirmRecover(s.world, l, o);
    case _ =>
  }

  /**
   One such failure is enough when the new metadata is saved: whatever follows, the VM never
   boots again, with its whole disk in place.
   */
  lemma FailedLoadIsFinal(w: World, o: StartOutcome, events: seq<Event>, s': Machine)
    requires MachineOk(Down(w)) && w.meta.initialized && Validate(w.config)
    requires MachineRun(Down(w), [Boot(NotLoaded(true), o)] + events, s')
    ensures s'.world.rootfs.Whole? && !s'.world.meta.initialized && s'.world.fc == Off
    ensures s'.Up? ==> forall start :: !Start(s'.world, s'.memory, start).ok
  {
    var e := Boot(NotLoaded(true), o);
    AfterFits(Down(w), e);
    ForgetsStep(Down(w), e);
    assert ([e] + events)[1..] == events;
    StuckForEver(After(Down(w), e), events, s');
    RunFits(After(Down(w), e), events, s');
  }

  /** When it is not, the first start or stop of that process whose first save works does the same. */
  lemma BlindProcessForgets(s: Machine, op: Op)
    requires MachineOk(s) && s.Up? && s.world.meta.initialized && !s.memory.meta.initialized
    requires (op.StartOp? && op.start.saveDesired) || (op.StopOp? && op.saveDesired)
    ensures Stuck(After(s, Done(op)))
  {
    AfterFits(s, Done(op));
    FirmPerform(s.world, s.memory, op);
    ForgetsStep(s, Done(op));
    match op
    case StartOp(o) => FirstSaveLasts(s.world, s.memory, o);
    case StopOp(d, p) => StopEnd(s.world, s.memory, d, p);
  }

  lemma FirstSaveLasts(w: World, m: Memory, o: StartOutcome)
    requires w.rootfs != Absent && !m.meta.initialized && o.saveDesired
    ensures !End(w, Start(w, m, o).trace).meta.initialized
  {
    var m' := m.(meta := m.meta.(running := true));
    var wanted := SaveMetadata(w, m', true);
    var w1 := End(w, wanted.trace);
    BringUpTame(w1, wanted.memory, o);
    EndThen(w, wanted.trace, BringUp(w1, wanted.memory, o).trace);
  }

  lemma RunTail(s: Machine, e: Event, events: seq<Event>, s': Machine)
    requires MachineRun(s, [e] + events, s')
    ensures Possible(s, e) && MachineRun(After(s, e), events, s')
  {
    assert ([e] + events)[1..] == events;
  }

  /** A machine whose VM has booted. */
  ghost predicate HasBooted(s: Machine) {
    MachineOk(s) && s.Up? && s.world.fc == Booted && s.world.meta.initialized && Validate(s.world.config)
  }

  /** A new VM that boots at its first start. */
  lemma FirstBoot(c: Config, o: StartOutcome)
    requires Validate(c) && OneSource(c) && AllWorks(o, c.size) && o.saveInit
    ensures Possible(NewMachine(c), Boot(Loaded, o)) && After(NewMachine(c), Boot(Loaded, o)).Up?
    ensures HasBooted(After(After(NewMachine(c), Boot(Loaded, o)), Done(StartOp(o))))
  {
    var w := NewMachine(c).world;
    var up := Up(w, FreshMemory(w, NEW_METADATA));
    assert After(NewMachine(c), Boot(Loaded, o)) == up;
    StartFits(w, up.memory, o);
    FirstStartBoots(w, up.memory, o);
    StartTame(w, up.memory, o);
  }

  /** It dies, and comes back once with metadata.json unreadable. */
  lemma DiesAndFailsToLoad(s: Machine, host: bool, o: StartOutcome, events: seq<Event>, s': Machine)
    requires HasBooted(s) && MachineRun(s, [Die(host)] + ([Boot(NotLoaded(true), o)] + events), s')
    ensures s'.world.rootfs.Whole? && !s'.world.meta.initialized && s'.world.fc == Off
    ensures s'.Up? ==> forall start :: !Start(s'.world, s'.memory, start).ok
  {
    var last := [Boot(NotLoaded(true), o)] + events;
    RunTail(s, Die(host), last, s');
    AfterFits(s, Die(host));
    FailedLoadIsFinal(After(s, Die(host)).world, o, events, s');
  }

  /** The failure is real: one unreadable file costs a VM that had booted all its later starts. */
  lemma UnreadableOnce(c: Config, o: StartOutcome, host: bool, events: seq<Event>, s': Machine)
    requires Validate(c) && OneSource(c) && AllWorks(o, c.size) && o.saveInit
    requires var last := [Die(host)] + ([Boot(NotLoaded(true), o)] + events);
             MachineRun(NewMachine(c), [Boot(Loaded, o)] + ([Done(StartOp(o))] + last), s')
    ensures s'.world.rootfs.Whole? && !s'.world.meta.initialized && s'.world.fc == Off
    ensures s'.Up? ==> forall start :: !Start(s'.world, s'.memory, start).ok
  {
    var last := [Die(host)] + ([Boot(NotLoaded(true), o)] + events);
    FirstBoot(c, o);
    var s1 := After(NewMachine(c), Boot(Loaded, o));
    RunTail(NewMachine(c), Boot(Loaded, o), [Done(StartOp(o))] + last, s');
    RunTail(s1, Done(StartOp(o)), last, s');
    DiesAndFailsToLoad(After(s1, Done(StartOp(o))), host, o, events, s');
  }

  // ------------------------------------------------------------------
  // A build that is cut
  // ------------------------------------------------------------------

  /** A start in which nothing fails after its first save, on a host without an uplink. */
  const BUILDS := StartOutcome(false, true, None, false, true, true, Some(0),
                               Prepare(Cloned(true), CopyFailed, 0, Grown), true, BootOk)

  lemma InitializeBegins(w: World, m: Memory)
    requires w.rootfs == Absent && m.config.size > 0 && BootSourceCount(m.config) == 1
    ensures var trace := Initialize(w, m, BUILDS).trace; trace != [] && trace[0].rootfs == Half(0)
  {
    var s := PrepareRootfs(Absent, 0, m.config.size, BUILDS.prepare);
    assert s.states[0] == Half(0) && s.ok;
  }

  lemma StartVmBegins(w: World, m: Memory)
    requires w.rootfs == Absent && m.config.size > 0 && BootSourceCount(m.config) == 1 && !m.meta.initialized
    ensures var trace := StartVm(w, m, BUILDS).trace; trace != [] && trace[0].rootfs == Half(0)
  {
    InitializeBegins(w, m);
  }

  lemma PublicSavesOnce(w: World, m: Memory)
    requires w.table.None?
    ensures var e := ApplyPublicIPs(w, m, true);
            && e.ok && |e.trace| == 1 && End(w, e.trace).rootfs == w.rootfs
            && e.memory.config == m.config && e.memory.meta.initialized == m.meta.initialized
  {
    assert SyncPublic(w, m) == [];
  }

  /** The first two worlds of that start on a new VM: the saved public addresses, and a new file. */
  lemma BuildBegins(w: World, m: Memory)
    requires w.rootfs == Absent && w.table.None? && m.config.size > 0 && !m.meta.initialized
    requires BootSourceCount(m.config) == 1
    ensures var trace := Start(w, m, BUILDS).trace; |trace| > 1 && trace[1].rootfs == Half(0)
  {
    var m1 := m.(meta := m.meta.(running := true), saved := false, created := true, inStep := false);
    var apply := ApplyPublicIPs(w, m1, true);
    assert Create(w, m.(meta := m.meta.(running := true), saved := false), BUILDS) == Effect([], m1, true);
    PublicSavesOnce(w, m1);
    StartVmBegins(End(w, apply.trace), apply.memory);
  }

  /** The process of a new VM dies while it builds the disk. */
  lemma CutInsideBuild(c: Config, host: bool)
    requires Validate(c) && OneSource(c)
    ensures Possible(NewMachine(c), Boot(Loaded, BUILDS))
    ensures var up := After(NewMachine(c), Boot(Loaded, BUILDS)); var cut := Cut(StartOp(BUILDS), 1, host);
            Possible(up, cut) && After(up, cut).world.rootfs == Half(0) && MachineOk(After(up, cut))
  {
    var w := NewMachine(c).world;
    var up := Up(w, FreshMemory(w, NEW_METADATA));
    NewMachineOk(c);
    assert After(NewMachine(c), Boot(Loaded, BUILDS)) == up;
    AfterFits(NewMachine(c), Boot(Loaded, BUILDS));
    BuildBegins(w, up.memory);
    AfterFits(up, Cut(StartOp(BUILDS), 1, host));
  }

  /** Then it never boots, whatever follows. */
  lemma CutBuildIsFinal(c: Config, host: bool, events: seq<Event>, s': Machine)
    requires Validate(c) && OneSource(c)
    requires MachineRun(NewMachine(c), [Boot(Loaded, BUILDS)] + ([Cut(StartOp(BUILDS), 1, host)] + events), s')
    ensures s'.world.rootfs.Half? && s'.world.fc == Off && !s'.world.meta.initialized
  {
    var up := After(NewMachine(c), Boot(Loaded, BUILDS));
    CutInsideBuild(c, host);
    RunTail(NewMachine(c), Boot(Loaded, BUILDS), [Cut(StartOp(BUILDS), 1, host)] + events, s');
    RunTail(up, Cut(StartOp(BUILDS), 1, host), events, s');
    HalfBuiltForEver(After(up, Cut(StartOp(BUILDS), 1, host)), events, s');
  }
}
