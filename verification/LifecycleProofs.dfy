/** What every run of the lifecycle keeps, at the end of each operation and at each crash point. */
module LifecycleProofs {
  import opened Basics
  import opened Config
  import opened Nft
  import opened Firewall
  import opened Nat
  import opened Disk
  import opened Lifecycle

  // ------------------------------------------------------------------
  // Invariants
  // ------------------------------------------------------------------

  /** True at every instant: at most one build, and nothing runs or counts without it. */
  ghost predicate WorldOk(w: World) {
    && w.builds == (if w.rootfs.Whole? then 1 else 0)
    && (w.meta.initialized ==> w.rootfs.Whole?)
    && (w.fc != Off ==> w.rootfs.Whole?)
    && (w.rootfs.Whole? ==> w.rootfs.length >= w.config.size)
    && (w.table.Some? ==> BaseChains(w.table.value.filter))
  }

  /** The chains of a VM's table, whatever rules its fw chain has. */
  ghost predicate BaseChains(f: Filter) { f.forward == ForwardRules(TAP) && f.chains.Keys == {"fw"} }

  /** What time never undoes: a whole disk stays whole, a half one stays half, neither shrinks. */
  ghost predicate Kept(w: World, w': World) {
    && (w.rootfs.Whole? ==> w'.rootfs.Whole? && w'.rootfs.length >= w.rootfs.length)
    && (w.rootfs.Half? ==> w'.rootfs.Half? && w'.rootfs.length >= w.rootfs.length)
  }

  ghost predicate TraceOk(w: World, trace: seq<World>) {
    forall i :: 0 <= i < |trace| ==> WorldOk(trace[i]) && Kept(w, trace[i])
  }

  /** The NAT maps hold exactly the addresses of the metadata. */
  ghost predicate NatExact(t: NatTable, meta: Metadata, n: NetworkConfig) {
    t.maps4 == MapsFor(meta.public4, Guest4(GuestOf(n))) && t.maps6 == MapsFor(meta.public6, Guest6(GuestOf(n)))
  }

  /**
   The postrouting chain is the one for this config and uplink, and the maps are exact, or in
   both families still empty after a build.
   */
  ghost predicate NatMatches(t: NatTable, meta: Metadata, n: NetworkConfig, u: Uplink) {
    && t.postrouting == PostroutingRules(n, GuestOf(n), u.name, u.hostIPv6)
    && (NatExact(t, meta, n) || (t.maps4 == EMPTY_MAPS && t.maps6 == EMPTY_MAPS))
  }

  /** The filter is the one that a fresh build from this config would have. */
  ghost predicate FwMatches(f: Filter, c: Config) {
    f == VmFilter(TAP, c.network.nameservers, c.firewall)
  }

  /** The memory fits the world; what the last save did is said apart. */
  ghost predicate MemoryFits(w: World, m: Memory) {
    && (m.meta.initialized ==> w.rootfs.Whole?)
    && m.config == w.config && m.network == w.config.network
    && (m.applied ==> m.firewall == w.config.firewall)
    && (m.built.Some? || m.inStep ==> m.created)
    && (m.built.Some? && w.table.Some? ==> NatMatches(w.table.value.natTable, m.meta, m.network, m.built.value))
    && (m.inStep && w.table.Some? ==> FwMatches(w.table.value.filter, w.config))
  }

  /** Firecracker runs only for a VM that is wanted and initialized, in memory and on disk. */
  ghost predicate Wanted(w: World, m: Memory) {
    w.fc != Off ==>
      m.meta.running && m.meta.initialized && w.meta.running && w.meta.initialized
  }

  ghost predicate Ready(w: World, m: Memory) { WorldOk(w) && MemoryFits(w, m) && Wanted(w, m) }

  /** What the last save wrote is what is remembered. */
  ghost predicate Saved(w: World, m: Memory) { m.saved ==> w.meta == m.meta }

  ghost predicate MachineOk(s: Machine) {
    match s
    case Up(w, m) => Ready(w, m) && Saved(w, m)
    case Down(w) => WorldOk(w) && w.fc == Off
  }

  /** Every instant of an effect is fine, and so is its end. */
  ghost predicate EffectOk(w: World, e: Effect) {
    var last := End(w, e.trace);
    TraceOk(w, e.trace) && Ready(last, e.memory) && Saved(last, e.memory)
  }

  // ------------------------------------------------------------------
  // Traces
  // ------------------------------------------------------------------

  lemma TraceEnd(w: World, trace: seq<World>)
    requires WorldOk(w) && TraceOk(w, trace)
    ensures WorldOk(End(w, trace)) && Kept(w, End(w, trace))
  {
  }

  lemma TraceThen(w: World, a: seq<World>, b: seq<World>)
    requires WorldOk(w) && TraceOk(w, a) && TraceOk(End(w, a), b)
    ensures TraceOk(w, a + b) && End(w, a + b) == End(End(w, a), b)
  {
  }

  lemma EndThen(w: World, a: seq<World>, b: seq<World>)
    ensures End(w, a + b) == End(End(w, a), b)
  {
  }

  lemma EffectThen(w: World, e: Effect, f: Effect)
    requires WorldOk(w) && TraceOk(w, e.trace) && EffectOk(End(w, e.trace), f)
    ensures EffectOk(w, AndThen(e, f)) && End(w, AndThen(e, f).trace) == End(End(w, e.trace), f.trace)
  {
  }

  // ------------------------------------------------------------------
  // Parts
  // ------------------------------------------------------------------

  lemma SaveFits(w: World, m: Memory, ok: bool)
    requires Ready(w, m)
    ensures EffectOk(w, SaveMetadata(w, m, ok))
    ensures End(w, SaveMetadata(w, m, ok).trace) == w.(meta := if ok then m.meta else w.meta)
  {
  }

  lemma SetupFits(w: World, m: Memory, uplink: Option<string>, hostIPv6: bool)
    requires Ready(w, m) && Saved(w, m) && m.created
    ensures EffectOk(w, SetupTable(w, m, uplink, hostIPv6))
  {
  }

  lemma CreateFits(w: World, m: Memory, o: StartOutcome)
    requires Ready(w, m) && Saved(w, m)
    ensures EffectOk(w, Create(w, m, o))
  {
    if o.enter {
      SetupFits(w, m.(created := true), o.uplink, o.hostIPv6);
    }
  }

  /** From empty or exact maps, syncNATMap ends at exactly the new address. */
  lemma SyncExact(maps: NatMaps, was: Option<Literal>, to: Option<Literal>, guest: Literal)
    requires maps == EMPTY_MAPS || maps == MapsFor(was, guest)
    ensures var steps := SyncSteps(maps, was, to, guest);
            (if steps == [] then maps else steps[|steps| - 1]) == MapsFor(to, guest)
  {
  }

  /** What a sync leaves as it is: everything but the maps. */
  ghost predicate MapsOnly(w: World, w': World) {
    && w' == w.(table := w'.table) && (w'.table.Some? <==> w.table.Some?)
    && (w.table.Some? ==> w'.table.value.filter == w.table.value.filter
                          && w'.table.value.natTable.postrouting == w.table.value.natTable.postrouting)
  }

  lemma Sync4Fits(w: World, m: Memory)
    requires WorldOk(w)
    ensures TraceOk(w, SyncPublicIPv4(w, m))
    ensures var last := End(w, SyncPublicIPv4(w, m));
            && MapsOnly(w, last)
            && (w.table.Some? ==> last.table.value.natTable.maps6 == w.table.value.natTable.maps6)
            && (w.table.Some? && m.created ==>
                  var maps, guest := w.table.value.natTable.maps4, Guest4(GuestOf(m.network));
                  maps == EMPTY_MAPS || maps == MapsFor(m.meta.public4, guest) ==>
                    last.table.value.natTable.maps4 == MapsFor(m.config.network.publicIPv4, guest))
  {
    if m.created && w.table.Some? {
      var maps, guest := w.table.value.natTable.maps4, Guest4(GuestOf(m.network));
      if maps == EMPTY_MAPS || maps == MapsFor(m.meta.public4, guest) {
        SyncExact(maps, m.meta.public4, m.config.network.publicIPv4, guest);
      }
    }
  }

  lemma Sync6Fits(w: World, m: Memory)
    requires WorldOk(w)
    ensures TraceOk(w, SyncPublicIPv6(w, m))
    ensures var last := End(w, SyncPublicIPv6(w, m));
            && MapsOnly(w, last)
            && (w.table.Some? ==> last.table.value.natTable.maps4 == w.table.value.natTable.maps4)
            && (w.table.Some? && m.created ==>
                  var maps, guest := w.table.value.natTable.maps6, Guest6(GuestOf(m.network));
                  maps == EMPTY_MAPS || maps == MapsFor(m.meta.public6, guest) ==>
                    last.table.value.natTable.maps6 == MapsFor(m.config.network.publicIPv6, guest))
  {
    if m.created && w.table.Some? {
      var maps, guest := w.table.value.natTable.maps6, Guest6(GuestOf(m.network));
      if maps == EMPTY_MAPS || maps == MapsFor(m.meta.public6, guest) {
        SyncExact(maps, m.meta.public6, m.config.network.publicIPv6, guest);
      }
    }
  }

  lemma SyncPublicFits(w: World, m: Memory)
    requires Ready(w, m)
    ensures TraceOk(w, SyncPublic(w, m))
    ensures var last := End(w, SyncPublic(w, m));
            && MapsOnly(w, last)
            && (m.built.Some? && last.table.Some? ==>
                  var to := m.config.network;
                  NatExact(last.table.value.natTable,
                           m.meta.(public4 := to.publicIPv4, public6 := to.publicIPv6), m.network))
  {
    var four := SyncPublicIPv4(w, m);
    var w4 := End(w, four);
    Sync4Fits(w, m);
    TraceEnd(w, four);
    Sync6Fits(w4, m);
    TraceThen(w, four, SyncPublicIPv6(w4, m));
  }

  /** After applyPublicIPs config, metadata and maps agree, whatever they were before. */
  ghost predicate PublicInStep(w: World, m: Memory) {
    && m.meta.public4 == w.config.network.publicIPv4 && m.meta.public6 == w.config.network.publicIPv6
    && (m.built.Some? && w.table.Some? ==> NatExact(w.table.value.natTable, m.meta, w.config.network))
  }

  lemma ApplyPublicFits(w: World, m: Memory, save: bool)
    requires Ready(w, m)
    ensures var e := ApplyPublicIPs(w, m, save);
            && EffectOk(w, e) && PublicInStep(End(w, e.trace), e.memory)
            && End(w, e.trace).config == w.config && e.memory == m.(meta := e.memory.meta, saved := save)
  {
    SyncPublicFits(w, m);
    var trace := SyncPublic(w, m);
    var last := End(w, trace);
    TraceEnd(w, trace);
    var m' := m.(meta := m.meta.(public4 := m.config.network.publicIPv4, public6 := m.config.network.publicIPv6));
    assert Ready(last, m');
    SaveFits(last, m', save);
    EffectThen(w, Effect(trace, m, true), SaveMetadata(last, m', save));
  }

  lemma PrepareStates(f: Rootfs, source: nat, size: int, p: Prepare)
    requires f == Absent
    ensures var s := PrepareRootfs(f, source, size, p);
            && (s.ok ==> Final(f, s) == Whole(size))
            && (forall i :: 0 <= i < |s.states| ==> !s.states[i].Whole? || (i == |s.states| - 1 && s.ok))
  {
    PrepareOnce(f, source, size, p);
    var s := PrepareRootfs(f, source, size, p);
    forall i | 0 <= i < |s.states| ensures !s.states[i].Whole? || (i == |s.states| - 1 && s.ok) {
      if s.ok && i < |s.states| - 1 {
        assert s.states[i] == s.states[..|s.states| - 1][i];
      }
    }
  }

  /** Until the build succeeds nothing was whole, so the one success is the first. */
  lemma BuildTrace(w: World, source: nat, size: int, p: Prepare)
    requires WorldOk(w) && w.config.size == size
    ensures var s := PrepareRootfs(w.rootfs, source, size, p); var trace := RootfsTrace(w, s.states);
            && TraceOk(w, trace)
            && End(w, trace) == w.(rootfs := End(w, trace).rootfs, builds := End(w, trace).builds)
            && (s.ok ==> End(w, trace).rootfs.Whole?)
  {
    var s := PrepareRootfs(w.rootfs, source, size, p);
    PrepareOnce(w.rootfs, source, size, p);
    if w.rootfs == Absent {
      PrepareStates(w.rootfs, source, size, p);
    }
  }

  lemma InitializeFits(w: World, m: Memory, o: StartOutcome)
    requires Ready(w, m) && Saved(w, m) && !m.meta.initialized
    ensures EffectOk(w, Initialize(w, m, o))
    ensures Initialize(w, m, o).ok ==> Initialize(w, m, o).memory.meta.initialized && Initialize(w, m, o).memory.saved
    ensures Initialize(w, m, o).memory.meta.running == m.meta.running
  {
    if BootSourceCount(m.config) == 1 && o.source.Some? {
      var s := PrepareRootfs(w.rootfs, o.source.value, m.config.size, o.prepare);
      var trace := RootfsTrace(w, s.states);
      BuildTrace(w, o.source.value, m.config.size, o.prepare);
      TraceEnd(w, trace);
      if s.ok {
        var m' := m.(meta := m.meta.(initialized := true));
        SaveFits(End(w, trace), m', o.saveInit);
        EffectThen(w, Effect(trace, m, true), SaveMetadata(End(w, trace), m', o.saveInit));
      }
    }
  }

  lemma BootFits(w: World, m: Memory, boot: BootOutcome)
    requires Ready(w, m) && Saved(w, m) && m.saved && m.meta.initialized && m.meta.running
    ensures EffectOk(w, BootFirecracker(w, m, boot))
  {
  }

  // ------------------------------------------------------------------
  // Operations
  // ------------------------------------------------------------------

  lemma StartVmFits(w: World, m: Memory, o: StartOutcome)
    requires Ready(w, m) && Saved(w, m) && m.saved && m.meta.running
    ensures EffectOk(w, StartVm(w, m, o))
  {
    var init := if m.meta.initialized then Effect([], m, true) else Initialize(w, m, o);
    if !m.meta.initialized {
      InitializeFits(w, m, o);
    }
    if init.ok {
      BootFits(End(w, init.trace), init.memory, o.boot);
      EffectThen(w, init, BootFirecracker(End(w, init.trace), init.memory, o.boot));
    }
  }

  lemma CreateKeeps(w: World, m: Memory, o: StartOutcome)
    ensures Create(w, m, o).memory.meta == m.meta
  {
  }

  lemma BringUpFits(w: World, m: Memory, o: StartOutcome)
    requires Ready(w, m) && Saved(w, m) && m.meta.running
    ensures EffectOk(w, BringUp(w, m, o))
  {
    var create := Create(w, m, o);
    CreateFits(w, m, o);
    CreateKeeps(w, m, o);
    if create.ok {
      var w1 := End(w, create.trace);
      var apply := ApplyPublicIPs(w1, create.memory, o.savePublic);
      ApplyPublicFits(w1, create.memory, o.savePublic);
      EffectThen(w, create, apply);
      var public := AndThen(create, apply);
      if public.ok {
        var w2 := End(w, public.trace);
        StartVmFits(w2, public.memory, o);
        EffectThen(w, public, StartVm(w2, public.memory, o));
      }
    }
  }

  lemma StartFits(w: World, m: Memory, o: StartOutcome)
    requires Ready(w, m)
    ensures EffectOk(w, Start(w, m, o))
  {
    var m' := m.(meta := m.meta.(running := true));
    var wanted := SaveMetadata(w, m', o.saveDesired);
    SaveFits(w, m', o.saveDesired);
    BringUpFits(End(w, wanted.trace), wanted.memory, o);
    EffectThen(w, wanted, BringUp(End(w, wanted.trace), wanted.memory, o));
  }

  /** Stop passes through at most four worlds. */
  lemma StopInstants(w: World, m: Memory, saveDesired: bool, savePublic: bool, i: nat)
    requires i < |Stop(w, m, saveDesired, savePublic).trace|
    ensures var at := Stop(w, m, saveDesired, savePublic).trace[i]; var m1 := m.meta.(running := false);
            var off := (if saveDesired then w.(meta := m1) else w).(fc := Off);
            var cleared := if savePublic then off.(meta := m1.(public4 := None, public6 := None)) else off;
            || at == off.(fc := w.fc) || at == off || at == cleared
            || at == if m.created then cleared.(table := None) else cleared
  {
  }

  lemma StopTraceOk(w: World, m: Memory, saveDesired: bool, savePublic: bool)
    requires Ready(w, m)
    ensures TraceOk(w, Stop(w, m, saveDesired, savePublic).trace)
  {
    var trace := Stop(w, m, saveDesired, savePublic).trace;
    forall i | 0 <= i < |trace| ensures WorldOk(trace[i]) && Kept(w, trace[i]) {
      StopInstants(w, m, saveDesired, savePublic, i);
    }
  }

  /** Stop ends with Firecracker off, and the table gone if this process made it. */
  lemma StopEnd(w: World, m: Memory, saveDesired: bool, savePublic: bool)
    ensures var e := Stop(w, m, saveDesired, savePublic); var last := End(w, e.trace);
            && last.fc == Off && (m.created ==> last.table.None?) && last.config == w.config && last.rootfs == w.rootfs
            && e.memory == m.(meta := m.meta.(running := false, public4 := None, public6 := None), saved := savePublic)
            && (savePublic ==> last.meta == e.memory.meta)
            && last.meta.running == (w.meta.running && !saveDesired && !savePublic)
            && last.meta.initialized == (if saveDesired || savePublic then m.meta.initialized else w.meta.initialized)
  {
  }

  lemma StopFits(w: World, m: Memory, saveDesired: bool, savePublic: bool)
    requires Ready(w, m) && Saved(w, m)
    ensures EffectOk(w, Stop(w, m, saveDesired, savePublic))
  {
    StopTraceOk(w, m, saveDesired, savePublic);
    StopEnd(w, m, saveDesired, savePublic);
    TraceEnd(w, Stop(w, m, saveDesired, savePublic).trace);
  }

  lemma RebootFits(w: World, m: Memory, o: StartOutcome)
    requires Ready(w, m)
    ensures EffectOk(w, Reboot(w, m, o))
  {
    var off := w.(fc := Off);
    StartFits(off, m, o);
    EffectThen(w, Effect([off], m, true), Start(off, m, o));
  }

  /** Replacing the fw chain gives the filter that a fresh build has. */
  lemma ReplacedFilter(f: Filter, nameservers: seq<AddressField>, firewall: FirewallConfig)
    requires BaseChains(f)
    ensures f.(chains := f.chains["fw" := FwRules(TAP, nameservers, firewall)]) == VmFilter(TAP, nameservers, firewall)
  {
  }

  lemma SetFirewallFits(w: World, m: Memory)
    requires Ready(w, m) && Saved(w, m)
    ensures EffectOk(w, SetFirewall(w, m, w.config.firewall))
  {
    if m.created && w.table.Some? {
      ReplacedFilter(w.table.value.filter, m.network.nameservers, w.config.firewall);
      var t := w.table.value;
      var e := SetFirewall(w, m, w.config.firewall);
      if e.trace != [] {
        assert e.trace == [w.(table := Some(t.(filter := VmFilter(TAP, m.network.nameservers, w.config.firewall))))];
      }
    }
  }

  /** What no writer of the config changes in its network section. */
  ghost predicate SameHost(n: NetworkConfig, n': NetworkConfig) {
    n' == n.(publicIPv4 := n'.publicIPv4, publicIPv6 := n'.publicIPv6)
  }

  lemma NatCarries(t: NatTable, meta: Metadata, n: NetworkConfig, n': NetworkConfig, u: Uplink)
    requires NatMatches(t, meta, n, u) && SameHost(n, n')
    ensures NatMatches(t, meta, n', u)
  {
  }

  /** The config in memory may lag behind the file, but only up to the point where it is applied. */
  lemma AppliedReady(was: Config, w: World, m: Memory)
    requires WorldOk(w) && Ready(w.(config := was), m) && SameHost(was.network, w.config.network)
    ensures Ready(w, m.(config := w.config, network := w.config.network, applied := false, inStep := false))
  {
    if m.built.Some? && w.table.Some? {
      NatCarries(w.table.value.natTable, m.meta, was.network, w.config.network, m.built.value);
    }
  }

  lemma ApplyConfigFits(was: Config, w: World, m: Memory, o: ApplyOutcome)
    requires WorldOk(w) && Ready(w.(config := was), m) && Saved(w, m)
    requires SameHost(was.network, w.config.network)
    ensures EffectOk(w, ApplyConfig(w, m, w.config, o))
  {
    var c := w.config;
    var m1 := m.(config := c, network := c.network, applied := false, inStep := false);
    AppliedReady(was, w, m);
    ApplyPublicFits(w, m1, o.savePublic);
    var public := ApplyPublicIPs(w, m1, o.savePublic);
    if public.ok && o.tc {
      SetFirewallFits(End(w, public.trace), public.memory);
      EffectThen(w, public, SetFirewall(End(w, public.trace), public.memory, c.firewall));
    }
  }

  lemma SaveAndApplyFits(w: World, m: Memory, c: Config, o: ApplyOutcome)
    requires Ready(w, m) && Saved(w, m) && WorldOk(w.(config := c)) && SameHost(w.config.network, c.network)
    ensures EffectOk(w, SaveAndApply(w, m, c, o))
  {
    var w1 := w.(config := c);
    assert w1.(config := w.config) == w;
    ApplyConfigFits(w.config, w1, m, o);
    EffectThen(w, Effect([w1], m, true), ApplyConfig(w1, m, c, o));
  }

  lemma ReloadFits(w: World, m: Memory, load: bool, o: ApplyOutcome)
    requires Ready(w, m) && Saved(w, m)
    ensures EffectOk(w, Reload(w, m, load, o))
  {
    assert w.(config := w.config) == w;
    ApplyConfigFits(w.config, w, m, o);
  }

  lemma MutateFits(w: World, m: Memory, e: Edit, load: bool, save: bool, o: ApplyOutcome)
    requires Ready(w, m) && Saved(w, m)
    ensures EffectOk(w, MutateConfig(w, m, e, load, save, o))
  {
    SaveAndApplyFits(w, m, Edited(w.config, e), o);
  }

  lemma ResizeFits(w: World, m: Memory, cpus: int, memory: int, load: bool, save: bool)
    requires Ready(w, m) && Saved(w, m)
    ensures EffectOk(w, Resize(w, m, cpus, memory, load, save))
  {
  }

  lemma GrowFits(w: World, m: Memory, size: int, g: GrowOutcome)
    requires Ready(w, m) && Saved(w, m)
    ensures var s := GrowRootfs(w.rootfs, size, w.fc == Off, g);
            var trace := RootfsTrace(w, s.states); var last := End(w, trace);
            && TraceOk(w, trace) && Ready(last, m) && Saved(last, m) && last == w.(rootfs := last.rootfs)
            && (s.ok && last.rootfs.Whole? ==> last.rootfs.length >= size)
  {
  }

  lemma ResizeRootfsFits(w: World, m: Memory, size: int, bandwidth: int, iops: int, o: ResizeOutcome)
    requires Ready(w, m) && Saved(w, m)
    ensures EffectOk(w, ResizeRootfs(w, m, size, bandwidth, iops, o))
  {
    if o.load {
      var growing := size > w.config.size;
      var s := if growing then GrowRootfs(w.rootfs, size, w.fc == Off, o.grow) else Steps([], true);
      var trace := RootfsTrace(w, s.states);
      GrowFits(w, m, size, o.grow);
      var w1 := End(w, trace);
      if s.ok && !(growing && w.fc != Off && !o.told) && o.save {
        var c := w.config.(size := if growing then size else w.config.size, bandwidth := bandwidth, iops := iops);
        SaveAndApplyFits(w1, m, c, o.apply);
        EffectThen(w, Effect(trace, m, true), SaveAndApply(w1, m, c, o.apply));
      }
    }
  }

  lemma SnapshotFits(w: World, m: Memory, o: CopyRootfs)
    requires Ready(w, m) && Saved(w, m)
    ensures EffectOk(w, CreateSnapshot(w, m, o))
  {
    if o.Offline? && w.fc != Off {
      RebootFits(w, m, o.start);
    }
  }

  lemma ConfigOpFits(w: World, m: Memory, op: Op)
    requires Ready(w, m) && Saved(w, m) && WritesConfig(op)
    ensures EffectOk(w, Perform(w, m, op))
  {
    match op
    case ReloadOp(l, o) => ReloadFits(w, m, l, o);
    case MutateOp(e, l, s, o) => MutateFits(w, m, e, l, s, o);
    case ResizeOp(c, mem, l, s) => ResizeFits(w, m, c, mem, l, s);
    case ResizeRootfsOp(size, b, i, o) => ResizeRootfsFits(w, m, size, b, i, o);
  }

  /** Every operation, whatever fails in it, keeps the invariant at its end and at each crash point. */
  lemma PerformFits(w: World, m: Memory, op: Op)
    requires Ready(w, m) && Saved(w, m)
    ensures EffectOk(w, Perform(w, m, op))
  {
    match op
    case StartOp(o) => StartFits(w, m, o);
    case StopOp(d, p) => StopFits(w, m, d, p);
    case RebootOp(o) => RebootFits(w, m, o);
    case SnapshotOp(o) => SnapshotFits(w, m, o);
    case _ => ConfigOpFits(w, m, op);
  }

  lemma NewRuntimeFits(w: World, l: Loading)
    requires WorldOk(w) && w.fc == Off
    ensures EffectOk(w, NewRuntime(w, l))
  {
  }

  lemma RunOpFits(w: World, m: Memory, o: StartOutcome)
    requires Ready(w, m) && Saved(w, m)
    ensures EffectOk(w, Run(w, m, o))
  {
    if m.meta.running {
      StartFits(w, m, o);
    }
  }

  lemma RecoverFits(w: World, l: Loading, o: StartOutcome)
    requires WorldOk(w) && w.fc == Off
    ensures EffectOk(w, Recover(w, l, o))
  {
    var begun := NewRuntime(w, l);
    NewRuntimeFits(w, l);
    RunOpFits(End(w, begun.trace), begun.memory, o);
    EffectThen(w, begun, Run(End(w, begun.trace), begun.memory, o));
  }

  // ------------------------------------------------------------------
  // Runs
  // ------------------------------------------------------------------

  lemma AfterFits(s: Machine, e: Event)
    requires MachineOk(s) && Possible(s, e)
    ensures MachineOk(After(s, e)) && Kept(s.world, After(s, e).world)
  {
    match e
    case Done(op) =>
      PerformFits(s.world, s.memory, op);
      TraceEnd(s.world, Perform(s.world, s.memory, op).trace);
    case Cut(op, _, _) => PerformFits(s.world, s.memory, op);
    case Die(_) =>
    case Boot(l, o) =>
      RecoverFits(s.world, l, o);
      TraceEnd(s.world, Recover(s.world, l, o).trace);
    case BootCut(l, o, _, _) => RecoverFits(s.world, l, o);
  }

  /**
   Over every run: the invariant holds at the end, so Firecracker runs only a disk that one
   completed build made, for a VM that is initialized and wanted; and no disk shrinks, and no
   half disk is built over.
   */
  lemma {:induction false} RunFits(s: Machine, events: seq<Event>, s': Machine)
    requires MachineOk(s) && MachineRun(s, events, s')
    ensures MachineOk(s') && Kept(s.world, s'.world)
    decreases |events|
  {
    if events != [] {
      AfterFits(s, events[0]);
      RunFits(After(s, events[0]), events[1..], s');
    }
  }

  lemma NewMachineOk(c: Config)
    ensures MachineOk(NewMachine(c))
  {
  }
}
