/** What the nft table of a VM holds after any operations: its NAT maps and its fw chain. */
module LifecycleNetwork {
  import opened Basics
  import opened Config
  import opened Nft
  import opened Firewall
  import opened Nat
  import opened Disk
  import opened Lifecycle
  import opened LifecycleClaims
  import opened LifecycleProofs

  // ------------------------------------------------------------------
  // NAT
  // ------------------------------------------------------------------

  ghost predicate SameNetwork(w: World, m: Memory, e: Effect) {
    var last := End(w, e.trace);
    && last.table == w.table && last.config == w.config
    && e.memory == m.(meta := m.meta.(initialized := e.memory.meta.initialized), saved := e.memory.saved)
  }

  lemma SameNetworkThen(w: World, m: Memory, e: Effect, f: Effect)
    requires SameNetwork(w, m, e) && SameNetwork(End(w, e.trace), e.memory, f)
    ensures SameNetwork(w, m, AndThen(e, f))
  {
  }

  lemma InitializeKeepsNetwork(w: World, m: Memory, o: StartOutcome)
    ensures SameNetwork(w, m, Initialize(w, m, o))
  {
    if BootSourceCount(m.config) == 1 && o.source.Some? {
      var s := PrepareRootfs(w.rootfs, o.source.value, m.config.size, o.prepare);
      var e := Effect(RootfsTrace(w, s.states), m, s.ok);
      assert SameNetwork(w, m, e);
      if s.ok {
        SameNetworkThen(w, m, e, SaveMetadata(End(w, e.trace), m.(meta := m.meta.(initialized := true)), o.saveInit));
      }
    }
  }

  lemma BootKeepsNetwork(w: World, m: Memory, boot: BootOutcome)
    ensures SameNetwork(w, m, BootFirecracker(w, m, boot))
  {
  }

  /** The stages of Start that follow leave table and public addresses alone. */
  lemma StartVmKeepsNetwork(w: World, m: Memory, o: StartOutcome)
    ensures SameNetwork(w, m, StartVm(w, m, o))
  {
    var init := if m.meta.initialized then Effect([], m, true) else Initialize(w, m, o);
    InitializeKeepsNetwork(w, m, o);
    BootKeepsNetwork(End(w, init.trace), init.memory, o.boot);
    if init.ok {
      SameNetworkThen(w, m, init, BootFirecracker(End(w, init.trace), init.memory, o.boot));
    }
  }

  lemma CreateMakesTable(w: World, m: Memory, o: StartOutcome)
    requires o.enter && o.uplink.Some? && RulesLoad(FwRules(TAP, m.network.nameservers, m.firewall))
    ensures var e := Create(w, m, o); var last := End(w, e.trace);
            && last.table.Some? && last.table.value.filter == VmFilter(TAP, m.network.nameservers, m.firewall)
            && last.config == w.config
            && e.memory == m.(created := true, built := Some(Uplink(o.uplink.value, o.hostIPv6)), inStep := m.applied)
  {
  }

  /** A start that succeeds has config, metadata and maps agree. */
  lemma StartPublishes(w: World, m: Memory, o: StartOutcome)
    requires Ready(w, m)
    ensures var e := Start(w, m, o); e.ok ==> PublicInStep(End(w, e.trace), e.memory)
  {
    var m' := m.(meta := m.meta.(running := true));
    var wanted := SaveMetadata(w, m', o.saveDesired);
    SaveFits(w, m', o.saveDesired);
    BringUpPublishes(End(w, wanted.trace), wanted.memory, o);
    BringUpFits(End(w, wanted.trace), wanted.memory, o);
    EffectThen(w, wanted, BringUp(End(w, wanted.trace), wanted.memory, o));
  }

  lemma BringUpPublishes(w: World, m: Memory, o: StartOutcome)
    requires Ready(w, m) && Saved(w, m) && m.meta.running
    ensures var e := BringUp(w, m, o); e.ok ==> PublicInStep(End(w, e.trace), e.memory)
  {
    var create := Create(w, m, o);
    CreateFits(w, m, o);
    CreateKeeps(w, m, o);
    if create.ok {
      var w1 := End(w, create.trace);
      var apply := ApplyPublicIPs(w1, create.memory, o.savePublic);
      ApplyPublicFits(w1, create.memory, o.savePublic);
      EffectThen(w, create, apply);
      var public := AndThen(create, apply);
      if public.ok {
        var w2 := End(w, public.trace);
        StartVmKeepsNetwork(w2, public.memory, o);
        StartVmFits(w2, public.memory, o);
        EffectThen(w, public, StartVm(w2, public.memory, o));
      }
    }
  }

  lemma SetFirewallKeepsNat(w: World, m: Memory, f: FirewallConfig)
    requires PublicInStep(w, m)
    ensures PublicInStep(End(w, SetFirewall(w, m, f).trace), SetFirewall(w, m, f).memory)
  {
  }

  /** So does an applied config, even one that fails after the public addresses. */
  lemma ApplyPublishes(was: Config, w: World, m: Memory, o: ApplyOutcome)
    requires WorldOk(w) && Ready(w.(config := was), m) && Saved(w, m) && SameHost(was.network, w.config.network)
    ensures var e := ApplyConfig(w, m, w.config, o); PublicInStep(End(w, e.trace), e.memory)
  {
    var c := w.config;
    var m1 := m.(config := c, network := c.network, applied := false, inStep := false);
    AppliedReady(was, w, m);
    ApplyPublicFits(w, m1, o.savePublic);
    var public := ApplyPublicIPs(w, m1, o.savePublic);
    if public.ok && o.tc {
      var w1 := End(w, public.trace);
      SetFirewallKeepsNat(w1, public.memory, c.firewall);
      SetFirewallFits(w1, public.memory);
      EffectThen(w, public, SetFirewall(w1, public.memory, c.firewall));
    }
  }

  /** With exact maps the table translates as promised for the addresses of the metadata. */
  lemma ExactSource(n: NetworkConfig, t: NatTable, meta: Metadata, u: Uplink, oif: string, saddr: Literal)
    requires NatMatches(t, meta, n, u) && NatExact(t, meta, n)
    ensures Postrouting(t, t.postrouting, oif, saddr)
            == PromisedSource(n, GuestOf(n), u.name, u.hostIPv6, meta.public4, meta.public6, oif, saddr)
  {
    OutgoingSource(n, GuestOf(n), u.name, u.hostIPv6, meta.public4, meta.public6, oif, saddr);
    assert t == VmNat(n, GuestOf(n), u.name, u.hostIPv6, meta.public4, meta.public6);
  }

  /** While they are empty it masquerades, whatever the metadata remembers. */
  lemma EmptySource(n: NetworkConfig, t: NatTable, meta: Metadata, u: Uplink, oif: string, saddr: Literal)
    requires NatMatches(t, meta, n, u) && t.maps4 == EMPTY_MAPS && t.maps6 == EMPTY_MAPS
    ensures Postrouting(t, t.postrouting, oif, saddr)
            == PromisedSource(n, GuestOf(n), u.name, u.hostIPv6, None, None, oif, saddr)
  {
    OutgoingSource(n, GuestOf(n), u.name, u.hostIPv6, None, None, oif, saddr);
    assert t == VmNat(n, GuestOf(n), u.name, u.hostIPv6, None, None);
  }

  /** An address that stays is never unmapped: no step of the sync changes exact maps. */
  lemma UnchangedStaysMapped(public: Option<Literal>, guest: Literal)
    ensures forall i :: 0 <= i < |SyncSteps(MapsFor(public, guest), public, public, guest)| ==>
              SyncSteps(MapsFor(public, guest), public, public, guest)[i] == MapsFor(public, guest)
  {
  }

  /**
   While an address moves, every step has the old pair or parts of it, and then of the new one: no
   step maps the guest to an address that does not lead back to it, or to none.
   */
  lemma MovesInOrder(from: Option<Literal>, to: Option<Literal>, guest: Literal, i: nat)
    requires i < |SyncSteps(MapsFor(from, guest), from, to, guest)|
    ensures var step := SyncSteps(MapsFor(from, guest), from, to, guest)[i];
            && step.dnat in {MapsFor(from, guest).dnat, map[], MapsFor(to, guest).dnat}
            && step.snat in {MapsFor(from, guest).snat, map[], MapsFor(to, guest).snat}
  {
  }

  /** Each nft command of a sync changes one of the two maps at most. */
  lemma OneMapAtATime(maps: NatMaps, was: Option<Literal>, to: Option<Literal>, guest: Literal, i: nat)
    requires i < |SyncSteps(maps, was, to, guest)|
    ensures var steps := SyncSteps(maps, was, to, guest); var before := if i == 0 then maps else steps[i - 1];
            steps[i].dnat == before.dnat || steps[i].snat == before.snat
  {
  }

  /** A start with an uplink and rules that load ends with the table of that uplink. */
  lemma StartBuilds(w: World, m: Memory, o: StartOutcome)
    requires Ready(w, m) && o.uplink.Some? && MemoryLoads(m)
    ensures var e := Start(w, m, o);
            e.ok ==> End(w, e.trace).table.Some? && e.memory.built == Some(Uplink(o.uplink.value, o.hostIPv6))
  {
    var m' := m.(meta := m.meta.(running := true));
    var wanted := SaveMetadata(w, m', o.saveDesired);
    var w1 := End(w, wanted.trace);
    SaveFits(w, m', o.saveDesired);
    BringUpBuilds(w1, wanted.memory, o);
    EndThen(w, wanted.trace, BringUp(w1, wanted.memory, o).trace);
  }

  lemma BringUpBuilds(w: World, m: Memory, o: StartOutcome)
    requires Ready(w, m) && Saved(w, m) && o.uplink.Some? && MemoryLoads(m)
    ensures var e := BringUp(w, m, o);
            e.ok ==> End(w, e.trace).table.Some? && e.memory.built == Some(Uplink(o.uplink.value, o.hostIPv6))
  {
    var create := Create(w, m, o);
    if create.ok {
      var w1 := End(w, create.trace);
      CreateMakesTable(w, m, o);
      var apply := ApplyPublicIPs(w1, create.memory, o.savePublic);
      ApplyKeepsTable(w1, create.memory, o.savePublic);
      var public := AndThen(create, apply);
      EndThen(w, create.trace, apply.trace);
      if public.ok {
        StartVmKeepsNetwork(End(w, public.trace), public.memory, o);
        EndThen(w, public.trace, StartVm(End(w, public.trace), public.memory, o).trace);
      }
    }
  }

  lemma ApplyKeepsTable(w: World, m: Memory, save: bool)
    requires w.table.Some?
    ensures var e := ApplyPublicIPs(w, m, save); End(w, e.trace).table.Some? && e.memory.built == m.built
  {
    var trace := SyncPublic(w, m);
    EndThen(w, SyncPublicIPv4(w, m), SyncPublicIPv6(End(w, SyncPublicIPv4(w, m)), m));
    EndThen(w, trace, ApplyPublicIPs(w, m, save).trace[|trace|..]);
  }

  // ------------------------------------------------------------------
  // NAT over runs
  // ------------------------------------------------------------------

  predicate ConfigLoads(c: Config) { RulesLoad(FwRules(TAP, c.network.nameservers, c.firewall)) }

  predicate MemoryLoads(m: Memory) { RulesLoad(FwRules(TAP, m.network.nameservers, m.firewall)) }

  /** Every Create of this process has built the table, and the next one can. */
  ghost predicate Builds(m: Memory) { MemoryLoads(m) && (m.created ==> m.built.Some?) }

  predicate Uplinked(op: Op) {
    match op
    case StartOp(o) => o.uplink.Some?
    case RebootOp(o) => o.uplink.Some?
    case SnapshotOp(c) => c.Offline? ==> c.start.uplink.Some?
    case _ => true
  }

  /** No start misses the uplink. */
  predicate HasUplink(e: Event) {
    match e
    case Done(op) => Uplinked(op)
    case Boot(_, o) => o.uplink.Some?
    case _ => true
  }

  lemma BuildsStart(w: World, m: Memory, o: StartOutcome)
    requires Builds(m) && o.uplink.Some?
    ensures Builds(Start(w, m, o).memory)
  {
    var m' := m.(meta := m.meta.(running := true));
    var wanted := SaveMetadata(w, m', o.saveDesired);
    BuildsBringUp(End(w, wanted.trace), wanted.memory, o);
  }

  lemma BuildsBringUp(w: World, m: Memory, o: StartOutcome)
    requires Builds(m) && o.uplink.Some?
    ensures Builds(BringUp(w, m, o).memory)
  {
    var create := Create(w, m, o);
    if create.ok {
      var public := AndThen(create, ApplyPublicIPs(End(w, create.trace), create.memory, o.savePublic));
      StartVmKeepsNetwork(End(w, public.trace), public.memory, o);
    }
  }

  lemma BuildsApply(w: World, m: Memory, c: Config, o: ApplyOutcome)
    requires Builds(m) && SameHost(m.network, c.network) && ConfigLoads(c)
    ensures Builds(ApplyConfig(w, m, c, o).memory)
  {
  }

  lemma BuildsVmOp(w: World, m: Memory, op: Op)
    requires Builds(m) && Uplinked(op) && !WritesConfig(op)
    ensures Builds(Perform(w, m, op).memory)
  {
    match op
    case StartOp(o) => BuildsStart(w, m, o);
    case StopOp(d, p) => StopEnd(w, m, d, p);
    case RebootOp(o) => BuildsStart(w.(fc := Off), m, o);
    case SnapshotOp(c) => BuildsSnapshot(w, m, c);
  }

  lemma BuildsReload(w: World, m: Memory, load: bool, o: ApplyOutcome)
    requires Ready(w, m) && Builds(m) && ConfigLoads(w.config)
    ensures Builds(Reload(w, m, load, o).memory)
  {
    BuildsApply(w, m, w.config, o);
  }

  lemma BuildsResize(w: World, m: Memory, cpus: int, memory: int, load: bool, save: bool)
    requires Builds(m)
    ensures Builds(Resize(w, m, cpus, memory, load, save).memory)
  {
  }

  lemma BuildsConfigOp(w: World, m: Memory, op: Op)
    requires Ready(w, m) && Builds(m) && WritesConfig(op) && ConfigLoads(w.config)
    requires ConfigLoads(End(w, Perform(w, m, op).trace).config)
    ensures Builds(Perform(w, m, op).memory)
  {
    match op
    case ReloadOp(l, o) => BuildsReload(w, m, l, o);
    case MutateOp(e, l, s, o) => BuildsMutate(w, m, e, l, s, o);
    case ResizeOp(c, mem, l, s) => BuildsResize(w, m, c, mem, l, s);
    case ResizeRootfsOp(size, b, i, o) => BuildsResizeRootfs(w, m, size, b, i, o);
  }

  lemma BuildsPerform(w: World, m: Memory, op: Op)
    requires Ready(w, m) && Saved(w, m) && Builds(m) && Uplinked(op) && ConfigLoads(w.config)
    requires ConfigLoads(End(w, Perform(w, m, op).trace).config)
    ensures Builds(Perform(w, m, op).memory)
  {
    if WritesConfig(op) {
      BuildsConfigOp(w, m, op);
    } else {
      BuildsVmOp(w, m, op);
    }
  }

  /** An edit that is saved leaves the edited config. */
  lemma MutatedConfig(w: World, m: Memory, e: Edit, load: bool, save: bool, o: ApplyOutcome)
    requires load && save && Validate(Edited(w.config, e))
    ensures End(w, MutateConfig(w, m, e, load, save, o).trace).config == Edited(w.config, e)
  {
    var c := Edited(w.config, e);
    var w1 := w.(config := c);
    ApplyConfigTame(w1, m, c, o);
    EndThen(w, [w1], ApplyConfig(w1, m, c, o).trace);
  }

  lemma BuildsMutate(w: World, m: Memory, e: Edit, load: bool, save: bool, o: ApplyOutcome)
    requires Ready(w, m) && Builds(m)
    requires ConfigLoads(End(w, MutateConfig(w, m, e, load, save, o).trace).config)
    ensures Builds(MutateConfig(w, m, e, load, save, o).memory)
  {
    var c := Edited(w.config, e);
    if load && save && Validate(c) {
      MutatedConfig(w, m, e, load, save, o);
      BuildsApply(w.(config := c), m, c, o);
    }
  }

  lemma BuildsResizeRootfs(w: World, m: Memory, size: int, bandwidth: int, iops: int, o: ResizeOutcome)
    requires Ready(w, m) && Builds(m) && ConfigLoads(w.config)
    ensures Builds(ResizeRootfs(w, m, size, bandwidth, iops, o).memory)
  {
    if o.load {
      var growing := size > w.config.size;
      var s := if growing then GrowRootfs(w.rootfs, size, w.fc == Off, o.grow) else Steps([], true);
      var c := w.config.(size := if growing then size else w.config.size, bandwidth := bandwidth, iops := iops);
      var w1 := End(w, RootfsTrace(w, s.states)).(config := c);
      BuildsApply(w1, m, c, o.apply);
    }
  }

  lemma BuildsSnapshot(w: World, m: Memory, c: CopyRootfs)
    requires Builds(m) && Uplinked(SnapshotOp(c))
    ensures Builds(CreateSnapshot(w, m, c).memory)
  {
    if c.Offline? {
      BuildsStart(w.(fc := Off), m, c.start);
    }
  }

  lemma BuildsStep(s: Machine, e: Event)
    requires MachineOk(s) && (s.Up? ==> Builds(s.memory)) && Possible(s, e) && HasUplink(e)
    requires ConfigLoads(s.world.config) && ConfigLoads(After(s, e).world.config)
    ensures After(s, e).Up? ==> Builds(After(s, e).memory)
  {
    match e
    case Done(op) => BuildsPerform(s.world, s.memory, op);
    case Boot(l, o) =>
      var begun := NewRuntime(s.world, l);
      if begun.memory.meta.running {
        BuildsStart(End(s.world, begun.trace), begun.memory, o);
      }
    case _ =>
  }

  /** A run in which no start misses the uplink, through configs whose rules nft accepts. */
  predicate UplinkRun(s: Machine, events: seq<Event>)
    decreases |events|
  {
    && ConfigLoads(s.world.config)
    && (events == []
        || (Possible(s, events[0]) && HasUplink(events[0]) && UplinkRun(After(s, events[0]), events[1..])))
  }

  lemma {:induction false} BuildsRun(s: Machine, events: seq<Event>, s': Machine)
    requires MachineOk(s) && (s.Up? ==> Builds(s.memory)) && MachineRun(s, events, s') && UplinkRun(s, events)
    ensures s'.Up? ==> Builds(s'.memory)
    decreases |events|
  {
    if events == [] {
    } else {
      AfterFits(s, events[0]);
      assert ConfigLoads(After(s, events[0]).world.config);
      BuildsStep(s, events[0]);
      BuildsRun(After(s, events[0]), events[1..], s');
    }
  }

  /**
   With an uplink and rules that load, every operation of a run leaves the maps of both
   families exact or empty, in a table built for an uplink that Create was given.
   */
  lemma MapsStayInverse(c: Config, events: seq<Event>, s: Machine)
    requires MachineRun(NewMachine(c), events, s) && UplinkRun(NewMachine(c), events)
    requires s.Up? && s.memory.created && s.world.table.Some?
    ensures s.memory.built.Some?
    ensures NatMatches(s.world.table.value.natTable, s.memory.meta, s.world.config.network, s.memory.built.value)
  {
    NewMachineOk(c);
    BuildsRun(NewMachine(c), events, s);
    RunFits(NewMachine(c), events, s);
  }

  /**
   Over every such run the source of an outgoing packet is the promised one: the public address
   that the metadata remembers for the guest, or none while the maps of a new table are still
   empty, and otherwise the masquerade on the uplink that Create was given.
   */
  lemma ReachableSource(c: Config, events: seq<Event>, s: Machine, oif: string, saddr: Literal)
    requires MachineRun(NewMachine(c), events, s) && UplinkRun(NewMachine(c), events)
    requires s.Up? && s.memory.created && s.world.table.Some?
    ensures s.memory.built.Some?
    ensures var n, t := s.world.config.network, s.world.table.value.natTable;
            var u, meta := s.memory.built.value, s.memory.meta;
            var unset := t.maps4 == EMPTY_MAPS && t.maps6 == EMPTY_MAPS;
            Postrouting(t, t.postrouting, oif, saddr)
            == PromisedSource(n, GuestOf(n), u.name, u.hostIPv6,
                              if unset then None else meta.public4, if unset then None else meta.public6, oif, saddr)
  {
    MapsStayInverse(c, events, s);
    var n, t, u, meta := s.world.config.network, s.world.table.value.natTable, s.memory.built.value, s.memory.meta;
    if t.maps4 == EMPTY_MAPS && t.maps6 == EMPTY_MAPS {
      EmptySource(n, t, meta, u, oif, saddr);
    } else {
      ExactSource(n, t, meta, u, oif, saddr);
    }
  }

  /** After a successful start they are those of config.toml, on the uplink of that start. */
  lemma StartSource(w: World, m: Memory, o: StartOutcome, oif: string, saddr: Literal)
    requires Ready(w, m) && o.uplink.Some? && MemoryLoads(m) && Start(w, m, o).ok
    ensures var last := End(w, Start(w, m, o).trace); var n := last.config.network;
            && last.table.Some?
            && Postrouting(last.table.value.natTable, last.table.value.natTable.postrouting, oif, saddr)
               == PromisedSource(n, GuestOf(n), o.uplink.value, o.hostIPv6, n.publicIPv4, n.publicIPv6, oif, saddr)
  {
    var e := Start(w, m, o);
    StartFits(w, m, o);
    StartBuilds(w, m, o);
    StartPublishes(w, m, o);
    var last := End(w, e.trace);
    ExactSource(last.config.network, last.table.value.natTable, e.memory.meta, e.memory.built.value, oif, saddr);
  }

  // ------------------------------------------------------------------
  // The firewall
  // ------------------------------------------------------------------

  /** SetFirewall changes nothing of the table but the rules of the fw chain. */
  lemma SetFirewallTouchesFwOnly(w: World, m: Memory, f: FirewallConfig)
    requires w.table.Some?
    ensures var t := w.table.value; var last := End(w, SetFirewall(w, m, f).trace);
            && last == w.(table := last.table) && last.table.Some?
            && last.table.value.natTable == t.natTable && last.table.value.filter.forward == t.filter.forward
            && forall chain :: chain in t.filter.chains && chain != "fw" ==>
                 chain in last.table.value.filter.chains
                 && last.table.value.filter.chains[chain] == t.filter.chains[chain]
  {
  }

  /** The firewall in memory is that of config.toml, and so is the one in the kernel, if any. */
  ghost predicate Current(s: Machine) {
    s.Up? ==> s.memory.applied && (s.memory.created && s.world.table.Some? ==> s.memory.inStep)
  }

  /** The config was applied, if at all, as far as SetFirewall. */
  predicate Reached(o: ApplyOutcome) { o.savePublic && o.tc }

  predicate SmoothOp(op: Op) {
    Uplinked(op)
    && match op
       case ReloadOp(_, o) => Reached(o)
       case MutateOp(_, _, _, o) => Reached(o)
       case ResizeRootfsOp(_, _, _, o) => Reached(o.apply)
       case _ => true
  }

  /** No applyConfig returns early, and no start misses the uplink. */
  predicate Smooth(e: Event) { HasUplink(e) && (e.Done? ==> SmoothOp(e.op)) }

  lemma CurrentStart(w: World, m: Memory, o: StartOutcome)
    requires Ready(w, m) && Current(Up(w, m)) && o.uplink.Some? && ConfigLoads(w.config)
    ensures Current(Up(End(w, Start(w, m, o).trace), Start(w, m, o).memory))
  {
    var m' := m.(meta := m.meta.(running := true));
    var wanted := SaveMetadata(w, m', o.saveDesired);
    var w1 := End(w, wanted.trace);
    SaveFits(w, m', o.saveDesired);
    CurrentBringUp(w1, wanted.memory, o);
    BringUpFits(w1, wanted.memory, o);
    EffectThen(w, wanted, BringUp(w1, wanted.memory, o));
  }

  lemma CurrentBringUp(w: World, m: Memory, o: StartOutcome)
    requires Ready(w, m) && Saved(w, m) && m.meta.running
    requires Current(Up(w, m)) && o.uplink.Some? && ConfigLoads(w.config)
    ensures Current(Up(End(w, BringUp(w, m, o).trace), BringUp(w, m, o).memory))
  {
    var create := Create(w, m, o);
    if o.enter {
      CreateMakesTable(w, m, o);
    }
    CreateFits(w, m, o);
    CreateKeeps(w, m, o);
    if create.ok {
      var w1 := End(w, create.trace);
      var apply := ApplyPublicIPs(w1, create.memory, o.savePublic);
      ApplyPublicFits(w1, create.memory, o.savePublic);
      EffectThen(w, create, apply);
      var public := AndThen(create, apply);
      if public.ok {
        var w2 := End(w, public.trace);
        StartVmKeepsNetwork(w2, public.memory, o);
        StartVmFits(w2, public.memory, o);
        EffectThen(w, public, StartVm(w2, public.memory, o));
      }
    }
  }

  lemma CurrentApply(was: Config, w: World, m: Memory, o: ApplyOutcome)
    requires WorldOk(w) && Ready(w.(config := was), m) && Saved(w, m) && SameHost(was.network, w.config.network)
    requires Reached(o) && ConfigLoads(w.config)
    ensures var e := ApplyConfig(w, m, w.config, o); Current(Up(End(w, e.trace), e.memory))
  {
    var c := w.config;
    var m1 := m.(config := c, network := c.network, applied := false, inStep := false);
    AppliedReady(was, w, m);
    ApplyPublicFits(w, m1, o.savePublic);
    var public := ApplyPublicIPs(w, m1, o.savePublic);
    var w1 := End(w, public.trace);
    SetFirewallFits(w1, public.memory);
    EffectThen(w, public, SetFirewall(w1, public.memory, c.firewall));
  }

  lemma CurrentSaveAndApply(w: World, m: Memory, c: Config, o: ApplyOutcome)
    requires Ready(w, m) && Saved(w, m) && WorldOk(w.(config := c)) && SameHost(w.config.network, c.network)
    requires Reached(o) && ConfigLoads(c)
    ensures var e := SaveAndApply(w, m, c, o); Current(Up(End(w, e.trace), e.memory))
  {
    var w1 := w.(config := c);
    assert w1.(config := w.config) == w;
    CurrentApply(w.config, w1, m, o);
    ApplyConfigFits(w.config, w1, m, o);
    EffectThen(w, Effect([w1], m, true), ApplyConfig(w1, m, c, o));
  }

  lemma CurrentMutate(w: World, m: Memory, e: Edit, load: bool, save: bool, o: ApplyOutcome)
    requires Ready(w, m) && Saved(w, m) && Current(Up(w, m)) && Reached(o)
    requires var f := MutateConfig(w, m, e, load, save, o); ConfigLoads(End(w, f.trace).config)
    ensures var f := MutateConfig(w, m, e, load, save, o); Current(Up(End(w, f.trace), f.memory))
  {
    var c := Edited(w.config, e);
    if load && save && Validate(c) {
      MutatedConfig(w, m, e, load, save, o);
      CurrentSaveAndApply(w, m, c, o);
    }
  }

  lemma CurrentResizeRootfs(w: World, m: Memory, size: int, bandwidth: int, iops: int, o: ResizeOutcome)
    requires Ready(w, m) && Saved(w, m) && Current(Up(w, m)) && Reached(o.apply) && ConfigLoads(w.config)
    ensures var e := ResizeRootfs(w, m, size, bandwidth, iops, o); Current(Up(End(w, e.trace), e.memory))
  {
    if o.load {
      var growing := size > w.config.size;
      var s := if growing then GrowRootfs(w.rootfs, size, w.fc == Off, o.grow) else Steps([], true);
      var trace := RootfsTrace(w, s.states);
      GrowFits(w, m, size, o.grow);
      var w1 := End(w, trace);
      if s.ok && !(growing && w.fc != Off && !o.told) && o.save {
        var c := w.config.(size := if growing then size else w.config.size, bandwidth := bandwidth, iops := iops);
        CurrentSaveAndApply(w1, m, c, o.apply);
        SaveAndApplyFits(w1, m, c, o.apply);
        EffectThen(w, Effect(trace, m, true), SaveAndApply(w1, m, c, o.apply));
      }
    }
  }

  lemma CurrentReboot(w: World, m: Memory, o: StartOutcome)
    requires Ready(w, m) && Current(Up(w, m)) && o.uplink.Some? && ConfigLoads(w.config)
    ensures var e := Reboot(w, m, o); Current(Up(End(w, e.trace), e.memory))
  {
    var off := w.(fc := Off);
    CurrentStart(off, m, o);
    StartFits(off, m, o);
    EffectThen(w, Effect([off], m, true), Start(off, m, o));
  }

  lemma CurrentReload(w: World, m: Memory, load: bool, o: ApplyOutcome)
    requires Ready(w, m) && Saved(w, m) && Current(Up(w, m)) && Reached(o) && ConfigLoads(w.config)
    ensures var e := Reload(w, m, load, o); Current(Up(End(w, e.trace), e.memory))
  {
    assert w.(config := w.config) == w;
    CurrentApply(w.config, w, m, o);
  }

  lemma CurrentResize(w: World, m: Memory, cpus: int, memory: int, load: bool, save: bool)
    requires Current(Up(w, m))
    ensures var e := Resize(w, m, cpus, memory, load, save); Current(Up(End(w, e.trace), e.memory))
  {
  }

  lemma CurrentPerform(w: World, m: Memory, op: Op)
    requires Ready(w, m) && Saved(w, m) && Current(Up(w, m)) && SmoothOp(op) && ConfigLoads(w.config)
    requires ConfigLoads(End(w, Perform(w, m, op).trace).config)
    ensures var e := Perform(w, m, op); Current(Up(End(w, e.trace), e.memory))
  {
    match op
    case StartOp(o) => CurrentStart(w, m, o);
    case StopOp(d, p) => StopEnd(w, m, d, p);
    case RebootOp(o) => CurrentReboot(w, m, o);
    case ReloadOp(l, o) => CurrentReload(w, m, l, o);
    case MutateOp(e, l, s, o) => CurrentMutate(w, m, e, l, s, o);
    case ResizeOp(c, mem, l, s) => CurrentResize(w, m, c, mem, l, s);
    case ResizeRootfsOp(size, b, i, o) => CurrentResizeRootfs(w, m, size, b, i, o);
    case SnapshotOp(c) => CurrentSnapshot(w, m, c);
  }

  lemma CurrentSnapshot(w: World, m: Memory, c: CopyRootfs)
    requires Ready(w, m) && Current(Up(w, m)) && SmoothOp(SnapshotOp(c)) && ConfigLoads(w.config)
    ensures var e := CreateSnapshot(w, m, c); Current(Up(End(w, e.trace), e.memory))
  {
    if c.Offline? {
      CurrentReboot(w, m, c.start);
    }
  }

  lemma CurrentStep(s: Machine, e: Event)
    requires MachineOk(s) && Current(s) && Possible(s, e) && Smooth(e)
    requires ConfigLoads(s.world.config) && ConfigLoads(After(s, e).world.config)
    ensures Current(After(s, e))
  {
    match e
    case Done(op) => CurrentPerform(s.world, s.memory, op);
    case Boot(l, o) =>
      var begun := NewRuntime(s.world, l);
      NewRuntimeFits(s.world, l);
      var w := End(s.world, begun.trace);
      if begun.memory.meta.running {
        CurrentStart(w, begun.memory, o);
      }
    case _ =>
  }

  /** A run of smooth events, through configs whose rules nft accepts. */
  predicate SmoothRun(s: Machine, events: seq<Event>)
    decreases |events|
  {
    ConfigLoads(s.world.config)
    && (events == [] || (Possible(s, events[0]) && Smooth(events[0]) && SmoothRun(After(s, events[0]), events[1..])))
  }

  /**
   After any run in which no applyConfig returned before SetFirewall, the filter in the
   kernel is the one that a fresh build from the present config.toml would make.
   */
  lemma {:induction false} IncrementalEqualsFresh(s: Machine, events: seq<Event>, s': Machine)
    requires MachineOk(s) && Current(s) && MachineRun(s, events, s') && SmoothRun(s, events)
    ensures Current(s') && ConfigLoads(s'.world.config)
    ensures s'.Up? && s'.memory.created && s'.world.table.Some? ==>
              FwMatches(s'.world.table.value.filter, s'.world.config)
    decreases |events|
  {
    if events == [] {
    } else {
      AfterFits(s, events[0]);
      assert ConfigLoads(After(s, events[0]).world.config);
      CurrentStep(s, events[0]);
      IncrementalEqualsFresh(After(s, events[0]), events[1..], s');
    }
  }

  /** So it passes a new packet exactly as the firewall section of config.toml promises. */
  lemma DecidesAsConfigured(s: Machine, events: seq<Event>, s': Machine, p: Packet)
    requires MachineOk(s) && Current(s) && MachineRun(s, events, s') && SmoothRun(s, events)
    requires s'.Up? && s'.memory.created && s'.world.table.Some? && Validate(s'.world.config) && IsNew(p)
    ensures Passes(s'.world.table.value.filter, p)
            <==> Promised(TAP, s'.world.config.network.nameservers, s'.world.config.firewall, p)
  {
    IncrementalEqualsFresh(s, events, s');
    CompilationPreservesMeaning(TAP, s'.world.config.network.nameservers, s'.world.config.firewall, p);
  }

  // ------------------------------------------------------------------
  // The exception
  // ------------------------------------------------------------------

  /**
   An applyConfig that fails before SetFirewall keeps the old rules in memory, and a later
   start builds its table from those: the filter is that of config.toml exactly when the
   rules of the two give the same chain.
   */
  lemma EarlyReturnLeavesOldRules(w: World, m: Memory, f: FirewallConfig, o: ApplyOutcome)
    requires Ready(w, m) && Saved(w, m) && m.applied && !Reached(o) && Validate(Edited(w.config, Rules(f)))
    requires ConfigLoads(w.config)
    ensures var e := MutateConfig(w, m, Rules(f), true, true, o); var w1 := End(w, e.trace);
            && !e.ok && w1.config.firewall == f && e.memory.firewall == w.config.firewall
            && forall start: StartOutcome :: start.enter && start.uplink.Some? ==>
                 var built := End(w1, Create(w1, e.memory, start).trace);
                 && built.table.Some?
                 && (FwMatches(built.table.value.filter, built.config)
                     <==> FwRules(TAP, w.config.network.nameservers, w.config.firewall)
                          == FwRules(TAP, w.config.network.nameservers, f))
  {
    var c := Edited(w.config, Rules(f));
    var w0 := w.(config := c);
    var m1 := m.(config := c, network := c.network, applied := false, inStep := false);
    assert w0.(config := w.config) == w;
    AppliedReady(w.config, w0, m);
    ApplyPublicFits(w0, m1, o.savePublic);
    var public := ApplyPublicIPs(w0, m1, o.savePublic);
    var e := MutateConfig(w, m, Rules(f), true, true, o);
    EndThen(w, [w0], public.trace);
    var w1 := End(w, e.trace);
    assert w1 == End(w0, public.trace) && e.memory == public.memory;
    forall start: StartOutcome | start.enter && start.uplink.Some?
      ensures var built := End(w1, Create(w1, e.memory, start).trace);
              && built.table.Some? && built.config == w1.config
              && built.table.value.filter == VmFilter(TAP, w.config.network.nameservers, w.config.firewall)
    {
      CreateMakesTable(w1, e.memory, start);
    }
    var nameservers := w.config.network.nameservers;
    assert VmFilter(TAP, nameservers, w.config.firewall).chains["fw"] == FwRules(TAP, nameservers, w.config.firewall);
    assert VmFilter(TAP, nameservers, f).chains["fw"] == FwRules(TAP, nameservers, f);
  }
}
