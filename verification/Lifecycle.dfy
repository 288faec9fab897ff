/**
 The operations of the runtime on one VM, with a failure at every stage and a crash at every
 step. An operation is a function that gives every state of the world it passes through.
 */
module Lifecycle {
  import opened Basics
  import opened Addresses
  import opened Config
  import opened Nft
  import opened Firewall
  import opened Nat
  import opened Disk

  // ------------------------------------------------------------------
  // State
  // ------------------------------------------------------------------

  /** metadata.json, but for the fields that never change. running is the desired state. */
  datatype Metadata = Metadata(initialized: bool, running: bool, public4: Option<Literal>, public6: Option<Literal>)

  /** The Firecracker process: Unbooted means it runs, and no guest was started in it. */
  datatype Fc = Off | Unbooted | Booted

  /** The nft table of the VM. */
  datatype Table = Table(filter: Filter, natTable: NatTable)

  /** What a crash of the runtime leaves. builds counts the PrepareRootfs that succeeded. */
  datatype World = World(
    meta: Metadata, config: Config, rootfs: Rootfs, builds: nat, table: Option<Table>, fc: Fc)

  /**
   The memory of the runtime: its metadata and config, the two copies that the network
   object keeps, and whether Create has named the namespace and the TAP. The rest is
   history. saved: the last metadata save succeeded. applied: the network object has the
   firewall of config.toml. inStep: so has the fw chain. built: what this process last
   built the table for.
   */
  datatype Memory = Memory(
    meta: Metadata, config: Config, network: NetworkConfig, firewall: FirewallConfig, created: bool,
    saved: bool, applied: bool, inStep: bool, built: Option<Uplink>)

  /** The uplink that the NAT rules name, and whether the host has IPv6. */
  datatype Uplink = Uplink(name: string, hostIPv6: bool)

  /** The worlds after the first one, the memory at the end, and the error return. */
  datatype Effect = Effect(trace: seq<World>, memory: Memory, ok: bool)

  function End(w: World, trace: seq<World>): World {
    if trace == [] then w else trace[|trace| - 1]
  }

  function AndThen(e: Effect, f: Effect): Effect { Effect(e.trace + f.trace, f.memory, f.ok) }

  const TAP := "atap-vm"

  function GuestOf(n: NetworkConfig): IPv4 {
    match GuestIP(n.address) case Some(ip) => ip case None => IPv4(0, 0, 0, 0)
  }

  // ------------------------------------------------------------------
  // Parts of operations
  // ------------------------------------------------------------------

  function SaveMetadata(w: World, m: Memory, ok: bool): Effect {
    Effect(if ok then [w.(meta := m.meta)] else [], m.(saved := ok), ok)
  }

  /**
   setupNftables: one atomic script. Without an uplink it returns early, and a script that
   nft refuses changes nothing; neither is reported.
   */
  function SetupTable(w: World, m: Memory, uplink: Option<string>, hostIPv6: bool): Effect {
    var rules := FwRules(TAP, m.network.nameservers, m.firewall);
    if uplink.None? || !RulesLoad(rules) then Effect([], m.(inStep := false), true)
    else
      var postrouting := PostroutingRules(m.network, GuestOf(m.network), uplink.value, hostIPv6);
      var natTable := NatTable(EMPTY_MAPS, EMPTY_MAPS, postrouting);
      Effect([w.(table := Some(Table(VmFilter(TAP, m.network.nameservers, m.firewall), natTable)))],
             m.(inStep := m.applied, built := Some(Uplink(uplink.value, hostIPv6))), true)
  }

  /** The maps after each command that syncNATMap gives. */
  function SyncSteps(maps: NatMaps, was: Option<Literal>, to: Option<Literal>, guest: Literal): seq<NatMaps> {
    var moving := was.Some? && was != to;
    var c1 := if moving then maps.(dnat := DeleteElement(maps.dnat, was.value)) else maps;
    var c2 := if moving then c1.(snat := DeleteElement(c1.snat, guest)) else c1;
    (if moving then [c1, c2] else [])
    + (if to.Some? then [c2.(dnat := AddElement(c2.dnat, to.value, guest)), Sync(maps, was, to, guest)] else [])
  }

  function WithMaps4(w: World, maps: NatMaps): World
    requires w.table.Some?
  {
    w.(table := Some(w.table.value.(natTable := w.table.value.natTable.(maps4 := maps))))
  }

  function WithMaps6(w: World, maps: NatMaps): World
    requires w.table.Some?
  {
    w.(table := Some(w.table.value.(natTable := w.table.value.natTable.(maps6 := maps))))
  }

  /** SyncPublicIPv4. Without a namespace or a table every command fails. */
  function SyncPublicIPv4(w: World, m: Memory): seq<World> {
    if !m.created || w.table.None? then []
    else
      var guest := Guest4(GuestOf(m.network));
      var steps := SyncSteps(w.table.value.natTable.maps4, m.meta.public4, m.config.network.publicIPv4, guest);
      seq(|steps|, i requires 0 <= i < |steps| => WithMaps4(w, steps[i]))
  }

  function SyncPublicIPv6(w: World, m: Memory): seq<World> {
    if !m.created || w.table.None? then []
    else
      var guest := Guest6(GuestOf(m.network));
      var steps := SyncSteps(w.table.value.natTable.maps6, m.meta.public6, m.config.network.publicIPv6, guest);
      seq(|steps|, i requires 0 <= i < |steps| => WithMaps6(w, steps[i]))
  }

  function SyncPublic(w: World, m: Memory): seq<World> {
    var four := SyncPublicIPv4(w, m);
    four + SyncPublicIPv6(End(w, four), m)
  }

  function ApplyPublicIPs(w: World, m: Memory, save: bool): Effect {
    var trace := SyncPublic(w, m);
    var meta := m.meta.(public4 := m.config.network.publicIPv4, public6 := m.config.network.publicIPv6);
    AndThen(Effect(trace, m, true), SaveMetadata(End(w, trace), m.(meta := meta), save))
  }

  datatype StartOutcome = StartOutcome(
    saveDesired: bool, enter: bool, uplink: Option<string>, hostIPv6: bool, tc: bool, savePublic: bool,
    source: Option<nat>, prepare: Prepare, saveInit: bool, boot: BootOutcome)

  datatype BootOutcome = NoProcess | NotConfigured | BootOk

  function WithRootfs(w: World, f: Rootfs): World {
    w.(rootfs := f, builds := w.builds + if f.Whole? && !w.rootfs.Whole? then 1 else 0)
  }

  function RootfsTrace(w: World, states: seq<Rootfs>): seq<World> {
    seq(|states|, i requires 0 <= i < |states| => WithRootfs(w, states[i]))
  }

  function Initialize(w: World, m: Memory, o: StartOutcome): Effect {
    if BootSourceCount(m.config) != 1 || o.source.None? then Effect([], m, false)
    else
      var s := PrepareRootfs(w.rootfs, o.source.value, m.config.size, o.prepare);
      var trace := RootfsTrace(w, s.states);
      if !s.ok then Effect(trace, m, false)
      else
        AndThen(Effect(trace, m, true),
                SaveMetadata(End(w, trace), m.(meta := m.meta.(initialized := true)), o.saveInit))
  }

  function BootFirecracker(w: World, m: Memory, boot: BootOutcome): Effect {
    if w.fc != Off then Effect([], m, true)
    else
      match boot
      case NoProcess => Effect([], m, false)
      case NotConfigured => Effect([w.(fc := Unbooted)], m, false)
      case BootOk => Effect([w.(fc := Unbooted), w.(fc := Booted)], m, true)
  }

  function Create(w: World, m: Memory, o: StartOutcome): Effect {
    if !o.enter then Effect([], m, false)
    else
      var e := SetupTable(w, m.(created := true), o.uplink, o.hostIPv6);
      e.(ok := o.tc)
  }

  // ------------------------------------------------------------------
  // Operations
  // ------------------------------------------------------------------

  /** The stages of Start after the network is up. */
  function StartVm(w: World, m: Memory, o: StartOutcome): Effect {
    var init := if m.meta.initialized then Effect([], m, true) else Initialize(w, m, o);
    if !init.ok then init
    else AndThen(init, BootFirecracker(End(w, init.trace), init.memory, o.boot))
  }

  /** The stages of Start after the first save. */
  function BringUp(w: World, m: Memory, o: StartOutcome): Effect {
    var create := Create(w, m, o);
    if !create.ok then create
    else
      var public := AndThen(create, ApplyPublicIPs(End(w, create.trace), create.memory, o.savePublic));
      if !public.ok then public
      else AndThen(public, StartVm(End(w, public.trace), public.memory, o))
  }

  function Start(w: World, m: Memory, o: StartOutcome): Effect {
    var wanted := SaveMetadata(w, m.(meta := m.meta.(running := true)), o.saveDesired);
    AndThen(wanted, BringUp(End(w, wanted.trace), wanted.memory, o))
  }

  /** Stop after its first save: Firecracker first, then the network. */
  function TearDown(w: World, m: Memory, savePublic: bool): Effect {
    var off := w.(fc := Off);
    var saved := SaveMetadata(off, m.(meta := m.meta.(public4 := None, public6 := None)), savePublic);
    var w1 := End(off, saved.trace);
    var w2 := if m.created then w1.(table := None) else w1;
    Effect([off] + saved.trace + [w2], saved.memory, true)
  }

  function Stop(w: World, m: Memory, saveDesired: bool, savePublic: bool): Effect {
    var wanted := SaveMetadata(w, m.(meta := m.meta.(running := false)), saveDesired);
    AndThen(wanted, TearDown(End(w, wanted.trace), wanted.memory, savePublic))
  }

  function Reboot(w: World, m: Memory, o: StartOutcome): Effect {
    var off := w.(fc := Off);
    AndThen(Effect([off], m, true), Start(off, m, o))
  }

  datatype ApplyOutcome = ApplyOutcome(savePublic: bool, tc: bool)

  function SetFirewall(w: World, m: Memory, f: FirewallConfig): Effect {
    var m' := m.(firewall := f, applied := true);
    if !m.created then Effect([], m', true)
    else
      var rules := FwRules(TAP, m.network.nameservers, f);
      if w.table.None? || !RulesLoad(rules) then Effect([], m'.(inStep := false), false)
      else
        var t := w.table.value;
        Effect([w.(table := Some(t.(filter := t.filter.(chains := t.filter.chains["fw" := rules]))))],
               m'.(inStep := true), true)
  }

  /** applyConfig, once the config is taken over: the firewall comes last, after the early returns. */
  function ApplyTo(w: World, m: Memory, f: FirewallConfig, o: ApplyOutcome): Effect {
    var public := ApplyPublicIPs(w, m, o.savePublic);
    if !public.ok then public
    else if !o.tc then public.(ok := false)
    else AndThen(public, SetFirewall(End(w, public.trace), public.memory, f))
  }

  function ApplyConfig(w: World, m: Memory, c: Config, o: ApplyOutcome): Effect {
    ApplyTo(w, m.(config := c, network := c.network, applied := false, inStep := false), c.firewall, o)
  }

  function Reload(w: World, m: Memory, load: bool, o: ApplyOutcome): Effect {
    if !load || !Validate(w.config) then Effect([], m, false) else ApplyConfig(w, m, w.config, o)
  }

  /** What the handlers that go through mutateConfig can change. */
  datatype Edit =
    | Keys(keys: seq<string>)
    | Bandwidth
    | PublicIPs(public4: Option<Literal>, public6: Option<Literal>)
    | Rules(firewall: FirewallConfig)

  function Edited(c: Config, e: Edit): Config {
    match e
    case Keys(keys) => c.(sshKeys := keys)
    case Bandwidth => c
    case PublicIPs(a, b) => c.(network := c.network.(publicIPv4 := a, publicIPv6 := b))
    case Rules(f) => c.(firewall := f)
  }

  /** SaveConfig has succeeded; then the config is applied. */
  function SaveAndApply(w: World, m: Memory, c: Config, o: ApplyOutcome): Effect {
    var w' := w.(config := c);
    AndThen(Effect([w'], m, true), ApplyConfig(w', m, c, o))
  }

  function MutateConfig(w: World, m: Memory, e: Edit, load: bool, save: bool, o: ApplyOutcome): Effect {
    var c := Edited(w.config, e);
    if !load || !Validate(c) || !save then Effect([], m, false)
    else SaveAndApply(w, m, c, o)
  }

  function Resize(w: World, m: Memory, cpus: int, memory: int, load: bool, save: bool): Effect {
    if w.fc != Off || !load || !save then Effect([], m, false)
    else
      var c := w.config.(cpus := cpus, memory := memory);
      Effect([w.(config := c)], m.(config := c), true)
  }

  datatype ResizeOutcome = ResizeOutcome(load: bool, grow: GrowOutcome, told: bool, save: bool, apply: ApplyOutcome)

  function ResizeRootfs(w: World, m: Memory, size: int, bandwidth: int, iops: int, o: ResizeOutcome): Effect {
    if !o.load then Effect([], m, false)
    else
      var growing := size > w.config.size;
      var s := if growing then GrowRootfs(w.rootfs, size, w.fc == Off, o.grow) else Steps([], true);
      var trace := RootfsTrace(w, s.states);
      var w1 := End(w, trace);
      if !s.ok || (growing && w.fc != Off && !o.told) || !o.save then Effect(trace, m, false)
      else
        var c := w.config.(size := if growing then size else w.config.size, bandwidth := bandwidth, iops := iops);
        AndThen(Effect(trace, m, true), SaveAndApply(w1, m, c, o.apply))
  }

  /** How CreateSnapshot copies: a live clone, an error, or a copy with the VM stopped. */
  datatype CopyRootfs = LiveClone | CloneError | Offline(copied: bool, start: StartOutcome)

  function CreateSnapshot(w: World, m: Memory, o: CopyRootfs): Effect {
    match o
    case LiveClone => Effect([], m, true)
    case CloneError => Effect([], m, false)
    case Offline(copied, start) =>
      if w.fc == Off then Effect([], m, copied)
      else
        var off := w.(fc := Off);
        var e := AndThen(Effect([off], m, true), Start(off, m, start));
        e.(ok := e.ok && copied)
  }

  datatype Op =
    | StartOp(start: StartOutcome)
    | StopOp(saveDesired: bool, savePublic: bool)
    | RebootOp(start: StartOutcome)
    | ReloadOp(load: bool, apply: ApplyOutcome)
    | MutateOp(edit: Edit, load: bool, save: bool, apply: ApplyOutcome)
    | ResizeOp(cpus: int, memory: int, load: bool, save: bool)
    | ResizeRootfsOp(size: int, bandwidth: int, iops: int, outcome: ResizeOutcome)
    | SnapshotOp(copy: CopyRootfs)

  /** The operations on config.toml; the others start and stop the VM. */
  predicate WritesConfig(op: Op) { op.ReloadOp? || op.MutateOp? || op.ResizeOp? || op.ResizeRootfsOp? }

  function Perform(w: World, m: Memory, op: Op): Effect {
    match op
    case StartOp(o) => Start(w, m, o)
    case StopOp(d, p) => Stop(w, m, d, p)
    case RebootOp(o) => Reboot(w, m, o)
    case ReloadOp(l, o) => Reload(w, m, l, o)
    case MutateOp(e, l, s, o) => MutateConfig(w, m, e, l, s, o)
    case ResizeOp(c, mem, l, s) => Resize(w, m, c, mem, l, s)
    case ResizeRootfsOp(size, b, i, o) => ResizeRootfs(w, m, size, b, i, o)
    case SnapshotOp(o) => CreateSnapshot(w, m, o)
  }

  // ------------------------------------------------------------------
  // Runs
  // ------------------------------------------------------------------

  /** The runtime process is up, or it is not. */
  datatype Machine = Up(world: World, memory: Memory) | Down(world: World)

  /**
   Done: an operation completes. Cut: the process dies at one of the worlds of an operation.
   Die: it dies between operations. host: the host goes down with it. Boot: the process
   starts again, and BootCut: it dies while it does. loading: how its LoadMetadata goes.
   */
  datatype Event =
    | Done(op: Op)
    | Cut(op: Op, at: nat, host: bool)
    | Die(host: bool)
    | Boot(loading: Loading, start: StartOutcome)
    | BootCut(loading: Loading, start: StartOutcome, at: nat, host: bool)

  /** Firecracker dies with its service; the table dies with the host. */
  function Killed(w: World, host: bool): World {
    if host then w.(fc := Off, table := None) else w.(fc := Off)
  }

  /** Any error of LoadMetadata makes the VM a new one, and the new metadata is saved if that works. */
  datatype Loading = Loaded | NotLoaded(saved: bool)

  const NEW_METADATA := Metadata(false, false, None, None)

  function FreshMemory(w: World, meta: Metadata): Memory {
    Memory(meta, w.config, w.config.network, w.config.firewall, false, true, true, false, None)
  }

  function NewRuntime(w: World, l: Loading): Effect {
    if l.Loaded? then Effect([], FreshMemory(w, w.meta), true)
    else SaveMetadata(w, FreshMemory(w, NEW_METADATA), l.saved)
  }

  /** Run: start the VM if it should be running. */
  function Run(w: World, m: Memory, o: StartOutcome): Effect {
    if m.meta.running then Start(w, m, o) else Effect([], m, true)
  }

  function Recover(w: World, l: Loading, o: StartOutcome): Effect {
    var begun := NewRuntime(w, l);
    AndThen(begun, Run(End(w, begun.trace), begun.memory, o))
  }

  predicate Possible(s: Machine, e: Event) {
    match e
    case Done(_) => s.Up?
    case Cut(op, at, _) => s.Up? && at < |Perform(s.world, s.memory, op).trace|
    case Die(_) => true
    case Boot(_, _) => s.Down? && Validate(s.world.config)
    case BootCut(l, o, at, _) => s.Down? && Validate(s.world.config) && at < |Recover(s.world, l, o).trace|
  }

  function After(s: Machine, e: Event): Machine
    requires Possible(s, e)
  {
    match e
    case Done(op) =>
      var f := Perform(s.world, s.memory, op);
      Up(End(s.world, f.trace), f.memory)
    case Cut(op, at, host) => Down(Killed(Perform(s.world, s.memory, op).trace[at], host))
    case Die(host) => Down(Killed(s.world, host))
    case Boot(l, o) =>
      var f := Recover(s.world, l, o);
      Up(End(s.world, f.trace), f.memory)
    case BootCut(l, o, at, host) => Down(Killed(Recover(s.world, l, o).trace[at], host))
  }

  predicate MachineRun(s: Machine, events: seq<Event>, s': Machine)
    decreases |events|
  {
    if events == [] then s == s' else Possible(s, events[0]) && MachineRun(After(s, events[0]), events[1..], s')
  }

  /** A new machine directory: a config file, no metadata to load, no disk. */
  function NewMachine(c: Config): Machine {
    Down(World(NEW_METADATA, c, Absent, 0, None, Off))
  }
}
