/**
 The runtime object: the methods change its fields and the world in place, one step at a
 time, with the early returns of the source. Each is the operation of Lifecycle that the
 proofs about runs and crash points speak of.
 */
module RuntimeObject {
  import opened Basics
  import opened Config
  import opened Nft
  import opened Firewall
  import opened Nat
  import opened Disk
  import opened Lifecycle
  import opened LifecycleClaims
  import opened LifecycleNetwork
  import opened LifecycleProofs
  import opened LifecycleResults

  /** Every one of these worlds keeps the invariant of the worlds. */
  ghost predicate AllOk(trace: seq<World>) { forall i :: 0 <= i < |trace| ==> WorldOk(trace[i]) }

  class Runtime {
    // metadata.json, config.toml, and the two copies in the network object.
    var meta: Metadata
    var config: Config
    var network: NetworkConfig
    var firewall: FirewallConfig
    var created: bool
    // Disk, kernel and Firecracker, and every state they were put in.
    var world: World
    ghost var trace: seq<World>
    // The history that Memory keeps.
    ghost var saved: bool
    ghost var applied: bool
    ghost var inStep: bool
    ghost var built: Option<Uplink>

    ghost function Mem(): Memory
      reads `meta, `config, `network, `firewall, `created, `saved, `applied, `inStep, `built
    {
      Memory(meta, config, network, firewall, created, saved, applied, inStep, built)
    }

    /** What every method of the API keeps: the invariant now, and at every instant so far. */
    ghost predicate Valid()
      reads this
    {
      Ready(world, Mem()) && Saved(world, Mem()) && AllOk(trace)
    }

    /** A running Firecracker has the disk of the one completed build, for a VM that is wanted. */
    lemma RunsTheBuiltDisk()
      requires Valid() && world.fc != Off
      ensures world.builds == 1 && world.rootfs.Whole? && world.rootfs.length >= world.config.size
      ensures meta.running && meta.initialized && world.meta.running && world.meta.initialized
    {
    }

    /** From this world and trace, the object has just had this effect. */
    ghost predicate Did(w: World, t: seq<World>, e: Effect)
      reads this
    {
      world == End(w, e.trace) && trace == t + e.trace && Mem() == e.memory
    }

    /** NewRuntime: metadata that does not load is replaced by that of a new VM. */
    constructor (w: World, l: Loading)
      requires WorldOk(w) && w.fc == Off
      ensures Did(w, [], NewRuntime(w, l)) && Valid()
    {
      meta, config, network, firewall, created := w.meta, w.config, w.config.network, w.config.firewall, false;
      world, trace := w, [];
      saved, applied, inStep, built := true, true, false, None;
      new;
      if l.NotLoaded? {
        meta := NEW_METADATA;
        var _ := Save(l.saved);
      }
      NewRuntimeFits(w, l);
    }

    method Move(next: World)
      modifies this`world, this`trace
      ensures world == next && trace == old(trace) + [next]
    {
      world := next;
      trace := trace + [next];
    }

    method Save(ok: bool) returns (done: bool)
      modifies this
      ensures Did(old(world), old(trace), SaveMetadata(old(world), old(Mem()), ok)) && done == ok
    {
      if ok {
        Move(world.(meta := meta));
      }
      saved := ok;
      return ok;
    }

    method SetupNftables(uplink: Option<string>, hostIPv6: bool)
      modifies this
      ensures Did(old(world), old(trace), SetupTable(old(world), old(Mem()), uplink, hostIPv6))
    {
      inStep := false;
      if uplink.None? {
        return;
      }
      var rules := BuildFwRules(TAP, network.nameservers, firewall);
      if !RulesLoad(rules) {
        return;
      }
      var postrouting := PostroutingRules(network, GuestOf(network), uplink.value, hostIPv6);
      Move(world.(table := Some(Table(Filter(ForwardRules(TAP), map["fw" := rules]),
                                      NatTable(EMPTY_MAPS, EMPTY_MAPS, postrouting)))));
      inStep, built := applied, Some(Uplink(uplink.value, hostIPv6));
    }

    method CreateNetwork(o: StartOutcome) returns (ok: bool)
      modifies this
      ensures Did(old(world), old(trace), Create(old(world), old(Mem()), o))
      ensures ok == Create(old(world), old(Mem()), o).ok
    {
      if !o.enter {
        return false;
      }
      created := true;
      SetupNftables(o.uplink, o.hostIPv6);
      return o.tc;
    }

    /** One nft command on the IPv4 maps. */
    method Put4(maps: NatMaps)
      requires world.table.Some?
      modifies this`world, this`trace
      ensures world == WithMaps4(old(world), maps) && trace == old(trace) + [world]
    {
      Move(WithMaps4(world, maps));
    }

    method Put6(maps: NatMaps)
      requires world.table.Some?
      modifies this`world, this`trace
      ensures world == WithMaps6(old(world), maps) && trace == old(trace) + [world]
    {
      Move(WithMaps6(world, maps));
    }

    method SyncNatMap4(was: Option<Literal>, to: Option<Literal>)
      requires was == meta.public4 && to == config.network.publicIPv4
      modifies this`world, this`trace
      ensures Did(old(world), old(trace), Effect(SyncPublicIPv4(old(world), old(Mem())), old(Mem()), true))
    {
      if !created || world.table.None? {
        return;
      }
      var guest := Guest4(GuestOf(network));
      var maps := world.table.value.natTable.maps4;
      if was.Some? && was != to {
        maps := maps.(dnat := DeleteElement(maps.dnat, was.value));
        Put4(maps);
        maps := maps.(snat := DeleteElement(maps.snat, guest));
        Put4(maps);
      }
      if to.Some? {
        maps := maps.(dnat := AddElement(maps.dnat, to.value, guest));
        Put4(maps);
        maps := maps.(snat := AddElement(maps.snat, guest, to.value));
        Put4(maps);
      }
    }

    method SyncNatMap6(was: Option<Literal>, to: Option<Literal>)
      requires was == meta.public6 && to == config.network.publicIPv6
      modifies this`world, this`trace
      ensures Did(old(world), old(trace), Effect(SyncPublicIPv6(old(world), old(Mem())), old(Mem()), true))
    {
      if !created || world.table.None? {
        return;
      }
      var guest := Guest6(GuestOf(network));
      var maps := world.table.value.natTable.maps6;
      if was.Some? && was != to {
        maps := maps.(dnat := DeleteElement(maps.dnat, was.value));
        Put6(maps);
        maps := maps.(snat := DeleteElement(maps.snat, guest));
        Put6(maps);
      }
      if to.Some? {
        maps := maps.(dnat := AddElement(maps.dnat, to.value, guest));
        Put6(maps);
        maps := maps.(snat := AddElement(maps.snat, guest, to.value));
        Put6(maps);
      }
    }

    lemma DidThen(w: World, t: seq<World>, e: Effect, f: Effect)
      requires Did(End(w, e.trace), t + e.trace, f)
      ensures Did(w, t, AndThen(e, f))
    {
    }

    method SyncMaps()
      modifies this`world, this`trace
      ensures Did(old(world), old(trace), Effect(SyncPublic(old(world), old(Mem())), old(Mem()), true))
    {
      ghost var w, t, m := world, trace, Mem();
      SyncNatMap4(meta.public4, config.network.publicIPv4);
      ghost var four := Effect(SyncPublicIPv4(w, m), m, true);
      ghost var six := Effect(SyncPublicIPv6(world, m), m, true);
      SyncNatMap6(meta.public6, config.network.publicIPv6);
      DidThen(w, t, four, six);
    }

    method PublicIPs(save: bool) returns (ok: bool)
      modifies this
      ensures Did(old(world), old(trace), ApplyPublicIPs(old(world), old(Mem()), save)) && ok == save
    {
      ghost var w, t, m := world, trace, Mem();
      SyncMaps();
      meta := meta.(public4 := config.network.publicIPv4, public6 := config.network.publicIPv6);
      ghost var synced := Effect(SyncPublic(w, m), m, true);
      ghost var save1 := SaveMetadata(world, Mem(), save);
      ok := Save(save);
      DidThen(w, t, synced, save1);
    }

    /** PrepareRootfs or GrowRootfs on the real file: the world follows it, state by state. */
    method Rewrite(next: Rootfs, ghost states: seq<Rootfs>)
      requires next == if states == [] then world.rootfs else states[|states| - 1]
      modifies this`world, this`trace
      ensures world == End(old(world), RootfsTrace(old(world), states))
      ensures trace == old(trace) + RootfsTrace(old(world), states)
    {
      trace := trace + RootfsTrace(world, states);
      world := WithRootfs(world, next);
    }

    method BuildRootfs(source: nat, p: Prepare) returns (ok: bool)
      modifies this`world, this`trace
      ensures var s := PrepareRootfs(old(world).rootfs, source, config.size, p);
              && world == End(old(world), RootfsTrace(old(world), s.states))
              && trace == old(trace) + RootfsTrace(old(world), s.states) && ok == s.ok
    {
      var file := new RootfsFile(world.rootfs);
      ok := file.PrepareFrom(source, config.size, p);
      Rewrite(file.state, file.seen);
    }

    method InitializeDisk(o: StartOutcome) returns (ok: bool)
      modifies this
      ensures Did(old(world), old(trace), Initialize(old(world), old(Mem()), o))
      ensures ok == Initialize(old(world), old(Mem()), o).ok
    {
      if BootSourceCount(config) != 1 || o.source.None? {
        return false;
      }
      ghost var s := PrepareRootfs(world.rootfs, o.source.value, config.size, o.prepare);
      ghost var built := Effect(RootfsTrace(world, s.states), Mem(), s.ok);
      ok := BuildRootfs(o.source.value, o.prepare);
      if !ok {
        return;
      }
      meta := meta.(initialized := true);
      ghost var w1, m1 := world, Mem();
      ok := Save(o.saveInit);
      DidThen(old(world), old(trace), built, SaveMetadata(w1, m1, o.saveInit));
    }

    method StartFirecracker(boot: BootOutcome) returns (ok: bool)
      modifies this`world, this`trace
      ensures Did(old(world), old(trace), BootFirecracker(old(world), old(Mem()), boot))
      ensures ok == BootFirecracker(old(world), old(Mem()), boot).ok
    {
      if world.fc != Off {
        return true;
      }
      if boot == NoProcess {
        return false;
      }
      Move(world.(fc := Unbooted));
      if boot == NotConfigured {
        return false;
      }
      Move(world.(fc := Booted));
      return true;
    }

    method BringUpVm(o: StartOutcome) returns (ok: bool)
      modifies this
      ensures Did(old(world), old(trace), StartVm(old(world), old(Mem()), o))
      ensures ok == StartVm(old(world), old(Mem()), o).ok
    {
      ghost var init := Effect([], Mem(), true);
      if !meta.initialized {
        init := Initialize(world, Mem(), o);
        ok := InitializeDisk(o);
        if !ok {
          return;
        }
      }
      ghost var w1, m1 := world, Mem();
      ok := StartFirecracker(o.boot);
      DidThen(old(world), old(trace), init, BootFirecracker(w1, m1, o.boot));
    }

    /** Start after its first save. */
    method BringUpAll(o: StartOutcome) returns (ok: bool)
      modifies this
      ensures var e := BringUp(old(world), old(Mem()), o); Did(old(world), old(trace), e) && ok == e.ok
    {
      ghost var create := Create(world, Mem(), o);
      ok := CreateNetwork(o);
      if !ok {
        return;
      }
      ghost var apply := ApplyPublicIPs(world, Mem(), o.savePublic);
      ok := PublicIPs(o.savePublic);
      DidThen(old(world), old(trace), create, apply);
      if !ok {
        return;
      }
      ghost var vm := StartVm(world, Mem(), o);
      ok := BringUpVm(o);
      DidThen(old(world), old(trace), AndThen(create, apply), vm);
    }

    /** What follows the first save of Start. */
    method ContinueStart(ghost w: World, ghost t: seq<World>, ghost wanted: Effect, o: StartOutcome) returns (ok: bool)
      requires Did(w, t, wanted)
      modifies this
      ensures var e := AndThen(wanted, BringUp(End(w, wanted.trace), wanted.memory, o)); Did(w, t, e) && ok == e.ok
    {
      ghost var rest := BringUp(world, Mem(), o);
      ok := BringUpAll(o);
      DidThen(w, t, wanted, rest);
    }

    method Start(o: StartOutcome) returns (ok: bool)
      requires Valid()
      modifies this
      ensures var e := Lifecycle.Start(old(world), old(Mem()), o); Did(old(world), old(trace), e) && ok == e.ok
      ensures Valid() && (ok ==> PublicInStep(world, Mem()) && Runs(old(world.fc), world.fc))
    {
      StartRuns(world, Mem(), o);
      StartFits(world, Mem(), o);
      StartPublishes(world, Mem(), o);
      ghost var m := Mem().(meta := meta.(running := true));
      meta := meta.(running := true);
      assert Mem() == m;
      var _ := Save(o.saveDesired);
      ok := ContinueStart(old(world), old(trace), SaveMetadata(old(world), m, o.saveDesired), o);
    }

    /** The recovery at the start of the process. */
    method Run(o: StartOutcome)
      requires Valid()
      modifies this
      ensures Did(old(world), old(trace), Lifecycle.Run(old(world), old(Mem()), o))
      ensures Valid()
    {
      if meta.running {
        var _ := Start(o);
      }
    }

    /** The table goes with the network of this process; the file of the VM stays. */
    method DeleteNetwork()
      modifies this`world, this`trace
      ensures world == if created then old(world).(table := None) else old(world)
      ensures trace == old(trace) + [world]
    {
      Move(if created then world.(table := None) else world);
    }

    method TearDownVm(savePublic: bool)
      modifies this
      ensures Did(old(world), old(trace), TearDown(old(world), old(Mem()), savePublic))
      ensures world.fc == Off && (created ==> world.table.None?)
    {
      Move(world.(fc := Off));
      meta := meta.(public4 := None, public6 := None);
      var _ := Save(savePublic);
      DeleteNetwork();
    }

    method Stop(saveDesired: bool, savePublic: bool)
      requires Valid()
      modifies this
      ensures Did(old(world), old(trace), Lifecycle.Stop(old(world), old(Mem()), saveDesired, savePublic))
      ensures Valid() && world.fc == Off && (created ==> world.table.None?)
    {
      StopFits(world, Mem(), saveDesired, savePublic);
      meta := meta.(running := false);
      ghost var m := old(Mem()).(meta := meta);
      assert Mem() == m;
      ghost var wanted := SaveMetadata(world, m, saveDesired);
      var _ := Save(saveDesired);
      ghost var down := TearDown(world, wanted.memory, savePublic);
      TearDownVm(savePublic);
      DidThen(old(world), old(trace), wanted, down);
    }

    method Reboot(o: StartOutcome) returns (ok: bool)
      requires Valid()
      modifies this
      ensures Did(old(world), old(trace), Lifecycle.Reboot(old(world), old(Mem()), o))
      ensures ok == Lifecycle.Reboot(old(world), old(Mem()), o).ok
      ensures Valid()
      ensures ok ==> world.fc == Booted
    {
      RebootFits(world, Mem(), o);
      ghost var m := Mem();
      Move(world.(fc := Off));
      ghost var off := world;
      assert Mem() == m;
      ok := Start(o);
      ghost var start := Lifecycle.Start(off, m, o);
      assert Did(off, old(trace) + [off], start);
      DidThen(old(world), old(trace), Effect([off], m, true), start);
    }

    method ReplaceFirewall(f: FirewallConfig) returns (ok: bool)
      modifies this
      ensures Did(old(world), old(trace), SetFirewall(old(world), old(Mem()), f))
      ensures ok == SetFirewall(old(world), old(Mem()), f).ok
    {
      firewall := f;
      applied := true;
      if !created {
        return true;
      }
      var rules := BuildFwRules(TAP, network.nameservers, firewall);
      inStep := false;
      if world.table.None? || !RulesLoad(rules) {
        return false;
      }
      var t := world.table.value;
      Move(world.(table := Some(t.(filter := t.filter.(chains := t.filter.chains["fw" := rules])))));
      inStep := true;
      return true;
    }

    /** The part of applyConfig after the config is taken over. */
    method ApplyTaken(f: FirewallConfig, o: ApplyOutcome) returns (ok: bool)
      modifies this
      ensures var e := ApplyTo(old(world), old(Mem()), f, o); Did(old(world), old(trace), e) && ok == e.ok
    {
      ghost var public := ApplyPublicIPs(world, Mem(), o.savePublic);
      ok := PublicIPs(o.savePublic);
      if !ok || !o.tc {
        return false;
      }
      ghost var replaced := SetFirewall(world, Mem(), f);
      ok := ReplaceFirewall(f);
      DidThen(old(world), old(trace), public, replaced);
    }

    method Apply(c: Config, o: ApplyOutcome) returns (ok: bool)
      modifies this
      ensures var e := ApplyConfig(old(world), old(Mem()), c, o); Did(old(world), old(trace), e) && ok == e.ok
    {
      ghost var m := Mem().(config := c, network := c.network, applied := false, inStep := false);
      config := c;
      network := c.network;
      applied, inStep := false, false;
      assert Mem() == m;
      ghost var e := ApplyTo(world, m, c.firewall, o);
      assert e == ApplyConfig(old(world), old(Mem()), c, o);
      ok := ApplyTaken(c.firewall, o);
      assert Did(old(world), old(trace), e) && ok == e.ok;
    }

    method Reload(load: bool, o: ApplyOutcome) returns (ok: bool)
      requires Valid()
      modifies this
      ensures Did(old(world), old(trace), Lifecycle.Reload(old(world), old(Mem()), load, o))
      ensures ok == Lifecycle.Reload(old(world), old(Mem()), load, o).ok
      ensures Valid()
    {
      ReloadFits(world, Mem(), load, o);
      if !load || !Validate(world.config) {
        return false;
      }
      ok := Apply(world.config, o);
    }

    method SaveConfigAndApply(c: Config, o: ApplyOutcome) returns (ok: bool)
      modifies this
      ensures Did(old(world), old(trace), SaveAndApply(old(world), old(Mem()), c, o))
      ensures ok == SaveAndApply(old(world), old(Mem()), c, o).ok
    {
      Move(world.(config := c));
      ghost var w1, m1 := world, Mem();
      ok := Apply(c, o);
      DidThen(old(world), old(trace), Effect([w1], m1, true), ApplyConfig(w1, m1, c, o));
    }

    method Mutate(e: Edit, load: bool, save: bool, o: ApplyOutcome) returns (ok: bool)
      requires Valid()
      modifies this
      ensures Did(old(world), old(trace), MutateConfig(old(world), old(Mem()), e, load, save, o))
      ensures ok == MutateConfig(old(world), old(Mem()), e, load, save, o).ok
      ensures Valid()
      ensures ok ==> Carries(e, old(world.config), world.config) && config == world.config
    {
      EditSets(world, Mem(), e, load, save, o);
      MutateFits(world, Mem(), e, load, save, o);
      var c := Edited(world.config, e);
      if !load || !Validate(c) || !save {
        return false;
      }
      ok := SaveConfigAndApply(c, o);
    }

    method Resize(cpus: int, memory: int, load: bool, save: bool) returns (ok: bool)
      requires Valid()
      modifies this
      ensures Did(old(world), old(trace), Lifecycle.Resize(old(world), old(Mem()), cpus, memory, load, save))
      ensures ok == Lifecycle.Resize(old(world), old(Mem()), cpus, memory, load, save).ok
      ensures Valid()
      ensures ok <==> old(world.fc) == Off && load && save
      ensures ok ==> world.config.cpus == cpus && world.config.memory == memory && config == world.config
    {
      ResizeSets(world, Mem(), cpus, memory, load, save);
      ResizeFits(world, Mem(), cpus, memory, load, save);
      if world.fc != Off || !load || !save {
        return false;
      }
      Move(world.(config := world.config.(cpus := cpus, memory := memory)));
      config := world.config;
      return true;
    }

    static function GrowSteps(w: World, size: int, o: GrowOutcome): Steps {
      GrowRootfs(w.rootfs, size, w.fc == Off, o)
    }

    method GrowDisk(size: int, o: GrowOutcome) returns (ok: bool)
      modifies this`world, this`trace
      ensures world == End(old(world), RootfsTrace(old(world), GrowSteps(old(world), size, o).states))
      ensures trace == old(trace) + RootfsTrace(old(world), GrowSteps(old(world), size, o).states)
      ensures ok == GrowSteps(old(world), size, o).ok
    {
      var file := new RootfsFile(world.rootfs);
      ok := file.Grow(size, world.fc == Off, o);
      Rewrite(file.state, file.seen);
    }

    /** The part of ResizeRootfs after the disk: save the config, then apply it. */
    method ContinueResize(ghost w: World, ghost t: seq<World>, ghost grown: Effect, c: Config, o: ApplyOutcome)
      returns (ok: bool)
      requires Did(w, t, grown)
      modifies this
      ensures var e := AndThen(grown, SaveAndApply(End(w, grown.trace), grown.memory, c, o)); Did(w, t, e) && ok == e.ok
    {
      ghost var rest := SaveAndApply(world, Mem(), c, o);
      ok := SaveConfigAndApply(c, o);
      DidThen(w, t, grown, rest);
    }

    method TryResizeRootfs(size: int, bandwidth: int, iops: int, o: ResizeOutcome) returns (ok: bool)
      modifies this
      ensures var e := Lifecycle.ResizeRootfs(old(world), old(Mem()), size, bandwidth, iops, o);
              Did(old(world), old(trace), e) && ok == e.ok
    {
      if !o.load {
        return false;
      }
      var c := world.config;
      var running := world.fc != Off;
      ghost var s := if size > c.size then GrowRootfs(world.rootfs, size, !running, o.grow) else Steps([], true);
      if size > c.size {
        ok := GrowDisk(size, o.grow);
        if !ok || (running && !o.told) {
          return false;
        }
        c := c.(size := size);
      }
      c := c.(bandwidth := bandwidth, iops := iops);
      if !o.save {
        return false;
      }
      ok := ContinueResize(
        old(world), old(trace), Effect(RootfsTrace(old(world), s.states), old(Mem()), true), c, o.apply);
    }

    method ResizeRootfs(size: int, bandwidth: int, iops: int, o: ResizeOutcome) returns (ok: bool)
      requires Valid()
      modifies this
      ensures var e := Lifecycle.ResizeRootfs(old(world), old(Mem()), size, bandwidth, iops, o);
              Did(old(world), old(trace), e) && ok == e.ok
      ensures Valid()
      ensures ok ==> world.config.bandwidth == bandwidth && world.config.iops == iops && config == world.config
    {
      ResizeRootfsSets(world, Mem(), size, bandwidth, iops, o);
      ResizeRootfsFits(world, Mem(), size, bandwidth, iops, o);
      ok := TryResizeRootfs(size, bandwidth, iops, o);
    }

    /** The part of CreateSnapshot that can stop the VM: copyRootfs and copyRootfsOffline. */
    method CopyForSnapshot(o: CopyRootfs) returns (ok: bool)
      requires Valid()
      modifies this
      ensures Did(old(world), old(trace), CreateSnapshot(old(world), old(Mem()), o))
      ensures ok == CreateSnapshot(old(world), old(Mem()), o).ok
      ensures Valid() && KeepsDesired(old(world), trace[|old(trace)|..])
      ensures o.Offline? && old(world.fc) != Off && Works(Off, o.start) ==> world.fc == Booted && ok == o.copied
    {
      if o.Offline? {
        SnapshotRestarts(world, Mem(), o.copied, o.start);
      }
      if world.fc != Off {
        RunsTheBuiltDisk();
      }
      SnapshotKeeps(world, Mem(), o);
      SnapshotFits(world, Mem(), o);
      if o.LiveClone? {
        return true;
      }
      if o.CloneError? {
        return false;
      }
      if world.fc == Off {
        return o.copied;
      }
      ok := Reboot(o.start);
      ok := ok && o.copied;
    }
  }
}
