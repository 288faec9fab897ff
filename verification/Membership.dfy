/**
 What one watcher does with beacon objects: the member table and its cache file, and the
 kernel routes and neighbours of the VPC namespace.
 */
module Membership {
  import opened Basics
  import opened Addresses
  import opened Beacon

  // ------------------------------------------------------------------
  // The kernel tables of the namespace, as `ip -force -batch` changes them
  // ------------------------------------------------------------------

  /** Routes by destination, and permanent neighbours by address and device. */
  datatype Kernel = Kernel(route: map<Ip, string>, neigh: map<(Ip, string), string>)

  const EMPTY_KERNEL := Kernel(map[], map[])

  datatype Command =
    | RouteReplace(ip: Ip, device: string)
    | NeighReplace(ip: Ip, lladdr: string, device: string)
    | RouteDel(ip: Ip)
    | NeighDel(ip: Ip, device: string)

  /** With -force, deleting what is not there changes nothing. */
  function Execute(k: Kernel, c: Command): Kernel {
    match c
    case RouteReplace(ip, device) => k.(route := k.route[ip := device])
    case NeighReplace(ip, lladdr, device) => k.(neigh := k.neigh[(ip, device) := lladdr])
    case RouteDel(ip) => k.(route := k.route - {ip})
    case NeighDel(ip, device) => k.(neigh := k.neigh - {(ip, device)})
  }

  function Batch(k: Kernel, commands: seq<Command>): Kernel
    decreases |commands|
  {
    if commands == [] then k else Batch(Execute(k, commands[0]), commands[1..])
  }

  /** The two lines for one address of a VM. An empty gre removes. */
  function AddressCommands(device: string, ip: Ip, gre: string): seq<Command> {
    if gre == "" then [RouteDel(ip), NeighDel(ip, device)]
    else [RouteReplace(ip, device), NeighReplace(ip, gre, device)]
  }

  function VmCommands(device: string, a: IPv4, gre: string): seq<Command> {
    AddressCommands(device, V4(a), gre) + AddressCommands(device, V6(GuestIPv6Value(a)), gre)
  }

  function RouteMember(k: Kernel, device: string, a: IPv4, gre: string): Kernel {
    Batch(k, VmCommands(device, a, gre))
  }

  /** One address goes through the tunnel to gre, or nowhere when gre is empty. */
  predicate ShowsIp(k: Kernel, device: string, ip: Ip, gre: string) {
    if gre == "" then ip !in k.route && (ip, device) !in k.neigh
    else ip in k.route && k.route[ip] == device
         && (ip, device) in k.neigh && k.neigh[(ip, device)] == gre
  }

  /** Both families of a VM agree on where it is. */
  predicate Shows(k: Kernel, device: string, a: IPv4, gre: string) {
    ShowsIp(k, device, V4(a), gre) && ShowsIp(k, device, V6(GuestIPv6Value(a)), gre)
  }

  lemma BatchOfFour(k: Kernel, c: seq<Command>)
    requires |c| == 4
    ensures Batch(k, c) == Execute(Execute(Execute(Execute(k, c[0]), c[1]), c[2]), c[3])
  {
    assert c[1..][1..] == c[2..] && c[2..][1..] == c[3..] && c[3..][1..] == [];
    assert Batch(k, c) == Batch(Execute(k, c[0]), c[1..]);
    var k2 := Execute(Execute(k, c[0]), c[1]);
    assert Batch(k, c) == Batch(k2, c[2..]);
    var k3 := Execute(k2, c[2]);
    assert Batch(k2, c[2..]) == Batch(k3, c[3..]);
    assert Batch(k3, c[3..]) == Batch(Execute(k3, c[3]), []);
  }

  /** Routing a member places both of its addresses, whatever was there before. */
  lemma RouteMemberShows(k: Kernel, device: string, a: IPv4, gre: string)
    ensures Shows(RouteMember(k, device, a, gre), device, a, gre)
  {
    BatchOfFour(k, VmCommands(device, a, gre));
  }

  /** Routing one member leaves every other member as it was, in both families. */
  lemma RouteMemberFrame(k: Kernel, device: string, a: IPv4, gre: string, b: IPv4, there: string)
    requires a != b
    ensures Shows(RouteMember(k, device, a, gre), device, b, there) <==> Shows(k, device, b, there)
  {
    BatchOfFour(k, VmCommands(device, a, gre));
    if GuestIPv6Value(a) == GuestIPv6Value(b) {
      GuestIPv6ValueInjective(a, b);
    }
  }

  /** The node lets GRE in from every peer that the namespace sends to. */
  predicate PeersCover(k: Kernel, peers: set<string>) {
    forall at :: at in k.neigh ==> k.neigh[at] in peers
  }

  /** Allowing the peer first keeps the GRE filter open for every neighbour. */
  lemma RouteMemberCovered(k: Kernel, device: string, a: IPv4, gre: string, peers: set<string>)
    requires PeersCover(k, peers)
    ensures PeersCover(RouteMember(k, device, a, gre), if gre == "" then peers else peers + {gre})
  {
    BatchOfFour(k, VmCommands(device, a, gre));
  }

  lemma ShowsOnce(k: Kernel, device: string, a: IPv4, g: string, h: string)
    requires Shows(k, device, a, g) && Shows(k, device, a, h)
    ensures g == h
  {
  }

  // ------------------------------------------------------------------
  // The member table and its cache file
  // ------------------------------------------------------------------

  /** A revision with the members known at it: the memory of a watcher, and its file. */
  datatype Members = Members(revision: int, table: map<IPv4, string>)

  const NO_MEMBERS := Members(0, map[])

  function Max(x: int, y: int): int { if x > y then x else y }

  /** The memory and the file after rememberMember. */
  function Remember(memory: Members, file: Members, a: IPv4, gre: string, timestamp: int): (Members, Members) {
    var seen := memory.(revision := Max(memory.revision, timestamp));
    if (if a in seen.table then seen.table[a] else "") == gre then (seen, file)
    else
      var changed := seen.(table := seen.table[a := gre]);
      (changed, changed)
  }

  /** The memory and the file after forgetMember. */
  function Forget(memory: Members, file: Members, a: IPv4, timestamp: int): (Members, Members) {
    var seen := memory.(revision := Max(memory.revision, timestamp));
    if a !in seen.table then (seen, file)
    else
      var changed := seen.(table := seen.table - {a});
      (changed, changed)
  }

  /** Where a table sends an address, empty for nowhere. */
  function EntryOf(m: Members, a: IPv4): string { if a in m.table then m.table[a] else "" }

  /** What a change of one entry leaves: the others, and a revision that never goes back. */
  ghost predicate OneEntry(m: Members, m': Members, a: IPv4, timestamp: int) {
    && (forall b :: b != a ==> (b in m'.table <==> b in m.table) && EntryOf(m', b) == EntryOf(m, b))
    && m'.revision >= m.revision && m'.revision >= timestamp && m'.revision in {m.revision, timestamp}
  }

  /** The file is written, with all that the memory has by then, exactly if the entry changes. */
  ghost predicate SavedOnChange(m: Members, m': Members, file: Members, file': Members, a: IPv4) {
    if (a in m.table <==> a in m'.table) && EntryOf(m', a) == EntryOf(m, a) then file' == file else file' == m'
  }

  /** rememberMember puts the endpoint in, and writes the file only for a change. */
  lemma RememberIs(memory: Members, file: Members, a: IPv4, gre: string, timestamp: int)
    requires gre != ""
    ensures var (m, f) := Remember(memory, file, a, gre, timestamp);
            && a in m.table && m.table[a] == gre
            && OneEntry(memory, m, a, timestamp) && SavedOnChange(memory, m, file, f, a)
  {
  }

  /** forgetMember takes the entry out, and writes the file only for a change. */
  lemma ForgetIs(memory: Members, file: Members, a: IPv4, timestamp: int)
    ensures var (m, f) := Forget(memory, file, a, timestamp);
            && a !in m.table
            && OneEntry(memory, m, a, timestamp) && SavedOnChange(memory, m, file, f, a)
  {
  }

  /** The routing that follows an object: an address, and where it goes. */
  datatype Routing = Routing(address: IPv4, gre: string)

  /** The table part of routeRemoteVM, and the kernel change that comes after it. */
  function Absorb(memory: Members, file: Members, node: int, o: Object): (Members, Members, Option<Routing>) {
    match o.ip
    case None => (memory, file, None)
    case Some(a) =>
      if o.node == node then (memory, file, None)
      else if o.deleted then
        var (m, f) := Forget(memory, file, a, o.timestamp);
        (m, f, Some(Routing(a, "")))
      else if o.gre == "" then (memory, file, None)
      else
        var (m, f) := Remember(memory, file, a, o.gre, o.timestamp);
        (m, f, Some(Routing(a, o.gre)))
  }

  /** How routeMember gets to its batch: without the lock, or the tunnel, it returns before it. */
  datatype RouteOutcome = NoLock | NoTunnel | Routed

  /** The batch runs. A removal needs no tunnel. */
  predicate Reaches(o: RouteOutcome, gre: string) { o.Routed? || (gre == "" && o.NoTunnel?) }

  function Programmed(k: Kernel, device: string, a: IPv4, gre: string, o: RouteOutcome): Kernel {
    if Reaches(o, gre) then RouteMember(k, device, a, gre) else k
  }

  /** The memory after applyCachedMembers: an empty cache changes nothing. */
  function Loaded(memory: Members, file: Members): Members {
    if file.table == map[] then memory else file
  }

  /** The addresses that applyCachedMembers routes. */
  function ToRestore(file: Members): set<IPv4> {
    if file.table == map[] then {} else file.table.Keys
  }

  /** Those whose batch runs, with where they go. */
  function Reached(file: Members, o: IPv4 -> RouteOutcome): map<IPv4, string> {
    map a | a in ToRestore(file) && Reaches(o(a), file.table[a]) :: file.table[a]
  }

  /** What applying a whole table does to the kernel, in any order. */
  ghost predicate Restored(before: Kernel, after: Kernel, device: string, table: map<IPv4, string>) {
    && (forall a :: a in table ==> Shows(after, device, a, table[a]))
    && (forall b, there :: b !in table ==> (Shows(after, device, b, there) <==> Shows(before, device, b, there)))
  }

  // ------------------------------------------------------------------
  // The objects that hold this state
  // ------------------------------------------------------------------

  /** The namespace of one VPC on this node, shared by every watcher in it. */
  class Namespace {
    const device: string
    var kernel: Kernel

    constructor (device: string)
      ensures this.device == device && kernel == EMPTY_KERNEL
    {
      this.device := device;
      kernel := EMPTY_KERNEL;
    }
  }

  /** The set of the atlas-gre table in root. A peer is never taken out. */
  class GreFilter {
    var peers: set<string>

    constructor ()
      ensures peers == {}
    {
      peers := {};
    }

    method Allow(gre: string)
      modifies this
      ensures peers == old(peers) + {gre}
    {
      peers := peers + {gre};
    }
  }

  /** vpc-members.json. A save replaces it in one step. */
  class MembersFile {
    var content: Members

    constructor ()
      ensures content == NO_MEMBERS
    {
      content := NO_MEMBERS;
    }
  }

  class Network {
    const nodeID: int
    const namespace: Namespace
    const filter: GreFilter
    const membersFile: MembersFile
    var members: map<IPv4, string>
    var membersRevision: int

    constructor (nodeID: int, namespace: Namespace, filter: GreFilter, membersFile: MembersFile)
      ensures this.nodeID == nodeID && this.namespace == namespace
      ensures this.filter == filter && this.membersFile == membersFile
      ensures Memory() == NO_MEMBERS
    {
      this.nodeID := nodeID;
      this.namespace := namespace;
      this.filter := filter;
      this.membersFile := membersFile;
      members := map[];
      membersRevision := 0;
    }

    function Memory(): Members
      reads this
    {
      Members(membersRevision, members)
    }

    /** Takes the network lock, lets the peer through, makes the tunnel, and runs one batch. */
    method RouteOne(address: IPv4, gre: string, o: RouteOutcome)
      modifies namespace, filter
      ensures namespace.kernel == Programmed(old(namespace.kernel), namespace.device, address, gre, o)
      ensures Reaches(o, gre) ==> Shows(namespace.kernel, namespace.device, address, gre)
      ensures filter.peers == if gre == "" || o.NoLock? then old(filter.peers) else old(filter.peers) + {gre}
      ensures old(PeersCover(namespace.kernel, filter.peers)) ==> PeersCover(namespace.kernel, filter.peers)
    {
      if o.NoLock? {
        return;
      }
      if gre != "" {
        filter.Allow(gre);
        if o.NoTunnel? {
          return;
        }
      }
      if PeersCover(old(namespace.kernel), old(filter.peers)) {
        RouteMemberCovered(old(namespace.kernel), namespace.device, address, gre, old(filter.peers));
      }
      namespace.kernel := Batch(namespace.kernel, VmCommands(namespace.device, address, gre));
      RouteMemberShows(old(namespace.kernel), namespace.device, address, gre);
    }

    /** The error of a save is ignored: the memory moves on, and the file stays behind. */
    method RememberMember(address: IPv4, gre: string, timestamp: int, save: bool)
      modifies this, membersFile
      ensures var (m, f) := Remember(old(Memory()), old(membersFile.content), address, gre, timestamp);
              Memory() == m && membersFile.content == if save then f else old(membersFile.content)
    {
      if timestamp > membersRevision {
        membersRevision := timestamp;
      }
      if (if address in members then members[address] else "") == gre {
        return;
      }
      members := members[address := gre];
      if save {
        membersFile.content := Members(membersRevision, members);
      }
    }

    method ForgetMember(address: IPv4, timestamp: int, save: bool)
      modifies this, membersFile
      ensures var (m, f) := Forget(old(Memory()), old(membersFile.content), address, timestamp);
              Memory() == m && membersFile.content == if save then f else old(membersFile.content)
    {
      if timestamp > membersRevision {
        membersRevision := timestamp;
      }
      if address !in members {
        return;
      }
      members := members - {address};
      if save {
        membersFile.content := Members(membersRevision, members);
      }
    }

    /** One object: the table and its file first, then the kernel. */
    method RouteRemoteVM(obj: Object, save: bool, o: RouteOutcome)
      modifies this, membersFile, namespace, filter
      ensures old(PeersCover(namespace.kernel, filter.peers)) ==> PeersCover(namespace.kernel, filter.peers)
      ensures var (m, f, r) := Absorb(old(Memory()), old(membersFile.content), nodeID, obj);
              && Memory() == m && membersFile.content == (if save then f else old(membersFile.content))
              && namespace.kernel == (match r
                 case None => old(namespace.kernel)
                 case Some(Routing(a, gre)) => Programmed(old(namespace.kernel), namespace.device, a, gre, o))
    {
      if obj.ip.None? || obj.node == nodeID {
        return;
      }
      var address := obj.ip.value;
      if obj.deleted {
        ForgetMember(address, obj.timestamp, save);
        RouteOne(address, "", o);
        return;
      }
      if obj.gre == "" {
        return;
      }
      RememberMember(address, obj.gre, obj.timestamp, save);
      RouteOne(address, obj.gre, o);
    }

    /** Loads the cache and routes every member of it that it can, in whatever order the map gives. */
    method ApplyCachedMembers(o: IPv4 -> RouteOutcome)
      modifies this, namespace, filter
      ensures old(PeersCover(namespace.kernel, filter.peers)) ==> PeersCover(namespace.kernel, filter.peers)
      ensures Memory() == Loaded(old(Memory()), membersFile.content)
      ensures Restored(old(namespace.kernel), namespace.kernel, namespace.device, Reached(membersFile.content, o))
    {
      var file := membersFile.content;
      if file.table == map[] {
        return;
      }
      members, membersRevision := file.table, file.revision;
      ghost var reached := Reached(file, o);
      var todo := members.Keys;
      while todo != {}
        invariant old(PeersCover(namespace.kernel, filter.peers)) ==> PeersCover(namespace.kernel, filter.peers)
        invariant todo <= members.Keys && members == file.table && membersRevision == file.revision
        invariant forall a :: a in reached && a !in todo ==>
          Shows(namespace.kernel, namespace.device, a, reached[a])
        invariant forall b, there :: b !in reached ==>
          (Shows(namespace.kernel, namespace.device, b, there)
           <==> Shows(old(namespace.kernel), namespace.device, b, there))
      {
        var address :| address in todo;
        ghost var before := namespace.kernel;
        RouteOne(address, members[address], o(address));
        forall b, there | b != address || !Reaches(o(address), members[address])
          ensures Shows(namespace.kernel, namespace.device, b, there) <==> Shows(before, namespace.device, b, there)
        {
          if b != address {
            RouteMemberFrame(before, namespace.device, address, members[address], b, there);
          }
        }
        todo := todo - {address};
      }
    }
  }
}
