# Verification of the Atlas runtime

This project models the parts of the Atlas VM runtime that keep one state in step with
another: a beacon log, kernel tables, files that survive a crash, and a Firecracker process.
It proves what every step and every run of them keeps. Check it with
`dafny verify dfyconfig.toml` (Dafny 4.11).

## What is modelled

**VPC membership** (`Beacon`, `Membership`, `Replication`, `Convergence`, `Publishing`,
`Progress`, `Witnesses`). Beacon is a log with increasing timestamps. A subscription since a revision
delivers the newest version of every key that changed after it, in order, then live versions.
`Membership` holds the objects of one watcher: its table, its cache file, the routes and
neighbours of the namespace, and the GRE filter of the node. `Replication` runs any number of
watchers of one namespace as a state machine whose steps another watcher, a crash, a power
loss or a new version can come between. It keeps, for every address, who wrote its route last.
`Convergence` proves what they reach together: the exact condition on the run under which a route
is wrong once all have caught up. `Publishing` adds the VMs that publish and withdraw their key,
on one node after another as they move, `Progress` shows that the watchers can always catch up, and
`Witnesses` has the runs that go wrong.

**VPC namespace** (`VpcLifetime`, `Addresses`). Marker files are counted under a lock in the
directory that the last leaver removes, so a lock belongs to an inode and `os.RemoveAll` takes
steps. The address, MAC and IPv6 codecs and the veth blocks are beside it.

**Firewall and NAT** (`Config`, `Nft`, `Firewall`, `Nat`). nftables gets a meaning: matches,
chains, jumps, tables of one hook. The compiler is proved to keep the meaning of the rules.

**Lifecycle** (`Disk`, `Lifecycle`, `LifecycleProofs`, `LifecycleClaims`, `LifecycleMemory`,
`LifecycleNetwork`, `LifecycleResults`, `RuntimeObject`). An operation is a function from the world,
the memory of the process and the outcome of each foreign call to every world it passes through. A
run mixes completed operations, deaths of the process at any of those worlds, reboots and recoveries,
in which metadata.json may fail to load. `RuntimeObject` is the object that makes the same steps in place,
and keeps the invariant through every method.

**Snapshots** (`SnapshotDisk`, `Snapshots`, `SnapshotProofs`, `SnapshotRuns`, `SnapshotStore`,
`SnapshotNames`). A directory is what is on disk plus the changes since its last fsync. A power
loss keeps any subset of those changes, in order, each of them atomic, and gives any content to
a file that is not synced.

**Console** (`Console`, `ConsoleAttach`). The ring over a real array, with Go's `append`, and
the interleavings of writes with a client that attaches: the history is taken under the mutex, and
sent later.

## Where the promise of the source fails

Each is a lemma with the exact condition or a concrete run.

- Once all watchers have caught up a route is wrong exactly when the last writer of its address left
  before it was right, and nothing came to the address afterwards (`RouteIsWrongIff`, `EndToEnd`). It
  leaves in two ways. A VM stops, or does not come back, while it owes the address: the route of a
  member that has moved stays, for every VM of the VPC on the node (`StoppedTooEarly`). A watcher
  crashes between the saved tombstone and its route delete: the route to a dead member stays, unless
  the saved cache is empty or another active watcher still has the tombstone to come (`GapDecides`,
  `CrashedInTheGap`).
- A key is live at the node of a VM exactly when that VM was the last to publish it, with no delete by any
  node after it (`LiveIffLastWord`). So the late delete of a node that a VM has left takes down the key that
  its new node has published (`LateDelete`).
- A watcher that resumes has the entry of a full replay exactly when the newest version of the key is newer
  than its cache and not of this node, or the cache was right already (`ResumeIff`, `MissedIff`). A VM that
  moves onto this node during a disconnect leaves its old route (`MoveOntoThisNodeIsMissed`,
  `MovedOntoThisNode`).
- When a leaver unlinks a lock that another process waits on, to enter or to leave, a success can lose its
  namespace (`WaiterBreaksCounting`, `NamespaceIsLost`). An entrant that opens the new lock too early can lose
  its marker (`OpenBreaksCounting`, `MarkerIsLost`). Two processes are enough for each.
- A recovery that cannot load metadata.json takes the VM for a new one. If that is saved, a VM that had
  booted never boots again, because its disk exists (`InitializedIff`, `UnreadableOnce`).
- `docs/api.md` and `docs/state.md` say that a reboot leaves `desired_state`. It always sets it to
  running (`RebootKeepsDesired`).
- `Stop` returns no error when its saves fail. The VM then starts again at the next recovery
  (`StopForgotten`).
- `Validate` accepts an IPv4-mapped address in colon form and any text as a nameserver. nft then
  refuses the whole script (`FwRulesLoad`).
- `Validate` accepts a public IPv4 in colon form. It is saved as the public address, and never mapped
  (`IncomingTarget`).
- After an `applyConfig` that failed at the traffic control, a later start builds the old firewall
  (`EarlyReturnLeavesOldRules`).
- A `Resize` to zero is saved, and then no edit, reload or boot works until another resize
  (`ResizeValidity`, `BadResourcesLockOut`).
- A VM with a root disk that it does not know as built never boots: a disk left half built by a crash,
  and a whole one whose `initialized` was not saved (`StuckForEver`, `CutBuildIsFinal`, `UnsavedBuildIsLost`).
- A start whose boot failed in its configuration leaves Firecracker without a guest, and the next start
  answers that all is well (`FailedBootThenOk`).
- The first snapshot of a VM can vanish after its success (`FirstSnapshotCanVanish`). A boot
  reference can name the temporary directory of a snapshot (`TemporaryIsSafe`).
- `ReadRing` returns the ring itself when it is full and the position is zero. A client that attaches
  then is sent what is in the ring by the time of the send (`HistoryIsPromised`, `TornAttach`).
- VPC 5375 gets the address of the metadata service on its uplink (`VethPlacement`).

## Model

| member | source | states |
|---|---|---|
| Beacon.LastIs | vpc_remote.go:81-105 | The last effective object of an address is the one after which no object of the log changes anything for it. |
| Beacon.LastIsNewest | vpc_remote.go:145-148 | No effective object of an address is newer than its last one, and timestamps identify it. |
| Beacon.CatchUpFromIs | beacon.go:53-57 | Catch-up is ascending and holds exactly the newest version of each key that changed after the revision. |
| Beacon.CatchUpComplete | beacon.go:53-57 | Coalescing never hides the last effective object of an address that is newer than the revision. |
| Membership.RouteMemberShows | vpc_remote.go:175-192 | One batch places or removes route and neighbour in both families, whatever was there before. |
| Membership.RouteMemberFrame | vpc_remote.go:175-192 | A batch for one address leaves every other member as it was, in both families. |
| Membership.RouteMemberCovered | vpc_remote.go:250-255 | When the peer is allowed first, every neighbour is a peer that the GRE filter lets in. |
| Membership.RememberIs | vpc_remote.go:145-154 | rememberMember puts the endpoint in, leaves the other entries, never takes the revision back, and writes the file exactly if the entry changes. |
| Membership.ForgetIs | vpc_remote.go:158-167 | The same for taking an entry out. |
| Membership.Network.RouteOne | vpc_remote.go:110-127 | The kernel becomes that of the batch, unless the lock or the tunnel fails; the peer set only grows, by this peer, and covers every neighbour. |
| Membership.Network.RememberMember | vpc_remote.go:145-154 | Table and revision change together, the revision never back, and the file with them only when the entry changes and the save works. |
| Membership.Network.ForgetMember | vpc_remote.go:158-167 | The same for a removal, which is saved only if the entry was there. |
| Membership.Network.RouteRemoteVM | vpc_remote.go:81-105 | Every branch: which objects are ignored, what the table and file become, and which route follows. |
| Membership.Network.ApplyCachedMembers | vpc_remote.go:131-141 | An empty or missing cache changes nothing; otherwise every cached member whose batch runs is routed, in any order, and nobody else is touched. |
| Replication.AppendKeeps | beacon.go:42-51 | A new version, handed to every live stream, keeps the invariant of all watchers. |
| Replication.TakeOk | vpc_remote.go:81-105 | Handling the next object keeps the table right about every address up to the revision. |
| Replication.RouteKeeps | vpc_remote.go:103-104 | Routing after the table has changed keeps the kernel right, even for an object that is old by then. |
| Replication.CrashKeeps | vpc_remote.go:96-97 | After a process death at any step every route is right, owed by an active watcher, or marked lost for this one address. |
| Replication.RestoreKeeps | vpc_remote.go:131-141 | Restoring one cached member, possibly an outdated one, keeps the invariant, because its watcher still owes it. |
| Replication.HostRebootKeeps | vpc_members.go:44-75 | A power loss that empties the kernel and brings back any file ever saved keeps the invariant. |
| Replication.StepKeeps | vpc_remote.go:29-62 | Every step of every watcher keeps the invariant, those of a crashed watcher that is never started again included. |
| Convergence.HandleExact | vpc_remote.go:81-105 | From a table that is right up to its revision, handling what is newer makes it right about the whole log. |
| Convergence.ResumeIsReplay | vpc_remote.go:131-141 | Cache plus coalesced catch-up gives the table of a full replay, the empty cache included, for every address whose last effective object is the newest version of its key. |
| Convergence.ReachableFilesResume | vpc_members.go:25-75 | Every file that any run ever saved resumes in this way. |
| Convergence.ResumeIff | vpc_remote.go:81-105 | Whatever the cache holds: resuming gives an address of one key the entry of a full replay if and only if the newest version of the key is newer than the cache and effective there, or the cache was right. |
| Convergence.MissedIff | vpc_remote.go:86-88 | For a cache that is right when it is new enough, it misses exactly a last effective object that is newer than the cache and hidden by a newer version, unless the endpoint is the same. |
| Convergence.MoveOntoThisNodeIsMissed | vpc_remote.go:86-88 | That is so for a VM that moves onto this node. |
| Witnesses.MovedOntoThisNode | vpc_remote.go:86-88 | A run from the start in which the VM moves here during a disconnect, and its old route stays. |
| Convergence.Converges | vpc_remote.go:29-141 | After any run, once all watchers have caught up, an address is routed as the last writer says if and only if it was not left behind at another endpoint, and every table has the entry of the full replay. |
| Convergence.CaughtUpKernel | vpc_remote.go:110-127 | The same for the kernel, from the invariant alone. |
| Convergence.RouteIsWrongIff | vpc_remote.go:95-104 | The route of an address is wrong if and only if, at some step of the run, the last writer of that route stopped while it owed the address, or crashed in the gap, at another endpoint, and nothing came to the address after that. |
| Convergence.LostHasACause | network.go:87-92 | What is marked lost at the end was left behind at a step of the run and undisturbed since. |
| Convergence.LeftIsLost | vpc_remote.go:95-98 | And conversely: what a step leaves behind, undisturbed since, is lost at exactly the endpoint that was shown then; a crash leaves only addresses whose owner is gone. |
| Convergence.LiveLeftByStop | network.go:87-92 | The wrong route of a live member was left by a stop or by a VM that did not come back, never by a crash. |
| Convergence.GapDecides | vpc_remote.go:96-97 | After a crash in the gap, and any run without new events on the log in which all catch up, the dead route is gone if and only if there was none, the gap was closed (the cache was empty or had not recorded the tombstone), or another active watcher still had the tombstone to come. |
| Convergence.CalmRun | vpc_remote.go:131-141 | In such a run a route that every active watcher is done with is never touched. |
| Witnesses.StoppedTooEarly | network.go:87-92 | A run from the start, with no crash, that ends caught up with the old route of a member that has moved. |
| Witnesses.CrashedInTheGap | vpc_remote.go:96-97 | A run from the start, with one crash in the gap and a recovery, that ends caught up with the route of a dead member. |
| Publishing.KeyIsVisible | vpc_remote.go:63-79 | A node can rely on a key if and only if its newest version names another node, or none ever did, wherever the VM has been. |
| Publishing.ClusterStep | network.go:80-99 | Publishing, moving, withdrawing, dying and every local step keep the invariant of all nodes. |
| Publishing.ClusterRunKeeps | network.go:80-99 | So does every run of the cluster. |
| Publishing.WantedIsOwner | vpc_remote.go:63-79 | With unique addresses the owner is the node of the newest version while the key is live, and none once every instance is stopped and its delete arrived. |
| Publishing.Project | vpc_remote.go:29-62 | What one node sees of a cluster run is a run of its watchers. |
| Publishing.NeverRanHere | vpc_remote.go:63-79 | A node on which the key never ran is one that its newest version does not name. |
| Publishing.EndToEnd | network.go:87-99 | After any cluster run a caught-up node routes a key whose newest version does not name it to the node of that version, or nowhere when it is deleted, if and only if the node did not leave the address behind at another endpoint. |
| Publishing.CachesResumeIff | vpc_members.go:25-75 | Every cache that a watcher of the cluster ever saved resumes right if and only if the newest version of the key does not name this node, or the cache was right already. |
| Publishing.LiveIffLastWord | network.go:94-98 | Over every run a key is live at the node of an instance if and only if that instance published it last and no delete that arrived came after. |
| Publishing.LateDelete | network.go:94-98 | A run from the start that ends with the VM up on its new node and its key deleted by the old one. |
| Progress.CanCatchUp | vpc_remote.go:29-62 | No state of any run is a dead end: if some watcher should run, steps without new objects lead to one where all that should run have caught up. |
| Progress.NeverGivenUp | vpc_remote.go:29-62 | After any run, crashes and reboots included, a watcher that nobody stopped can still catch up. |
| VpcLifetime.OneAtATime | helpers.go:63-70 | Two processes never both hold the lock file that is at the lock path. |
| VpcLifetime.StepKeeps | vpc.go:22-73 | Every step that meets the side condition keeps the invariant. |
| VpcLifetime.ReferenceCounting | vpc.go:22-73 | In every quiet run a VM that entered keeps marker and namespace until it leaves. Without a crash every marker is that of a VM that has entered or is inside a call; and when all calls are done the markers are the VMs that have entered and not left, and the namespace is there exactly if there are any. |
| VpcLifetime.EntersAlone | vpc.go:22-47 | On its own vpcEnter succeeds, and adds one VM with its marker. |
| VpcLifetime.LeavesAlone | vpc.go:52-64 | On its own vpcLeave takes its own marker, and nothing else while others remain. |
| VpcLifetime.LastLeaves | vpc.go:61-73 | That of the last VM leaves no marker, namespace, lock or directory. |
| VpcLifetime.CanFinish | helpers.go:63-70 | From every state, whatever has crashed and whoever waits, all calls can finish: no lock is waited on for ever. |
| VpcLifetime.WaiterBreaksCounting | vpc.go:66-72 | The first half of the side condition is exact: from every state of the invariant, an unlink of a lock that another process waits on can end with a success without a namespace. |
| VpcLifetime.NamespaceIsLost | vpc.go:66-72 | Quiet steps of two processes from the start reach such a state, for a waiting entrant and for a waiting leaver. |
| VpcLifetime.OpenBreaksCounting | vpc.go:66-72 | So is the second half while the directories exist: an entrant that opens the lock before the markers are removed can succeed and lose its marker. |
| VpcLifetime.MarkerIsLost | vpc.go:66-72 | Two processes from the start get there too. |
| Addresses.GuestIPReads | helpers.go:22-27 | The guest has the address a.b.c.d exactly if the configured string reads, as a prefix first, as the 16 bytes of it; and none if it reads as no IPv4. |
| Addresses.GuestReadsItsAddress | scripts/build-ubuntu-image:52-58 | For every accepted address the guest decodes the derived MAC to the four octets that the configured string spells. |
| Addresses.GuestHasIPv6 | helpers.go:32-38 | Its IPv6 is fd00:: with those four octets at the end. |
| Addresses.MacDecodes | helpers.go:43-49 | The pattern of the guest finds exactly the four octets, in the line that shows the MAC. |
| Addresses.IPv6TextMeans | helpers.go:32-38 | The derived text, read by section 2.2 of RFC 4291, is fd00:: with the IPv4 in the low 32 bits. |
| Addresses.GuestIPv6Faithful | helpers.go:32-38 | The derived IPv6 is injective, and is the gateway fd00::1 only for 0.0.0.1. |
| Addresses.VethBase4Value | vpc.go:177-178 | The bit operations give 0x8000 plus twice the id mod 16384. |
| Addresses.VethBlocks | vpc.go:177-182 | Two /31 blocks are equal if and only if the ids agree mod 16384, and disjoint otherwise. |
| Addresses.VethPlacement | vpc.go:169-182 | Every block is aligned and inside 169.254.128.0/17, never holds 169.254.1.1, and holds 169.254.169.254 only for the residue 5375. |
| Addresses.VethBijection | config.go:156-159 | The accepted ids are a bijection onto the blocks. |
| Addresses.VethPair4 | vpc.go:176-182 | The root side of a VPC is 169.254.128.0 plus twice the id mod 16384, and the other side is the next address. |
| Addresses.VethBlocks6 | vpc.go:184-187 | The /127 blocks are equal if and only if the ids agree mod 32768, and disjoint otherwise. |
| Addresses.VethPlacement6 | vpc.go:184-187 | They are neighbours in fd01::/112: the root side is even and comes first. |
| Nft.DeliveredIs | network.go:152-161 | Several tables at one hook deliver a packet exactly if each of them passes it. |
| Nft.DenyByDefault | network.go:230-248 | A chain of accepts that ends in a drop accepts exactly what some rule matches. |
| Nft.PrefixInterval | network.go:279-299 | The interval of a prefix holds exactly the addresses that share its leading bits. |
| Firewall.BuildDnsRules | network.go:217-228 | The loop gives one line for each nameserver that is not blank, in order. |
| Firewall.BuildLines | network.go:237-246 | The loop gives the lines of every rule, in order. |
| Firewall.BuildFwRules | network.go:234-249 | The chain is DNS, then ingress, then egress, then the drop. |
| Firewall.FwRulesLoad | network.go:279-299 | nft takes the chain of a validated firewall if and only if no address is IPv4-mapped in colon form and every nameserver is blank or an address. |
| Firewall.RuleMeaning | network.go:253-275 | The lines of one rule match exactly the packets of its direction that the rule allows: addresses, ports, echo requests of both families. |
| Firewall.PortsAreKept | config.go:192-206 | A validated rule that names a port allows nothing but TCP or UDP to its ports. |
| Firewall.LinesMeaning | network.go:234-249 | The lines of a list match exactly what some rule of it allows. |
| Firewall.DnsMeaning | network.go:215-228 | The DNS lines match exactly UDP 53 from the guest to a nameserver. |
| Firewall.FwMeaning | network.go:230-249 | The whole fw chain decides every packet that comes to it, as ingress, egress and DNS say. |
| Firewall.ForwardJumps | network.go:190-191 | New traffic of the VM gets the verdict of its fw chain, through whichever jump comes first. |
| Firewall.ForwardPasses | network.go:188-191 | Established traffic, and the traffic of other VMs, passes. |
| Firewall.EverySynIsClamped | network.go:152-158 | The MSS is clamped of exactly the TCP packets with a SYN, those of established connections included: the clamp comes before every accept. |
| Firewall.CompilationPreservesMeaning | network.go:162-278 | The table passes a new packet if and only if the configuration promises it. |
| Firewall.TablesCompose | network.go:159-191 | Over all tables of a namespace, sender and receiver decide, and no third VM. |
| Firewall.BetweenTwoVms | network.go:159-191 | From VM to VM: the egress of one and the ingress of the other. |
| Nat.SyncMoves | network.go:354-363 | From exact maps, syncNATMap ends with exactly the new address, or none. |
| Nat.SyncFresh | network.go:354-363 | From empty maps too, whatever the metadata remembers. |
| Nat.SyncForgotten | network.go:354-363 | From maps that hold an address which the metadata has forgotten, the new one is added and the guest keeps going out from the old one. |
| Nat.GuestsDiffer | network.go:383-389 | Different guests have different addresses in both families. |
| Nat.GuestLiterals | network.go:383-389 | The guest addresses that NAT uses are the numbers of the four octets, alone and after fd00::. |
| Nat.ValidPublicIsUsable | config.go:226-238 | A validated public IPv6 can always be mapped; a public IPv4 exactly if it is spelled with dots, and else it stands for an IPv4. |
| Nat.ValidNetworkHasGuest | config.go:160-162 | A validated network has a guest, which the configured string spells. |
| Nat.ValidNetworksApart | config.go:157-159 | Two validated networks of different VPCs have disjoint uplinks in both families. |
| Nat.OutgoingSource | network.go:185-187 | The postrouting rules give each packet its promised source: the usable public address, else the uplink if enabled, else its own. |
| Nat.IncomingTarget | network.go:183-184 | The prerouting rules send a packet to the guest exactly when it is for a usable public address. |
| Nat.OneToOne | network.go:183-186 | The two directions are inverse: what comes in at an address goes out from it, and nothing else does. |
| Nat.OwnerDecides | network.go:301-320 | Among the tables of a namespace only that of the sender translates. |
| Disk.PrepareOnce | disk.go:14-30 | A build never touches an existing file, ends whole at exactly the configured size, and is not whole at any step before. |
| Disk.PrepareSucceedsIff | disk.go:14-30 | The exact condition for a build to succeed. |
| Disk.FailureLeaves | disk.go:14-30 | A build that fails leaves no file exactly if the source was too long or clone and copy were both refused. |
| Disk.GrowReaches | disk.go:33-53 | Growth never shortens, ends at the size that was asked, and the exact condition for its success. |
| Disk.RootfsFile.Clone | disk.go:60-79 | The states of the file and the error, refusal of an existing file included. |
| Disk.RootfsFile.Copy | disk.go:90-102 | The same for the copy with cp. |
| Disk.RootfsFile.Grow | disk.go:33-53 | The same for growing; a missing or long enough file is left alone. |
| Disk.RootfsFile.PrepareFrom | disk.go:14-30 | The same for the whole build. |
| LifecycleProofs.StartFits | runtime.go:72-105 | Start, with a failure at any stage, keeps the invariant at its end and at each crash point. |
| LifecycleProofs.StopFits | runtime.go:135-147 | The same for Stop. |
| LifecycleProofs.StopEnd | runtime.go:135-147 | What Stop leaves, for each outcome of its two saves. |
| LifecycleProofs.ApplyPublicFits | runtime.go:332-342 | After applyPublicIPs config, metadata and NAT maps agree. |
| LifecycleProofs.BuildTrace | runtime.go:107-123 | No crash point of a build counts as built, and its success is the first. |
| LifecycleProofs.ApplyConfigFits | runtime.go:314-330 | applyConfig keeps the invariant although the memory lags behind the file when it begins. |
| LifecycleProofs.ResizeRootfsFits | runtime.go:169-194 | The disk is grown before the size is saved, so no failure leaves it shorter than the size. |
| LifecycleProofs.PerformFits | runtime.go:64-342 | Every operation keeps the invariant at its end and at each crash point. |
| LifecycleProofs.RunFits | runtime.go:30-342 | Over every run with crashes and recoveries, metadata that does not load included: no disk shrinks, and no half disk is built over. |
| LifecycleClaims.LifecycleSafety | runtime.go:30-123 | A running Firecracker has the disk of exactly one completed build, long enough, and is initialized and wanted in memory and on disk, whichever saves failed. |
| LifecycleClaims.FirstStartBoots | runtime.go:72-123 | When nothing fails the first start builds the disk and boots it; when only the save of initialized fails the disk is whole and the start is an error. |
| LifecycleClaims.StopIsFinal | runtime.go:46-69 | After the first save of Stop no crash point leads to a recovery that starts the VM, whether or not its metadata loads. |
| LifecycleClaims.StopForgotten | runtime.go:135-147 | A stop is forgotten if and only if both of its saves failed. |
| LifecycleClaims.StaysStopped | runtime.go:64-69 | Only a start or a reboot starts a stopped VM: no edit, resize, snapshot, crash or recovery. |
| LifecycleClaims.SnapshotKeepsDesired | runtime.go:284-302 | After every run, a snapshot leaves the desired state on disk as it is, at every crash point and with any failure. |
| LifecycleClaims.RebootKeepsDesired | runtime.go:150-154 | A reboot leaves it if and only if it was running, and always ends wanting the VM. |
| LifecycleClaims.GoodPerform | api.go:319-333 | Every writer of config.toml but a bad resize leaves a valid file for the same host, at each crash point. |
| LifecycleClaims.ResizeValidity | runtime.go:197-214 | Resize leaves a valid file if and only if both values are positive. |
| LifecycleClaims.BadResourcesLockOut | api.go:319-333 | With bad resources every edit and reload fails without an effect, and the process cannot boot. |
| LifecycleClaims.ConfigStaysValid | api.go:319-333 | Over every run with positive resizes the file stays valid, and its host section fixed. |
| LifecycleMemory.InitializedIff | runtime.go:46-55 | Over every run: initialized on disk turns back if and only if a recovery could not load the metadata of the initialized VM and that process wrote it. |
| LifecycleMemory.InitializedStays | runtime.go:46-55 | When every recovery of an initialized VM loads, it stays initialized on disk and in memory, at each crash point. |
| LifecycleMemory.FailedLoadIsFinal | runtime.go:46-55 | One failed load whose new metadata is saved: whatever follows, every start fails, with the whole disk in place. |
| LifecycleMemory.BlindProcessForgets | runtime.go:72-74 | When it is not saved, the first start or stop of that process whose first save works does the same. |
| LifecycleMemory.UnreadableOnce | runtime.go:46-55 | It happens to a VM that had booted. |
| LifecycleMemory.StuckForEver | disk.go:60-102 | A VM that is not initialized and whose root disk exists, half or whole, never boots, and every start of it fails. |
| LifecycleMemory.HalfBuiltForEver | disk.go:60-102 | A half-built disk is never booted, built over or finished. |
| LifecycleMemory.CutBuildIsFinal | disk.go:60-79 | A run from a new machine reaches it: its process dies inside the first build. |
| LifecycleMemory.UnsavedBuildIsLost | runtime.go:117-122 | A build whose initialized could not be saved is stuck in this way when the process dies. |
| LifecycleNetwork.StartPublishes | runtime.go:76-81 | A successful start has config, metadata and maps agree. |
| LifecycleNetwork.ApplyPublishes | runtime.go:314-342 | So has every applyConfig, even one that fails later. |
| LifecycleNetwork.ReachableSource | network.go:185-187 | Over every run whose starts found an uplink, through configs whose rules load, the source of a packet is the promised one for the public addresses of the metadata, or for none while the maps of a new table are empty. |
| LifecycleNetwork.StartSource | runtime.go:76-81 | After a successful start it is the one that config.toml promises, on the uplink of that start. |
| LifecycleNetwork.StartBuilds | network.go:162-192 | A successful start with an uplink and rules that load ends with the table of that uplink. |
| LifecycleNetwork.MapsStayInverse | network.go:354-363 | After every run whose starts found an uplink, through configs whose rules load, the maps of both families are exactly those of the metadata, or all empty. |
| LifecycleNetwork.SetFirewallTouchesFwOnly | network.go:200-213 | SetFirewall changes the fw chain and nothing else of the table. |
| LifecycleNetwork.IncrementalEqualsFresh | network.go:200-213 | After every run in which each applyConfig reached SetFirewall, the filter is the one that a fresh build from config.toml makes. |
| LifecycleNetwork.DecidesAsConfigured | network.go:162-278 | So it passes each new packet exactly as config.toml promises. |
| LifecycleNetwork.EarlyReturnLeavesOldRules | runtime.go:323-329 | After an early return the next build is right if and only if old and new rules compile to the same chain. |
| LifecycleNetwork.UnchangedStaysMapped | network.go:354-363 | An address that does not change is never unmapped, at any step of the sync. |
| LifecycleNetwork.MovesInOrder | network.go:354-363 | While it moves, each map holds the old pair, nothing, or the new pair at every step. |
| LifecycleNetwork.OneMapAtATime | network.go:354-363 | Each nft command of a sync changes one of the two maps at most. |
| LifecycleResults.StartRuns | runtime.go:96-104 | No start succeeds unless Firecracker runs at the end, with a guest booted if it was off. |
| LifecycleResults.StartWorks | runtime.go:72-105 | A start of an initialized VM succeeds exactly if the namespace, tc, one save and, from off, the boot work. |
| LifecycleResults.FirstStartNeeds | runtime.go:72-123 | The first start of a VM succeeds only with exactly one boot source, a source that resolves, and initialized saved. |
| LifecycleResults.StartEnds | runtime.go:72-104 | A start of an initialized VM that was off leaves Firecracker without a guest exactly if everything before its configuration worked and that failed; after any other failure it is off. |
| LifecycleResults.FailedBootThenOk | runtime.go:96-100 | After a boot that failed in its configuration the next start succeeds without a guest. |
| LifecycleResults.RecoveryBoots | runtime.go:64-69 | A recovery boots an initialized VM exactly if its metadata loads and says running and the calls of the start work. |
| LifecycleResults.RebootStopsFirst | runtime.go:150-154 | A reboot stops Firecracker before anything else, and succeeds only with a guest booted anew. |
| LifecycleResults.SnapshotRestarts | runtime.go:284-302 | An offline snapshot of a running VM stops it, starts it again whether or not the copy worked, and succeeds exactly if both did; a VM that is off stays off. |
| LifecycleResults.LiveSnapshotLeavesVm | runtime.go:276-285 | With reflink, or an error of the clone other than a missing reflink, the VM does not notice. |
| LifecycleResults.ResizeSets | runtime.go:197-214 | Refused while Firecracker runs; else both values are stored under their names, in the file and in memory, and nothing else changes. |
| LifecycleResults.EditSets | api.go:319-333 | An edit that is refused changes nothing; any other is in the file and in memory, each value under its name, and nothing else. |
| LifecycleResults.ResizeRootfsSets | runtime.go:169-194 | On a success the limits are stored under their names, the size if it grew, and the disk is as long. |
| RuntimeObject.Runtime.constructor | runtime.go:30-61 | The memory is that of a process that has just read its files, or of a new VM where the metadata does not load, and the object is valid. |
| RuntimeObject.Runtime.Run | runtime.go:64-69 | A recovery starts the VM exactly if its metadata says running, and stays valid. |
| RuntimeObject.Runtime.Start | runtime.go:72-105 | The steps in place are those of the function that the proofs are about; the object stays valid at every instant, and after a success a guest runs, and config, metadata and maps agree. |
| RuntimeObject.Runtime.InitializeDisk | runtime.go:107-123 | The same, through the file object. |
| RuntimeObject.Runtime.Stop | runtime.go:135-147 | The same steps; valid at every instant, and at the end Firecracker is off and a table of this process gone. |
| RuntimeObject.Runtime.Reboot | runtime.go:150-154 | The same steps, valid at every instant, and a success ends with a booted guest. |
| RuntimeObject.Runtime.Reload | runtime.go:157-166 | The same steps, early returns included, and valid at every instant. |
| RuntimeObject.Runtime.ResizeRootfs | runtime.go:169-194 | The same steps, early returns included, valid at every instant; a success has the limits under their names. |
| RuntimeObject.Runtime.Resize | runtime.go:197-214 | The same steps, and when it succeeds; a success has cpus and memory under their names. |
| RuntimeObject.Runtime.Apply | runtime.go:314-330 | The same, with both early returns. |
| RuntimeObject.Runtime.PublicIPs | runtime.go:332-342 | The same, one nft command at a time. |
| RuntimeObject.Runtime.ReplaceFirewall | network.go:200-213 | The same, with the rules that the loops build. |
| RuntimeObject.Runtime.SetupNftables | network.go:162-192 | The same, with both silent failures. |
| RuntimeObject.Runtime.Mutate | api.go:319-333 | Load, edit, validate, save, apply, and valid at every instant; a success has the edit in file and memory. |
| RuntimeObject.Runtime.CopyForSnapshot | runtime.go:276-302 | The same steps, with the restart whether or not the copy worked; valid, and the desired state on disk the same, at every instant. |
| SnapshotProofs.FillIn | runtime.go:232-266 | Copy, record and fsync touch only the temporary directory, and seal it with the copy of this attempt. |
| SnapshotProofs.SaveRecordIn | helpers.go:81-110 | The record takes its name only with its full and synced content, and the rootfs stays. |
| SnapshotProofs.MoveOk | runtime.go:268-270 | Publishing a sealed directory keeps the invariant, whichever changes survive. |
| SnapshotProofs.CreateSnapshotOk | runtime.go:225-272 | At every step, with any failure, every name that could be listed after a power loss is sealed. |
| SnapshotProofs.ListedIsSealed | snapshot.go:35-58 | What is listed is complete and durable, and its record names it. |
| SnapshotRuns.LostOk | runtime.go:258-272 | A power loss keeps the invariant. |
| SnapshotRuns.ListedIsComplete | runtime.go:258-272 | Over every run of attempts that crashes and power losses cut anywhere, every listed directory is complete and durable. |
| SnapshotRuns.SuccessFixes | runtime.go:261-272 | A success has made name and copy durable, in a directory that is as durable as before. |
| SnapshotRuns.SuccessSurvives | runtime.go:225-272 | A success survives every power loss if and only if the entry of the VM's directory was durable before. |
| SnapshotRuns.FirstSnapshotCanVanish | runtime.go:229-234 | For the first snapshot it is not: a power loss after the success loses it. |
| SnapshotRuns.SnapshotsStay | runtime.go:225-272 | A durable snapshot keeps its directory and its copy through every later attempt, crash and power loss, repeated ids included. |
| SnapshotRuns.NothingFails | runtime.go:225-272 | With a new id and no failing call CreateSnapshot succeeds. |
| SnapshotRuns.SuccessNeeds | runtime.go:225-272 | No CreateSnapshot succeeds unless every call works, with the copy in place of the clone only where there is no reflink. |
| SnapshotRuns.NoTemporaryStays | runtime.go:235 | After any attempt the temporary directory stays exactly if its cleanup fails. |
| SnapshotRuns.FailedSaveLeavesNothing | helpers.go:81-110 | A record that cannot be saved leaves the names of the directory as they were. |
| SnapshotStore.Store.Create | runtime.go:225-256 | The calls in place make exactly the steps that the proofs are about, cleanup included; what is listed is complete at each of them, and a success has its name and copy durable. |
| SnapshotStore.Store.RemoveAll | runtime.go:235 | The cleanup removes file by file, and the directory only when it is empty. |
| SnapshotStore.Store.Save | helpers.go:81-110 | writeFileAtomic, with its cleanup on each failure. |
| SnapshotStore.ListSnapshots | snapshot.go:37-59 | The loop returns the records of exactly the listed directories, one each, in the order of ReadDir. |
| SnapshotNames.SafeName | snapshot.go:107-122 | The loop accepts exactly the safe names. |
| SnapshotNames.ReferenceMeans | snapshot.go:97-103 | A reference is accepted if and only if it is two safe names, and its path is those two. |
| SnapshotNames.TemporaryIsSafe | snapshot.go:97-122 | A temporary directory has a safe name too, although it is never listed. |
| Console.Append | console.go:140 | Go's append: in place when the capacity allows it, in new memory otherwise, for windows on one array too. |
| Console.LastNForgets | console.go:105-118 | The last n bytes depend only on the last n bytes and what is added. |
| Console.ChunkKeeps | console.go:110-118 | A chunk that ends before or at the end of the ring keeps it the last bytes in order. |
| Console.Console.CopyChunk | console.go:110-118 | One turn of the loop makes progress and keeps the ring. |
| Console.Console.Write | console.go:105-123 | The loop ends for data of any length, and the ring is the last bytes of everything written. |
| Console.Console.ReadRing | console.go:134-141 | Exactly the last bytes in order, in new memory except when the ring is full and the position is zero. |
| Console.Console.ReadThenWrite | console.go:134-141 | What the reader holds after a later write, in both cases. |
| Console.Console.RingShows | console.go:134-141 | A slice that is the ring shows the last bytes, turned at the position. |
| Console.TornHistory | console.go:134-141 | A run in which the reader ends with neither the old history nor the new one. |
| ConsoleAttach.StepKeeps | api.go:191-195 | Every interleaved step keeps live bytes and history of a client in order. |
| ConsoleAttach.AttachHasNoGap | api.go:191-195 | A client gets live exactly what was written after it was added, in order, so everything after its history was taken. |
| ConsoleAttach.HistoryIsPromised | api.go:191-195 | In every interleaving the history that is sent is the last bytes before it was taken if and only if it was a copy or the ring holds the same bytes at the send; what is sent otherwise. |
| ConsoleAttach.OverlapIsBetween | api.go:191-195 | What is both in such a history and live is exactly what came between the registration and the read. |
| ConsoleAttach.TornAttach | api.go:191-195 | A run from the start in which one write spoils the history of a client. |

## Left out

- Convergence.RouteIsWrongIff: assumes for the one address that its last effective object is the newest version
  of its key. Publishing.KeyIsVisible says exactly when that is so.
- Convergence.Converges: makes the same assumption.
- Publishing.EndToEnd: says nothing of a key whose newest version names the observing node itself. For it
  Publishing.CachesResumeIff says which caches resume right, and the route of a local VM is not modelled.
- Beacon keeps every key's newest version and its labels. Its server and TCP are not modelled. A PUT that times
  out at the client does not land later: one that landed after the DELETE would publish a withdrawn VM again.
- Replication.StepKeeps: assumes that the namespace outlives every active watcher, which can fail as
  WaiterBreaksCounting shows; and a watcher stops only between two objects, because the goroutine finishes its
  callback. Cache saves, the network lock, the tunnel and the route commands work there; `Membership.Network`
  says what each failure leaves.
- Local TAP addresses are disjoint from the addresses of remote members.
- `ensureVPCNetwork` always gets its lock and its commands work, so a `vpcEnter` that has its marker succeeds.
- A line whose two addresses are of different families, or an IPv4 address with ICMPv6, never matches here;
  a real nft may refuse the script. Packets carry one transport and no fragments.
- Public addresses are literals; a text that does not parse is refused by Validate. The address and the egress
  settings of a VM are fixed while it lives.
- Firecracker's API, MMDS, tc, sysctl, e2fsck and resize2fs are steps that succeed or fail. Firecracker dies
  with its service. Root routes of public addresses are not modelled: they may outlive a VM.
- Operations of one VM come one after another. Concurrent HTTP handlers and SIGUSR1 during an operation, and
  two readers of one serial FIFO after a quick detach and attach, are outside.
- metadata.json and config.toml are replaced in one step. What a host power loss does to the two files, and to
  a root disk that is being written, is not modelled; it is for snapshots.
- LifecycleNetwork.MapsStayInverse: claims nothing of runs in which a start found no uplink or nft refused the
  script: the maps are then those of an earlier process.
- ConsoleAttach.HistoryIsPromised: a send sees the ring between two writes. A write in the middle of the send is
  a data race in Go, and mixes the two.
- SnapshotRuns.ListedIsComplete: DeleteSnapshot is not an event, because one that is cut inside RemoveAll, or
  that a power loss half undoes, can leave a listed directory without a rootfs.
- SnapshotRuns.SuccessSurvives: the entry of the directory of all snapshots counts as part of that of the VM.
- HTTP routing, JSON, TOML, WebSocket framing, the dashboard, image download, console tokens, host names and
  the log file of the console.
