/**
 The other half of the protocol: VMs that publish and withdraw their object, on any number of
 nodes, each of which replicates the same log. A VM keeps its key and its address, and may run
 on one node after another, or on two at once while it moves.
 */
module Publishing {
  import opened Basics
  import opened Addresses
  import opened Beacon
  import opened Membership
  import opened Replication
  import opened Convergence

  /** The addresses of the keys, and the tunnel endpoints of the nodes. */
  datatype Plan = Plan(ips: map<string, IPv4>, endpoints: map<int, string>)

  /** Addresses are unique in the VPC, and an endpoint belongs to one node. */
  predicate GoodPlan(p: Plan) {
    && (forall j, k :: j in p.ips && k in p.ips && p.ips[j] == p.ips[k] ==> j == k)
    && (forall n :: n in p.endpoints ==> p.endpoints[n] != "")
    && (forall m, n :: m in p.endpoints && n in p.endpoints && p.endpoints[m] == p.endpoints[n] ==> m == n)
  }

  /** The runtime of one key on one node. */
  datatype Instance = Instance(key: string, node: int)

  /**
   Down: no watch goroutine; withdrawn says whether its last delete of the key succeeded.
   Running: the goroutine may publish at any time. Cancelled: the context is cancelled, but
   the goroutine may still be inside a publish. Joined: it is done, and the key is not
   deleted yet.
   */
  datatype VmPhase = Down(withdrawn: bool) | Running | Cancelled | Joined

  /** vms holds the instances that were ever launched. */
  datatype Cluster = Cluster(plan: Plan, log: seq<Object>, vms: map<Instance, VmPhase>, nodes: map<int, State>)

  datatype Event =
    | Launch(vm: Instance)
    | Publish(vm: Instance, timestamp: int)
    | Cancel(vm: Instance)
    | Await(vm: Instance)
    | Withdraw(vm: Instance, timestamp: int, reached: bool)
    | Die(vm: Instance)
    | Local(node: int, action: Action)

  predicate Live(log: seq<Object>, key: string) {
    LastOf(log, key).Some? && !LastOf(log, key).value.deleted
  }

  function Published(p: Plan, vm: Instance, timestamp: int): Object
    requires vm.key in p.ips && vm.node in p.endpoints
  {
    Object(vm.key, timestamp, p.endpoints[vm.node], vm.node, Some(p.ips[vm.key]), false)
  }

  /** A tombstone keeps the labels of the object it replaces, whoever sends the delete. */
  function Tombstone(o: Object, timestamp: int): Object {
    o.(timestamp := timestamp, gre := "", deleted := true)
  }

  predicate Is(c: Cluster, vm: Instance, phase: VmPhase) { vm in c.vms && c.vms[vm] == phase }

  predicate EventEnabled(c: Cluster, e: Event) {
    match e
    case Launch(vm) => vm.key in c.plan.ips && vm.node in c.plan.endpoints && (vm in c.vms ==> c.vms[vm].Down?)
    case Publish(vm, t) => (Is(c, vm, Running) || Is(c, vm, Cancelled)) && t > Head(c.log)
    case Cancel(vm) => Is(c, vm, Running)
    case Await(vm) => Is(c, vm, Cancelled)
    case Withdraw(vm, t, _) =>
      vm.key in c.plan.ips && (vm in c.vms ==> c.vms[vm].Down? || c.vms[vm].Joined?) && t > Head(c.log)
    case Die(vm) => vm in c.vms
    case Local(n, action) => n in c.nodes && !action.Append?
  }

  function SetPhase(c: Cluster, vm: Instance, phase: VmPhase): Cluster { c.(vms := c.vms[vm := phase]) }

  /** A stop deletes the key whether a watcher ran or not, even where the VM never started. */
  function Withdrawn(c: Cluster, vm: Instance, reached: bool): Cluster {
    if vm in c.vms then SetPhase(c, vm, Down(reached || c.vms[vm] == Down(true))) else c
  }

  /** Beacon appends the object and hands it to every subscriber on every node. */
  ghost function Broadcast(c: Cluster, o: Object): Cluster
    requires forall n :: n in c.nodes ==> Enabled(c.nodes[n], Append(o))
  {
    c.(log := c.log + [o], nodes := map n | n in c.nodes :: Next(c.nodes[n], Append(o)))
  }

  ghost predicate Broadcasts(c: Cluster, o: Object, c': Cluster) {
    (forall n :: n in c.nodes ==> Enabled(c.nodes[n], Append(o))) && c' == Broadcast(c, o)
  }

  ghost predicate Step(c: Cluster, e: Event, c': Cluster) {
    && EventEnabled(c, e)
    && match e
       case Launch(vm) => c' == SetPhase(c, vm, Running)
       case Publish(vm, t) =>
         vm.key in c.plan.ips && vm.node in c.plan.endpoints && Broadcasts(c, Published(c.plan, vm, t), c')
       case Cancel(vm) => c' == SetPhase(c, vm, Cancelled)
       case Await(vm) => c' == SetPhase(c, vm, Joined)
       case Withdraw(vm, t, reached) =>
         var down := Withdrawn(c, vm, reached);
         if reached && LastOf(c.log, vm.key).Some? then Broadcasts(down, Tombstone(LastOf(c.log, vm.key).value, t), c')
         else c' == down
       case Die(vm) => c' == SetPhase(c, vm, if c.vms[vm].Down? then c.vms[vm] else Down(false))
       case Local(n, action) =>
         Enabled(c.nodes[n], action) && c' == c.(nodes := c.nodes[n := Next(c.nodes[n], action)])
  }

  // ------------------------------------------------------------------
  // The invariant
  // ------------------------------------------------------------------

  /** Every version is one that some instance of its key published, or the tombstone of one. */
  ghost predicate Honest(p: Plan, log: seq<Object>) {
    forall o :: o in log ==> && o.key in p.ips && o.ip == Some(p.ips[o.key]) && o.node in p.endpoints
                             && (!o.deleted ==> o.gre == p.endpoints[o.node])
  }

  /** Somebody may still stand behind a live key. */
  ghost predicate Backed(c: Cluster, key: string) {
    exists n :: Instance(key, n) in c.vms && c.vms[Instance(key, n)] != Down(true)
  }

  /** Who is behind the keys is said apart. */
  ghost predicate Core(c: Cluster) {
    && GoodPlan(c.plan) && Honest(c.plan, c.log) && ValidLog(c.log)
    && (forall n :: n in c.nodes ==> c.nodes[n].node == n && c.nodes[n].log == c.log && Inv(c.nodes[n]))
    && (forall vm :: vm in c.vms ==> vm.key in c.plan.ips && vm.node in c.plan.endpoints)
    && (forall o :: o in c.log ==> Instance(o.key, o.node) in c.vms)
  }

  ghost predicate ClusterInv(c: Cluster) { Core(c) && forall k :: Live(c.log, k) ==> Backed(c, k) }

  /** Beacon can always take the object, and every node keeps its invariant through the delivery. */
  lemma BroadcastKeeps(c: Cluster, o: Object)
    requires forall n :: n in c.nodes ==> c.nodes[n].node == n && c.nodes[n].log == c.log && Inv(c.nodes[n])
    requires ValidLog(c.log) && o.timestamp > Head(c.log)
    ensures forall n :: n in c.nodes ==> Enabled(c.nodes[n], Append(o))
    ensures ValidLog(c.log + [o])
    ensures forall n :: n in c.nodes ==>
              var s := Next(c.nodes[n], Append(o)); s.node == n && s.log == c.log + [o] && Inv(s)
  {
    forall n | n in c.nodes ensures Enabled(c.nodes[n], Append(o)) && Inv(Next(c.nodes[n], Append(o))) {
      AppendKeeps(c.nodes[n], o);
    }
  }

  /** The object of an instance keeps everything but who is behind its key. */
  lemma BroadcastCore(c: Cluster, o: Object, c': Cluster)
    requires Core(c) && Broadcasts(c, o, c') && o.timestamp > Head(c.log)
    requires Honest(c.plan, [o]) && Instance(o.key, o.node) in c.vms
    ensures Core(c') && c'.plan == c.plan && c'.vms == c.vms && c'.log == c.log + [o]
  {
    BroadcastKeeps(c, o);
    assert o in [o];
  }

  lemma PublishKeeps(c: Cluster, vm: Instance, t: int, c': Cluster)
    requires ClusterInv(c) && Step(c, Publish(vm, t), c')
    ensures ClusterInv(c') && c'.plan == c.plan
  {
    var o := Published(c.plan, vm, t);
    BroadcastCore(c, o, c');
    forall k | Live(c'.log, k) ensures Backed(c', k) {
      LastOfAppend(c.log, o, k);
      if k == vm.key {
        assert Instance(k, vm.node) == vm && c'.vms[vm] != Down(true);
      } else {
        assert Backed(c, k);
      }
    }
  }

  /** Only the instance that changes matters, and only for its own key. */
  lemma BackedStill(c: Cluster, vm: Instance, phase: VmPhase, k: string)
    requires Backed(c, k) && (vm.key != k || phase != Down(true))
    ensures Backed(SetPhase(c, vm, phase), k)
  {
    var n :| Instance(k, n) in c.vms && c.vms[Instance(k, n)] != Down(true);
    assert Instance(k, n) in SetPhase(c, vm, phase).vms;
    if Instance(k, n) != vm {
      assert SetPhase(c, vm, phase).vms[Instance(k, n)] != Down(true);
    }
  }

  lemma BackedWithdrawn(c: Cluster, vm: Instance, reached: bool, k: string)
    requires Backed(c, k) && (vm.key != k || !reached)
    ensures Backed(Withdrawn(c, vm, reached), k)
  {
    if vm in c.vms {
      if c.vms[vm] == Down(true) {
        assert Withdrawn(c, vm, reached).vms == c.vms;
      } else {
        BackedStill(c, vm, Down(reached), k);
      }
    }
  }

  lemma BackedSame(c: Cluster, c': Cluster, k: string)
    requires Backed(c, k) && c'.vms == c.vms
    ensures Backed(c', k)
  {
  }

  /** Whoever deletes the key, its newest version becomes a tombstone. */
  lemma WithdrawKeeps(c: Cluster, vm: Instance, t: int, reached: bool, c': Cluster)
    requires ClusterInv(c) && Step(c, Withdraw(vm, t, reached), c')
    ensures ClusterInv(c') && c'.plan == c.plan
  {
    var down := Withdrawn(c, vm, reached);
    LastOfIn(c.log, vm.key);
    if reached && LastOf(c.log, vm.key).Some? {
      var o := Tombstone(LastOf(c.log, vm.key).value, t);
      BroadcastCore(down, o, c');
      forall k | Live(c'.log, k) ensures Backed(c', k) {
        LastOfAppend(c.log, o, k);
        BackedWithdrawn(c, vm, reached, k);
        BackedSame(down, c', k);
      }
    } else {
      forall k | Live(c'.log, k) ensures Backed(c', k) {
        BackedWithdrawn(c, vm, reached, k);
      }
    }
  }

  lemma PhaseKeeps(c: Cluster, vm: Instance, phase: VmPhase)
    requires ClusterInv(c) && vm.key in c.plan.ips && vm.node in c.plan.endpoints
    requires phase != Down(true) || Is(c, vm, Down(true))
    ensures ClusterInv(SetPhase(c, vm, phase))
  {
    var c' := SetPhase(c, vm, phase);
    forall k | Live(c'.log, k) ensures Backed(c', k) {
      assert Backed(c, k);
      if phase == Down(true) {
        assert c'.vms == c.vms;
      } else {
        BackedStill(c, vm, phase, k);
      }
    }
  }

  lemma LocalKeeps(c: Cluster, n: int, action: Action, c': Cluster)
    requires ClusterInv(c) && Step(c, Local(n, action), c')
    ensures ClusterInv(c') && c'.plan == c.plan
  {
    StepKeeps(c.nodes[n], action);
    forall k | Live(c'.log, k) ensures Backed(c', k) {
      BackedSame(c, c', k);
    }
  }

  lemma ClusterStep(c: Cluster, e: Event, c': Cluster)
    requires ClusterInv(c) && Step(c, e, c')
    ensures ClusterInv(c') && c'.plan == c.plan
  {
    match e
    case Launch(vm) => PhaseKeeps(c, vm, Running);
    case Publish(vm, t) => PublishKeeps(c, vm, t, c');
    case Cancel(vm) => PhaseKeeps(c, vm, Cancelled);
    case Await(vm) => PhaseKeeps(c, vm, Joined);
    case Withdraw(vm, t, reached) => WithdrawKeeps(c, vm, t, reached, c');
    case Die(vm) => PhaseKeeps(c, vm, if c.vms[vm].Down? then c.vms[vm] else Down(false));
    case Local(n, action) => LocalKeeps(c, n, action, c');
  }

  /** A finite run of the cluster. */
  ghost predicate ClusterRun(c: Cluster, events: seq<Event>, c': Cluster)
    decreases |events|
  {
    if events == [] then c == c'
    else exists m :: Step(c, events[0], m) && ClusterRun(m, events[1..], c')
  }

  lemma {:induction false} ClusterRunKeeps(c: Cluster, events: seq<Event>, c': Cluster)
    requires ClusterInv(c) && ClusterRun(c, events, c')
    ensures ClusterInv(c') && c'.plan == c.plan
    decreases |events|
  {
    if events != [] {
      var m :| Step(c, events[0], m) && ClusterRun(m, events[1..], c');
      ClusterStep(c, events[0], m);
      ClusterRunKeeps(m, events[1..], c');
    }
  }

  /** A cluster with nothing in it but the nodes that watch. */
  function Empty(plan: Plan, devices: map<int, string>): Cluster {
    Cluster(plan, [], map[], map n | n in devices :: Initial(n, devices[n]))
  }

  lemma EmptyOk(plan: Plan, devices: map<int, string>)
    requires GoodPlan(plan)
    ensures ClusterInv(Empty(plan, devices))
  {
    forall n | n in devices ensures Inv(Initial(n, devices[n])) {
      InitialOk(n, devices[n]);
    }
  }

  // ------------------------------------------------------------------
  // One node of the cluster
  // ------------------------------------------------------------------

  /** What an event is for one node: a new object, a step of its own, or nothing. */
  lemma StepAt(c: Cluster, e: Event, c': Cluster, n: int) returns (actions: seq<Action>)
    requires Step(c, e, c') && n in c.nodes
    ensures n in c'.nodes && Run(c.nodes[n], actions, c'.nodes[n])
  {
    if c'.nodes == c.nodes {
      actions := [];
    } else if e.Local? {
      actions := if e.node == n then [e.action] else [];
    } else {
      var o := c'.log[|c.log|];
      actions := [Append(o)];
    }
    assert actions != [] ==> actions[1..] == [];
  }

  /** A run of the cluster is, for each node, a run of its watchers. */
  lemma {:induction false} Project(c: Cluster, events: seq<Event>, c': Cluster, n: int) returns (actions: seq<Action>)
    requires ClusterRun(c, events, c') && n in c.nodes
    ensures n in c'.nodes && Run(c.nodes[n], actions, c'.nodes[n])
    decreases |events|
  {
    if events == [] {
      actions := [];
    } else {
      var m :| Step(c, events[0], m) && ClusterRun(m, events[1..], c');
      var first := StepAt(c, events[0], m, n);
      var rest := Project(m, events[1..], c', n);
      RunThen(c.nodes[n], first, m.nodes[n], rest, c'.nodes[n]);
      actions := first + rest;
    }
  }

  // ------------------------------------------------------------------
  // End to end
  // ------------------------------------------------------------------

  /** The newest version of the key, if there is one, does not come from this node. */
  predicate RunsElsewhere(log: seq<Object>, node: int, key: string) {
    LastOf(log, key).Some? ==> LastOf(log, key).value.node != node
  }

  lemma KeyIsSole(p: Plan, log: seq<Object>, key: string)
    requires GoodPlan(p) && Honest(p, log) && key in p.ips
    ensures Sole(log, p.ips[key], key)
  {
  }

  /**
   With unique addresses a node can rely on a key exactly while its newest version comes from
   another node, or none that did ever has: wherever else the VM has been, this node included.
   */
  lemma KeyIsVisible(p: Plan, log: seq<Object>, node: int, key: string)
    requires GoodPlan(p) && Honest(p, log) && ValidLog(log) && key in p.ips
    ensures Visible(log, node, p.ips[key]) <==> RunsElsewhere(log, node, key) || Last(log, node, p.ips[key]).None?
    ensures RunsElsewhere(log, node, key) ==> Last(log, node, p.ips[key]) == LastOf(log, key)
  {
    KeyIsSole(p, log, key);
    LastOfIn(log, key);
    VisibleIff(log, node, p.ips[key], key);
    LastFacts(log, node, p.ips[key]);
    if Last(log, node, p.ips[key]).Some? {
      LastOfIsNewest(log, key, Last(log, node, p.ips[key]).value);
    }
  }

  /** The endpoint that the newest version of a key asks for: that of the node it names, or none. */
  function Wanted(p: Plan, log: seq<Object>, key: string): string {
    if Live(log, key) && LastOf(log, key).value.node in p.endpoints then p.endpoints[LastOf(log, key).value.node]
    else ""
  }

  lemma WantedIsOwner(c: Cluster, n: int, key: string)
    requires ClusterInv(c) && key in c.plan.ips && RunsElsewhere(c.log, n, key)
    ensures Owner(c.log, n, c.plan.ips[key]) == Wanted(c.plan, c.log, key) && Visible(c.log, n, c.plan.ips[key])
    ensures (forall m :: Instance(key, m) in c.vms ==> c.vms[Instance(key, m)] == Down(true)) ==>
              Wanted(c.plan, c.log, key) == ""
    ensures forall b :: b in c.plan.endpoints ==>
              (Wanted(c.plan, c.log, key) == c.plan.endpoints[b]
               <==> Live(c.log, key) && LastOf(c.log, key).value.node == b)
  {
    KeyIsVisible(c.plan, c.log, n, key);
    LastOfIn(c.log, key);
    if Live(c.log, key) {
      assert Backed(c, key);
    }
  }

  /** A node on which the key never ran is one that it runs away from. */
  lemma NeverRanHere(c: Cluster, n: int, key: string)
    requires ClusterInv(c) && Instance(key, n) !in c.vms
    ensures RunsElsewhere(c.log, n, key)
  {
    LastOfIn(c.log, key);
  }

  /**
   After any run of the cluster, moves included: on a node whose watchers have caught up, and
   that the newest version of a key does not name, its address is routed to the node that this
   version names, and nowhere once it is deleted, if and only if no step of the watchers of
   this node left it behind at another endpoint. A key that every instance has withdrawn asks
   for no route.
   */
  lemma EndToEnd(plan: Plan, devices: map<int, string>, events: seq<Event>, c: Cluster, n: int, key: string)
    returns (actions: seq<Action>)
    requires GoodPlan(plan) && ClusterRun(Empty(plan, devices), events, c)
    requires n in c.nodes && n in devices && CaughtUp(c.nodes[n]) && key in plan.ips && RunsElsewhere(c.log, n, key)
    ensures Run(Initial(n, devices[n]), actions, c.nodes[n])
    ensures var s, a, wanted := c.nodes[n], plan.ips[key], Wanted(plan, c.log, key);
            && (Shows(s.kernel, devices[n], a, wanted)
                <==> forall gre :: LeftBehind(Initial(n, devices[n]), actions, a, gre) ==> gre == wanted)
            && ((forall m :: Instance(key, m) in c.vms ==> c.vms[Instance(key, m)] == Down(true)) ==> wanted == "")
            && (forall b :: b in plan.endpoints ==>
                  (wanted == plan.endpoints[b] <==> Live(c.log, key) && LastOf(c.log, key).value.node == b))
  {
    EmptyOk(plan, devices);
    ClusterRunKeeps(Empty(plan, devices), events, c);
    actions := Project(Empty(plan, devices), events, c, n);
    WantedIsOwner(c, n, key);
    RouteIsWrongIff(n, devices[n], actions, c.nodes[n], plan.ips[key]);
  }

  /**
   Every cache that a watcher of the cluster ever saved resumes to the entry of a full replay if
   and only if the newest version of the key does not name this node, or the cache was right
   about its address already.
   */
  lemma CachesResumeIff(
      plan: Plan, devices: map<int, string>, events: seq<Event>, c: Cluster, n: int, key: string,
      id: string, file: Members)
    requires GoodPlan(plan) && ClusterRun(Empty(plan, devices), events, c) && key in plan.ips
    requires n in c.nodes && id in c.nodes[n].watchers && file in c.nodes[n].watchers[id].saved
    ensures var start, a := Loaded(NO_MEMBERS, file), plan.ips[key];
            SameEntry(Handle(start, n, CatchUp(c.log, start.revision)).table, Replay(c.log, n).table, a)
            <==> RunsElsewhere(c.log, n, key) || ExactAt(c.log, n, start.table, a)
  {
    var start, a := Loaded(NO_MEMBERS, file), plan.ips[key];
    EmptyOk(plan, devices);
    ClusterRunKeeps(Empty(plan, devices), events, c);
    assert WatcherOk(c.log, n, c.nodes[n].watchers[id]);
    KeyIsSole(plan, c.log, key);
    KeyIsVisible(plan, c.log, n, key);
    if Visible(c.log, n, a) {
      ResumeIsReplay(c.log, n, file, a);
    }
    ResumeIff(c.log, n, file, a, key);
    LastOfIn(c.log, key);
    assert Agrees(c.log, n, file);
  }

  // ------------------------------------------------------------------
  // Whose word is last
  // ------------------------------------------------------------------

  /** The event puts a version of the key into beacon. */
  predicate Speaks(e: Event, key: string) {
    (e.Publish? && e.vm.key == key) || (e.Withdraw? && e.vm.key == key && e.reached)
  }

  function LastWord(events: seq<Event>, key: string): Option<Event>
    decreases |events|
  {
    if events == [] then None
    else
      var later := LastWord(events[1..], key);
      if later.Some? then later else if Speaks(events[0], key) then Some(events[0]) else None
  }

  lemma WordCounts(c: Cluster, e: Event, c': Cluster, key: string)
    requires ClusterInv(c) && Step(c, e, c')
    ensures !Speaks(e, key) ==> LastOf(c'.log, key) == LastOf(c.log, key)
    ensures Speaks(e, key) && e.Withdraw? ==> !Live(c'.log, key)
    ensures Speaks(e, key) && e.Publish? ==> Live(c'.log, key) && LastOf(c'.log, key).value.node == e.vm.node
  {
    match e
    case Publish(vm, t) => LastOfAppend(c.log, Published(c.plan, vm, t), key);
    case Withdraw(vm, t, reached) =>
      if reached && LastOf(c.log, vm.key).Some? {
        LastOfIn(c.log, vm.key);
        LastOfAppend(c.log, Tombstone(LastOf(c.log, vm.key).value, t), key);
      }
    case _ =>
  }

  lemma {:induction false} LastWordCounts(c: Cluster, events: seq<Event>, c': Cluster, key: string)
    requires ClusterInv(c) && ClusterRun(c, events, c')
    ensures match LastWord(events, key)
            case None => LastOf(c'.log, key) == LastOf(c.log, key)
            case Some(e) => if e.Publish? then Live(c'.log, key) && LastOf(c'.log, key).value.node == e.vm.node
                            else !Live(c'.log, key)
    decreases |events|
  {
    if events != [] {
      var m :| Step(c, events[0], m) && ClusterRun(m, events[1..], c');
      ClusterStep(c, events[0], m);
      WordCounts(c, events[0], m, key);
      LastWordCounts(m, events[1..], c', key);
    }
  }

  /**
   Over every run: a key is live at the node of one of its instances if and only if that
   instance was the last to publish it, and no delete of any instance came after that.
   */
  lemma LiveIffLastWord(plan: Plan, devices: map<int, string>, events: seq<Event>, c: Cluster, vm: Instance)
    requires GoodPlan(plan) && ClusterRun(Empty(plan, devices), events, c)
    ensures Live(c.log, vm.key) && LastOf(c.log, vm.key).value.node == vm.node
       <==> var e := LastWord(events, vm.key); e.Some? && e.value.Publish? && e.value.vm == vm
  {
    EmptyOk(plan, devices);
    LastWordCounts(Empty(plan, devices), events, c, vm.key);
    LastWordSpeaks(events, vm.key);
  }

  lemma {:induction false} LastWordSpeaks(events: seq<Event>, key: string)
    ensures LastWord(events, key).Some? ==> Speaks(LastWord(events, key).value, key)
    decreases |events|
  {
    if events != [] {
      LastWordSpeaks(events[1..], key);
    }
  }

  lemma {:induction false} Extended(c: Cluster, events: seq<Event>, m: Cluster, e: Event, c': Cluster)
    requires ClusterRun(c, events, m) && Step(m, e, c')
    ensures ClusterRun(c, events + [e], c')
    decreases |events|
  {
    if events == [] {
      var all := events + [e];
      assert all[0] == e && all[1..] == [];
      assert Step(c, all[0], c') && ClusterRun(c', all[1..], c');
    } else {
      var x :| Step(c, events[0], x) && ClusterRun(x, events[1..], m);
      Extended(x, events[1..], m, e, c');
      var all := events + [e];
      assert all[0] == events[0] && all[1..] == events[1..] + [e];
      assert Step(c, all[0], x) && ClusterRun(x, all[1..], c');
    }
  }

  /** Beacon takes the object of an instance. */
  lemma Publishes(c: Cluster, vm: Instance, t: int) returns (c': Cluster)
    requires ClusterInv(c) && Is(c, vm, Running) && t > Head(c.log)
    ensures Step(c, Publish(vm, t), c') && ClusterInv(c') && c'.vms == c.vms && c'.plan == c.plan
    ensures Head(c'.log) == t && LastOf(c'.log, vm.key).Some?
  {
    var o := Published(c.plan, vm, t);
    BroadcastKeeps(c, o);
    c' := Broadcast(c, o);
    LastOfAppend(c.log, o, vm.key);
    ClusterStep(c, Publish(vm, t), c');
  }

  /** It takes its delete, too. */
  lemma Withdraws(c: Cluster, vm: Instance, t: int) returns (c': Cluster)
    requires ClusterInv(c) && Is(c, vm, Joined) && t > Head(c.log) && LastOf(c.log, vm.key).Some?
    ensures Step(c, Withdraw(vm, t, true), c') && c'.vms == c.vms[vm := Down(true)] && !Live(c'.log, vm.key)
  {
    var down := Withdrawn(c, vm, true);
    var o := Tombstone(LastOf(c.log, vm.key).value, t);
    BroadcastKeeps(down, o);
    c' := Broadcast(down, o);
    WordCounts(c, Withdraw(vm, t, true), c', vm.key);
  }

  lemma Moves(c: Cluster, vm: Instance, phase: VmPhase, e: Event) returns (c': Cluster)
    requires ClusterInv(c) && EventEnabled(c, e) && vm.key in c.plan.ips && vm.node in c.plan.endpoints
    requires (e, phase) in {(Launch(vm), Running), (Cancel(vm), Cancelled), (Await(vm), Joined)}
    ensures Step(c, e, c') && ClusterInv(c') && c' == SetPhase(c, vm, phase)
  {
    c' := SetPhase(c, vm, phase);
    ClusterStep(c, e, c');
  }

  function FirstNode(was: Instance): seq<Event> {
    [] + [Launch(was)] + [Publish(was, 1)] + [Cancel(was)] + [Await(was)]
  }

  /** A VM moves, and the node that it left deletes its key after the new node has published it. */
  function MoveWithLateDelete(was: Instance, now: Instance): seq<Event> {
    FirstNode(was) + [Launch(now)] + [Publish(now, 2)] + [Withdraw(was, 3, true)]
  }

  lemma Appears(plan: Plan, devices: map<int, string>, vm: Instance) returns (c: Cluster)
    requires GoodPlan(plan) && vm.key in plan.ips && vm.node in plan.endpoints
    ensures ClusterRun(Empty(plan, devices), [] + [Launch(vm)] + [Publish(vm, 1)], c) && ClusterInv(c)
    ensures c.plan == plan && c.vms == map[vm := Running] && Head(c.log) == 1
  {
    var c0 := Empty(plan, devices);
    EmptyOk(plan, devices);
    var c1 := Moves(c0, vm, Running, Launch(vm));
    c := Publishes(c1, vm, 1);
    Extended(c0, [], c0, Launch(vm), c1);
    Extended(c0, [] + [Launch(vm)], c1, Publish(vm, 1), c);
  }

  /** The watcher of an instance ends. */
  lemma Ends(c: Cluster, vm: Instance) returns (c1: Cluster, c2: Cluster)
    requires ClusterInv(c) && Is(c, vm, Running)
    ensures Step(c, Cancel(vm), c1) && Step(c1, Await(vm), c2) && ClusterInv(c2)
    ensures c2 == c.(vms := c.vms[vm := Joined])
  {
    c1 := Moves(c, vm, Cancelled, Cancel(vm));
    c2 := Moves(c1, vm, Joined, Await(vm));
    assert c.vms[vm := Cancelled][vm := Joined] == c.vms[vm := Joined];
  }

  lemma RunsOnFirstNode(plan: Plan, devices: map<int, string>, was: Instance) returns (c: Cluster)
    requires GoodPlan(plan) && was.key in plan.ips && was.node in plan.endpoints
    ensures ClusterRun(Empty(plan, devices), FirstNode(was), c) && ClusterInv(c) && c.plan == plan
    ensures c.vms == map[was := Joined] && Head(c.log) == 1
  {
    var begun := [] + [Launch(was)] + [Publish(was, 1)];
    var c2 := Appears(plan, devices, was);
    var c3;
    c3, c := Ends(c2, was);
    Extended(Empty(plan, devices), begun, c2, Cancel(was), c3);
    Extended(Empty(plan, devices), begun + [Cancel(was)], c3, Await(was), c);
  }

  /** So the order of the two nodes decides: a run that ends with the VM up, and its key deleted. */
  lemma LateDelete(plan: Plan, devices: map<int, string>, was: Instance, now: Instance)
    requires GoodPlan(plan) && was.key in plan.ips && was.key == now.key && was.node != now.node
    requires was.node in plan.endpoints && now.node in plan.endpoints
    ensures exists c :: ClusterRun(Empty(plan, devices), MoveWithLateDelete(was, now), c)
                        && Is(c, now, Running) && !Live(c.log, now.key)
  {
    var c0 := Empty(plan, devices);
    var c4 := RunsOnFirstNode(plan, devices, was);
    var c5 := Moves(c4, now, Running, Launch(now));
    var c6 := Publishes(c5, now, 2);
    var c7 := Withdraws(c6, was, 3);
    Extended(c0, FirstNode(was), c4, Launch(now), c5);
    Extended(c0, FirstNode(was) + [Launch(now)], c5, Publish(now, 2), c6);
    Extended(c0, FirstNode(was) + [Launch(now)] + [Publish(now, 2)], c6, Withdraw(was, 3, true), c7);
  }
}
