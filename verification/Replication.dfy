/**
 The watchers that share the namespace of one VPC on one node, as a state machine over
 beacon's log, their memories, their cache files and the kernel tables. Every step is one
 that another watcher, a crash or a new object can come between.
 */
module Replication {
  import opened Basics
  import opened Addresses
  import opened Beacon
  import opened Membership

  /**
   Stopped: no watch goroutine, although the process may keep its memory.
   Crashed: the process died. It is started again, or its VM turns out to be a stopped one.
   Offline: no subscription, with cached members still to route.
   Online: subscribed; stream is what beacon has still to hand over.
   Busy: the table has taken an object, the kernel has not.
   */
  datatype Phase =
    | Stopped
    | Crashed
    | Offline(todo: set<IPv4>)
    | Online(stream: seq<Object>)
    | Busy(taken: Object, stream: seq<Object>)

  /** saved holds every file this watcher ever saved: a power loss may bring back any. */
  datatype Watcher = Watcher(phase: Phase, memory: Members, file: Members, saved: set<Members>)

  /** One write to the kernel: who made it, and the endpoint. Empty removes. */
  datatype Placement = Placement(writer: string, gre: string)

  /**
   routes and lost are history. routes: the last write for each address since the tables were
   empty. lost: the addresses whose last writer went away before it had handled their last
   object, with the endpoint that it left behind.
   */
  datatype State = State(
    node: int, device: string, log: seq<Object>, watchers: map<string, Watcher>,
    kernel: Kernel, routes: map<IPv4, Placement>, lost: map<IPv4, string>)

  datatype Action =
    | Append(added: Object)
    | Join(id: string)
    | Start(id: string)
    | Restore(id: string, address: IPv4)
    | Subscribe(id: string)
    | Receive(id: string)
    | Route(id: string)
    | Disconnect(id: string)
    | Stop(id: string)
    | Crash(id: string)
    | Retire(id: string)
    | HostReboot(files: map<string, Members>)
    | Teardown

  predicate Active(w: Watcher) { !w.phase.Stopped? }

  ghost predicate AnyActive(s: State) {
    exists id :: id in s.watchers && Active(s.watchers[id])
  }

  /** The members a watcher holds, or will hold once it has loaded its cache. */
  function View(w: Watcher): Members {
    if w.phase.Stopped? || w.phase.Crashed? then Loaded(w.memory, w.file) else w.memory
  }

  /** The members that it has still to route, now or once it is started. */
  function Todo(w: Watcher): set<IPv4> {
    match w.phase
    case Stopped => ToRestore(w.file)
    case Crashed => ToRestore(w.file)
    case Offline(todo) => todo
    case _ => {}
  }

  /** This watcher will not write the address again before a new object comes for it. */
  predicate Consumed(log: seq<Object>, node: int, w: Watcher, a: IPv4) {
    match Last(log, node, a)
    case None => true
    case Some(o) =>
      && View(w).revision >= o.timestamp
      && a !in Todo(w)
      && !(w.phase.Busy? && w.phase.taken.ip == Some(a))
  }

  function Gre(o: Object): string { if o.deleted then "" else o.gre }

  // ------------------------------------------------------------------
  // Steps
  // ------------------------------------------------------------------

  ghost predicate Enabled(s: State, action: Action) {
    match action
    case Append(o) => o.timestamp > Head(s.log)
    case Join(id) => id !in s.watchers
    case Start(id) => id in s.watchers && (s.watchers[id].phase.Stopped? || s.watchers[id].phase.Crashed?)
    case Restore(id, a) => id in s.watchers && s.watchers[id].phase.Offline? && a in s.watchers[id].phase.todo
                           && a in s.watchers[id].memory.table
    case Subscribe(id) => id in s.watchers && s.watchers[id].phase == Offline({})
    case Receive(id) => id in s.watchers && s.watchers[id].phase.Online? && s.watchers[id].phase.stream != []
    case Route(id) => id in s.watchers && s.watchers[id].phase.Busy? && s.watchers[id].phase.taken.ip.Some?
    case Disconnect(id) => id in s.watchers && s.watchers[id].phase.Online?
    case Stop(id) => id in s.watchers && (s.watchers[id].phase.Online? || s.watchers[id].phase == Offline({}))
    case Crash(id) => id in s.watchers && !s.watchers[id].phase.Crashed?
    case Retire(id) => id in s.watchers && s.watchers[id].phase.Crashed?
    case HostReboot(files) => files.Keys == s.watchers.Keys
                              && forall id :: id in files ==> files[id] in s.watchers[id].saved
    case Teardown => !AnyActive(s)
  }

  function Push(w: Watcher, o: Object): Watcher {
    match w.phase
    case Online(stream) => w.(phase := Online(stream + [o]))
    case Busy(b, stream) => w.(phase := Busy(b, stream + [o]))
    case _ => w
  }

  /** The table half of routeRemoteVM on the next object of the stream. */
  function Take(w: Watcher, node: int): Watcher
    requires w.phase.Online? && w.phase.stream != []
  {
    var o, rest := w.phase.stream[0], w.phase.stream[1..];
    var (m, f, r) := Absorb(w.memory, w.file, node, o);
    Watcher(if r.Some? then Busy(o, rest) else Online(rest), m, f, w.saved + {f})
  }

  function Rebooted(w: Watcher, file: Members): Watcher {
    Watcher(if Active(w) then Crashed else Stopped, NO_MEMBERS, file, w.saved)
  }

  /** The addresses that a watcher wrote last, and has not handled the last object of. */
  function Owed(s: State, id: string): set<IPv4>
    requires id in s.watchers
  {
    set a | a in s.routes && s.routes[a].writer == id && !Consumed(s.log, s.node, s.watchers[id], a)
  }

  /**
   The address whose route a crash of this watcher leaves to nobody: the saved cache already
   reflects the tombstone, and is not empty. With an empty cache the revision falls back to
   zero, and beacon hands the tombstone over again.
   */
  function Gap(w: Watcher): set<IPv4> {
    if w.phase.Busy? && w.phase.taken.deleted && w.phase.taken.ip.Some?
       && w.file.table != map[] && w.file.revision >= w.phase.taken.timestamp
    then {w.phase.taken.ip.value} else {}
  }

  function Torn(s: State, id: string): set<IPv4>
    requires id in s.watchers
  {
    set a | a in s.routes && a in Gap(s.watchers[id]) && Last(s.log, s.node, a) == Some(s.watchers[id].phase.taken)
  }

  function Put(s: State, id: string, w: Watcher): State {
    s.(watchers := s.watchers[id := w])
  }

  /** A watcher writes an address, and answers for it from then on. */
  function Place(s: State, id: string, a: IPv4, gre: string): State {
    s.(kernel := RouteMember(s.kernel, s.device, a, gre),
       routes := s.routes[a := Placement(id, gre)],
       lost := s.lost - {a})
  }

  function Leave(s: State, left: set<IPv4>): State
    requires left <= s.routes.Keys
  {
    s.(lost := s.lost + map a | a in left :: s.routes[a].gre)
  }

  function Cleared(s: State): State { s.(kernel := EMPTY_KERNEL, routes := map[], lost := map[]) }

  function Next(s: State, action: Action): State
    requires Enabled(s, action)
  {
    match action
    case Append(o) =>
      s.(log := s.log + [o], watchers := map id | id in s.watchers :: Push(s.watchers[id], o),
         lost := if Effective(o, s.node) then s.lost - {o.ip.value} else s.lost)
    case Join(id) => Put(s, id, Watcher(Stopped, NO_MEMBERS, NO_MEMBERS, {NO_MEMBERS}))
    case Start(id) =>
      var w := s.watchers[id];
      Put(s, id, w.(phase := Offline(ToRestore(w.file)), memory := Loaded(w.memory, w.file)))
    case Restore(id, a) =>
      var w := s.watchers[id];
      Place(Put(s, id, w.(phase := Offline(w.phase.todo - {a}))), id, a, w.memory.table[a])
    case Subscribe(id) =>
      var w := s.watchers[id];
      Put(s, id, w.(phase := Online(CatchUp(s.log, w.memory.revision))))
    case Receive(id) => Put(s, id, Take(s.watchers[id], s.node))
    case Route(id) =>
      var w := s.watchers[id];
      Place(Put(s, id, w.(phase := Online(w.phase.stream))), id, w.phase.taken.ip.value, Gre(w.phase.taken))
    case Disconnect(id) => Put(s, id, s.watchers[id].(phase := Offline({})))
    case Stop(id) => Leave(Put(s, id, s.watchers[id].(phase := Stopped)), Owed(s, id))
    case Crash(id) =>
      var w := s.watchers[id];
      Leave(Put(s, id, w.(phase := if Active(w) then Crashed else Stopped, memory := NO_MEMBERS)), Torn(s, id))
    case Retire(id) => Leave(Put(s, id, s.watchers[id].(phase := Stopped)), Owed(s, id))
    case HostReboot(files) => Cleared(s.(watchers := map id | id in s.watchers :: Rebooted(s.watchers[id], files[id])))
    case Teardown => Cleared(s)
  }

  function Initial(node: int, device: string): State {
    State(node, device, [], map[], EMPTY_KERNEL, map[], map[])
  }

  /** s' is reached from s by these actions, each enabled where it is taken. */
  ghost predicate Run(s: State, actions: seq<Action>, s': State)
    decreases |actions|
  {
    if actions == [] then s == s'
    else Enabled(s, actions[0]) && Run(Next(s, actions[0]), actions[1..], s')
  }

  // ------------------------------------------------------------------
  // The invariant
  // ------------------------------------------------------------------

  /**
   A table with its revision agrees with the log: not a fold of a prefix, because catch-up
   skips old versions, but right about every visible address whose last effective object is
   old enough.
   */
  ghost predicate Agrees(log: seq<Object>, node: int, m: Members) {
    && 0 <= m.revision <= Head(log)
    && (forall a :: Last(log, node, a).None? ==> a !in m.table)
    && (forall a :: AgreesOn(log, node, m, a))
  }

  ghost predicate AgreesOn(log: seq<Object>, node: int, m: Members, a: IPv4) {
    Visible(log, node, a) && Last(log, node, a).Some? && Last(log, node, a).value.timestamp <= m.revision ==>
      Holds(m.table, a, Last(log, node, a).value)
  }

  predicate Holds(table: map<IPv4, string>, a: IPv4, o: Object) {
    if o.deleted then a !in table else a in table && table[a] == o.gre
  }

  /** The stream still brings the last object of the address, if it is newer than the revision. */
  ghost predicate Brings(log: seq<Object>, node: int, revision: int, stream: seq<Object>, a: IPv4) {
    Visible(log, node, a) && Last(log, node, a).Some? && Last(log, node, a).value.timestamp > revision ==>
      Last(log, node, a).value in stream
  }

  /** What beacon has still to hand over: newer than the revision, and nothing missing. */
  ghost predicate StreamOk(log: seq<Object>, node: int, revision: int, stream: seq<Object>) {
    && Ascending(stream)
    && (forall o :: o in stream ==> o in log && o.timestamp > revision)
    && (forall a :: Brings(log, node, revision, stream, a))
  }

  /** Memory and file hold the same table, and the file is not ahead. */
  predicate InStep(w: Watcher) {
    w.memory.table == w.file.table && (w.file.table != map[] ==> w.file.revision <= w.memory.revision)
  }

  ghost predicate PhaseOk(log: seq<Object>, node: int, w: Watcher) {
    match w.phase
    case Stopped => w.memory.table == w.file.table || w.memory == NO_MEMBERS
    case Crashed => w.memory == NO_MEMBERS
    case Offline(todo) => InStep(w) && todo <= w.memory.table.Keys
    case Online(stream) => InStep(w) && StreamOk(log, node, w.memory.revision, stream)
    case Busy(o, stream) =>
      && InStep(w) && StreamOk(log, node, w.memory.revision, stream)
      && o in log && Effective(o, node) && o.timestamp == w.memory.revision
      && Holds(w.memory.table, o.ip.value, o)
  }

  ghost predicate WatcherOk(log: seq<Object>, node: int, w: Watcher) {
    && Agrees(log, node, w.memory) && Agrees(log, node, w.file) && w.file in w.saved
    && (forall m :: m in w.saved ==> Agrees(log, node, m))
    && PhaseOk(log, node, w)
  }

  /** The endpoint that the last write gave the address. */
  function Shown(s: State, a: IPv4): string { if a in s.routes then s.routes[a].gre else "" }

  /** A watcher that will yet write the last object of the address. */
  ghost predicate Owes(s: State, id: string, a: IPv4) {
    id in s.watchers && Active(s.watchers[id]) && !Consumed(s.log, s.node, s.watchers[id], a)
  }

  /** No watcher, running or not, has handled the last object of the address. */
  ghost predicate Unhandled(s: State, a: IPv4) {
    forall id :: id in s.watchers ==> !Consumed(s.log, s.node, s.watchers[id], a)
  }

  /** The last write is right, or its writer will correct it, or nobody has come to the object yet. */
  ghost predicate Accounted(s: State, a: IPv4) {
    match Last(s.log, s.node, a)
    case None => a !in s.routes
    case Some(o) =>
      Visible(s.log, s.node, a) ==>
      || Shown(s, a) == Gre(o) || a in s.lost
      || (a in s.routes && Owes(s, s.routes[a].writer, a)) || Unhandled(s, a)
  }

  /** The kernel holds exactly the last writes, and lost says what they were. */
  ghost predicate KernelOk(s: State) {
    && (forall a :: Shows(s.kernel, s.device, a, Shown(s, a)))
    && (forall a :: a in s.lost ==> a in s.routes && s.lost[a] == s.routes[a].gre)
  }

  ghost predicate WatchersOk(s: State) {
    && ValidLog(s.log)
    && forall id :: id in s.watchers ==> WatcherOk(s.log, s.node, s.watchers[id])
  }

  ghost predicate Inv(s: State) {
    WatchersOk(s) && KernelOk(s) && forall a :: Accounted(s, a)
  }

  // ------------------------------------------------------------------
  // Each step keeps the invariant
  // ------------------------------------------------------------------

  lemma AppendAgrees(log: seq<Object>, o: Object, node: int, m: Members)
    requires o.timestamp > Head(log) >= 0 && Agrees(log, node, m)
    ensures Agrees(log + [o], node, m)
  {
    forall a ensures AgreesOn(log + [o], node, m, a) && (Last(log + [o], node, a).None? ==> a !in m.table) {
      LastAppend(log, o, node, a);
      assert AgreesOn(log, node, m, a);
      if Visible(log + [o], node, a) && !Touches(o, node, a) {
        VisibleFewer(log, o, node, a);
      }
    }
  }

  lemma AppendStream(log: seq<Object>, o: Object, node: int, revision: int, stream: seq<Object>)
    requires o.timestamp > Head(log) >= revision && ValidLog(log) && StreamOk(log, node, revision, stream)
    ensures StreamOk(log + [o], node, revision, stream + [o])
  {
    forall a ensures Brings(log + [o], node, revision, stream + [o], a) {
      LastAppend(log, o, node, a);
      assert Brings(log, node, revision, stream, a);
      if Visible(log + [o], node, a) && !Touches(o, node, a) {
        VisibleFewer(log, o, node, a);
      }
    }
  }

  lemma AppendWatcher(log: seq<Object>, o: Object, node: int, w: Watcher)
    requires ValidLog(log) && o.timestamp > Head(log) && WatcherOk(log, node, w)
    ensures WatcherOk(log + [o], node, Push(w, o))
  {
    AppendAgrees(log, o, node, w.memory);
    AppendAgrees(log, o, node, w.file);
    forall m | m in w.saved ensures Agrees(log + [o], node, m) {
      AppendAgrees(log, o, node, m);
    }
    match w.phase
    case Online(stream) => AppendStream(log, o, node, w.memory.revision, stream);
    case Busy(_, stream) => AppendStream(log, o, node, w.memory.revision, stream);
    case _ =>
  }

  lemma ViewBounded(log: seq<Object>, node: int, w: Watcher)
    requires WatcherOk(log, node, w)
    ensures View(w).revision <= Head(log)
  {
  }

  lemma AppendKeeps(s: State, o: Object)
    requires Inv(s) && Enabled(s, Append(o))
    ensures Inv(Next(s, Append(o)))
  {
    var s' := Next(s, Append(o));
    forall id | id in s'.watchers ensures WatcherOk(s'.log, s'.node, s'.watchers[id]) {
      AppendWatcher(s.log, o, s.node, s.watchers[id]);
    }
    forall a ensures Accounted(s', a) && Shown(s', a) == Shown(s, a) {
      AppendAccounted(s, o, a);
    }
  }

  lemma AppendConsumed(s: State, o: Object, id: string, a: IPv4)
    requires Inv(s) && Enabled(s, Append(o)) && id in s.watchers
    ensures var w' := Push(s.watchers[id], o); var log' := s.log + [o];
            && Active(w') == Active(s.watchers[id])
            && (if Touches(o, s.node, a) then !Consumed(log', s.node, w', a)
                else Consumed(log', s.node, w', a) == Consumed(s.log, s.node, s.watchers[id], a))
  {
    LastAppend(s.log, o, s.node, a);
    ViewBounded(s.log, s.node, s.watchers[id]);
  }

  /** A new object for an address is one that nobody has handled; for others nothing changes. */
  lemma AppendAccounted(s: State, o: Object, a: IPv4)
    requires Inv(s) && Enabled(s, Append(o))
    ensures Accounted(Next(s, Append(o)), a)
  {
    LastAppend(s.log, o, s.node, a);
    assert Accounted(s, a);
    if Visible(s.log + [o], s.node, a) && !Touches(o, s.node, a) {
      VisibleFewer(s.log, o, s.node, a);
    }
    forall id | id in s.watchers
      ensures var w' := Push(s.watchers[id], o); var log' := s.log + [o];
              && Active(w') == Active(s.watchers[id])
              && (if Touches(o, s.node, a) then !Consumed(log', s.node, w', a)
                  else Consumed(log', s.node, w', a) == Consumed(s.log, s.node, s.watchers[id], a))
    {
      AppendConsumed(s, o, id, a);
    }
  }

  /** What a step must not do to the watcher it changes, for an address that it does not write. */
  ghost predicate Faithful(s: State, id: string, w': Watcher, lost': map<IPv4, string>, a: IPv4) {
    Visible(s.log, s.node, a) && Last(s.log, s.node, a).Some? && id in s.watchers && a !in lost'
    && Shown(s, a) != Gre(Last(s.log, s.node, a).value) ==>
      var w := s.watchers[id];
      && (Consumed(s.log, s.node, w', a) ==> Consumed(s.log, s.node, w, a))
      && (a in s.routes && s.routes[a].writer == id && !Consumed(s.log, s.node, w, a) && Active(w) ==> Active(w'))
  }

  lemma FaithfulAccounted(s: State, id: string, s': State, a: IPv4)
    requires Accounted(s, a) && id in s.watchers && s'.log == s.log && s'.node == s.node
    requires s'.watchers.Keys == s.watchers.Keys
    requires forall x :: x in s.watchers && x != id ==> s'.watchers[x] == s.watchers[x]
    requires (a in s.routes <==> a in s'.routes) && (a in s.routes ==> s'.routes[a] == s.routes[a])
    requires a in s.lost ==> a in s'.lost
    requires Faithful(s, id, s'.watchers[id], s'.lost, a)
    ensures Accounted(s', a)
  {
  }

  /** A step that changes one watcher and writes nothing. */
  lemma OneWatcher(s: State, id: string, s': State)
    requires Inv(s) && id in s.watchers && id in s'.watchers
    requires s' == Put(s, id, s'.watchers[id]).(lost := s'.lost)
    requires WatcherOk(s.log, s.node, s'.watchers[id])
    requires forall a :: a in s.lost ==> a in s'.lost
    requires forall a :: a in s'.lost ==> a in s.routes && s'.lost[a] == s.routes[a].gre
    requires forall a :: Faithful(s, id, s'.watchers[id], s'.lost, a)
    ensures Inv(s')
  {
    forall a ensures Accounted(s', a) {
      FaithfulAccounted(s, id, s', a);
    }
    forall a ensures Shown(s', a) == Shown(s, a) {
    }
  }

  lemma JoinKeeps(s: State, id: string)
    requires Inv(s) && Enabled(s, Join(id))
    ensures Inv(Next(s, Join(id)))
  {
    var s' := Next(s, Join(id));
    NothingKnown(s.log, s.node);
    forall a ensures Accounted(s', a) && Shown(s', a) == Shown(s, a) {
      LastFacts(s.log, s.node, a);
      assert Accounted(s, a);
    }
  }

  lemma StartKeeps(s: State, id: string)
    requires Inv(s) && Enabled(s, Start(id))
    ensures Inv(Next(s, Start(id)))
  {
    assert WatcherOk(s.log, s.node, s.watchers[id]);
    assert InStep(Next(s, Start(id)).watchers[id]);
    OneWatcher(s, id, Next(s, Start(id)));
  }

  lemma SubscribeKeeps(s: State, id: string)
    requires Inv(s) && Enabled(s, Subscribe(id))
    ensures Inv(Next(s, Subscribe(id)))
  {
    var w := s.watchers[id];
    assert WatcherOk(s.log, s.node, w);
    CatchUpFromIs(s.log, w.memory.revision, 0);
    forall a ensures Brings(s.log, s.node, w.memory.revision, CatchUp(s.log, w.memory.revision), a) {
      var last := Last(s.log, s.node, a);
      if Visible(s.log, s.node, a) && last.Some? && last.value.timestamp > w.memory.revision {
        CatchUpComplete(s.log, s.node, w.memory.revision, a);
      }
    }
    OneWatcher(s, id, Next(s, Subscribe(id)));
  }

  lemma DisconnectKeeps(s: State, id: string)
    requires Inv(s) && Enabled(s, Disconnect(id))
    ensures Inv(Next(s, Disconnect(id)))
  {
    assert WatcherOk(s.log, s.node, s.watchers[id]);
    OneWatcher(s, id, Next(s, Disconnect(id)));
  }

  lemma StoppedOk(log: seq<Object>, node: int, w: Watcher)
    requires WatcherOk(log, node, w) && (w.phase.Online? || w.phase == Offline({}) || w.phase.Crashed?)
    ensures WatcherOk(log, node, w.(phase := Stopped))
    ensures forall a :: Consumed(log, node, w.(phase := Stopped), a) ==> Consumed(log, node, w, a)
  {
  }

  lemma LeaveFaithful(s: State, id: string, lost': map<IPv4, string>, a: IPv4)
    requires id in s.watchers && WatcherOk(s.log, s.node, s.watchers[id])
    requires Enabled(s, Stop(id)) || Enabled(s, Retire(id))
    requires forall b :: b in Owed(s, id) ==> b in lost'
    ensures Faithful(s, id, s.watchers[id].(phase := Stopped), lost', a)
  {
    StoppedOk(s.log, s.node, s.watchers[id]);
    assert a in Owed(s, id) ==> a in lost';
  }

  /** A watcher that goes away leaves what it owes, and nothing else. */
  lemma LeaveKeeps(s: State, id: string, s': State)
    requires Inv(s) && (Enabled(s, Stop(id)) || Enabled(s, Retire(id)))
    requires s' == Leave(Put(s, id, s.watchers[id].(phase := Stopped)), Owed(s, id))
    ensures Inv(s')
  {
    assert WatcherOk(s.log, s.node, s.watchers[id]);
    StoppedOk(s.log, s.node, s.watchers[id]);
    forall a ensures Faithful(s, id, s'.watchers[id], s'.lost, a) {
      LeaveFaithful(s, id, s'.lost, a);
    }
    OneWatcher(s, id, s');
  }

  /** A crash never makes a watcher believe more than it did, but for the gap. */
  lemma CrashFaithful(s: State, id: string, a: IPv4)
    requires Inv(s) && Enabled(s, Crash(id))
    ensures Faithful(s, id, Next(s, Crash(id)).watchers[id], Next(s, Crash(id)).lost, a)
  {
    var w, w' := s.watchers[id], Next(s, Crash(id)).watchers[id];
    assert WatcherOk(s.log, s.node, w);
    LastFacts(s.log, s.node, a);
    if Visible(s.log, s.node, a) && Last(s.log, s.node, a).Some?
       && Consumed(s.log, s.node, w', a) && !Consumed(s.log, s.node, w, a) {
      assert AgreesOn(s.log, s.node, w.file, a) && AgreesOn(s.log, s.node, w.memory, a);
      var l := Last(s.log, s.node, a).value;
      assert w.file.table != map[] && w.file.revision >= l.timestamp && a !in w.file.table;
      assert l.deleted && w.phase.Busy? && w.phase.taken.ip == Some(a);
      LastIsNewest(s.log, s.node, a, w.phase.taken);
      assert w.phase.taken == l && a in Gap(w);
    }
  }

  lemma CrashKeeps(s: State, id: string)
    requires Inv(s) && Enabled(s, Crash(id))
    ensures Inv(Next(s, Crash(id)))
  {
    assert WatcherOk(s.log, s.node, s.watchers[id]);
    NothingKnown(s.log, s.node);
    forall a ensures Faithful(s, id, Next(s, Crash(id)).watchers[id], Next(s, Crash(id)).lost, a) {
      CrashFaithful(s, id, a);
    }
    OneWatcher(s, id, Next(s, Crash(id)));
  }

  /** The empty table at revision zero agrees with every log. */
  lemma NothingKnown(log: seq<Object>, node: int)
    requires ValidLog(log)
    ensures Agrees(log, node, NO_MEMBERS)
  {
    forall a ensures Last(log, node, a).Some? ==> Last(log, node, a).value.timestamp > 0 {
      LastFacts(log, node, a);
    }
  }

  /** One write is the whole change of the kernel. */
  lemma PlaceShows(s: State, id: string, at: IPv4, gre: string)
    requires KernelOk(s)
    ensures KernelOk(Place(s, id, at, gre))
  {
    var s' := Place(s, id, at, gre);
    forall a ensures Shows(s'.kernel, s.device, a, Shown(s', a)) {
      if a == at {
        RouteMemberShows(s.kernel, s.device, at, gre);
      } else {
        RouteMemberFrame(s.kernel, s.device, at, gre, a, Shown(s, a));
      }
    }
  }

  /** A watcher that writes an address either makes it right or still owes it. */
  lemma PlaceKeeps(s: State, id: string, w': Watcher, at: IPv4, gre: string)
    requires Inv(s) && id in s.watchers && WatcherOk(s.log, s.node, w') && Active(w')
    requires Last(s.log, s.node, at).Some?
    requires Visible(s.log, s.node, at) ==>
               gre == Gre(Last(s.log, s.node, at).value) || !Consumed(s.log, s.node, w', at)
    requires forall a :: a != at && Consumed(s.log, s.node, w', a) ==> Consumed(s.log, s.node, s.watchers[id], a)
    ensures Inv(Place(Put(s, id, w'), id, at, gre))
  {
    var t := Put(s, id, w');
    var s' := Place(t, id, at, gre);
    forall a ensures Shown(t, a) == Shown(s, a) {
    }
    PlaceShows(t, id, at, gre);
    forall a ensures Accounted(s', a) {
      if a != at {
        FaithfulAccounted(s, id, s', a);
      }
    }
  }

  lemma RouteKeeps(s: State, id: string)
    requires Inv(s) && Enabled(s, Route(id))
    ensures Inv(Next(s, Route(id)))
  {
    var w := s.watchers[id];
    var o := w.phase.taken;
    assert WatcherOk(s.log, s.node, w);
    LastIsNewest(s.log, s.node, o.ip.value, o);
    PlaceKeeps(s, id, w.(phase := Online(w.phase.stream)), o.ip.value, Gre(o));
  }

  lemma RestoreKeeps(s: State, id: string, at: IPv4)
    requires Inv(s) && Enabled(s, Restore(id, at))
    ensures Inv(Next(s, Restore(id, at)))
  {
    var w := s.watchers[id];
    assert WatcherOk(s.log, s.node, w);
    assert Last(s.log, s.node, at).Some? && AgreesOn(s.log, s.node, w.memory, at);
    PlaceKeeps(s, id, w.(phase := Offline(w.phase.todo - {at})), at, w.memory.table[at]);
  }

  /** A table that takes an object nothing older is missing before stays in agreement. */
  lemma AbsorbAgrees(log: seq<Object>, node: int, m: Members, file: Members, o: Object)
    requires ValidLog(log) && Agrees(log, node, m) && Agrees(log, node, file)
    requires o in log && Effective(o, node) && o.timestamp > m.revision && m.table == file.table
    requires forall a :: NothingBefore(log, node, m.revision, o.timestamp, a)
    ensures var (m', f', r) := Absorb(m, file, node, o);
            && r == Some(Routing(o.ip.value, Gre(o))) && m'.revision == o.timestamp
            && Agrees(log, node, m') && Agrees(log, node, f') && m'.table == f'.table
            && (f' == file || f' == m') && Holds(m'.table, o.ip.value, o)
  {
    var (m', f', r) := Absorb(m, file, node, o);
    var at := o.ip.value;
    LastIsNewest(log, node, at, o);
    LastFacts(log, node, at);
    forall a ensures AgreesOn(log, node, m', a) && (Last(log, node, a).None? ==> a !in m'.table) {
      assert AgreesOn(log, node, m, a) && NothingBefore(log, node, m.revision, o.timestamp, a);
      LastFacts(log, node, a);
      if a != at && Last(log, node, a).Some? && Last(log, node, a).value.timestamp == o.timestamp {
        SameTimestamp(log, Last(log, node, a).value, o);
      }
    }
    assert Agrees(log, node, m');
  }

  /** The last object of the address is not between the two timestamps. */
  ghost predicate NothingBefore(log: seq<Object>, node: int, revision: int, timestamp: int, a: IPv4) {
    Visible(log, node, a) && Last(log, node, a).Some? && Last(log, node, a).value.timestamp > revision ==>
      Last(log, node, a).value.timestamp >= timestamp
  }

  lemma SameTimestamp(log: seq<Object>, x: Object, y: Object)
    requires ValidLog(log) && x in log && y in log && x.timestamp == y.timestamp
    ensures x == y
  {
  }

  /** The rest of a stream is complete after its first object, or from before if that changed nothing. */
  lemma RestOk(log: seq<Object>, node: int, revision: int, stream: seq<Object>)
    requires ValidLog(log) && StreamOk(log, node, revision, stream) && stream != []
    ensures StreamOk(log, node, stream[0].timestamp, stream[1..])
    ensures !Effective(stream[0], node) ==> StreamOk(log, node, revision, stream[1..])
    ensures forall a :: NothingBefore(log, node, revision, stream[0].timestamp, a)
  {
    var o, rest := stream[0], stream[1..];
    forall x | x in stream ensures x == o || (x in rest && x.timestamp > o.timestamp) {
    }
    assert o in stream && forall x :: x in rest ==> x in stream;
    forall a
      ensures Brings(log, node, o.timestamp, rest, a) && NothingBefore(log, node, revision, o.timestamp, a)
      ensures !Effective(o, node) ==> Brings(log, node, revision, rest, a)
    {
      assert Brings(log, node, revision, stream, a);
      LastFacts(log, node, a);
    }
  }

  lemma TakeEffective(log: seq<Object>, node: int, w: Watcher)
    requires ValidLog(log) && WatcherOk(log, node, w) && w.phase.Online? && w.phase.stream != []
    requires Effective(w.phase.stream[0], node)
    ensures WatcherOk(log, node, Take(w, node))
  {
    var o := w.phase.stream[0];
    assert o in w.phase.stream;
    RestOk(log, node, w.memory.revision, w.phase.stream);
    AbsorbAgrees(log, node, w.memory, w.file, o);
  }

  lemma TakeOk(log: seq<Object>, node: int, w: Watcher)
    requires ValidLog(log) && WatcherOk(log, node, w) && w.phase.Online? && w.phase.stream != []
    ensures WatcherOk(log, node, Take(w, node))
  {
    if Effective(w.phase.stream[0], node) {
      TakeEffective(log, node, w);
    } else {
      RestOk(log, node, w.memory.revision, w.phase.stream);
    }
  }

  /** Taking an object never completes it: the route comes later. */
  lemma TakeCompletesNothing(log: seq<Object>, node: int, w: Watcher, a: IPv4)
    requires ValidLog(log) && WatcherOk(log, node, w) && w.phase.Online? && w.phase.stream != []
    requires Visible(log, node, a)
    ensures Consumed(log, node, Take(w, node), a) ==> Consumed(log, node, w, a)
  {
    var o := w.phase.stream[0];
    assert o in w.phase.stream;
    if Last(log, node, a).Some? && Last(log, node, a).value.timestamp > w.memory.revision {
      var l := Last(log, node, a).value;
      LastFacts(log, node, a);
      RestOk(log, node, w.memory.revision, w.phase.stream);
      assert NothingBefore(log, node, w.memory.revision, o.timestamp, a);
      if Effective(o, node) && l.timestamp <= o.timestamp {
        SameTimestamp(log, l, o);
      }
    }
  }

  lemma ReceiveKeeps(s: State, id: string)
    requires Inv(s) && Enabled(s, Receive(id))
    ensures Inv(Next(s, Receive(id)))
  {
    assert WatcherOk(s.log, s.node, s.watchers[id]);
    TakeOk(s.log, s.node, s.watchers[id]);
    forall a ensures Faithful(s, id, Next(s, Receive(id)).watchers[id], s.lost, a) {
      if Visible(s.log, s.node, a) {
        TakeCompletesNothing(s.log, s.node, s.watchers[id], a);
      }
    }
    OneWatcher(s, id, Next(s, Receive(id)));
  }

  lemma RebootedOk(log: seq<Object>, node: int, w: Watcher, file: Members)
    requires ValidLog(log) && WatcherOk(log, node, w) && file in w.saved
    ensures WatcherOk(log, node, Rebooted(w, file))
  {
    NothingKnown(log, node);
  }

  /** A watcher that does not run has never done with a live member: it will restore it, or hear of it. */
  lemma IdleOwesLive(log: seq<Object>, node: int, w: Watcher, a: IPv4)
    requires WatcherOk(log, node, w) && (w.phase.Crashed? || w.phase.Stopped?) && ValidLog(log)
    requires Visible(log, node, a) && Last(log, node, a).Some? && !Last(log, node, a).value.deleted
    ensures !Consumed(log, node, w, a)
  {
    assert AgreesOn(log, node, w.memory, a) && AgreesOn(log, node, w.file, a);
    LastFacts(log, node, a);
  }

  /** Empty tables are right for the dead, and every idle watcher owes the live. */
  lemma ClearedKeeps(s: State, s': State)
    requires WatchersOk(s') && s' == Cleared(s)
    requires forall id :: id in s'.watchers ==> s'.watchers[id].phase.Crashed? || s'.watchers[id].phase.Stopped?
    ensures Inv(s')
  {
    forall a ensures Accounted(s', a) && Shows(s'.kernel, s'.device, a, "") {
      if Visible(s'.log, s'.node, a) && Last(s'.log, s'.node, a).Some? && !Last(s'.log, s'.node, a).value.deleted {
        forall id | id in s'.watchers ensures !Consumed(s'.log, s'.node, s'.watchers[id], a) {
          IdleOwesLive(s'.log, s'.node, s'.watchers[id], a);
        }
      }
    }
  }

  lemma HostRebootKeeps(s: State, files: map<string, Members>)
    requires Inv(s) && Enabled(s, HostReboot(files))
    ensures Inv(Next(s, HostReboot(files)))
  {
    var s' := Next(s, HostReboot(files));
    forall id | id in s'.watchers ensures WatcherOk(s'.log, s'.node, s'.watchers[id]) {
      RebootedOk(s.log, s.node, s.watchers[id], files[id]);
    }
    ClearedKeeps(s.(watchers := s'.watchers), s');
  }

  lemma TeardownKeeps(s: State)
    requires Inv(s) && Enabled(s, Teardown)
    ensures Inv(Next(s, Teardown))
  {
    forall id | id in s.watchers ensures s.watchers[id].phase.Stopped? {
      assert !Active(s.watchers[id]);
    }
    ClearedKeeps(s, Next(s, Teardown));
  }

  lemma StepKeeps(s: State, action: Action)
    requires Inv(s) && Enabled(s, action)
    ensures Inv(Next(s, action))
  {
    match action
    case Append(o) => AppendKeeps(s, o);
    case Join(id) => JoinKeeps(s, id);
    case Start(id) => StartKeeps(s, id);
    case Restore(id, a) => RestoreKeeps(s, id, a);
    case Subscribe(id) => SubscribeKeeps(s, id);
    case Receive(id) => ReceiveKeeps(s, id);
    case Route(id) => RouteKeeps(s, id);
    case Disconnect(id) => DisconnectKeeps(s, id);
    case Stop(id) => LeaveKeeps(s, id, Next(s, action));
    case Crash(id) => CrashKeeps(s, id);
    case Retire(id) => LeaveKeeps(s, id, Next(s, action));
    case HostReboot(files) => HostRebootKeeps(s, files);
    case Teardown => TeardownKeeps(s);
  }
}
