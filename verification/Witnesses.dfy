/** Runs of the replication protocol, from the start, that end caught up with a stale route. */
module Witnesses {
  import opened Basics
  import opened Addresses
  import opened Beacon
  import opened Membership
  import opened Replication
  import opened Convergence

  const X := IPv4(10, 0, 0, 1)
  const Y := IPv4(10, 0, 0, 2)

  const PUT := Object("k", 1, "A", 2, Some(X), false)
  const MOVE := Object("k", 2, "B", 3, Some(X), false)
  const OTHER := Object("l", 2, "A", 2, Some(Y), false)
  const TOMB := Object("k", 3, "", 2, Some(X), true)

  const M0 := NO_MEMBERS
  const M1 := Members(1, map[X := "A"])
  const M2 := Members(2, map[X := "B"])
  const BOTH := Members(2, map[X := "A", Y := "A"])
  const REST := Members(3, map[Y := "A"])

  lemma {:induction false} Extend(s: State, actions: seq<Action>, m: State, action: Action)
    requires Run(s, actions, m) && Enabled(m, action)
    ensures Run(s, actions + [action], Next(m, action))
    decreases |actions|
  {
    if actions == [] {
      assert [action][1..] == [];
    } else {
      Extend(Next(s, actions[0]), actions[1..], m, action);
      assert (actions + [action])[1..] == actions[1..] + [action];
    }
  }

  // ------------------------------------------------------------------
  // One watcher at a time
  // ------------------------------------------------------------------

  /** A fresh watcher that has just subscribed to this log. */
  function Fresh(log: seq<Object>): Watcher { Watcher(Online(CatchUp(log, 0)), M0, M0, {M0}) }

  /** A watcher joins an empty log, starts and subscribes. */
  lemma Begins(s: State, id: string) returns (actions: seq<Action>, s': State)
    requires id !in s.watchers && s.log == []
    ensures Run(s, actions, s') && s' == s.(watchers := s.watchers[id := Fresh([])])
  {
    var s1 := Next(s, Join(id));
    var s2 := Next(s1, Start(id));
    s' := Next(s2, Subscribe(id));
    actions := [] + [Join(id)] + [Start(id)] + [Subscribe(id)];
    Extend(s, [], s, Join(id));
    Extend(s, [] + [Join(id)], s1, Start(id));
    Extend(s, [] + [Join(id)] + [Start(id)], s2, Subscribe(id));
    assert s.watchers[id := Fresh([])] == s'.watchers;
  }

  /** What handling the next object of its stream makes of a watcher of node 1. */
  ghost predicate HandlesTo(w: Watcher, o: Object, w': Watcher) {
    && w.phase.Online? && w'.phase.Online? && w.phase.stream == [o] + w'.phase.stream && Effective(o, 1)
    && var (m, f, r) := Absorb(w.memory, w.file, 1, o); w'.memory == m && w'.file == f && w'.saved == w.saved + {f}
  }

  /** A watcher handles the next object of its stream, route included. */
  lemma Handles(s: State, id: string, w: Watcher, o: Object, w': Watcher) returns (actions: seq<Action>, s': State)
    requires s.node == 1 && id in s.watchers && s.watchers[id] == w && HandlesTo(w, o, w')
    ensures Run(s, actions, s') && s'.watchers == s.watchers[id := w']
    ensures s'.routes == s.routes[o.ip.value := Placement(id, Gre(o))] && s'.lost == s.lost - {o.ip.value}
    ensures s'.log == s.log && s'.node == s.node && s'.device == s.device
  {
    assert w.phase.stream[0] == o && w.phase.stream[1..] == w'.phase.stream;
    var s1 := Next(s, Receive(id));
    s' := Next(s1, Route(id));
    actions := [] + [Receive(id)] + [Route(id)];
    Extend(s, [], s, Receive(id));
    Extend(s, [] + [Receive(id)], s1, Route(id));
  }

  /** An object reaches every watcher that has this stream. */
  lemma Appended(s: State, o: Object, w: Watcher, w': Watcher)
    requires o.timestamp > Head(s.log) && w' == Push(w, o)
    requires forall id :: id in s.watchers ==> s.watchers[id] == w
    ensures Enabled(s, Append(o))
    ensures var n := Next(s, Append(o));
            && n.watchers.Keys == s.watchers.Keys && (forall id :: id in n.watchers ==> n.watchers[id] == w')
            && n.log == s.log + [o] && n.node == s.node && n.device == s.device
  {
  }

  // ------------------------------------------------------------------
  // A stop before the last object
  // ------------------------------------------------------------------

  lemma LastX()
    ensures Last([PUT, MOVE], 1, X) == Some(MOVE) && Last([PUT, OTHER, TOMB], 1, X) == Some(TOMB)
  {
    assert [PUT, OTHER, TOMB][..2] == [PUT, OTHER];
  }

  const WAITING := Watcher(Online([PUT, MOVE]), M0, M0, {M0})
  const FIRST := Watcher(Online([MOVE]), M1, M1, {M0, M1})
  const SECOND := Watcher(Online([]), M2, M2, {M0, M1, M2})

  /** Two watchers, and a member that appears and moves before either has heard of it. */
  lemma BothWait() returns (actions: seq<Action>, s: State)
    ensures Run(Initial(1, "g1"), actions, s)
    ensures s.node == 1 && s.device == "g1" && s.log == [PUT, MOVE] && s.watchers == map["u" := WAITING, "v" := WAITING]
  {
    var start := Initial(1, "g1");
    var a1, s1 := Begins(start, "u");
    var a2, s2 := Begins(s1, "v");
    RunThen(start, a1, s1, a2, s2);
    var a3, s3 := TwoAppends(s2);
    RunThen(start, a1 + a2, s2, a3, s3);
    actions, s := a1 + a2 + a3, s3;
  }

  lemma TwoAppends(s0: State) returns (actions: seq<Action>, s: State)
    requires s0.node == 1 && s0.log == [] && forall id :: id in s0.watchers ==> s0.watchers[id] == Fresh([])
    ensures Run(s0, actions, s) && s.node == 1 && s.device == s0.device && s.log == [PUT, MOVE]
    ensures s.watchers.Keys == s0.watchers.Keys && forall id :: id in s.watchers ==> s.watchers[id] == WAITING
  {
    var one := Watcher(Online([PUT]), M0, M0, {M0});
    assert [] + [PUT] == [PUT] && [PUT] + [MOVE] == [PUT, MOVE];
    Appended(s0, PUT, Fresh([]), one);
    var s1 := Next(s0, Append(PUT));
    Appended(s1, MOVE, one, WAITING);
    s := Next(s1, Append(MOVE));
    actions := [] + [Append(PUT)] + [Append(MOVE)];
    Extend(s0, [], s0, Append(PUT));
    Extend(s0, [] + [Append(PUT)], s1, Append(MOVE));
  }

  lemma LagTables()
    ensures HandlesTo(WAITING, PUT, FIRST) && HandlesTo(FIRST, MOVE, SECOND)
  {
    assert M1.table[X := "B"] == M2.table;
    assert {M0} + {M1} == {M0, M1} && {M0, M1} + {M2} == {M0, M1, M2};
    assert [PUT] + [MOVE] == [PUT, MOVE] && [MOVE] + [] == [MOVE];
  }

  lemma OneHandles(s0: State) returns (actions: seq<Action>, s: State)
    requires s0.node == 1 && "u" in s0.watchers && s0.watchers["u"] == WAITING
    ensures Run(s0, actions, s) && s.node == 1 && s.device == s0.device && s.log == s0.log
    ensures s.watchers == s0.watchers["u" := SECOND]
  {
    LagTables();
    var a1, s1 := Handles(s0, "u", WAITING, PUT, FIRST);
    var a2, s2 := Handles(s1, "u", FIRST, MOVE, SECOND);
    RunThen(s0, a1, s1, a2, s2);
    assert s0.watchers["u" := FIRST]["u" := SECOND] == s0.watchers["u" := SECOND];
    actions, s := a1 + a2, s2;
  }

  /** One watcher handles both objects, and then the other handles the first. */
  lemma OneLags(s0: State) returns (actions: seq<Action>, s: State)
    requires s0.node == 1 && s0.log == [PUT, MOVE] && s0.watchers == map["u" := WAITING, "v" := WAITING]
    ensures Run(s0, actions, s) && s.node == 1 && s.device == s0.device && s.log == [PUT, MOVE]
    ensures s.watchers == map["u" := SECOND, "v" := FIRST] && X in s.routes && s.routes[X] == Placement("v", "A")
  {
    var a1, s1 := OneHandles(s0);
    LagTables();
    var a2, s2 := Handles(s1, "v", WAITING, PUT, FIRST);
    RunThen(s0, a1, s1, a2, s2);
    actions, s := a1 + a2, s2;
  }

  /** The one that lags stops, and nobody else has anything left to handle. */
  lemma StopsWhileBehind(s: State) returns (s': State)
    requires s.node == 1 && s.device == "g1" && s.log == [PUT, MOVE]
    requires s.watchers == map["u" := SECOND, "v" := FIRST] && X in s.routes && s.routes[X] == Placement("v", "A")
    ensures Enabled(s, Stop("v")) && s' == Next(s, Stop("v")) && CaughtUp(s')
    ensures Owner(s'.log, 1, X) == "B" && Shown(s', X) == "A"
  {
    s' := Next(s, Stop("v"));
    assert s'.watchers == map["u" := SECOND, "v" := FIRST.(phase := Stopped)];
    assert Active(s'.watchers["u"]);
    LastX();
  }

  /**
   A VM that stops while it lags behind, after it wrote an old route, leaves that route, for
   every VM of the VPC on the node: they have all consumed the whole log.
   */
  lemma StoppedTooEarly()
    ensures exists actions, s ::
      && Run(Initial(1, "g1"), actions, s) && CaughtUp(s)
      && Owner(s.log, 1, X) == "B" && Shows(s.kernel, "g1", X, "A")
  {
    var a1, s1 := BothWait();
    var a2, s2 := OneLags(s1);
    RunThen(Initial(1, "g1"), a1, s1, a2, s2);
    var s := StopsWhileBehind(s2);
    Extend(Initial(1, "g1"), a1 + a2, s2, Stop("v"));
    Stale(a1 + a2 + [Stop("v")], s, "A");
  }

  /** The kernel shows the last write. */
  lemma Stale(actions: seq<Action>, s: State, gre: string)
    requires Run(Initial(1, "g1"), actions, s) && Shown(s, X) == gre
    ensures Shows(s.kernel, "g1", X, gre)
  {
    InitialOk(1, "g1");
    RunKeeps(Initial(1, "g1"), actions, s);
  }

  // ------------------------------------------------------------------
  // A crash in the gap
  // ------------------------------------------------------------------

  const LOG3 := [PUT, OTHER, TOMB]

  const HEARD := Watcher(Online(LOG3), M0, M0, {M0})
  const KNOWS1 := Watcher(Online([OTHER, TOMB]), M1, M1, {M0, M1})
  const KNOWS2 := Watcher(Online([TOMB]), BOTH, BOTH, {M0, M1, BOTH})
  const FORGETS := Watcher(Busy(TOMB, []), REST, REST, {M0, M1, BOTH, REST})

  lemma OneWaits() returns (actions: seq<Action>, s: State)
    ensures Run(Initial(1, "g1"), actions, s)
    ensures s.node == 1 && s.device == "g1" && s.log == LOG3 && s.watchers == map["u" := HEARD]
  {
    var a1, s1 := Begins(Initial(1, "g1"), "u");
    var a2, s2 := ThreeAppends(s1);
    RunThen(Initial(1, "g1"), a1, s1, a2, s2);
    actions, s := a1 + a2, s2;
  }

  lemma ThreeAppends(s0: State) returns (actions: seq<Action>, s: State)
    requires s0.node == 1 && s0.log == [] && forall id :: id in s0.watchers ==> s0.watchers[id] == Fresh([])
    ensures Run(s0, actions, s) && s.node == 1 && s.device == s0.device && s.log == LOG3
    ensures s.watchers.Keys == s0.watchers.Keys && forall id :: id in s.watchers ==> s.watchers[id] == HEARD
  {
    var one, two := Watcher(Online([PUT]), M0, M0, {M0}), Watcher(Online([PUT, OTHER]), M0, M0, {M0});
    assert [] + [PUT] == [PUT] && [PUT] + [OTHER] == [PUT, OTHER] && [PUT, OTHER] + [TOMB] == LOG3;
    Appended(s0, PUT, Fresh([]), one);
    var s1 := Next(s0, Append(PUT));
    Appended(s1, OTHER, one, two);
    var s2 := Next(s1, Append(OTHER));
    Appended(s2, TOMB, two, HEARD);
    s := Next(s2, Append(TOMB));
    actions := [] + [Append(PUT)] + [Append(OTHER)] + [Append(TOMB)];
    Extend(s0, [], s0, Append(PUT));
    Extend(s0, [] + [Append(PUT)], s1, Append(OTHER));
    Extend(s0, [] + [Append(PUT)] + [Append(OTHER)], s2, Append(TOMB));
  }

  lemma GapTables()
    ensures HandlesTo(HEARD, PUT, KNOWS1) && HandlesTo(KNOWS1, OTHER, KNOWS2)
    ensures Absorb(BOTH, BOTH, 1, TOMB) == (REST, REST, Some(Routing(X, "")))
    ensures [TOMB][1..] == [] && KNOWS2.saved + {REST} == FORGETS.saved
  {
    assert M1.table[Y := "A"] == BOTH.table && BOTH.table - {X} == REST.table;
    assert {M0} + {M1} == {M0, M1} && {M0, M1} + {BOTH} == {M0, M1, BOTH};
    assert [PUT] + [OTHER, TOMB] == LOG3 && [OTHER] + [TOMB] == [OTHER, TOMB];
  }

  lemma Forgets(s0: State) returns (actions: seq<Action>, s: State)
    requires s0.node == 1 && s0.log == LOG3 && s0.watchers == map["u" := HEARD]
    ensures Run(s0, actions, s) && s.node == 1 && s.device == s0.device && s.log == LOG3
    ensures s.watchers == map["u" := FORGETS] && X in s.routes && s.routes[X] == Placement("u", "A")
    ensures X !in s.lost
  {
    GapTables();
    var a1, s1 := Handles(s0, "u", HEARD, PUT, KNOWS1);
    var a2, s2 := Handles(s1, "u", KNOWS1, OTHER, KNOWS2);
    s := Next(s2, Receive("u"));
    RunThen(s0, a1, s1, a2, s2);
    Extend(s0, a1 + a2, s2, Receive("u"));
    actions := a1 + a2 + [Receive("u")];
  }

  const CRASHED := Watcher(Crashed, M0, REST, FORGETS.saved)
  const BACK := Watcher(Offline({Y}), REST, REST, FORGETS.saved)
  const READY := Watcher(Offline({}), REST, REST, FORGETS.saved)
  const FINISHED := Watcher(Online([]), REST, REST, FORGETS.saved)

  /** The only watcher goes from w to w', and the route of X is not touched. */
  ghost predicate Becomes(s: State, action: Action, w': Watcher) {
    && Enabled(s, action)
    && var n := Next(s, action);
       n.node == s.node && n.log == s.log && n.watchers == map["u" := w'] && Shown(n, X) == Shown(s, X)
  }

  lemma CrashesInTheGap(s: State)
    requires s.node == 1 && s.log == LOG3 && s.watchers == map["u" := FORGETS]
    ensures Becomes(s, Crash("u"), CRASHED)
  {
  }

  lemma StartsAgain(s: State)
    requires s.node == 1 && s.log == LOG3 && s.watchers == map["u" := CRASHED]
    ensures Becomes(s, Start("u"), BACK)
  {
    assert Y in REST.table && ToRestore(REST) == {Y};
  }

  lemma RestoresTheOther(s: State)
    requires s.node == 1 && s.log == LOG3 && s.watchers == map["u" := BACK]
    ensures Becomes(s, Restore("u", Y), READY)
  {
    assert Y in REST.table && {Y} - {Y} == {};
  }

  lemma SubscribesAgain(s: State)
    requires s.node == 1 && s.log == LOG3 && s.watchers == map["u" := READY]
    ensures Becomes(s, Subscribe("u"), FINISHED)
  {
    NothingToCatchUp();
  }

  lemma Recovers(m: State) returns (actions: seq<Action>, s: State)
    requires m.node == 1 && m.log == LOG3 && m.watchers == map["u" := FORGETS]
    ensures Enabled(m, Crash("u")) && Run(Next(m, Crash("u")), actions, s) && AllCalm(actions)
    ensures s.log == LOG3 && s.node == 1 && s.watchers == map["u" := FINISHED] && Shown(s, X) == Shown(m, X)
  {
    CrashesInTheGap(m);
    var s1 := Next(m, Crash("u"));
    StartsAgain(s1);
    var s2 := Next(s1, Start("u"));
    RestoresTheOther(s2);
    var s3 := Next(s2, Restore("u", Y));
    SubscribesAgain(s3);
    s := Next(s3, Subscribe("u"));
    actions := [] + [Start("u")] + [Restore("u", Y)] + [Subscribe("u")];
    Extend(s1, [], s1, Start("u"));
    Extend(s1, [] + [Start("u")], s2, Restore("u", Y));
    Extend(s1, [] + [Start("u")] + [Restore("u", Y)], s3, Subscribe("u"));
  }

  lemma NothingToCatchUp()
    ensures CatchUp(LOG3, 3) == []
  {
    assert CatchUpFrom(LOG3, 3, 3) == [] && CatchUpFrom(LOG3, 3, 2) == [] && CatchUpFrom(LOG3, 3, 1) == [];
  }

  /** A run up to the gap, a crash there, and a calm run to a state with all caught up. */
  ghost predicate GapRun(before: seq<Action>, m: State, after: seq<Action>, s: State) {
    && Run(Initial(1, "g1"), before, m) && "u" in m.watchers && Gap(m.watchers["u"]) == {X} && Enabled(m, Crash("u"))
    && Run(Next(m, Crash("u")), after, s) && AllCalm(after) && CaughtUp(s)
  }

  lemma AfterTheGap(s: State)
    requires s.log == LOG3 && s.node == 1 && s.watchers == map["u" := FINISHED]
    ensures CaughtUp(s) && Owner(s.log, 1, X) == "" && Gap(FORGETS) == {X}
  {
    assert Y in REST.table;
    LastX();
    assert Active(s.watchers["u"]);
  }

  /**
   A crash between the saved tombstone and the route delete leaves the route of a dead member
   for good: the cache is not empty, so beacon does not hand the tombstone over again.
   */
  lemma CrashedInTheGap()
    ensures exists before, after, m, s ::
      GapRun(before, m, after, s) && Owner(s.log, 1, X) == "" && Shows(s.kernel, "g1", X, "A")
  {
    var a1, s1 := OneWaits();
    var a2, m := Forgets(s1);
    RunThen(Initial(1, "g1"), a1, s1, a2, m);
    var a3, s := Recovers(m);
    AfterTheGap(s);
    assert GapRun(a1 + a2, m, a3, s);
    GapStale(a1 + a2, m, a3, s);
  }

  lemma GapStale(before: seq<Action>, m: State, after: seq<Action>, s: State)
    requires GapRun(before, m, after, s)
    ensures Shows(s.kernel, "g1", X, Shown(s, X))
  {
    Extend(Initial(1, "g1"), before, m, Crash("u"));
    RunThen(Initial(1, "g1"), before + [Crash("u")], Next(m, Crash("u")), after, s);
    Stale(before + [Crash("u")] + after, s, Shown(s, X));
  }

  // ------------------------------------------------------------------
  // A move onto this node
  // ------------------------------------------------------------------

  const HERE := Object("k", 4, "C", 1, Some(X), false)
  const MOVED := [PUT, TOMB, HERE]

  const SEES := Watcher(Online([PUT]), M0, M0, {M0})
  const HAS := Watcher(Online([]), M1, M1, {M0, M1})
  const AWAY := Watcher(Offline({}), M1, M1, {M0, M1})
  const RETURNED := Watcher(Online([HERE]), M1, M1, {M0, M1})

  /** A watcher that routes the member, and then loses its connection. */
  lemma GoesAway() returns (actions: seq<Action>, s: State)
    ensures Run(Initial(1, "g1"), actions, s) && s.node == 1 && s.device == "g1" && s.log == [PUT]
    ensures s.watchers == map["u" := AWAY] && Shown(s, X) == "A"
  {
    var a1, s1 := Begins(Initial(1, "g1"), "u");
    assert [] + [PUT] == [PUT];
    Appended(s1, PUT, Fresh([]), SEES);
    var s2 := Next(s1, Append(PUT));
    assert {M0} + {M1} == {M0, M1} && [PUT] + [] == [PUT];
    var a3, s3 := Handles(s2, "u", SEES, PUT, HAS);
    s := Next(s3, Disconnect("u"));
    Extend(Initial(1, "g1"), a1, s1, Append(PUT));
    RunThen(Initial(1, "g1"), a1 + [Append(PUT)], s2, a3, s3);
    Extend(Initial(1, "g1"), a1 + [Append(PUT)] + a3, s3, Disconnect("u"));
    actions := a1 + [Append(PUT)] + a3 + [Disconnect("u")];
  }

  /** Meanwhile the member is deleted there and appears here. */
  lemma MovesHere(s0: State) returns (actions: seq<Action>, s: State)
    requires s0.node == 1 && s0.log == [PUT] && s0.watchers == map["u" := AWAY]
    ensures Run(s0, actions, s) && s.node == 1 && s.log == MOVED && s.watchers == map["u" := AWAY]
    ensures Shown(s, X) == Shown(s0, X)
  {
    Appended(s0, TOMB, AWAY, AWAY);
    var s1 := Next(s0, Append(TOMB));
    assert [PUT] + [TOMB] == [PUT, TOMB] && [PUT, TOMB] + [HERE] == MOVED;
    Appended(s1, HERE, AWAY, AWAY);
    s := Next(s1, Append(HERE));
    actions := [] + [Append(TOMB)] + [Append(HERE)];
    Extend(s0, [], s0, Append(TOMB));
    Extend(s0, [] + [Append(TOMB)], s1, Append(HERE));
  }

  lemma OnlyHere()
    ensures CatchUp(MOVED, 1) == [HERE] && [HERE][1..] == [] && Last(MOVED, 1, X) == Some(TOMB)
  {
    assert CatchUpFrom(MOVED, 1, 3) == [] && CatchUpFrom(MOVED, 1, 2) == [HERE];
    assert MOVED[0].key == MOVED[2].key && MOVED[1].key == MOVED[2].key;
    assert CatchUpFrom(MOVED, 1, 1) == [HERE];
    assert MOVED[..2] == [PUT, TOMB];
  }

  lemma ComesBack(s0: State) returns (actions: seq<Action>, s: State)
    requires s0.node == 1 && s0.log == MOVED && s0.watchers == map["u" := AWAY]
    ensures Run(s0, actions, s) && s.node == 1 && s.log == MOVED && CaughtUp(s) && Shown(s, X) == Shown(s0, X)
  {
    OnlyHere();
    var s1 := Next(s0, Subscribe("u"));
    assert s1.watchers["u"] == RETURNED;
    assert Absorb(M1, M1, 1, HERE) == (M1, M1, None);
    s := Next(s1, Receive("u"));
    assert s.watchers["u"].phase == Online([]) && Active(s.watchers["u"]);
    actions := [] + [Subscribe("u")] + [Receive("u")];
    Extend(s0, [], s0, Subscribe("u"));
    Extend(s0, [] + [Subscribe("u")], s1, Receive("u"));
  }

  /**
   A VM that moves onto this node during a disconnect leaves the route to its old node, for good:
   the tombstone is hidden by the object of this node, and that one is skipped.
   */
  lemma MovedOntoThisNode()
    ensures exists actions, s ::
      && Run(Initial(1, "g1"), actions, s) && CaughtUp(s) && LastOf(s.log, "k") == Some(HERE)
      && Owner(s.log, 1, X) == "" && Shows(s.kernel, "g1", X, "A")
  {
    var a1, s1 := GoesAway();
    var a2, s2 := MovesHere(s1);
    var a3, s3 := ComesBack(s2);
    RunThen(Initial(1, "g1"), a1, s1, a2, s2);
    RunThen(Initial(1, "g1"), a1 + a2, s2, a3, s3);
    OnlyHere();
    assert LastOf(MOVED, "k") == Some(HERE);
    Stale(a1 + a2 + a3, s3, "A");
  }
}
