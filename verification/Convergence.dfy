/**
 What the watchers of one namespace reach together: the last-writer-wins result of the log,
 in the kernel and in every member table, with the exact exceptions.
 */
module Convergence {
  import opened Basics
  import opened Addresses
  import opened Beacon
  import opened Membership
  import opened Replication

  // ------------------------------------------------------------------
  // Replaying the whole log
  // ------------------------------------------------------------------

  /** The members after handling every object of the log, from nothing. */
  function Replay(log: seq<Object>, node: int): Members {
    if log == [] then NO_MEMBERS
    else Absorb(Replay(log[..|log| - 1], node), NO_MEMBERS, node, log[|log| - 1]).0
  }

  /** The members after handling the objects of a stream in order. */
  function Handle(m: Members, node: int, stream: seq<Object>): Members
    decreases |stream|
  {
    if stream == [] then m else Handle(Absorb(m, NO_MEMBERS, node, stream[0]).0, node, stream[1..])
  }

  /** The table is right about the address. */
  ghost predicate ExactAt(log: seq<Object>, node: int, table: map<IPv4, string>, a: IPv4) {
    match Last(log, node, a)
    case None => a !in table
    case Some(o) => Holds(table, a, o)
  }

  /** The table is right about every address of the log. */
  ghost predicate Exact(log: seq<Object>, node: int, table: map<IPv4, string>) {
    forall a :: ExactAt(log, node, table, a)
  }

  predicate SameEntry(t: map<IPv4, string>, u: map<IPv4, string>, a: IPv4) {
    (a in t <==> a in u) && (a in t ==> t[a] == u[a])
  }

  /** One more object keeps an exact table exact. */
  lemma AbsorbExact(log: seq<Object>, node: int, m: Members, o: Object)
    requires Exact(log, node, m.table)
    ensures Exact(log + [o], node, Absorb(m, NO_MEMBERS, node, o).0.table)
  {
    forall a ensures ExactAt(log + [o], node, Absorb(m, NO_MEMBERS, node, o).0.table, a) {
      LastAppend(log, o, node, a);
      assert ExactAt(log, node, m.table, a);
    }
  }

  lemma {:induction false} ReplayExact(log: seq<Object>, node: int)
    ensures Exact(log, node, Replay(log, node).table)
  {
    if log != [] {
      var front, o := log[..|log| - 1], log[|log| - 1];
      assert log == front + [o];
      ReplayExact(front, node);
      AbsorbExact(front, node, Replay(front, node), o);
    }
  }

  /** Handling everything that is newer than a table that agrees makes it right about what is visible. */
  lemma {:induction false} HandleExact(log: seq<Object>, node: int, m: Members, stream: seq<Object>)
    requires ValidLog(log) && Agrees(log, node, m) && StreamOk(log, node, m.revision, stream)
    ensures forall a :: Visible(log, node, a) ==> ExactAt(log, node, Handle(m, node, stream).table, a)
    decreases |stream|
  {
    if stream == [] {
      forall a | Visible(log, node, a) ensures ExactAt(log, node, m.table, a) {
        assert AgreesOn(log, node, m, a) && Brings(log, node, m.revision, stream, a);
      }
    } else {
      var file := Members(m.revision, m.table);
      var w := Watcher(Online(stream), m, file, {file});
      TakeOk(log, node, w);
      var m' := Absorb(m, NO_MEMBERS, node, stream[0]).0;
      assert Take(w, node).memory == m';
      HandleExact(log, node, m', stream[1..]);
    }
  }

  /**
   From any cache file that the log vouches for, loading it and handling the coalesced
   catch-up since its revision gives the table of a full replay, for every visible address. An
   empty cache restarts from revision zero, and is covered.
   */
  lemma ResumeIsReplay(log: seq<Object>, node: int, file: Members, a: IPv4)
    requires ValidLog(log) && Agrees(log, node, file) && Visible(log, node, a)
    ensures var start := Loaded(NO_MEMBERS, file);
            SameEntry(Handle(start, node, CatchUp(log, start.revision)).table, Replay(log, node).table, a)
  {
    var start := Loaded(NO_MEMBERS, file);
    NothingKnown(log, node);
    CatchUpFromIs(log, start.revision, 0);
    forall b ensures Brings(log, node, start.revision, CatchUp(log, start.revision), b) {
      if Visible(log, node, b) && Last(log, node, b).Some? && Last(log, node, b).value.timestamp > start.revision {
        CatchUpComplete(log, node, start.revision, b);
      }
    }
    HandleExact(log, node, start, CatchUp(log, start.revision));
    ReplayExact(log, node);
    assert ExactAt(log, node, Replay(log, node).table, a);
  }

  lemma {:induction false} LastFront(x: Object, rest: seq<Object>, node: int, a: IPv4)
    ensures Last([x] + rest, node, a)
            == if Last(rest, node, a).Some? then Last(rest, node, a) else if Touches(x, node, a) then Some(x) else None
    decreases |rest|
  {
    if rest == [] {
      assert [x] + rest == [x] && [x][..0] == [];
    } else {
      var front := rest[..|rest| - 1];
      assert ([x] + rest)[..|rest|] == [x] + front;
      LastFront(x, front, node, a);
    }
  }

  /** Handling a stream gives an address the last object for it, and otherwise leaves its entry alone. */
  lemma {:induction false} HandleEntry(m: Members, node: int, stream: seq<Object>, a: IPv4)
    ensures match Last(stream, node, a)
            case Some(o) => Holds(Handle(m, node, stream).table, a, o)
            case None => SameEntry(Handle(m, node, stream).table, m.table, a)
    decreases |stream|
  {
    if stream != [] {
      assert stream == [stream[0]] + stream[1..];
      LastFront(stream[0], stream[1..], node, a);
      HandleEntry(Absorb(m, NO_MEMBERS, node, stream[0]).0, node, stream[1..], a);
    }
  }

  /**
   Whatever the cache holds, an empty one included, when one key has the address: resuming
   gives the entry of a full replay if and only if the newest version of the key is newer than
   the cache and effective there, or the cache was right about the address already.
   */
  lemma ResumeIff(log: seq<Object>, node: int, file: Members, a: IPv4, key: string)
    requires ValidLog(log) && Sole(log, a, key)
    ensures var start, z := Loaded(NO_MEMBERS, file), LastOf(log, key);
            SameEntry(Handle(start, node, CatchUp(log, start.revision)).table, Replay(log, node).table, a)
            <==> (z.Some? && z.value.timestamp > start.revision && Touches(z.value, node, a))
                 || ExactAt(log, node, start.table, a)
  {
    var start := Loaded(NO_MEMBERS, file);
    ReplayExact(log, node);
    assert ExactAt(log, node, Replay(log, node).table, a);
    HandleEntry(start, node, CatchUp(log, start.revision), a);
    CatchUpLast(log, node, start.revision, a, key);
    VisibleIff(log, node, a, key);
  }

  /** A cache that is right about the address once it is as new as what was last effective there. */
  ghost predicate RightWhenNew(log: seq<Object>, node: int, m: Members, a: IPv4) {
    match Last(log, node, a)
    case None => a !in m.table
    case Some(o) => o.timestamp <= m.revision ==> Holds(m.table, a, o)
  }

  /**
   So the last effective object is missed exactly when it is newer than the cache and the key
   has a newer version that is not effective there: one from this node, which its VM moved onto.
   */
  lemma MissedIff(log: seq<Object>, node: int, file: Members, a: IPv4, key: string)
    requires ValidLog(log) && Sole(log, a, key) && RightWhenNew(log, node, Loaded(NO_MEMBERS, file), a)
    ensures var start, last := Loaded(NO_MEMBERS, file), Last(log, node, a);
            !SameEntry(Handle(start, node, CatchUp(log, start.revision)).table, Replay(log, node).table, a)
            <==> && last.Some? && last.value.timestamp > start.revision && LastOf(log, key) != last
                 && !Holds(start.table, a, last.value)
  {
    ResumeIff(log, node, file, a, key);
    VisibleIff(log, node, a, key);
    LastFacts(log, node, a);
    LastOfIn(log, key);
    if LastOf(log, key).Some? && Touches(LastOf(log, key).value, node, a) {
      assert Last(log, node, a) == LastOf(log, key);
    }
  }

  /**
   It happens: the tombstone of the old node is not delivered, because the object of this node
   hides it, and that one is skipped.
   */
  lemma MoveOntoThisNodeIsMissed()
    ensures var x := IPv4(10, 0, 0, 1);
            var log := [Object("k", 1, "A", 2, Some(x), false), Object("k", 2, "A", 2, Some(x), true),
                        Object("k", 3, "C", 1, Some(x), false)];
            var file := Members(1, map[x := "A"]);
            && ValidLog(log) && Sole(log, x, "k") && RightWhenNew(log, 1, file, x)
            && !SameEntry(Handle(file, 1, CatchUp(log, 1)).table, Replay(log, 1).table, x)
  {
    var x := IPv4(10, 0, 0, 1);
    var o1, o2, o3 := Object("k", 1, "A", 2, Some(x), false), Object("k", 2, "A", 2, Some(x), true),
                      Object("k", 3, "C", 1, Some(x), false);
    var log := [o1, o2, o3];
    assert log[..2] == [o1, o2] && Last(log, 1, x) == Last(log[..2], 1, x) == Some(o2);
    assert LastOf(log, "k") == Some(o3);
    MissedIff(log, 1, Members(1, map[x := "A"]), x, "k");
  }

  // ------------------------------------------------------------------
  // Runs
  // ------------------------------------------------------------------

  lemma InitialOk(node: int, device: string)
    ensures Inv(Initial(node, device))
  {
  }

  lemma {:induction false} RunKeeps(s: State, actions: seq<Action>, s': State)
    requires Inv(s) && Run(s, actions, s')
    ensures Inv(s') && s'.node == s.node && s'.device == s.device
    decreases |actions|
  {
    if actions != [] {
      StepKeeps(s, actions[0]);
      RunKeeps(Next(s, actions[0]), actions[1..], s');
    }
  }

  lemma {:induction false} RunThen(s: State, actions: seq<Action>, m: State, more: seq<Action>, s': State)
    requires Run(s, actions, m) && Run(m, more, s')
    ensures Run(s, actions + more, s')
    decreases |actions|
  {
    if actions == [] {
      assert actions + more == more;
    } else {
      RunThen(Next(s, actions[0]), actions[1..], m, more, s');
      assert (actions + more)[1..] == actions[1..] + more;
    }
  }

  /** Every watcher that should run is subscribed and has nothing left to handle. */
  ghost predicate CaughtUp(s: State) {
    AnyActive(s) && forall id :: id in s.watchers && Active(s.watchers[id]) ==> s.watchers[id].phase == Online([])
  }

  lemma DrainedConsumes(log: seq<Object>, node: int, w: Watcher, a: IPv4)
    requires WatcherOk(log, node, w) && w.phase == Online([]) && Visible(log, node, a)
    ensures Consumed(log, node, w, a) && ExactAt(log, node, w.memory.table, a)
  {
    assert AgreesOn(log, node, w.memory, a) && Brings(log, node, w.memory.revision, [], a);
  }

  /** Once all have caught up the last writes are right, but for those that were left behind. */
  lemma CaughtUpKernel(s: State, a: IPv4)
    requires Inv(s) && CaughtUp(s) && Visible(s.log, s.node, a)
    ensures a !in s.lost ==> Shows(s.kernel, s.device, a, Owner(s.log, s.node, a))
    ensures a in s.lost ==> Shows(s.kernel, s.device, a, s.lost[a])
  {
    assert Accounted(s, a) && Shows(s.kernel, s.device, a, Shown(s, a));
    var id :| id in s.watchers && Active(s.watchers[id]);
    forall y | y in s.watchers && Active(s.watchers[y]) ensures Consumed(s.log, s.node, s.watchers[y], a) {
      DrainedConsumes(s.log, s.node, s.watchers[y], a);
    }
  }

  /**
   For any number of watchers, any interleaving, any disconnects, crashes and reboots: once
   all that run have caught up, every visible address is routed in both families exactly to
   its owner, or nowhere if it has none, but for the addresses in lost. Those show what was
   left behind. Every table has the entry of a full replay.
   */
  lemma Converges(node: int, device: string, actions: seq<Action>, s: State, a: IPv4)
    requires Run(Initial(node, device), actions, s) && CaughtUp(s) && Visible(s.log, node, a)
    ensures Shows(s.kernel, device, a, Owner(s.log, node, a)) <==> (a in s.lost ==> s.lost[a] == Owner(s.log, node, a))
    ensures forall id :: id in s.watchers && Active(s.watchers[id]) ==>
              SameEntry(s.watchers[id].memory.table, Replay(s.log, node).table, a)
  {
    InitialOk(node, device);
    RunKeeps(Initial(node, device), actions, s);
    CaughtUpKernel(s, a);
    if a in s.lost && Shows(s.kernel, device, a, Owner(s.log, node, a)) {
      ShowsOnce(s.kernel, device, a, s.lost[a], Owner(s.log, node, a));
    }
    ReplayExact(s.log, node);
    assert ExactAt(s.log, node, Replay(s.log, node).table, a);
    forall id | id in s.watchers && Active(s.watchers[id])
      ensures ExactAt(s.log, node, s.watchers[id].memory.table, a)
    {
      DrainedConsumes(s.log, node, s.watchers[id], a);
    }
  }

  /** Every cache file that a run ever saved resumes to the entry of a full replay. */
  lemma ReachableFilesResume(
      node: int, device: string, actions: seq<Action>, s: State, id: string, file: Members, a: IPv4)
    requires Run(Initial(node, device), actions, s) && id in s.watchers && file in s.watchers[id].saved
    requires Visible(s.log, node, a)
    ensures var start := Loaded(NO_MEMBERS, file);
            SameEntry(Handle(start, node, CatchUp(s.log, start.revision)).table, Replay(s.log, node).table, a)
  {
    InitialOk(node, device);
    RunKeeps(Initial(node, device), actions, s);
    assert WatcherOk(s.log, node, s.watchers[id]);
    ResumeIsReplay(s.log, node, file, a);
  }

  // ------------------------------------------------------------------
  // Exactly which routes are wrong
  // ------------------------------------------------------------------

  /** The step takes away the last writer of an address, or its belief, before the route is right. */
  ghost predicate Leaves(s: State, action: Action, a: IPv4) {
    match action
    case Stop(id) => id in s.watchers && a in Owed(s, id)
    case Retire(id) => id in s.watchers && a in Owed(s, id)
    case Crash(id) => id in s.watchers && a in Torn(s, id)
    case _ => false
  }

  /** The step writes the address, brings a new object for it, or empties the tables. */
  ghost predicate Disturbs(s: State, action: Action, a: IPv4) {
    match action
    case Append(o) => Touches(o, s.node, a)
    case Restore(_, b) => a == b
    case Route(id) => id in s.watchers && s.watchers[id].phase.Busy? && s.watchers[id].phase.taken.ip == Some(a)
    case HostReboot(_) => true
    case Teardown => true
    case _ => false
  }

  ghost predicate Undisturbed(s: State, actions: seq<Action>, a: IPv4)
    decreases |actions|
  {
    actions == []
    || (Enabled(s, actions[0]) && !Disturbs(s, actions[0], a) && Undisturbed(Next(s, actions[0]), actions[1..], a))
  }

  /** Step k, from m, leaves the address behind, and nothing comes to it afterwards. */
  ghost predicate LeftAt(s: State, actions: seq<Action>, k: nat, m: State, a: IPv4) {
    && k < |actions| && Run(s, actions[..k], m) && Enabled(m, actions[k]) && Leaves(m, actions[k], a)
    && Undisturbed(Next(m, actions[k]), actions[k + 1..], a)
  }

  /** Some step of the run leaves the address behind at this endpoint. */
  ghost predicate LeftBehind(s: State, actions: seq<Action>, a: IPv4, gre: string) {
    exists k, m :: LeftAt(s, actions, k, m, a) && Shown(m, a) == gre
  }

  lemma LostStep(s: State, action: Action, a: IPv4)
    requires Enabled(s, action) && KernelOk(s)
    ensures var n := Next(s, action);
            && (a in n.lost <==> Leaves(s, action, a) || (a in s.lost && !Disturbs(s, action, a)))
            && (a in n.lost ==> n.lost[a] == Shown(s, a))
  {
  }

  lemma {:induction false} UndisturbedKeeps(s: State, actions: seq<Action>, s': State, a: IPv4)
    requires Inv(s) && Run(s, actions, s') && Undisturbed(s, actions, a)
    ensures Inv(s') && Shown(s', a) == Shown(s, a) && Last(s'.log, s'.node, a) == Last(s.log, s.node, a)
    ensures a in s.lost ==> a in s'.lost && s'.lost[a] == s.lost[a]
    decreases |actions|
  {
    if actions != [] {
      StepKeeps(s, actions[0]);
      StepLeavesAlone(s, actions[0], a);
      LostStep(s, actions[0], a);
      UndisturbedKeeps(Next(s, actions[0]), actions[1..], s', a);
    }
  }

  lemma StepLeavesAlone(s: State, action: Action, a: IPv4)
    requires Enabled(s, action) && !Disturbs(s, action, a)
    ensures var n := Next(s, action);
            n.node == s.node && Shown(n, a) == Shown(s, a) && Last(n.log, n.node, a) == Last(s.log, s.node, a)
  {
    if action.Append? {
      LastAppend(s.log, action.added, s.node, a);
    }
  }

  /** A run is determined by its actions. */
  lemma {:induction false} RunSplit(s: State, actions: seq<Action>, s': State, k: nat, m: State)
    requires Run(s, actions, s') && k <= |actions| && Run(s, actions[..k], m)
    ensures Run(m, actions[k..], s')
    decreases k
  {
    if k == 0 {
      assert actions[..k] == [] && actions[k..] == actions;
    } else {
      assert actions[..k][1..] == actions[1..][..k - 1] && actions[1..][k - 1..] == actions[k..];
      RunSplit(Next(s, actions[0]), actions[1..], s', k - 1, m);
    }
  }

  lemma LeftLater(s: State, actions: seq<Action>, k: nat, m: State, a: IPv4)
    requires actions != [] && Enabled(s, actions[0]) && LeftAt(Next(s, actions[0]), actions[1..], k, m, a)
    ensures LeftAt(s, actions, k + 1, m, a)
  {
    assert actions[..k + 1][1..] == actions[1..][..k];
    assert actions[1..][k + 1..] == actions[k + 2..];
  }

  /** What is lost at the end was left behind at some step, at that endpoint. */
  lemma {:induction false} LostHasACause(s: State, actions: seq<Action>, s': State, a: IPv4)
    requires Inv(s) && Run(s, actions, s') && a in s'.lost
    ensures LeftBehind(s, actions, a, s'.lost[a]) || (a in s.lost && Undisturbed(s, actions, a))
    decreases |actions|
  {
    if actions != [] {
      var n := Next(s, actions[0]);
      StepKeeps(s, actions[0]);
      LostStep(s, actions[0], a);
      LostHasACause(n, actions[1..], s', a);
      if a in n.lost && Undisturbed(n, actions[1..], a) {
        UndisturbedKeeps(n, actions[1..], s', a);
        if Leaves(s, actions[0], a) {
          assert actions[..0] == [];
          assert LeftAt(s, actions, 0, s, a);
        }
      } else {
        var k, m :| LeftAt(n, actions[1..], k, m, a) && Shown(m, a) == s'.lost[a];
        LeftLater(s, actions, k, m, a);
      }
    }
  }

  lemma LeavingLoses(m: State, action: Action, a: IPv4)
    requires Inv(m) && Enabled(m, action) && Leaves(m, action, a)
    ensures var n := Next(m, action);
            && Inv(n) && a in n.lost && n.lost[a] == Shown(m, a)
            && (action.Crash? ==> Owner(n.log, n.node, a) == "")
  {
    StepKeeps(m, action);
    LostStep(m, action, a);
  }

  /** What some step left behind is lost at the end. */
  lemma LeftIsLost(s: State, actions: seq<Action>, s': State, k: nat, m: State, a: IPv4)
    requires Inv(s) && Run(s, actions, s') && LeftAt(s, actions, k, m, a)
    ensures a in s'.lost && s'.lost[a] == Shown(m, a)
    ensures actions[k].Crash? ==> Owner(s'.log, s'.node, a) == ""
  {
    RunKeeps(s, actions[..k], m);
    RunSplit(s, actions, s', k, m);
    assert actions[k..][1..] == actions[k + 1..];
    LeavingLoses(m, actions[k], a);
    UndisturbedKeeps(Next(m, actions[k]), actions[k + 1..], s', a);
  }

  /**
   The exact exception. At the end of a run, with all caught up, the route of an address is
   wrong if and only if some step left it behind at an endpoint that is not its owner's, and
   nothing came to it afterwards.
   */
  lemma RouteIsWrongIff(node: int, device: string, actions: seq<Action>, s: State, a: IPv4)
    requires Run(Initial(node, device), actions, s) && CaughtUp(s) && Visible(s.log, node, a)
    ensures !Shows(s.kernel, device, a, Owner(s.log, node, a))
       <==> exists gre :: LeftBehind(Initial(node, device), actions, a, gre) && gre != Owner(s.log, node, a)
  {
    var start := Initial(node, device);
    InitialOk(node, device);
    RunKeeps(start, actions, s);
    CaughtUpKernel(s, a);
    if a in s.lost {
      LostHasACause(start, actions, s, a);
      assert LeftBehind(start, actions, a, s.lost[a]);
      if s.lost[a] != Owner(s.log, node, a) {
        if Shows(s.kernel, device, a, Owner(s.log, node, a)) {
          ShowsOnce(s.kernel, device, a, s.lost[a], Owner(s.log, node, a));
        }
      }
    }
    forall gre | LeftBehind(start, actions, a, gre) ensures a in s.lost && s.lost[a] == gre {
      var k, m :| LeftAt(start, actions, k, m, a) && Shown(m, a) == gre;
      LeftIsLost(start, actions, s, k, m, a);
    }
  }

  /**
   A wrong route of a live member has only one kind of cause: its last writer stopped, or died
   and stayed stopped, before it had handled the member's last object. A crash alone never
   loses a live member.
   */
  lemma LiveLeftByStop(node: int, device: string, actions: seq<Action>, s: State, a: IPv4)
    requires Run(Initial(node, device), actions, s) && CaughtUp(s) && Visible(s.log, node, a)
    requires Owner(s.log, node, a) != "" && !Shows(s.kernel, device, a, Owner(s.log, node, a))
    ensures exists k: nat, m ::
              LeftAt(Initial(node, device), actions, k, m, a) && (actions[k].Stop? || actions[k].Retire?)
  {
    var start := Initial(node, device);
    InitialOk(node, device);
    RunKeeps(start, actions, s);
    RouteIsWrongIff(node, device, actions, s, a);
    var gre :| LeftBehind(start, actions, a, gre) && gre != Owner(s.log, node, a);
    var k, m :| LeftAt(start, actions, k, m, a) && Shown(m, a) == gre;
    LeftIsLost(start, actions, s, k, m, a);
  }

  // ------------------------------------------------------------------
  // The crash between the saved tombstone and the route delete
  // ------------------------------------------------------------------

  /** A step that neither changes the log nor takes a watcher away. */
  predicate Calm(action: Action) {
    match action
    case Append(_) => false
    case Stop(_) => false
    case Crash(_) => false
    case Retire(_) => false
    case HostReboot(_) => false
    case Teardown => false
    case _ => true
  }

  ghost predicate AllCalm(actions: seq<Action>) { forall i :: 0 <= i < |actions| ==> Calm(actions[i]) }

  /** The watcher has nothing more to do for the address, running or once it is started. */
  ghost predicate Done(s: State, id: string, a: IPv4) {
    id in s.watchers && Consumed(s.log, s.node, s.watchers[id], a)
  }

  lemma CalmReceive(s: State, id: string, a: IPv4)
    requires Inv(s) && Enabled(s, Receive(id)) && Visible(s.log, s.node, a)
    ensures Done(Next(s, Receive(id)), id, a) <==> Done(s, id, a)
  {
    var w := s.watchers[id];
    assert WatcherOk(s.log, s.node, w);
    TakeCompletesNothing(s.log, s.node, w, a);
    TakeKeepsDone(s.log, s.node, w, a);
  }

  lemma CalmStart(s: State, id: string, a: IPv4)
    requires Inv(s) && Enabled(s, Start(id))
    ensures Done(Next(s, Start(id)), id, a) <==> Done(s, id, a)
  {
    assert WatcherOk(s.log, s.node, s.watchers[id]);
  }

  lemma CalmRestore(s: State, id: string, at: IPv4, a: IPv4)
    requires Enabled(s, Restore(id, at)) && a != at
    ensures Done(Next(s, Restore(id, at)), id, a) <==> Done(s, id, a)
  {
  }

  lemma CalmRoute(s: State, id: string, a: IPv4)
    requires Enabled(s, Route(id)) && s.watchers[id].phase.taken.ip != Some(a)
    ensures Done(Next(s, Route(id)), id, a) <==> Done(s, id, a)
  {
  }

  lemma CalmSession(s: State, id: string, a: IPv4)
    ensures Enabled(s, Subscribe(id)) ==> (Done(Next(s, Subscribe(id)), id, a) <==> Done(s, id, a))
    ensures Enabled(s, Disconnect(id)) ==> (Done(Next(s, Disconnect(id)), id, a) <==> Done(s, id, a))
  {
  }

  /** The watcher that takes a calm step, for an address that it does not write. */
  lemma CalmOwn(s: State, action: Action, a: IPv4)
    requires Inv(s) && Enabled(s, action) && Calm(action) && !action.Join? && !Disturbs(s, action, a)
    requires Visible(s.log, s.node, a)
    ensures Done(Next(s, action), action.id, a) <==> Done(s, action.id, a)
  {
    match action
    case Receive(id) => CalmReceive(s, id, a);
    case Start(id) => CalmStart(s, id, a);
    case Restore(id, at) => CalmRestore(s, id, at, a);
    case Route(id) => CalmRoute(s, id, a);
    case Subscribe(id) => CalmSession(s, id, a);
    case Disconnect(id) => CalmSession(s, id, a);
  }

  lemma CalmOther(s: State, action: Action)
    requires Enabled(s, action) && Calm(action)
    ensures var n := Next(s, action);
            && n.log == s.log && n.node == s.node
            && action.id in n.watchers && n.watchers.Keys == s.watchers.Keys + {action.id}
            && (forall x :: x in s.watchers && x != action.id ==> n.watchers[x] == s.watchers[x])
            && (forall x :: x in s.watchers && Active(s.watchers[x]) ==> Active(n.watchers[x]))
            && (action.Join? ==>
                  && action.id !in s.watchers
                  && n.watchers[action.id] == Watcher(Stopped, NO_MEMBERS, NO_MEMBERS, {NO_MEMBERS}))
  {
  }

  /** A calm step that does not write the address completes it for nobody, and undoes it for nobody. */
  lemma CalmStep(s: State, action: Action, id: string, a: IPv4)
    requires Inv(s) && Enabled(s, action) && Calm(action) && !Disturbs(s, action, a)
    requires Visible(s.log, s.node, a) && Last(s.log, s.node, a).Some?
    ensures Done(Next(s, action), id, a) <==> Done(s, id, a)
  {
    LastFacts(s.log, s.node, a);
    CalmOther(s, action);
    if !action.Join? && id == action.id {
      CalmOwn(s, action, a);
    }
  }

  lemma TakeKeepsDone(log: seq<Object>, node: int, w: Watcher, a: IPv4)
    requires ValidLog(log) && WatcherOk(log, node, w) && w.phase.Online? && w.phase.stream != []
    ensures Consumed(log, node, w, a) ==> Consumed(log, node, Take(w, node), a)
  {
    var o := w.phase.stream[0];
    assert o in w.phase.stream;
    if Last(log, node, a).Some? && Touches(o, node, a) {
      LastIsNewest(log, node, a, o);
    }
  }

  /** Only a running watcher that is not done writes the address. */
  lemma WriterIsNotDone(s: State, action: Action, a: IPv4)
    requires Inv(s) && Enabled(s, action) && Calm(action) && Disturbs(s, action, a)
    ensures action.id in s.watchers && Active(s.watchers[action.id]) && !Done(s, action.id, a)
  {
    assert WatcherOk(s.log, s.node, s.watchers[action.id]);
    if action.Route? {
      LastIsNewest(s.log, s.node, a, s.watchers[action.id].phase.taken);
    } else {
      assert Last(s.log, s.node, a).Some?;
    }
  }

  lemma {:induction false} CalmKeeps(s: State, actions: seq<Action>, s': State)
    requires Run(s, actions, s') && AllCalm(actions)
    ensures s'.log == s.log && s'.node == s.node
    ensures forall x :: x in s.watchers && Active(s.watchers[x]) ==> x in s'.watchers && Active(s'.watchers[x])
    decreases |actions|
  {
    if actions != [] {
      CalmOther(s, actions[0]);
      CalmKeeps(Next(s, actions[0]), actions[1..], s');
    }
  }

  /** In a calm run an address is written exactly by watchers that were not done with it. */
  lemma {:induction false} CalmRun(s: State, actions: seq<Action>, s': State, a: IPv4)
    requires Inv(s) && Run(s, actions, s') && AllCalm(actions)
    requires Visible(s.log, s.node, a) && Last(s.log, s.node, a).Some?
    ensures Undisturbed(s, actions, a) ==> forall id :: Done(s', id, a) <==> Done(s, id, a)
    ensures !Undisturbed(s, actions, a) ==> exists id :: id in s'.watchers && Active(s'.watchers[id]) && !Done(s, id, a)
    decreases |actions|
  {
    if actions != [] {
      var n := Next(s, actions[0]);
      StepKeeps(s, actions[0]);
      CalmKeeps(s, actions, s');
      CalmOther(s, actions[0]);
      if Disturbs(s, actions[0], a) {
        WriterIsNotDone(s, actions[0], a);
      } else {
        CalmRun(n, actions[1..], s', a);
        forall id ensures Done(n, id, a) <==> Done(s, id, a) {
          CalmStep(s, actions[0], id, a);
        }
      }
    }
  }

  lemma CalmLosesNothing(s: State, actions: seq<Action>, s': State, a: IPv4)
    requires Inv(s) && Run(s, actions, s') && AllCalm(actions) && !(a in s.lost && Undisturbed(s, actions, a))
    ensures a !in s'.lost
  {
    if a in s'.lost {
      LostHasACause(s, actions, s', a);
    }
  }

  /** What the crash does to the address, by itself. */
  lemma CrashInGap(m: State, id: string, a: IPv4)
    requires Inv(m) && id in m.watchers && m.watchers[id].phase.Busy? && a !in m.lost
    requires var o := m.watchers[id].phase.taken; o.deleted && o.ip == Some(a) && Last(m.log, m.node, a) == Some(o)
    ensures var n := Next(m, Crash(id));
            && Inv(n) && n.log == m.log && n.node == m.node && n.device == m.device && Shown(n, a) == Shown(m, a)
            && (a in n.lost <==> a in m.routes && Gap(m.watchers[id]) != {})
  {
    StepKeeps(m, Crash(id));
    LostStep(m, Crash(id), a);
  }

  /** Some watcher that runs at the end had the address still to handle after the crash. */
  ghost predicate SomeoneLeft(n: State, s: State, a: IPv4) {
    exists y :: y in s.watchers && Active(s.watchers[y]) && !Done(n, y, a)
  }

  /** The crash cost the address, and nobody came to it: it shows what it showed. */
  lemma GapStays(n: State, actions: seq<Action>, s: State, a: IPv4)
    requires Inv(n) && Run(n, actions, s) && AllCalm(actions) && CaughtUp(s)
    requires a in n.lost && Undisturbed(n, actions, a)
    requires Visible(n.log, n.node, a) && Last(n.log, n.node, a).Some?
    ensures !SomeoneLeft(n, s, a) && Shows(s.kernel, s.device, a, Shown(n, a))
  {
    RunKeeps(n, actions, s);
    CalmKeeps(n, actions, s);
    CalmRun(n, actions, s, a);
    UndisturbedKeeps(n, actions, s, a);
    forall y | y in s.watchers && Active(s.watchers[y]) ensures Done(n, y, a) {
      DrainedConsumes(s.log, s.node, s.watchers[y], a);
    }
    assert Shows(s.kernel, s.device, a, Shown(s, a));
  }

  /** Otherwise the tombstone is in force at the end. */
  lemma GapCloses(n: State, actions: seq<Action>, s: State, a: IPv4)
    requires Inv(n) && Run(n, actions, s) && AllCalm(actions) && CaughtUp(s)
    requires !(a in n.lost && Undisturbed(n, actions, a))
    requires Visible(n.log, n.node, a) && Owner(n.log, n.node, a) == ""
    ensures Shows(s.kernel, s.device, a, "")
  {
    RunKeeps(n, actions, s);
    CalmKeeps(n, actions, s);
    CalmLosesNothing(n, actions, s, a);
    CaughtUpKernel(s, a);
  }

  /**
   The gap is exact. A watcher dies after forgetting a dead member and before deleting its
   route, and then everyone recovers and catches up. The route is gone if and only if it was
   not there, or the saved cache was empty or had not recorded the tombstone, or some watcher
   that runs at the end still had the tombstone to handle.
   */
  lemma GapDecides(m: State, id: string, actions: seq<Action>, s: State, a: IPv4)
    requires Inv(m) && id in m.watchers && m.watchers[id].phase.Busy? && a !in m.lost && Visible(m.log, m.node, a)
    requires var o := m.watchers[id].phase.taken; o.deleted && o.ip == Some(a) && Last(m.log, m.node, a) == Some(o)
    requires Run(Next(m, Crash(id)), actions, s) && AllCalm(actions) && CaughtUp(s)
    ensures Shows(s.kernel, m.device, a, "")
       <==> Shown(m, a) == "" || Gap(m.watchers[id]) == {} || SomeoneLeft(Next(m, Crash(id)), s, a)
  {
    var n := Next(m, Crash(id));
    CrashInGap(m, id, a);
    RunKeeps(n, actions, s);
    if a in n.lost && Undisturbed(n, actions, a) {
      GapStays(n, actions, s, a);
      if Shows(s.kernel, s.device, a, "") {
        ShowsOnce(s.kernel, s.device, a, "", Shown(m, a));
      }
    } else {
      GapCloses(n, actions, s, a);
      CalmRun(n, actions, s, a);
    }
  }
}
