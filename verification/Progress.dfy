/** No state of the watchers is a dead end: from each of them all can still catch up. */
module Progress {
  import opened Replication
  import opened Convergence

  /** Only this watcher has moved. */
  ghost predicate OnlyMoves(s: State, s': State, id: string) {
    && id in s.watchers && id in s'.watchers && s'.watchers == s.watchers[id := s'.watchers[id]]
    && s'.log == s.log && s'.node == s.node && s'.device == s.device
  }

  /** A run of one watcher, with the invariant at its end. */
  ghost predicate Moves(s: State, id: string, actions: seq<Action>, s': State) {
    Run(s, actions, s') && OnlyMoves(s, s', id) && Inv(s')
  }

  lemma OneMove(s: State, id: string, action: Action)
    requires Inv(s) && Enabled(s, action) && OnlyMoves(s, Next(s, action), id)
    ensures Moves(s, id, [action], Next(s, action))
  {
    StepKeeps(s, action);
    assert [action][1..] == [];
  }

  lemma ThenMoves(s: State, id: string, a: seq<Action>, m: State, b: seq<Action>, s': State)
    requires Moves(s, id, a, m) && Moves(m, id, b, s')
    ensures Moves(s, id, a + b, s')
  {
    RunThen(s, a, m, b, s');
  }

  /** A subscribed watcher can take and route the next object of its stream. */
  lemma HandlesOne(s: State, id: string) returns (actions: seq<Action>, s': State)
    requires Inv(s) && id in s.watchers && s.watchers[id].phase.Online? && s.watchers[id].phase.stream != []
    ensures Moves(s, id, actions, s') && s'.watchers[id].phase == Online(s.watchers[id].phase.stream[1..])
  {
    s' := Next(s, Receive(id));
    OneMove(s, id, Receive(id));
    actions := [Receive(id)];
    if s'.watchers[id].phase.Busy? {
      var m := s';
      s' := Next(m, Route(id));
      OneMove(m, id, Route(id));
      ThenMoves(s, id, [Receive(id)], m, [Route(id)], s');
      actions := [Receive(id)] + [Route(id)];
    }
  }

  /** So it can handle all that beacon has for it. */
  lemma {:induction false} Drains(s: State, id: string) returns (actions: seq<Action>, s': State)
    requires Inv(s) && id in s.watchers && s.watchers[id].phase.Online?
    ensures Moves(s, id, actions, s') && s'.watchers[id].phase == Online([])
    decreases |s.watchers[id].phase.stream|
  {
    if s.watchers[id].phase.stream == [] {
      actions, s' := [], s;
    } else {
      var a, m := HandlesOne(s, id);
      var b, last := Drains(m, id);
      ThenMoves(s, id, a, m, b, last);
      actions, s' := a + b, last;
    }
  }

  /** A watcher that has loaded its cache can route all of it. */
  lemma {:induction false} Restores(s: State, id: string) returns (actions: seq<Action>, s': State)
    requires Inv(s) && id in s.watchers && s.watchers[id].phase.Offline?
    ensures Moves(s, id, actions, s') && s'.watchers[id].phase == Offline({})
    decreases |s.watchers[id].phase.todo|
  {
    var todo := s.watchers[id].phase.todo;
    if todo == {} {
      actions, s' := [], s;
    } else {
      var a :| a in todo;
      assert WatcherOk(s.log, s.node, s.watchers[id]);
      var m := Next(s, Restore(id, a));
      OneMove(s, id, Restore(id, a));
      var b, last := Restores(m, id);
      ThenMoves(s, id, [Restore(id, a)], m, b, last);
      actions, s' := [Restore(id, a)] + b, last;
    }
  }

  lemma GoesOnline(s: State, id: string) returns (actions: seq<Action>, s': State)
    requires Inv(s) && id in s.watchers && s.watchers[id].phase.Offline?
    ensures Moves(s, id, actions, s') && s'.watchers[id].phase == Online([])
  {
    var a, s1 := Restores(s, id);
    var s2 := Next(s1, Subscribe(id));
    OneMove(s1, id, Subscribe(id));
    ThenMoves(s, id, a, s1, [Subscribe(id)], s2);
    var b, s3 := Drains(s2, id);
    ThenMoves(s, id, a + [Subscribe(id)], s2, b, s3);
    actions, s' := a + [Subscribe(id)] + b, s3;
  }

  /** Wherever an active watcher stands, crashed or inside an object, it can catch up. */
  lemma CatchesUp(s: State, id: string) returns (actions: seq<Action>, s': State)
    requires Inv(s) && id in s.watchers && Active(s.watchers[id])
    ensures Moves(s, id, actions, s') && s'.watchers[id].phase == Online([])
  {
    var w := s.watchers[id];
    assert WatcherOk(s.log, s.node, w);
    match w.phase
    case Crashed =>
      var s1 := Next(s, Start(id));
      OneMove(s, id, Start(id));
      var b, s2 := GoesOnline(s1, id);
      ThenMoves(s, id, [Start(id)], s1, b, s2);
      actions, s' := [Start(id)] + b, s2;
    case Offline(_) => actions, s' := GoesOnline(s, id);
    case Online(_) => actions, s' := Drains(s, id);
    case Busy(_, _) =>
      var s1 := Next(s, Route(id));
      OneMove(s, id, Route(id));
      var b, s2 := Drains(s1, id);
      ThenMoves(s, id, [Route(id)], s1, b, s2);
      actions, s' := [Route(id)] + b, s2;
  }

  ghost predicate SameActive(s: State, s': State) {
    && s'.log == s.log && s'.watchers.Keys == s.watchers.Keys
    && forall id :: id in s.watchers ==> Active(s'.watchers[id]) == Active(s.watchers[id])
  }

  /** Of the watchers that should run, only these may have something left. */
  ghost predicate Waiting(s: State, left: set<string>) {
    left <= s.watchers.Keys
    && forall id :: id in s.watchers && Active(s.watchers[id]) && id !in left ==> s.watchers[id].phase == Online([])
  }

  /** One watcher takes its turn, if it should run at all. */
  lemma TakesItsTurn(s: State, left: set<string>, id: string) returns (actions: seq<Action>, s': State)
    requires Inv(s) && Waiting(s, left) && id in left
    ensures Run(s, actions, s') && Inv(s') && SameActive(s, s') && Waiting(s', left - {id})
  {
    actions, s' := [], s;
    if Active(s.watchers[id]) {
      actions, s' := CatchesUp(s, id);
    }
  }

  lemma {:induction false} AllCatchUp(s: State, left: set<string>) returns (actions: seq<Action>, s': State)
    requires Inv(s) && Waiting(s, left)
    ensures Run(s, actions, s') && Inv(s') && SameActive(s, s') && Waiting(s', {})
    decreases |left|
  {
    if left == {} {
      actions, s' := [], s;
    } else {
      var id :| id in left;
      var a, m := TakesItsTurn(s, left, id);
      var b, last := AllCatchUp(m, left - {id});
      RunThen(s, a, m, b, last);
      actions, s' := a + b, last;
    }
  }

  /**
   From every state of every run in which some watcher should run, a run without new objects
   leads to one where all that should run have caught up. So what is proved of such states can
   be had from anywhere.
   */
  lemma CanCatchUp(s: State) returns (actions: seq<Action>, s': State)
    requires Inv(s) && AnyActive(s)
    ensures Run(s, actions, s') && CaughtUp(s') && SameActive(s, s')
  {
    actions, s' := AllCatchUp(s, s.watchers.Keys);
    var id :| id in s.watchers && Active(s.watchers[id]);
    assert Active(s'.watchers[id]);
  }

  /** Nothing but its own end of service takes a watcher out of those that should run. */
  lemma StaysActive(s: State, action: Action, id: string)
    requires Enabled(s, action) && id in s.watchers && Active(s.watchers[id])
    requires action != Stop(id) && action != Retire(id)
    ensures id in Next(s, action).watchers && Active(Next(s, action).watchers[id])
  {
  }

  /** Over every run, crashes and reboots of the host included. */
  lemma {:induction false} StaysActiveInRun(s: State, actions: seq<Action>, s': State, id: string)
    requires Run(s, actions, s') && id in s.watchers && Active(s.watchers[id])
    requires Stop(id) !in actions && Retire(id) !in actions
    ensures id in s'.watchers && Active(s'.watchers[id])
    decreases |actions|
  {
    if actions != [] {
      StaysActive(s, actions[0], id);
      assert forall a :: a in actions[1..] ==> a in actions;
      StaysActiveInRun(Next(s, actions[0]), actions[1..], s', id);
    }
  }

  /**
   A watcher that nobody stops or retires is never given up: whatever crashes and reboots come,
   it can catch up after them.
   */
  lemma NeverGivenUp(s: State, actions: seq<Action>, s': State, id: string)
      returns (more: seq<Action>, end: State)
    requires Inv(s) && Run(s, actions, s') && id in s.watchers && Active(s.watchers[id])
    requires Stop(id) !in actions && Retire(id) !in actions
    ensures Moves(s', id, more, end) && end.watchers[id].phase == Online([])
  {
    StaysActiveInRun(s, actions, s', id);
    RunKeeps(s, actions, s');
    more, end := CatchesUp(s', id);
  }
}
