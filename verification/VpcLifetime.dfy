/**
 Entering and leaving the namespace of a VPC. Any number of processes count marker files
 under a file lock that lives in the directory the last one removes. A lock belongs to an
 inode, not to a path, so the lock file is modelled with inode identity.
 */
module VpcLifetime {
  import opened Basics

  /**
   What the holder of a lock does next. Removing: the namespace is deleted and os.RemoveAll
   is under way, file by file. Gone: the directory is removed, the old inode is not unlocked.
   */
  datatype Stage =
    | Marking | Ensuring | Returning
    | Unmarking | Counting | Emptying | Removing(vmsGone: bool, lockGone: bool) | Leaving | Gone

  /**
   Where a process is inside vpcEnter (enter) or vpcLeave (not enter). Made: the directories
   exist, the lock file is not open. Waiting: it is open, and not acquired.
   */
  datatype Pc =
    | Idle
    | Made(enter: bool)
    | Waiting(enter: bool, inode: nat)
    | Inside(inode: nat, stage: Stage)

  /**
   lock: the inode that the lock path names now. joined: the VMs for which vpcEnter returned
   success and vpcLeave has not begun. crashed: history, some process died in a call.
   */
  datatype State = State(
    runDir: bool, vmsDir: bool, lock: Option<nat>, unused: nat,
    markers: set<string>, namespace: bool, pcs: map<string, Pc>, joined: set<string>, crashed: bool)

  datatype Action =
    | Begin(p: string, enter: bool)
    | Open(p: string)
    | Acquire(p: string)
    | Work(p: string)
    | RemoveVms(p: string)
    | UnlinkLock(p: string)
    | Crash(p: string)

  /** A holder whose lock file is still the one at the lock path. */
  predicate Current(pc: Pc) {
    pc.Inside? && !pc.stage.Gone? && !(pc.stage.Removing? && pc.stage.lockGone)
  }

  predicate HasFile(pc: Pc) { pc.Waiting? || pc.Inside? }

  predicate AtStage(pc: Pc, stage: Stage) { pc.Inside? && pc.stage == stage }

  /** Inside os.RemoveAll. */
  predicate Tearing(pc: Pc) { pc.Inside? && pc.stage.Removing? }

  predicate Held(s: State, inode: nat) {
    exists q :: q in s.pcs && s.pcs[q].Inside? && s.pcs[q].inode == inode
  }

  predicate Enabled(s: State, action: Action) {
    match action
    case Begin(p, _) => p in s.pcs && s.pcs[p].Idle?
    case Open(p) => p in s.pcs && s.pcs[p].Made?
    case Acquire(p) => p in s.pcs && s.pcs[p].Waiting? && !Held(s, s.pcs[p].inode)
    case Work(p) => p in s.pcs && s.pcs[p].Inside?
                    && (s.pcs[p].stage.Removing? ==> s.pcs[p].stage == Removing(true, true))
    case RemoveVms(p) => p in s.pcs && Tearing(s.pcs[p]) && !s.pcs[p].stage.vmsGone
    case UnlinkLock(p) => p in s.pcs && Tearing(s.pcs[p]) && !s.pcs[p].stage.lockGone
    case Crash(p) => p in s.pcs
  }

  function At(s: State, p: string, pc: Pc): State { s.(pcs := s.pcs[p := pc]) }

  function Moved(s: State, p: string, stage: Stage): State
    requires p in s.pcs && s.pcs[p].Inside?
  {
    At(s, p, s.pcs[p].(stage := stage))
  }

  /** Where the next statement takes a process that holds its lock. */
  function NextPc(s: State, p: string): (pc: Pc)
    requires p in s.pcs && s.pcs[p].Inside?
    ensures pc.Inside? ==> pc.inode == s.pcs[p].inode
  {
    var pc := s.pcs[p];
    match pc.stage
    case Marking => if s.vmsDir then pc.(stage := Ensuring) else Idle
    case Ensuring => pc.(stage := Returning)
    case Unmarking => pc.(stage := Counting)
    case Counting => pc.(stage := if s.markers == {} then Emptying else Leaving)
    case Emptying => pc.(stage := Removing(false, false))
    case Removing(_, _) => pc.(stage := Gone)
    case _ => Idle
  }

  /** What that statement does. */
  function Effect(s: State, p: string): (s': State)
    requires p in s.pcs && s.pcs[p].Inside?
    ensures s'.pcs == s.pcs && s'.lock == s.lock && s'.unused == s.unused && s'.vmsDir == s.vmsDir
  {
    match s.pcs[p].stage
    case Marking => if s.vmsDir then s.(markers := s.markers + {p}) else s
    case Ensuring => s.(namespace := true)
    case Returning => s.(joined := s.joined + {p})
    case Unmarking => s.(markers := s.markers - {p})
    case Emptying => s.(namespace := false)
    case Removing(_, _) => s.(runDir := s.runDir && (s.vmsDir || s.lock.Some?))
    case _ => s
  }

  function Progress(s: State, p: string): State
    requires p in s.pcs && s.pcs[p].Inside?
  {
    At(Effect(s, p), p, NextPc(s, p))
  }

  function Next(s: State, action: Action): State
    requires Enabled(s, action)
  {
    match action
    case Begin(p, enter) =>
      At(s, p, Made(enter)).(runDir := true, vmsDir := true, joined := if enter then s.joined else s.joined - {p})
    case Open(p) =>
      if !s.runDir then At(s, p, Idle)
      else
        var inode := if s.lock.Some? then s.lock.value else s.unused;
        At(s, p, Waiting(s.pcs[p].enter, inode))
          .(lock := Some(inode), unused := s.unused + if s.lock.Some? then 0 else 1)
    case Acquire(p) => At(s, p, Inside(s.pcs[p].inode, if s.pcs[p].enter then Marking else Unmarking))
    case Work(p) => Progress(s, p)
    case RemoveVms(p) => Moved(s, p, Removing(true, s.pcs[p].stage.lockGone)).(vmsDir := false, markers := {})
    case UnlinkLock(p) => Moved(s, p, Removing(s.pcs[p].stage.vmsGone, true)).(lock := None)
    case Crash(p) => At(s, p, Idle).(crashed := true)
  }

  /** No process has run yet, and nothing of the VPC exists. */
  function Initial(processes: set<string>): State {
    State(false, false, None, 0, {}, false, map p | p in processes :: Idle, {}, false)
  }

  /**
   The side condition. When a leaver unlinks the lock file, nobody else has it open without
   holding it; and no entrant opens a new one before that leaver has removed the markers.
   */
  predicate Quiet(s: State, action: Action) {
    match action
    case UnlinkLock(p) => p in s.pcs && s.pcs[p].Inside? &&
                          forall q :: q in s.pcs && q != p ==> !(s.pcs[q].Waiting? && s.pcs[q].inode == s.pcs[p].inode)
    case Open(q) => q in s.pcs && s.pcs[q].Made? && s.pcs[q].enter ==>
                      forall p :: p in s.pcs ==> !AtStage(s.pcs[p], Removing(false, true))
    case _ => true
  }

  predicate Run(s: State, actions: seq<Action>, s': State)
    decreases |actions|
  {
    if actions == [] then s == s'
    else Enabled(s, actions[0]) && Run(Next(s, actions[0]), actions[1..], s')
  }

  predicate QuietRun(s: State, actions: seq<Action>, s': State)
    decreases |actions|
  {
    if actions == [] then s == s'
    else Enabled(s, actions[0]) && Quiet(s, actions[0]) && QuietRun(Next(s, actions[0]), actions[1..], s')
  }

  /** What a VM may rely on between a successful vpcEnter and its own vpcLeave. */
  predicate Safe(s: State) {
    s.joined <= s.markers && (s.joined != {} ==> s.namespace)
  }

  predicate LockFree(s: State) {
    forall p :: p in s.pcs ==> !s.pcs[p].Inside?
  }

  // ------------------------------------------------------------------
  // The invariant of quiet runs
  // ------------------------------------------------------------------

  /** Inside vpcLeave. */
  predicate Leaves(pc: Pc) {
    match pc
    case Idle => false
    case Made(enter) => !enter
    case Waiting(enter, _) => !enter
    case Inside(_, stage) => !stage.Marking? && !stage.Ensuring? && !stage.Returning?
  }

  predicate ProcessOk(s: State, p: string) {
    p in s.pcs ==>
    var pc := s.pcs[p];
    && (HasFile(pc) ==> pc.inode < s.unused)
    && (Current(pc) || pc.Waiting? ==> s.lock == Some(pc.inode))
    && (pc.Inside? && !Current(pc) ==> s.lock != Some(pc.inode))
    && (Leaves(pc) ==> p !in s.joined)
    && (pc.Inside? ==> StageOk(s, p, pc.stage))
    && (pc.Inside? && PastUnmarking(pc.stage) ==> p !in s.markers)
  }

  /** The holder has removed its own marker. */
  predicate PastUnmarking(stage: Stage) {
    stage.Counting? || stage.Emptying? || stage.Removing? || stage.Leaving? || stage.Gone?
  }

  /** It marks nothing while it holds the lock that it has or waits for. */
  predicate Passive(pc: Pc) { Leaves(pc) || !(pc.Waiting? || Current(pc)) }

  /** What a holder knows at each stage. */
  predicate StageOk(s: State, p: string, stage: Stage) {
    match stage
    case Ensuring => p in s.markers
    case Returning => p in s.markers && s.namespace
    case Emptying => s.markers == {}
    case Removing(vmsGone, lockGone) =>
      && (!vmsGone || !lockGone ==> s.markers == {})
      && (lockGone && !vmsGone ==> forall q :: q in s.pcs && q != p ==> Passive(s.pcs[q]))
    case _ => true
  }

  /** Two holders never hold the same inode. */
  predicate Exclusive(s: State) {
    forall p, q :: p in s.pcs && q in s.pcs && p != q && s.pcs[p].Inside? && s.pcs[q].Inside?
      ==> s.pcs[p].inode != s.pcs[q].inode
  }

  predicate Inv(s: State) {
    && (forall p :: p in s.pcs ==> ProcessOk(s, p))
    && Exclusive(s) && Safe(s)
    && (!s.vmsDir ==> s.markers == {}) && (s.vmsDir ==> s.runDir) && (s.lock.Some? ==> s.lock.value < s.unused)
    && (!s.crashed ==> Counted(s) && Owned(s))
  }

  /** Every marker is that of a VM that has entered, or whose process is inside a call. */
  predicate Owned(s: State) {
    forall p :: p in s.markers ==> p in s.joined || (p in s.pcs && !s.pcs[p].Idle?)
  }

  /** Markers and namespace agree, but while a holder is between changing one and the other. */
  predicate Counted(s: State) {
    && (s.markers != {} && !s.namespace ==> exists p :: p in s.pcs && AtStage(s.pcs[p], Ensuring))
    && (s.markers == {} && s.namespace ==>
          exists p :: p in s.pcs && (AtStage(s.pcs[p], Counting) || AtStage(s.pcs[p], Emptying)))
  }

  /** The lock works: one process at a time is past it, on the inode at the lock path. */
  lemma OneAtATime(s: State, p: string, q: string)
    requires Inv(s) && p in s.pcs && q in s.pcs && Current(s.pcs[p]) && Current(s.pcs[q])
    ensures p == q
  {
  }

  lemma CountedKeeps(s: State, action: Action)
    requires Inv(s) && Enabled(s, action) && Quiet(s, action) && !s.crashed && !action.Crash?
    ensures Counted(Next(s, action))
  {
    var s' := Next(s, action);
    var p := action.p;
    assert ProcessOk(s, p);
    if s'.markers != {} && !s'.namespace {
      if s.markers != {} && !s.namespace {
        var x :| x in s.pcs && AtStage(s.pcs[x], Ensuring);
        assert AtStage(s'.pcs[x], Ensuring);
      } else {
        assert AtStage(s'.pcs[p], Ensuring);
      }
    }
    if s'.markers == {} && s'.namespace {
      if s.markers == {} && s.namespace {
        var x :| x in s.pcs && (AtStage(s.pcs[x], Counting) || AtStage(s.pcs[x], Emptying));
        assert AtStage(s'.pcs[x], Counting) || AtStage(s'.pcs[x], Emptying);
      } else {
        assert AtStage(s'.pcs[p], Counting);
      }
    }
  }

  /** No step leaves a marker to nobody. */
  lemma OwnedKeeps(s: State, action: Action)
    requires Inv(s) && Enabled(s, action) && !s.crashed && !action.Crash?
    ensures Owned(Next(s, action))
  {
    assert ProcessOk(s, action.p);
  }

  /** The process that takes the step, inside its critical section. */
  lemma WorkKeeps(s: State, p: string)
    requires Inv(s) && Enabled(s, Work(p))
    ensures ProcessOk(Next(s, Work(p)), p)
  {
    assert ProcessOk(s, p);
  }

  lemma UnlinkKeeps(s: State, p: string)
    requires Inv(s) && Enabled(s, UnlinkLock(p)) && Quiet(s, UnlinkLock(p))
    ensures ProcessOk(Next(s, UnlinkLock(p)), p)
  {
  }

  lemma OpenKeeps(s: State, p: string)
    requires Inv(s) && Enabled(s, Open(p))
    ensures ProcessOk(Next(s, Open(p)), p)
  {
    assert ProcessOk(s, p);
  }

  lemma OwnKeeps(s: State, action: Action)
    requires Inv(s) && Enabled(s, action) && Quiet(s, action)
    ensures ProcessOk(Next(s, action), action.p)
  {
    match action
    case Work(p) => WorkKeeps(s, p);
    case UnlinkLock(p) => UnlinkKeeps(s, p);
    case Open(p) => OpenKeeps(s, p);
    case _ => assert ProcessOk(s, action.p);
  }

  /** A step of another process takes nothing away that q relies on where it stands. */
  predicate Spares(s: State, s': State, q: string) {
    q in s.pcs && q in s'.pcs && s'.pcs[q] == s.pcs[q] && s.unused <= s'.unused &&
    var pc := s.pcs[q];
    && (Current(pc) || pc.Waiting? ==> s'.lock == s.lock)
    && (s'.lock == s.lock || s'.lock == None || s'.lock == Some(s.unused))
    && (q in s'.joined ==> q in s.joined || !Leaves(pc))
    && (AtStage(pc, Ensuring) || AtStage(pc, Returning) ==> (q in s.markers ==> q in s'.markers))
    && (q in s'.markers ==> q in s.markers)
    && (AtStage(pc, Returning) ==> (s.namespace ==> s'.namespace))
    && (AtStage(pc, Emptying) || (Tearing(pc) && !(pc.stage.vmsGone && pc.stage.lockGone)) ==>
          (s.markers == {} ==> s'.markers == {}))
    && (AtStage(pc, Removing(false, true)) ==>
          forall x :: x in s'.pcs && x != q && !Passive(s'.pcs[x]) ==> x in s.pcs && !Passive(s.pcs[x]))
  }

  lemma SparedOk(s: State, s': State, q: string)
    requires ProcessOk(s, q) && Spares(s, s', q)
    ensures ProcessOk(s', q)
  {
  }

  /** Every other process: nobody removes the lock file or the marker it relies on. */
  lemma MarkersUnderWork(s: State, p: string, q: string)
    requires Inv(s) && Enabled(s, Work(p)) && q in s.pcs && q != p && s.pcs[p].stage in {Marking, Unmarking}
    ensures Spares(s, Next(s, Work(p)), q)
  {
    assert ProcessOk(s, q) && ProcessOk(s, p);
    if Current(s.pcs[q]) {
      OneAtATime(s, p, q);
    }
  }

  lemma NamespaceUnderWork(s: State, p: string, q: string)
    requires Inv(s) && Enabled(s, Work(p)) && q in s.pcs && q != p && s.pcs[p].stage in {Ensuring, Emptying}
    ensures Spares(s, Next(s, Work(p)), q)
  {
    assert ProcessOk(s, q) && ProcessOk(s, p);
    if Current(s.pcs[q]) {
      OneAtATime(s, p, q);
    }
  }

  lemma RestUnderWork(s: State, p: string, q: string)
    requires Inv(s) && Enabled(s, Work(p)) && q in s.pcs && q != p
    requires s.pcs[p].stage in {Returning, Counting, Leaving, Gone} || s.pcs[p].stage.Removing?
    ensures Spares(s, Next(s, Work(p)), q)
  {
    assert ProcessOk(s, q) && ProcessOk(s, p);
  }

  lemma OthersUnderWork(s: State, p: string, q: string)
    requires Inv(s) && Enabled(s, Work(p)) && q in s.pcs && q != p
    ensures Spares(s, Next(s, Work(p)), q)
  {
    if s.pcs[p].stage in {Marking, Unmarking} {
      MarkersUnderWork(s, p, q);
    } else if s.pcs[p].stage in {Ensuring, Emptying} {
      NamespaceUnderWork(s, p, q);
    } else {
      RestUnderWork(s, p, q);
    }
  }

  lemma OthersUnderRemove(s: State, action: Action, q: string)
    requires Inv(s) && Enabled(s, action) && Quiet(s, action) && q in s.pcs && q != action.p
    requires action.RemoveVms? || action.UnlinkLock?
    ensures Spares(s, Next(s, action), q)
  {
    assert ProcessOk(s, q) && ProcessOk(s, action.p);
    if Current(s.pcs[action.p]) && Current(s.pcs[q]) {
      OneAtATime(s, action.p, q);
    }
  }

  lemma OthersUnderLock(s: State, action: Action, q: string)
    requires Inv(s) && Enabled(s, action) && Quiet(s, action) && q in s.pcs && q != action.p
    requires action.Begin? || action.Acquire? || action.Crash?
    ensures Spares(s, Next(s, action), q)
  {
    assert ProcessOk(s, q) && ProcessOk(s, action.p);
  }

  lemma OthersUnderOpen(s: State, p: string, q: string)
    requires Inv(s) && Enabled(s, Open(p)) && Quiet(s, Open(p)) && q in s.pcs && q != p
    ensures Spares(s, Next(s, Open(p)), q)
  {
    assert ProcessOk(s, q) && ProcessOk(s, p);
  }

  lemma OtherKeeps(s: State, action: Action, q: string)
    requires Inv(s) && Enabled(s, action) && Quiet(s, action) && q in s.pcs && q != action.p
    ensures ProcessOk(Next(s, action), q)
  {
    match action {
      case Work(p) => OthersUnderWork(s, p, q);
      case RemoveVms(_) => OthersUnderRemove(s, action, q);
      case UnlinkLock(_) => OthersUnderRemove(s, action, q);
      case Open(p) => OthersUnderOpen(s, p, q);
      case _ => OthersUnderLock(s, action, q);
    }
    assert ProcessOk(s, q);
    SparedOk(s, Next(s, action), q);
  }

  lemma WorkInode(s: State, p: string)
    requires Enabled(s, Work(p))
    ensures var s' := Next(s, Work(p));
            && p in s'.pcs && s'.pcs == s.pcs[p := s'.pcs[p]]
            && (s'.pcs[p].Inside? ==> s'.pcs[p].inode == s.pcs[p].inode)
  {
  }

  /** A step moves one process, gives it the lock only if nobody has it, and never another inode. */
  lemma OwnInode(s: State, action: Action, s': State)
    requires Enabled(s, action) && s' == Next(s, action)
    ensures action.p in s.pcs && action.p in s'.pcs && s'.pcs == s.pcs[action.p := s'.pcs[action.p]]
    ensures var pc, pc' := s.pcs[action.p], s'.pcs[action.p];
            pc'.Inside? ==> HasFile(pc) && pc'.inode == pc.inode && (pc.Inside? || !Held(s, pc.inode))
  {
    if action.Work? {
      WorkInode(s, action.p);
    }
  }

  lemma ExclusiveKeeps(s: State, p: string, s': State)
    requires Exclusive(s) && p in s.pcs && p in s'.pcs && s'.pcs == s.pcs[p := s'.pcs[p]]
    requires var pc, pc' := s.pcs[p], s'.pcs[p];
             pc'.Inside? ==> HasFile(pc) && pc'.inode == pc.inode && (pc.Inside? || !Held(s, pc.inode))
    ensures Exclusive(s')
  {
  }

  lemma SafeKeeps(s: State, action: Action)
    requires Inv(s) && Enabled(s, action)
    ensures Safe(Next(s, action))
  {
    assert ProcessOk(s, action.p);
  }

  lemma ProcessesKeep(s: State, action: Action)
    requires Inv(s) && Enabled(s, action) && Quiet(s, action)
    ensures forall q :: ProcessOk(Next(s, action), q)
  {
    OwnInode(s, action, Next(s, action));
    forall q | q in s.pcs ensures ProcessOk(Next(s, action), q) {
      if q == action.p {
        OwnKeeps(s, action);
      } else {
        OtherKeeps(s, action, q);
      }
    }
  }

  lemma StepKeeps(s: State, action: Action)
    requires Inv(s) && Enabled(s, action) && Quiet(s, action)
    ensures Inv(Next(s, action))
  {
    assert ProcessOk(s, action.p);
    ProcessesKeep(s, action);
    OwnInode(s, action, Next(s, action));
    ExclusiveKeeps(s, action.p, Next(s, action));
    SafeKeeps(s, action);
    if !s.crashed && !action.Crash? {
      CountedKeeps(s, action);
      OwnedKeeps(s, action);
    }
  }

  lemma {:induction false} QuietRunKeeps(s: State, actions: seq<Action>, s': State)
    requires Inv(s) && QuietRun(s, actions, s')
    ensures Inv(s')
    decreases |actions|
  {
    if actions != [] {
      StepKeeps(s, actions[0]);
      QuietRunKeeps(Next(s, actions[0]), actions[1..], s');
    }
  }

  /**
   For any number of processes and any quiet interleaving, crashes included: a VM whose
   vpcEnter returned success keeps its marker and the namespace until its own vpcLeave. With
   no crash, whenever nobody holds a lock the namespace exists exactly if some marker does;
   every marker is that of a VM that has entered or is inside a call; and when all calls are
   done the markers are the VMs that have entered and not left, and the namespace is there
   exactly for them.
   */
  lemma ReferenceCounting(processes: set<string>, actions: seq<Action>, s: State)
    requires QuietRun(Initial(processes), actions, s)
    ensures Safe(s)
    ensures LockFree(s) && !s.crashed ==> (s.namespace <==> s.markers != {})
    ensures !s.crashed ==> forall p :: p in s.markers ==> p in s.joined || (p in s.pcs && !s.pcs[p].Idle?)
    ensures !s.crashed && (forall p :: p in s.pcs ==> s.pcs[p].Idle?) ==>
              s.markers == s.joined && (s.namespace <==> s.joined != {})
    ensures forall p, q :: p in s.pcs && q in s.pcs && Current(s.pcs[p]) && Current(s.pcs[q]) ==> p == q
  {
    QuietRunKeeps(Initial(processes), actions, s);
    forall p, q | p in s.pcs && q in s.pcs && Current(s.pcs[p]) && Current(s.pcs[q]) ensures p == q {
      OneAtATime(s, p, q);
    }
  }

  // ------------------------------------------------------------------
  // The side condition is needed
  // ------------------------------------------------------------------

  lemma {:induction false} Then(s: State, actions: seq<Action>, m: State, more: seq<Action>, s': State)
    requires Run(s, actions, m) && Run(m, more, s')
    ensures Run(s, actions + more, s')
    decreases |actions|
  {
    if actions == [] {
      assert actions + more == more;
    } else {
      Then(Next(s, actions[0]), actions[1..], m, more, s');
      assert (actions + more)[1..] == actions[1..] + more;
    }
  }

  lemma {:induction false} AllSteps(s: State, actions: seq<Action>, states: seq<State>)
    requires |states| == |actions| + 1 && states[0] == s
    requires forall i :: 0 <= i < |actions| ==>
               Enabled(states[i], actions[i]) && Next(states[i], actions[i]) == states[i + 1]
    ensures Run(s, actions, states[|actions|])
    ensures (forall i :: 0 <= i < |actions| ==> Quiet(states[i], actions[i])) ==>
              QuietRun(s, actions, states[|actions|])
    decreases |actions|
  {
    if actions != [] {
      AllSteps(states[1], actions[1..], states[1..]);
      if forall i :: 0 <= i < |actions| ==> Quiet(states[i], actions[i]) {
        forall i | 0 <= i < |actions[1..]| ensures Quiet(states[1..][i], actions[1..][i]) {
          assert Quiet(states[i + 1], actions[i + 1]);
        }
      }
    }
  }

  lemma {:induction false} QuietThen(s: State, actions: seq<Action>, m: State, more: seq<Action>, s': State)
    requires QuietRun(s, actions, m) && QuietRun(m, more, s')
    ensures QuietRun(s, actions + more, s')
    decreases |actions|
  {
    if actions == [] {
      assert actions + more == more;
    } else {
      QuietThen(Next(s, actions[0]), actions[1..], m, more, s');
      assert (actions + more)[1..] == actions[1..] + more;
    }
  }

  lemma {:induction false} QuietIsRun(s: State, actions: seq<Action>, s': State)
    requires QuietRun(s, actions, s')
    ensures Run(s, actions, s')
    decreases |actions|
  {
    if actions != [] {
      QuietIsRun(Next(s, actions[0]), actions[1..], s');
    }
  }

  /** A leaver may unlink the lock file, and another process waits on it. */
  predicate Trap(s: State, p: string, q: string) {
    && p in s.pcs && q in s.pcs && p != q && Tearing(s.pcs[p]) && !s.pcs[p].stage.lockGone
    && s.pcs[q].Waiting? && s.pcs[q].inode == s.pcs[p].inode
  }

  lemma Unlinks(s: State, p: string) returns (s': State)
    requires p in s.pcs && Tearing(s.pcs[p]) && s.pcs[p].stage == Removing(true, false)
    ensures Run(s, [UnlinkLock(p), Work(p), Work(p)], s') && s'.pcs == s.pcs[p := Idle]
    ensures s'.lock == None && s'.unused == s.unused && s'.markers == s.markers
    ensures !s.vmsDir ==> s' == s.(pcs := s'.pcs, lock := None, runDir := false)
  {
    var s1 := Next(s, UnlinkLock(p));
    var s2 := Next(s1, Work(p));
    s' := Next(s2, Work(p));
    AllSteps(s, [UnlinkLock(p), Work(p), Work(p)], [s, s1, s2, s']);
  }

  /** The leaver finishes, and takes the markers and the lock file with it. */
  lemma LeaverFinishes(s: State, p: string) returns (actions: seq<Action>, s': State)
    requires p in s.pcs && Tearing(s.pcs[p]) && !s.pcs[p].stage.lockGone
    requires s.pcs[p].stage.vmsGone ==> s.markers == {}
    ensures Run(s, actions, s') && s'.pcs == s.pcs[p := Idle]
    ensures s'.lock == None && s'.unused == s.unused && s'.markers == {}
    ensures !s.pcs[p].stage.vmsGone ==>
              s' == s.(pcs := s'.pcs, lock := None, markers := {}, vmsDir := false, runDir := false)
  {
    var tail := [UnlinkLock(p), Work(p), Work(p)];
    if s.pcs[p].stage.vmsGone {
      actions := tail;
      s' := Unlinks(s, p);
    } else {
      var s1 := Next(s, RemoveVms(p));
      s' := Unlinks(s1, p);
      actions := [RemoveVms(p)] + tail;
      AllSteps(s, [RemoveVms(p)], [s, s1]);
      Then(s, [RemoveVms(p)], s1, tail, s');
    }
  }

  /** A newcomer makes the directories, opens the lock at its path, and acquires it. */
  lemma Locks(s: State, r: string, enter: bool) returns (actions: seq<Action>, s': State)
    requires r in s.pcs && s.pcs[r].Idle?
    requires !Held(s, if s.lock.Some? then s.lock.value else s.unused)
    ensures Run(s, actions, s')
    ensures (forall p :: p in s.pcs ==> !AtStage(s.pcs[p], Removing(false, true))) ==> QuietRun(s, actions, s')
    ensures var inode := if s.lock.Some? then s.lock.value else s.unused;
            && s'.pcs == s.pcs[r := Inside(inode, if enter then Marking else Unmarking)]
            && s'.runDir && s'.vmsDir && s'.markers == s.markers && s'.namespace == s.namespace
            && s'.lock == Some(inode) && s'.joined == if enter then s.joined else s.joined - {r}
  {
    var s1 := Next(s, Begin(r, enter));
    var s2 := Next(s1, Open(r));
    forall q | q in s2.pcs && s2.pcs[q].Inside? ensures s.pcs[q] == s2.pcs[q] {
    }
    assert !Held(s2, s2.pcs[r].inode);
    s' := Next(s2, Acquire(r));
    actions := [Begin(r, enter), Open(r), Acquire(r)];
    AllSteps(s, actions, [s, s1, s2, s']);
  }

  /** The rest of vpcEnter, on an existing directory: the caller gets a success. */
  lemma Enters(s: State, r: string) returns (actions: seq<Action>, s': State)
    requires r in s.pcs && AtStage(s.pcs[r], Marking) && s.vmsDir
    ensures Run(s, actions, s') && QuietRun(s, actions, s') && s'.pcs == s.pcs[r := Idle]
    ensures s' == s.(pcs := s'.pcs, markers := s.markers + {r}, namespace := true, joined := s.joined + {r})
  {
    var s1 := Next(s, Work(r));
    var s2 := Next(s1, Work(r));
    s' := Next(s2, Work(r));
    actions := [Work(r), Work(r), Work(r)];
    AllSteps(s, actions, [s, s1, s2, s']);
  }

  /** The first half of vpcLeave, for the last marker: the process decides to tear down. */
  lemma DecidesToEmpty(s: State, r: string) returns (actions: seq<Action>, s': State)
    requires r in s.pcs && AtStage(s.pcs[r], Unmarking) && s.markers <= {r}
    ensures Run(s, actions, s') && QuietRun(s, actions, s') && s'.pcs == s.pcs[r := Inside(s.pcs[r].inode, Emptying)]
    ensures s' == s.(pcs := s'.pcs, markers := {})
  {
    var s1 := Next(s, Work(r));
    s' := Next(s1, Work(r));
    actions := [Work(r), Work(r)];
    AllSteps(s, actions, [s, s1, s']);
  }

  /** All calls are done. */
  predicate AtRest(s: State) { forall p :: p in s.pcs ==> s.pcs[p].Idle? }

  /** On its own, vpcEnter succeeds: it adds one VM and one marker, and the namespace is there. */
  lemma EntersAlone(s: State, r: string) returns (actions: seq<Action>, s': State)
    requires AtRest(s) && r in s.pcs
    ensures Run(s, actions, s') && s'.pcs == s.pcs
    ensures s'.joined == s.joined + {r} && s'.markers == s.markers + {r} && s'.namespace && s'.runDir && s'.vmsDir
  {
    var a1, s1 := Locks(s, r, true);
    var a2, s2 := Enters(s1, r);
    Then(s, a1, s1, a2, s2);
    assert s.pcs == s2.pcs;
    actions, s' := a1 + a2, s2;
  }

  /** On its own, the vpcLeave of the last VM leaves nothing of the VPC behind. */
  lemma LastLeaves(s: State, r: string) returns (actions: seq<Action>, s': State)
    requires AtRest(s) && r in s.pcs && s.markers <= {r}
    ensures Run(s, actions, s') && s'.pcs == s.pcs && s'.joined == s.joined - {r}
    ensures s'.markers == {} && !s'.namespace && !s'.runDir && !s'.vmsDir && s'.lock == None
  {
    var a1, s1 := Locks(s, r, false);
    var a2, s2 := DecidesToEmpty(s1, r);
    var s3 := Next(s2, Work(r));
    AllSteps(s2, [Work(r)], [s2, s3]);
    var a4, s4 := LeaverFinishes(s3, r);
    Then(s, a1, s1, a2, s2);
    Then(s, a1 + a2, s2, [Work(r)], s3);
    Then(s, a1 + a2 + [Work(r)], s3, a4, s4);
    assert s.pcs == s4.pcs;
    actions, s' := a1 + a2 + [Work(r)] + a4, s4;
  }

  /** On its own, the vpcLeave of any other VM takes its marker and nothing else. */
  lemma LeavesAlone(s: State, r: string) returns (actions: seq<Action>, s': State)
    requires AtRest(s) && r in s.pcs && s.markers - {r} != {}
    ensures Run(s, actions, s') && s'.pcs == s.pcs && s'.joined == s.joined - {r}
    ensures s'.markers == s.markers - {r} && s'.namespace == s.namespace && s'.runDir && s'.vmsDir
  {
    var a1, s1 := Locks(s, r, false);
    var s2 := Next(s1, Work(r));
    var s3 := Next(s2, Work(r));
    s' := Next(s3, Work(r));
    AllSteps(s1, [Work(r), Work(r), Work(r)], [s1, s2, s3, s']);
    Then(s, a1, s1, [Work(r), Work(r), Work(r)], s');
    assert s.pcs == s'.pcs;
    actions := a1 + [Work(r), Work(r), Work(r)];
  }

  /** The waiter gets the lock of the unlinked inode. */
  lemma GetsDeadLock(s: State, q: string) returns (actions: seq<Action>, s': State)
    requires q in s.pcs && s.pcs[q].Waiting? && !Held(s, s.pcs[q].inode)
    ensures Run(s, actions, s')
    ensures s' == At(s, q, Inside(s.pcs[q].inode, if s.pcs[q].enter then Marking else Unmarking))
  {
    s' := Next(s, Acquire(q));
    actions := [Acquire(q)];
    AllSteps(s, actions, [s, s']);
  }

  /** q holds a lock that is no longer at the lock path, r is idle, and nothing is marked. */
  predicate HoldsDeadLock(s: State, q: string, r: string) {
    && q in s.pcs && r in s.pcs && q != r && s.pcs[r].Idle?
    && (AtStage(s.pcs[q], Marking) || AtStage(s.pcs[q], Unmarking))
    && s.lock == None && s.markers == {} && InodesUsed(s, s.unused)
  }

  predicate InodesUsed(s: State, bound: nat) {
    forall x :: x in s.pcs && s.pcs[x].Inside? ==> s.pcs[x].inode < bound
  }

  /** Nobody but the leaver holds its inode, and no inode in use is beyond the next one. */
  lemma TrapBase(s: State, p: string, q: string)
    requires Inv(s) && Trap(s, p, q)
    ensures s.pcs[p].stage.vmsGone ==> s.markers == {}
    ensures InodesUsed(s, s.unused)
    ensures forall x :: x in s.pcs && s.pcs[x].Inside? && s.pcs[x].inode == s.pcs[p].inode ==> x == p
  {
    assert ProcessOk(s, p) && StageOk(s, p, s.pcs[p].stage);
    forall x ensures ProcessOk(s, x) {
    }
  }

  /** The leaver is done, so the waiter holds a lock that nobody else can see. */
  lemma WaiterGetsDeadLock(s: State, p: string, q: string) returns (actions: seq<Action>, s': State)
    requires Inv(s) && Trap(s, p, q)
    ensures Run(s, actions, s') && HoldsDeadLock(s', q, p)
    ensures AtStage(s'.pcs[q], if s.pcs[q].enter then Marking else Unmarking)
  {
    TrapBase(s, p, q);
    var a1, s1 := LeaverFinishes(s, p);
    var a2, s2 := GetsDeadLock(s1, q);
    Then(s, a1, s1, a2, s2);
    actions, s' := a1 + a2, s2;
  }

  /** r enters on a new lock file and then leaves, up to the point of no return. */
  lemma NewcomerComesAndGoes(s: State, q: string, r: string) returns (actions: seq<Action>, s': State)
    requires HoldsDeadLock(s, q, r) && AtStage(s.pcs[q], Marking)
    ensures Run(s, actions, s') && s'.vmsDir && r in s'.pcs && q in s'.pcs
    ensures AtStage(s'.pcs[r], Emptying) && s'.pcs[q] == s.pcs[q]
  {
    assert !Held(s, s.unused);
    var a1, s1 := Locks(s, r, true);
    var a2, s2 := Enters(s1, r);
    assert s2.pcs == s.pcs[r := Idle];
    assert !Held(s2, s.unused);
    var a3, s3 := Locks(s2, r, false);
    var a4, s4 := DecidesToEmpty(s3, r);
    Then(s, a1, s1, a2, s2);
    Then(s, a1 + a2, s2, a3, s3);
    Then(s, a1 + a2 + a3, s3, a4, s4);
    actions, s' := a1 + a2 + a3 + a4, s4;
  }

  /** The entrant succeeds, and the newcomer deletes the namespace under it. */
  lemma NamespaceVanishes(s: State, q: string, r: string) returns (actions: seq<Action>, s': State)
    requires q in s.pcs && r in s.pcs && q != r && s.vmsDir
    requires AtStage(s.pcs[q], Marking) && AtStage(s.pcs[r], Emptying)
    ensures Run(s, actions, s') && q in s'.joined && !s'.namespace
  {
    var a1, s1 := Enters(s, q);
    s' := Next(s1, Work(r));
    AllSteps(s1, [Work(r)], [s1, s']);
    Then(s, a1, s1, [Work(r)], s');
    actions := a1 + [Work(r)];
  }

  /** The waiter decides to tear down, and the newcomer enters before it does. */
  lemma LeaverTakesNamespace(s: State, q: string, r: string) returns (actions: seq<Action>, s': State)
    requires HoldsDeadLock(s, q, r) && AtStage(s.pcs[q], Unmarking)
    ensures Run(s, actions, s') && r in s'.joined && !s'.namespace
  {
    var a1, s1 := DecidesToEmpty(s, q);
    assert !Held(s1, s.unused);
    var a2, s2 := Locks(s1, r, true);
    var a3, s3 := Enters(s2, r);
    s' := Next(s3, Work(q));
    AllSteps(s3, [Work(q)], [s3, s']);
    Then(s, a1, s1, a2, s2);
    Then(s, a1 + a2, s2, a3, s3);
    Then(s, a1 + a2 + a3, s3, [Work(q)], s');
    actions := a1 + a2 + a3 + [Work(q)];
  }

  /**
   The first half of the side condition is exact. From every state that quiet steps reach, if a
   leaver unlinks the lock file while another process waits on it, to enter or to leave, some
   interleaving of the two ends with a VM whose vpcEnter succeeded and no namespace: two
   holders at once, one on the old inode and one on the new.
   */
  lemma WaiterBreaksCounting(s: State, p: string)
    requires Inv(s) && Enabled(s, UnlinkLock(p)) && !Quiet(s, UnlinkLock(p))
    ensures exists actions, s' :: Run(s, actions, s') && s'.joined != {} && !s'.namespace && !Safe(s')
  {
    var q :| q in s.pcs && q != p && s.pcs[q].Waiting? && s.pcs[q].inode == s.pcs[p].inode;
    var a1, s1 := WaiterGetsDeadLock(s, p, q);
    if s.pcs[q].enter {
      var a2, s2 := NewcomerComesAndGoes(s1, q, p);
      var a3, s3 := NamespaceVanishes(s2, q, p);
      Then(s, a1, s1, a2, s2);
      Then(s, a1 + a2, s2, a3, s3);
      assert q in s3.joined;
    } else {
      var a2, s2 := LeaverTakesNamespace(s1, q, p);
      Then(s, a1, s1, a2, s2);
      assert p in s2.joined;
    }
  }

  /**
   So is the second half while the directories exist: an entrant that opens the lock between
   the unlink and the removal of the markers can succeed, and lose its marker to the leaver.
   */
  lemma OpenBreaksCounting(s: State, q: string)
    requires Inv(s) && Enabled(s, Open(q)) && !Quiet(s, Open(q)) && s.runDir && s.vmsDir
    ensures exists actions, s' :: Run(s, actions, s') && q in s'.joined && q !in s'.markers && !Safe(s')
  {
    var p :| p in s.pcs && AtStage(s.pcs[p], Removing(false, true));
    var a1, s1 := OpensAndEnters(s, p, q);
    var s2 := Next(s1, RemoveVms(p));
    AllSteps(s1, [RemoveVms(p)], [s1, s2]);
    Then(s, a1, s1, [RemoveVms(p)], s2);
  }

  /** Whoever holds the lock at the lock path dies, unless it is free. */
  lemma HolderDies(s: State, p: string, q: string) returns (actions: seq<Action>, s': State)
    requires q in s.pcs && s.pcs[q].Waiting? && Exclusive(s) && p in s.pcs && s.pcs[p].Inside?
    requires s.pcs[p].inode != s.pcs[q].inode
    ensures Run(s, actions, s') && !Held(s', s.pcs[q].inode) && s'.vmsDir == s.vmsDir
    ensures s'.pcs.Keys == s.pcs.Keys && s'.pcs[q] == s.pcs[q] && s'.pcs[p] == s.pcs[p]
  {
    if Held(s, s.pcs[q].inode) {
      var h :| h in s.pcs && s.pcs[h].Inside? && s.pcs[h].inode == s.pcs[q].inode;
      s' := Next(s, Crash(h));
      actions := [Crash(h)];
      AllSteps(s, actions, [s, s']);
    } else {
      actions, s' := [], s;
    }
  }

  /** An entrant that has made the directories opens the lock, and succeeds. */
  lemma OpensAndEnters(s: State, p: string, q: string) returns (actions: seq<Action>, s': State)
    requires Inv(s) && q in s.pcs && s.pcs[q] == Made(true) && s.runDir && s.vmsDir
    requires p in s.pcs && AtStage(s.pcs[p], Removing(false, true))
    ensures Run(s, actions, s') && p in s'.pcs && s'.pcs[p] == s.pcs[p] && q in s'.joined
  {
    assert ProcessOk(s, p);
    var s1 := Next(s, Open(q));
    AllSteps(s, [Open(q)], [s, s1]);
    var a2, s2 := HolderDies(s1, p, q);
    var s3 := Next(s2, Acquire(q));
    AllSteps(s2, [Acquire(q)], [s2, s3]);
    var a4, s4 := Enters(s3, q);
    Then(s, [Open(q)], s1, a2, s2);
    Then(s, [Open(q)] + a2, s2, [Acquire(q)], s3);
    Then(s, [Open(q)] + a2 + [Acquire(q)], s3, a4, s4);
    actions, s' := [Open(q)] + a2 + [Acquire(q)] + a4, s4;
  }

  // ------------------------------------------------------------------
  // Both are reached from the start
  // ------------------------------------------------------------------

  const PROCESSES := {"p", "q"}

  lemma Comes() returns (actions: seq<Action>, s: State)
    ensures QuietRun(Initial(PROCESSES), actions, s) && s.pcs == Initial(PROCESSES).pcs && s.markers == {"p"}
  {
    var s0 := Initial(PROCESSES);
    var a1, s1 := Locks(s0, "p", true);
    var a2, s2 := Enters(s1, "p");
    QuietThen(s0, a1, s1, a2, s2);
    actions, s := a1 + a2, s2;
  }

  lemma Goes(s0: State) returns (actions: seq<Action>, s: State)
    requires s0.pcs == Initial(PROCESSES).pcs && s0.markers == {"p"}
    ensures QuietRun(s0, actions, s)
    ensures s.pcs.Keys == PROCESSES && AtStage(s.pcs["p"], Removing(false, false))
    ensures s.pcs["q"].Idle?
    ensures s.lock == Some(s.pcs["p"].inode) && s.runDir && s.vmsDir
  {
    var a1, s1 := Locks(s0, "p", false);
    var a2, s2 := DecidesToEmpty(s1, "p");
    s := Next(s2, Work("p"));
    AllSteps(s2, [Work("p")], [s2, s]);
    QuietThen(s0, a1, s1, a2, s2);
    QuietThen(s0, a1 + a2, s2, [Work("p")], s);
    actions := a1 + a2 + [Work("p")];
  }

  /** One process enters the empty VPC and then leaves it, up to the removal of the directory. */
  lemma ComesAndGoes() returns (actions: seq<Action>, s: State)
    ensures QuietRun(Initial(PROCESSES), actions, s)
    ensures s.pcs.Keys == PROCESSES && AtStage(s.pcs["p"], Removing(false, false))
    ensures s.pcs["q"].Idle?
    ensures s.lock == Some(s.pcs["p"].inode) && s.runDir && s.vmsDir
  {
    var a1, s1 := Comes();
    var a2, s2 := Goes(s1);
    QuietThen(Initial(PROCESSES), a1, s1, a2, s2);
    actions, s := a1 + a2, s2;
  }

  lemma InitialOk(processes: set<string>)
    ensures Inv(Initial(processes))
  {
  }

  /** A second process opens the lock before the first one unlinks it. */
  lemma TrapIsReached(enter: bool) returns (actions: seq<Action>, s: State)
    ensures QuietRun(Initial(PROCESSES), actions, s) && Trap(s, "p", "q") && s.pcs["q"].enter == enter
  {
    var a1, s1 := ComesAndGoes();
    var s2 := Next(s1, Begin("q", enter));
    s := Next(s2, Open("q"));
    AllSteps(s1, [Begin("q", enter), Open("q")], [s1, s2, s]);
    QuietThen(Initial(PROCESSES), a1, s1, [Begin("q", enter), Open("q")], s);
    actions := a1 + [Begin("q", enter), Open("q")];
  }

  /** Two processes suffice, the second entering or leaving: one success ends without a namespace. */
  lemma NamespaceIsLost(enter: bool)
    ensures exists before, m, after, s ::
      && QuietRun(Initial(PROCESSES), before, m) && Trap(m, "p", "q") && m.pcs["q"].enter == enter
      && Run(m, after, s) && s.joined != {} && !s.namespace
  {
    var a1, s1 := TrapIsReached(enter);
    InitialOk(PROCESSES);
    QuietRunKeeps(Initial(PROCESSES), a1, s1);
    WaiterBreaksCounting(s1, "p");
    var a2, s :| Run(s1, a2, s) && s.joined != {} && !s.namespace && !Safe(s);
  }

  /** The second process is about to open the lock, and the first one has unlinked it. */
  lemma OpensEarly() returns (actions: seq<Action>, s: State)
    ensures QuietRun(Initial(PROCESSES), actions, s) && s.runDir && s.vmsDir
    ensures s.pcs.Keys == PROCESSES && s.pcs["q"] == Made(true) && AtStage(s.pcs["p"], Removing(false, true))
  {
    var a1, s1 := ComesAndGoes();
    var s2 := Next(s1, Begin("q", true));
    s := Next(s2, UnlinkLock("p"));
    var a2 := [Begin("q", true), UnlinkLock("p")];
    AllSteps(s1, a2, [s1, s2, s]);
    QuietThen(Initial(PROCESSES), a1, s1, a2, s);
    actions := a1 + a2;
  }

  /** And one success without its marker. */
  lemma MarkerIsLost()
    ensures exists actions, s :: Run(Initial(PROCESSES), actions, s) && "q" in s.joined && "q" !in s.markers
  {
    var s0 := Initial(PROCESSES);
    var a1, s1 := OpensEarly();
    InitialOk(PROCESSES);
    QuietRunKeeps(s0, a1, s1);
    QuietIsRun(s0, a1, s1);
    OpenBreaksCounting(s1, "q");
    var a2, s :| Run(s1, a2, s) && "q" in s.joined && "q" !in s.markers && !Safe(s);
    Then(s0, a1, s1, a2, s);
  }

  // ------------------------------------------------------------------
  // No call is stuck
  // ------------------------------------------------------------------

  /** How many statements a holder has still to go through, at most. */
  function Rank(stage: Stage): nat {
    match stage
    case Marking => 3
    case Ensuring => 2
    case Returning => 1
    case Unmarking => 8
    case Counting => 7
    case Emptying => 6
    case Removing(vmsGone, lockGone) => 3 + (if vmsGone then 0 else 1) + (if lockGone then 0 else 1)
    case Leaving => 1
    case Gone => 1
  }

  function NextStep(pc: Pc, p: string): Action {
    if !Tearing(pc) then Work(p)
    else if !pc.stage.vmsGone then RemoveVms(p)
    else if !pc.stage.lockGone then UnlinkLock(p)
    else Work(p)
  }

  lemma StepAdvances(s: State, p: string)
    requires p in s.pcs && s.pcs[p].Inside?
    ensures Enabled(s, NextStep(s.pcs[p], p))
    ensures var s' := Next(s, NextStep(s.pcs[p], p));
            && p in s'.pcs && s'.pcs == s.pcs[p := s'.pcs[p]]
            && (s'.pcs[p].Idle? || (s'.pcs[p].Inside? && Rank(s'.pcs[p].stage) < Rank(s.pcs[p].stage)))
  {
  }

  /** Whoever holds the lock can finish its call, and nobody else moves. */
  lemma {:induction false} HolderFinishes(s: State, p: string) returns (actions: seq<Action>, s': State)
    requires p in s.pcs && s.pcs[p].Inside?
    ensures Run(s, actions, s') && s'.pcs == s.pcs[p := Idle]
    decreases Rank(s.pcs[p].stage)
  {
    var action := NextStep(s.pcs[p], p);
    StepAdvances(s, p);
    var m := Next(s, action);
    assert [action][1..] == [] && Run(s, [action], m);
    if m.pcs[p].Idle? {
      actions, s' := [action], m;
    } else {
      var rest, last := HolderFinishes(m, p);
      Then(s, [action], m, rest, last);
      actions, s' := [action] + rest, last;
    }
  }

  /** So can any other call, once nobody holds a lock. */
  lemma CallFinishes(s: State, p: string) returns (actions: seq<Action>, s': State)
    requires p in s.pcs && (s.pcs[p].Inside? || LockFree(s))
    ensures Run(s, actions, s') && s'.pcs == s.pcs[p := Idle]
  {
    match s.pcs[p]
    case Idle => actions, s' := [], s;
    case Inside(_, _) => actions, s' := HolderFinishes(s, p);
    case Waiting(_, _) => actions, s' := WaiterFinishes(s, p);
    case Made(_) =>
      var m := Next(s, Open(p));
      assert [Open(p)][1..] == [] && Run(s, [Open(p)], m);
      if m.pcs[p].Idle? {
        actions, s' := [Open(p)], m;
      } else {
        var rest, last := WaiterFinishes(m, p);
        Then(s, [Open(p)], m, rest, last);
        actions, s' := [Open(p)] + rest, last;
      }
  }

  lemma WaiterFinishes(s: State, p: string) returns (actions: seq<Action>, s': State)
    requires p in s.pcs && s.pcs[p].Waiting? && LockFree(s)
    ensures Run(s, actions, s') && s'.pcs == s.pcs[p := Idle]
  {
    var m := Next(s, Acquire(p));
    assert [Acquire(p)][1..] == [] && Run(s, [Acquire(p)], m);
    var rest, last := HolderFinishes(m, p);
    Then(s, [Acquire(p)], m, rest, last);
    actions, s' := [Acquire(p)] + rest, last;
  }

  lemma {:induction false} AllFinish(s: State, left: set<string>) returns (actions: seq<Action>, s': State)
    requires left <= s.pcs.Keys && forall p :: p in s.pcs && !s.pcs[p].Idle? ==> p in left
    ensures Run(s, actions, s') && AtRest(s') && s'.pcs.Keys == s.pcs.Keys
    decreases |left|
  {
    if left == {} {
      actions, s' := [], s;
    } else {
      var p :| p in left;
      if q :| q in s.pcs && s.pcs[q].Inside? {
        p := q;
      }
      var a, m := CallFinishes(s, p);
      var b, last := AllFinish(m, left - {p});
      Then(s, a, m, b, last);
      actions, s' := a + b, last;
    }
  }

  /** From every state all calls can finish: no lock is waited on for ever. */
  lemma CanFinish(s: State) returns (actions: seq<Action>, s': State)
    ensures Run(s, actions, s') && AtRest(s') && s'.pcs.Keys == s.pcs.Keys
  {
    actions, s' := AllFinish(s, s.pcs.Keys);
  }
}
