/**
 Attaching to the console: a client is registered, takes the history, and is sent it, while
 the serial reader goes on writing. The history is taken under the mutex and sent after it is
 released, and it may be the ring itself. Every interleaving of the critical sections is a run.
 */
module ConsoleAttach {
  import opened Basics
  import opened Console

  type Capacity = n: nat | 0 < n witness 1

  /** What ReadRing has returned: a copy, or a window on the ring. */
  datatype History = Copy(bytes: seq<Octet>) | Window

  /**
   New: not registered. Added: registered, history not read. Taken: read, and not sent. Shown:
   sent. Left: unregistered.
   */
  datatype Stage = New | Added | Taken(history: History) | Shown | Left

  /** addedAt, takenAt and sentAt are the bytes written by then; live is what write sent. */
  datatype Client = Client(stage: Stage, live: seq<Octet>, addedAt: nat, takenAt: nat, sentAt: nat, shown: seq<Octet>)

  /** The serial reader: between writes, or sending one payload outside the mutex. */
  datatype Writer = Quiet | Sending(payload: seq<Octet>, left: set<nat>)

  /** total is every byte written, of which the ring keeps the last capacity. */
  datatype State = State(
    capacity: Capacity, total: seq<Octet>, registered: set<nat>, writer: Writer, clients: map<nat, Client>)

  datatype Action =
    | Write(data: seq<Octet>)
    | Send(client: nat)
    | Finish
    | Add(client: nat)
    | Take(client: nat)
    | Show(client: nat)
    | Remove(client: nat)

  predicate Enabled(s: State, action: Action) {
    match action
    case Write(_) => s.writer.Quiet?
    case Send(c) => s.writer.Sending? && c in s.writer.left && c in s.clients
    case Finish => s.writer.Sending? && s.writer.left == {}
    case Add(c) => c in s.clients && s.clients[c].stage.New?
    case Take(c) => c in s.clients && s.clients[c].stage.Added?
    case Show(c) => c in s.clients && s.clients[c].stage.Taken?
                    && (s.clients[c].stage.history.Window? ==> s.capacity <= |s.total|)
    case Remove(c) => c in s.clients && !s.clients[c].stage.New? && !s.clients[c].stage.Left?
  }

  /** ReadRing returns the ring itself when it is full and the position is zero. */
  predicate IsWindow(total: nat, capacity: Capacity) { capacity <= total && total % capacity == 0 }

  function ReadRing(s: State): History {
    if IsWindow(|s.total|, s.capacity) then Window else Copy(LastN(s.total, s.capacity))
  }

  /** The bytes that are sent: those of the copy, or those that are in the ring by now. */
  function Sent(s: State, h: History): seq<Octet>
    requires h.Window? ==> s.capacity <= |s.total|
  {
    match h
    case Copy(bytes) => bytes
    case Window => Raw(s.total, s.capacity)
  }

  function Next(s: State, action: Action): State
    requires Enabled(s, action)
  {
    match action
    case Write(data) => s.(total := s.total + data, writer := Sending(data, s.registered))
    case Send(c) =>
      var client := s.clients[c];
      s.(clients := s.clients[c := client.(live := client.live + s.writer.payload)],
         writer := Sending(s.writer.payload, s.writer.left - {c}))
    case Finish => s.(writer := Quiet)
    case Add(c) =>
      s.(registered := s.registered + {c},
         clients := s.clients[c := s.clients[c].(stage := Added, addedAt := |s.total|)])
    case Take(c) =>
      s.(clients := s.clients[c := s.clients[c].(stage := Taken(ReadRing(s)), takenAt := |s.total|)])
    case Show(c) =>
      var client := s.clients[c];
      var shown := Sent(s, client.stage.history);
      s.(clients := s.clients[c := client.(stage := Shown, shown := shown, sentAt := |s.total|)])
    case Remove(c) =>
      s.(registered := s.registered - {c}, clients := s.clients[c := s.clients[c].(stage := Left)])
  }

  function Initial(capacity: Capacity, clients: set<nat>): State {
    State(capacity, [], {}, Quiet, map c | c in clients :: Client(New, [], 0, 0, 0, []))
  }

  predicate Run(s: State, actions: seq<Action>, s': State)
    decreases |actions|
  {
    if actions == [] then s == s'
    else Enabled(s, actions[0]) && Run(Next(s, actions[0]), actions[1..], s')
  }

  /** What is on its way to a client. */
  function Coming(s: State, c: nat): seq<Octet> {
    if s.writer.Sending? && c in s.writer.left then s.writer.payload else []
  }

  /** What the client was shown, from when the history was taken and when it was sent. */
  function Promise(total: seq<Octet>, capacity: Capacity, takenAt: nat, sentAt: nat): seq<Octet>
    requires takenAt <= sentAt <= |total|
  {
    if IsWindow(takenAt, capacity) then Raw(total[..sentAt], capacity) else LastN(total[..takenAt], capacity)
  }

  /** Registered, and live or about to be live with everything since. */
  predicate Attached(s: State, c: nat, client: Client) {
    c in s.registered && client.addedAt <= |s.total| && client.live + Coming(s, c) == s.total[client.addedAt..]
  }

  predicate TakenOk(s: State, client: Client, h: History) {
    client.addedAt <= client.takenAt <= |s.total|
    && h == if IsWindow(client.takenAt, s.capacity) then Window else Copy(LastN(s.total[..client.takenAt], s.capacity))
  }

  predicate ShownOk(s: State, client: Client) {
    client.addedAt <= client.takenAt <= client.sentAt <= |s.total|
    && client.shown == Promise(s.total, s.capacity, client.takenAt, client.sentAt)
  }

  predicate ClientOk(s: State, c: nat) {
    c in s.clients ==>
    var client := s.clients[c];
    match client.stage
    case New => client.live == [] && c !in s.registered && Coming(s, c) == []
                && (s.writer.Sending? ==> c !in s.writer.left)
    case Added => Attached(s, c, client)
    case Taken(h) => Attached(s, c, client) && TakenOk(s, client, h)
    case Shown => Attached(s, c, client) && ShownOk(s, client)
    case Left => c !in s.registered
  }

  /** More bytes change nothing about a client but what is coming to it. */
  lemma WriteKeeps(s: State, data: seq<Octet>, c: nat)
    requires ClientOk(s, c) && Enabled(s, Write(data))
    ensures ClientOk(Next(s, Write(data)), c)
  {
    var s' := Next(s, Write(data));
    if c in s.clients && !s.clients[c].stage.New? && !s.clients[c].stage.Left? {
      var client := s.clients[c];
      assert s'.total[client.addedAt..] == s.total[client.addedAt..] + data;
      assert client.live + Coming(s', c) == (client.live + Coming(s, c)) + data;
      if client.stage.Taken? || client.stage.Shown? {
        assert s'.total[..client.takenAt] == s.total[..client.takenAt];
      }
      if client.stage.Shown? {
        assert s'.total[..client.sentAt] == s.total[..client.sentAt];
      }
    }
  }

  lemma SendKeeps(s: State, d: nat, c: nat)
    requires ClientOk(s, c) && Enabled(s, Send(d))
    ensures ClientOk(Next(s, Send(d)), c)
  {
    if d == c {
      assert Next(s, Send(d)).clients[c].live + Coming(Next(s, Send(d)), c) == s.clients[c].live + Coming(s, c);
    }
  }

  lemma StepKeeps(s: State, action: Action, c: nat)
    requires ClientOk(s, c) && Enabled(s, action)
    ensures ClientOk(Next(s, action), c)
  {
    match action
    case Write(data) => WriteKeeps(s, data, c);
    case Send(d) => SendKeeps(s, d, c);
    case Take(_) => assert s.total[..|s.total|] == s.total;
    case Show(_) => assert s.total[..|s.total|] == s.total;
    case _ =>
  }

  lemma {:induction false} RunKeeps(s: State, actions: seq<Action>, s': State, c: nat)
    requires ClientOk(s, c) && Run(s, actions, s')
    ensures ClientOk(s', c) && s'.capacity == s.capacity
    decreases |actions|
  {
    if actions != [] {
      StepKeeps(s, actions[0], c);
      RunKeeps(Next(s, actions[0]), actions[1..], s', c);
    }
  }

  lemma Slices(total: seq<Octet>, x: nat, y: nat, z: nat)
    requires x <= y <= z <= |total|
    ensures total[x..z][..y - x] == total[x..y] && total[x..z][y - x..] == total[y..z]
  {
  }

  lemma LastSlice(total: seq<Octet>, capacity: Capacity, at: nat)
    requires capacity <= at <= |total|
    ensures LastN(total[..at], capacity) == total[at - capacity..at]
  {
  }

  lemma TurnedBytes(total: seq<Octet>, capacity: Capacity, takenAt: nat, sentAt: nat)
    requires capacity <= takenAt <= sentAt <= |total| && sentAt - takenAt < capacity
    ensures var d, last := sentAt - takenAt, LastN(total[..sentAt], capacity);
            last[capacity - d..] + last[..capacity - d]
            == total[takenAt..sentAt] + LastN(total[..takenAt], capacity)[d..]
  {
    LastSlice(total, capacity, sentAt);
    LastSlice(total, capacity, takenAt);
    Slices(total, sentAt - capacity, takenAt, sentAt);
    Slices(total, takenAt - capacity, sentAt - capacity, takenAt);
  }

  /** A window shows the new bytes in place of as many of the oldest ones. */
  lemma WindowShows(total: seq<Octet>, capacity: Capacity, takenAt: nat, sentAt: nat)
    requires takenAt <= sentAt <= |total| && IsWindow(takenAt, capacity) && sentAt - takenAt < capacity
    ensures Raw(total[..sentAt], capacity)
            == total[takenAt..sentAt] + LastN(total[..takenAt], capacity)[sentAt - takenAt..]
  {
    Advance(takenAt, sentAt - takenAt, capacity);
    assert |total[..sentAt]| % capacity == sentAt - takenAt;
    TurnedBytes(total, capacity, takenAt, sentAt);
  }

  lemma RawAtStart(history: seq<Octet>, capacity: Capacity)
    requires IsWindow(|history|, capacity)
    ensures Raw(history, capacity) == LastN(history, capacity)
  {
    RawUnique(LastN(history, capacity), history);
  }

  /**
   When what is sent is the history that was taken, and what it is otherwise: if it was taken
   as a copy, or the ring holds the same bytes again. No write in between is enough; after a
   few, the new bytes are in front.
   */
  predicate HistoryRule(total: seq<Octet>, capacity: Capacity, takenAt: nat, sentAt: nat, sent: seq<Octet>) {
    takenAt <= sentAt <= |total| &&
    var history := LastN(total[..takenAt], capacity);
    && (sent == history <==>
          !IsWindow(takenAt, capacity) || Raw(total[..sentAt], capacity) == Raw(total[..takenAt], capacity))
    && (sentAt == takenAt ==> sent == history)
    && (IsWindow(takenAt, capacity) && sentAt - takenAt < capacity ==>
          sent == total[takenAt..sentAt] + history[sentAt - takenAt..])
  }

  lemma PromiseRule(total: seq<Octet>, capacity: Capacity, takenAt: nat, sentAt: nat)
    requires takenAt <= sentAt <= |total|
    ensures HistoryRule(total, capacity, takenAt, sentAt, Promise(total, capacity, takenAt, sentAt))
  {
    if IsWindow(takenAt, capacity) {
      RawAtStart(total[..takenAt], capacity);
      if sentAt - takenAt < capacity {
        WindowShows(total, capacity, takenAt, sentAt);
      }
    }
  }

  lemma Suffix(total: seq<Octet>, a: nat, b: nat)
    requires a <= b <= |total|
    ensures total[a..][b - a..] == total[b..]
  {
  }

  /**
   No gap and no surprise. Once nothing is being sent, an attached client has received live
   exactly the bytes written since it was registered, in order, so every byte written after
   its history was taken.
   */
  lemma AttachHasNoGap(capacity: Capacity, clients: set<nat>, actions: seq<Action>, s: State, c: nat)
    requires Run(Initial(capacity, clients), actions, s) && s.writer.Quiet?
    requires c in s.clients && s.clients[c].stage.Shown?
    ensures var client := s.clients[c];
            && client.addedAt <= client.takenAt <= client.sentAt <= |s.total|
            && client.live == s.total[client.addedAt..]
            && client.live[client.takenAt - client.addedAt..] == s.total[client.takenAt..]
  {
    RunKeeps(Initial(capacity, clients), actions, s, c);
    var client := s.clients[c];
    assert ShownOk(s, client) && Attached(s, c, client);
    assert client.live == s.total[client.addedAt..] by {
      assert Coming(s, c) == [] && client.live + [] == client.live;
    }
    Suffix(s.total, client.addedAt, client.takenAt);
  }

  /** In every interleaving the history that a client is sent obeys the rule. */
  lemma HistoryIsPromised(capacity: Capacity, clients: set<nat>, actions: seq<Action>, s: State, c: nat)
    requires Run(Initial(capacity, clients), actions, s) && c in s.clients && s.clients[c].stage.Shown?
    ensures HistoryRule(s.total, capacity, s.clients[c].takenAt, s.clients[c].sentAt, s.clients[c].shown)
  {
    RunKeeps(Initial(capacity, clients), actions, s, c);
    assert ShownOk(s, s.clients[c]);
    PromiseRule(s.total, capacity, s.clients[c].takenAt, s.clients[c].sentAt);
  }

  /** What is both in the history and live is exactly what came between the two steps, as far as the ring reaches. */
  lemma OverlapIsBetween(capacity: Capacity, clients: set<nat>, actions: seq<Action>, s: State, c: nat)
    requires Run(Initial(capacity, clients), actions, s) && s.writer.Quiet?
    requires c in s.clients && s.clients[c].stage.Shown?
    ensures s.clients[c].addedAt <= s.clients[c].takenAt <= |s.total|
    ensures var client := s.clients[c]; var d := client.takenAt - client.addedAt;
            d <= capacity && client.shown == LastN(s.total[..client.takenAt], capacity) ==>
              d <= |client.shown| && d <= |client.live| && client.shown[|client.shown| - d..] == client.live[..d]
  {
    AttachHasNoGap(capacity, clients, actions, s, c);
    var client := s.clients[c];
    var before := s.total[..client.takenAt];
    var d := client.takenAt - client.addedAt;
    assert client.live[..d] == before[client.addedAt..];
    if d <= capacity && client.shown == LastN(before, capacity) {
      assert client.shown[|client.shown| - d..] == before[client.addedAt..];
    }
  }

  // ------------------------------------------------------------------
  // A history that is neither old nor new
  // ------------------------------------------------------------------

  lemma {:induction false} Extend(s: State, actions: seq<Action>, m: State, action: Action)
    requires Run(s, actions, m) && Enabled(m, action)
    ensures Run(s, actions + [action], Next(m, action))
    decreases |actions|
  {
    if actions == [] {
      assert [action][1..] == [];
    } else {
      Extend(Next(s, actions[0]), actions[1..], m, action);
      assert (actions + [action])[1..] == actions[1..] + [action];
    }
  }

  /** A ring of two bytes is filled, and then a client is registered. */
  lemma RingIsFull() returns (actions: seq<Action>, s: State)
    ensures Run(Initial(2, {0}), actions, s)
    ensures s == State(2, [1, 2], {0}, Quiet, map[0 := Client(Added, [], 2, 0, 0, [])])
  {
    var s0 := Initial(2, {0});
    var s1 := Next(s0, Write([1, 2]));
    var s2 := Next(s1, Finish);
    s := Next(s2, Add(0));
    Extend(s0, [], s0, Write([1, 2]));
    Extend(s0, [] + [Write([1, 2])], s1, Finish);
    Extend(s0, [] + [Write([1, 2])] + [Finish], s2, Add(0));
    actions := [] + [Write([1, 2])] + [Finish] + [Add(0)];
    assert [] + [1, 2] == [1, 2];
  }

  /** The client takes the ring, a byte is written, and the ring is sent. */
  lemma WriteComesBetween(s: State) returns (s1: State, s2: State, s3: State)
    requires s == State(2, [1, 2], {0}, Quiet, map[0 := Client(Added, [], 2, 0, 0, [])])
    ensures Enabled(s, Take(0)) && Next(s, Take(0)) == s1
    ensures Enabled(s1, Write([3])) && Next(s1, Write([3])) == s2
    ensures Enabled(s2, Show(0)) && Next(s2, Show(0)) == s3
    ensures Torn(s3)
  {
    assert IsWindow(2, 2);
    s1 := Next(s, Take(0));
    assert s1.clients[0].stage == Taken(Window);
    s2 := Next(s1, Write([3]));
    assert s2.total == [1, 2, 3] && s2.capacity == 2 && s2.clients == s1.clients;
    s3 := Next(s2, Show(0));
    assert LastN([1, 2, 3], 2) == [2, 3] && Raw([1, 2, 3], 2) == [3] + [2];
  }

  ghost predicate Torn(s: State) {
    0 in s.clients && s.clients[0].stage.Shown? && s.clients[0].takenAt == 2
    && s.total == [1, 2, 3] && s.clients[0].shown == [3, 2]
  }

  /** On a full ring of two bytes, one write between the read and the send spoils the history. */
  lemma TornAttach()
    ensures exists actions, s :: Run(Initial(2, {0}), actions, s) && Torn(s)
  {
    var a, s0 := RingIsFull();
    var s1, s2, s3 := WriteComesBetween(s0);
    Extend(Initial(2, {0}), a, s0, Take(0));
    Extend(Initial(2, {0}), a + [Take(0)], s1, Write([3]));
    Extend(Initial(2, {0}), a + [Take(0)] + [Write([3])], s2, Show(0));
  }
}
