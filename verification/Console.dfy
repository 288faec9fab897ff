/**
 The serial console: a ring of fixed capacity that keeps the last bytes written, and Go's
 slices, because ReadRing returns what `append` returns.
 */
module Console {
  import opened Basics

  // ------------------------------------------------------------------
  // Go slices of bytes
  // ------------------------------------------------------------------

  /** A window on an array. capacity reaches from offset to the end the slice may grow to. */
  datatype Slice = Slice(memory: array<Octet>, offset: nat, length: nat, capacity: nat)

  predicate SliceOk(s: Slice) {
    s.length <= s.capacity && s.offset + s.capacity <= s.memory.Length
  }

  /** The bytes that a slice shows now. */
  function View(s: Slice): seq<Octet>
    requires SliceOk(s)
    reads s.memory
  {
    s.memory[s.offset..s.offset + s.length]
  }

  predicate Fits(dst: Slice, src: Slice) { dst.length + src.length <= dst.capacity }

  /**
   append(dst, src...): in place when the capacity allows it, in new memory otherwise. The two
   may be windows on one array: the bytes of src are read before any is written.
   */
  method Append(dst: Slice, src: Slice) returns (r: Slice)
    requires SliceOk(dst) && SliceOk(src)
    modifies if Fits(dst, src) && src.length > 0 then {dst.memory} else {}
    ensures SliceOk(r) && View(r) == old(View(dst)) + old(View(src))
    ensures Fits(dst, src) ==> r == dst.(length := dst.length + src.length)
    ensures !Fits(dst, src) ==> fresh(r.memory)
  {
    ghost var a, b := View(dst), View(src);
    var n := dst.length + src.length;
    if Fits(dst, src) {
      if src.length > 0 {
        forall i | 0 <= i < src.length {
          dst.memory[dst.offset + dst.length + i] := src.memory[src.offset + i];
        }
      }
      r := dst.(length := n);
    } else {
      var memory := new Octet[n](i requires 0 <= i < n reads dst.memory, src.memory =>
        if i < dst.length then dst.memory[dst.offset + i] else src.memory[src.offset + i - dst.length]);
      r := Slice(memory, 0, n, n);
    }
    forall i | 0 <= i < n ensures View(r)[i] == (a + b)[i] {
      if i < dst.length {
        assert a[i] == old(dst.memory[dst.offset + i]);
        assert r.memory[r.offset + i] == old(dst.memory[dst.offset + i]);
      } else {
        var k := i - dst.length;
        assert b[k] == old(src.memory[src.offset + k]);
        assert r.memory[r.offset + dst.length + k] == old(src.memory[src.offset + k]);
      }
    }
    assert View(r) == a + b;
  }

  // ------------------------------------------------------------------
  // The last n bytes of a history
  // ------------------------------------------------------------------

  function LastN(history: seq<Octet>, n: nat): (r: seq<Octet>)
    ensures |r| == if |history| < n then |history| else n
  {
    if |history| <= n then history else history[|history| - n..]
  }

  /** Only the last n bytes of what came before can still matter. */
  lemma LastNForgets(history: seq<Octet>, chunk: seq<Octet>, n: nat)
    ensures LastN(history + chunk, n) == LastN(LastN(history, n) + chunk, n)
  {
  }

  /** A ring in the order in which it was written. */
  function InOrder(ring: seq<Octet>, position: nat, wrapped: bool): seq<Octet>
    requires position <= |ring|
  {
    if wrapped then ring[position..] + ring[..position] else ring[..position]
  }

  /** The bytes of a full ring of n, from its first to its last, after this history. */
  function Raw(history: seq<Octet>, n: nat): (r: seq<Octet>)
    requires 0 < n <= |history|
    ensures |r| == n && InOrder(r, |history| % n, true) == LastN(history, n)
  {
    var last, p := LastN(history, n), |history| % n;
    last[n - p..] + last[..n - p]
  }

  /** A full ring is determined by its order. */
  lemma RawUnique(ring: seq<Octet>, history: seq<Octet>)
    requires 0 < |ring| <= |history| && InOrder(ring, |history| % |ring|, true) == LastN(history, |ring|)
    ensures ring == Raw(history, |ring|)
  {
    var n, p, last := |ring|, |history| % |ring|, LastN(history, |ring|);
    assert last[n - p..] == ring[..p] && last[..n - p] == ring[p..];
    assert ring == ring[..p] + ring[p..];
  }

  /** Where a ring of n bytes stands after so many bytes. */
  lemma Advance(total: nat, count: nat, n: nat)
    requires n > 0 && total % n + count <= n
    ensures (total + count) % n == if total % n + count == n then 0 else total % n + count
  {
    var q, r := total / n, total % n;
    assert total == n * q + r;
    if r + count == n {
      assert total + count == n * (q + 1) + 0;
      Remainder(total + count, n, q + 1, 0);
    } else {
      Remainder(total + count, n, q, r + count);
    }
  }

  lemma Remainder(x: int, n: int, q: int, r: int)
    requires n > 0 && 0 <= r < n && x == n * q + r
    ensures x % n == r
  {
    var k := x / n - q;
    assert n * k == r - x % n;
    assert k >= 1 ==> n * k >= n;
    assert k <= -1 ==> n * k <= -n;
  }

  /** Writing a chunk at the position, before the end of the ring, keeps the last bytes. */
  lemma ChunkKeeps(was: seq<Octet>, start: nat, wrapped: bool, history: seq<Octet>, chunk: seq<Octet>)
    requires start + |chunk| <= |was| && InOrder(was, start, wrapped) == LastN(history, |was|)
    requires wrapped <==> |history| >= |was|
    requires !wrapped ==> |history| == start
    ensures var now := was[..start] + chunk + was[start + |chunk|..];
            var full := start + |chunk| == |was|;
            InOrder(now, if full then 0 else start + |chunk|, wrapped || full) == LastN(history + chunk, |was|)
  {
    var n := |was|;
    var now := was[..start] + chunk + was[start + |chunk|..];
    if wrapped {
      LastNForgets(history, chunk, n);
      var before := InOrder(was, start, wrapped);
      assert before + chunk == was[start..start + |chunk|] + (was[start + |chunk|..] + was[..start] + chunk);
      assert LastN(before + chunk, n) == was[start + |chunk|..] + was[..start] + chunk;
    } else {
      assert history == was[..start];
    }
  }

  /** A ring with its position and whether it has wrapped holds the last bytes of a history. */
  predicate Holds(ring: seq<Octet>, position: nat, wrapped: bool, history: seq<Octet>) {
    && position < |ring| && position == |history| % |ring|
    && (wrapped <==> |history| >= |ring|)
    && InOrder(ring, position, wrapped) == LastN(history, |ring|)
  }

  /** So it does after a chunk that ends at the end of the ring or before. */
  lemma ChunkHolds(was: seq<Octet>, start: nat, wrapped: bool, history: seq<Octet>, chunk: seq<Octet>)
    requires Holds(was, start, wrapped, history) && start + |chunk| <= |was|
    ensures var now := was[..start] + chunk + was[start + |chunk|..]; var end := start + |chunk|;
            if end == |was| then Holds(now, 0, true, history + chunk) else Holds(now, end, wrapped, history + chunk)
  {
    ChunkKeeps(was, start, wrapped, history, chunk);
    Advance(|history|, |chunk|, |was|);
    if !wrapped {
      Remainder(|history|, |was|, 0, |history|);
    } else if start + |chunk| < |was| {
      assert |history + chunk| >= |was|;
    }
  }

  class Console {
    const ring: array<Octet>
    var position: nat
    var wrapped: bool
    var connections: set<nat>
    /** Everything ever written, for the specification only. */
    ghost var history: seq<Octet>

    ghost predicate Valid()
      reads this, ring
    {
      && position < ring.Length && position == |history| % ring.Length
      && (wrapped <==> |history| >= ring.Length)
      && Chronological() == LastN(history, ring.Length)
    }

    /** The ring in the order in which it was written. */
    function Chronological(): seq<Octet>
      reads this, ring
      requires position <= ring.Length
    {
      InOrder(ring[..], position, wrapped)
    }

    constructor (capacity: nat)
      requires capacity > 0
      ensures Valid() && fresh(ring) && ring.Length == capacity && history == [] && connections == {}
    {
      ring := new Octet[capacity](_ => 0);
      position, wrapped, connections, history := 0, false, {}, [];
    }

    /** Go's copy into the ring, from a position on. */
    method CopyAt(start: nat, chunk: seq<Octet>)
      requires start + |chunk| <= ring.Length
      modifies ring
      ensures ring[..] == old(ring[..])[..start] + chunk + old(ring[..])[start + |chunk|..]
    {
      ghost var was := ring[..];
      forall i | 0 <= i < |chunk| {
        ring[start + i] := chunk[i];
      }
      ghost var now := was[..start] + chunk + was[start + |chunk|..];
      assert forall i :: 0 <= i < ring.Length ==> ring[i] == now[i];
    }

    /** One turn of the copy loop: as much as fits before the end of the ring. */
    method CopyChunk(data: seq<Octet>) returns (n: nat)
      requires Valid() && data != []
      modifies this`position, this`wrapped, this`history, ring
      ensures Valid() && 0 < n <= |data| && history == old(history) + data[..n]
    {
      var room := ring.Length - position;
      n := if |data| < room then |data| else room;
      assert Holds(ring[..], position, wrapped, history);
      ChunkHolds(ring[..], position, wrapped, history, data[..n]);
      CopyAt(position, data[..n]);
      position := position + n;
      if position >= ring.Length {
        position := 0;
        wrapped := true;
      }
      history := history + data[..n];
      assert Holds(ring[..], position, wrapped, history);
    }

    /**
     The critical section of write. The loop ends for data of any length, longer than the
     ring included. The payload goes to the connections of this moment.
     */
    method Write(data: seq<Octet>) returns (payload: seq<Octet>, recipients: set<nat>)
      requires Valid()
      modifies this`position, this`wrapped, this`history, ring
      ensures Valid() && history == old(history) + data
      ensures payload == data && recipients == connections
    {
      payload := data;
      var rest := data;
      while rest != []
        invariant Valid() && history + rest == old(history) + data
        decreases |rest|
      {
        var n := CopyChunk(rest);
        rest := rest[n..];
      }
      recipients := connections;
    }

    /**
     The history a new client sees: exactly the last bytes, in order. It is new memory
     except when the ring is full and the position is zero: then it is the ring itself.
     */
    method ReadRing() returns (r: Slice)
      requires Valid()
      ensures SliceOk(r) && View(r) == LastN(history, ring.Length)
      ensures wrapped && position == 0 ==> r == Slice(ring, 0, ring.Length, ring.Length)
      ensures !(wrapped && position == 0) ==> fresh(r.memory)
    {
      var head := Slice(ring, 0, position, ring.Length);
      assert View(head) == ring[..position];
      if !wrapped {
        var memory := new Octet[0];
        var none := Slice(memory, 0, 0, 0);
        assert View(none) + View(head) == Chronological();
        r := Append(none, head);
      } else {
        var tail := Slice(ring, position, ring.Length - position, ring.Length - position);
        assert View(tail) == ring[position..];
        assert View(tail) + View(head) == Chronological();
        r := Append(tail, head);
      }
    }

    /** A slice that is the ring itself shows these bytes, whatever it showed when it was taken. */
    lemma RingShows(r: Slice)
      requires Valid() && wrapped && r == Slice(ring, 0, ring.Length, ring.Length)
      ensures View(r) == Raw(history, ring.Length)
    {
      RawUnique(ring[..], history);
    }

    method AddConn(connection: nat)
      modifies this`connections
      ensures connections == old(connections) + {connection}
    {
      connections := connections + {connection};
    }

    method RemoveConn(connection: nat)
      modifies this`connections
      ensures connections == old(connections) - {connection}
    {
      connections := connections - {connection};
    }

    /**
     What a reader holds after a later write: still its history, unless it was handed the
     ring itself, whose raw bytes it then shows.
     */
    method ReadThenWrite(data: seq<Octet>) returns (r: Slice)
      requires Valid()
      modifies this`position, this`wrapped, this`history, ring
      ensures Valid() && history == old(history) + data && SliceOk(r)
      ensures View(r) == if old(wrapped && position == 0) then ring[..] else LastN(old(history), ring.Length)
    {
      r := ReadRing();
      var _, _ := Write(data);
    }
  }

  /** On a full ring of two bytes the reader ends with neither the old history nor the new one. */
  method TornHistory() returns (promised: seq<Octet>, shown: seq<Octet>, current: seq<Octet>)
    ensures promised == [1, 2] && shown == [3, 2] && current == [2, 3]
  {
    var console := new Console(2);
    var _, _ := console.Write([1, 2]);
    assert console.history == [1, 2];
    assert console.wrapped && console.position == 0 && LastN([1, 2], 2) == [1, 2];
    var r := console.ReadRing();
    promised := View(r);
    var _, _ := console.Write([3]);
    shown := View(r);
    assert console.history == [1, 2, 3];
    assert console.wrapped && console.position == 1 && LastN([1, 2, 3], 2) == [1, 2, 3][1..] == [2, 3];
    assert console.Chronological() == [2, 3] && |console.ring[..]| == 2;
    assert console.Chronological()[0] == console.ring[..][1] && console.Chronological()[1] == console.ring[..][0];
    assert console.ring[1] == 2 && console.ring[0] == 3;
    var c := console.ReadRing();
    current := View(c);
  }
}
