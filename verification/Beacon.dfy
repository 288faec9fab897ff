/**
 Beacon as a log of membership objects with strictly increasing timestamps, what a
 watcher on one node makes of each object, and what a subscription delivers.
 */
module Beacon {
  import opened Basics
  import opened Addresses

  /**
   One version of a membership object. gre is the address decoded from the value, empty
   when the value holds none. ip and node are labels, which a tombstone keeps.
   */
  datatype Object = Object(
    key: string, timestamp: int, gre: string, node: int, ip: Option<IPv4>, deleted: bool)

  ghost predicate ValidLog(log: seq<Object>) {
    && (forall i :: 0 <= i < |log| ==> log[i].timestamp > 0)
    && (forall i, j :: 0 <= i < j < |log| ==> log[i].timestamp < log[j].timestamp)
  }

  function Head(log: seq<Object>): int {
    if log == [] then 0 else log[|log| - 1].timestamp
  }

  /** An object that makes a watcher on this node change something. */
  predicate Effective(o: Object, node: int) {
    o.ip.Some? && o.node != node && (o.deleted || o.gre != "")
  }

  predicate Touches(o: Object, node: int, a: IPv4) {
    Effective(o, node) && o.ip == Some(a)
  }

  /** Last-writer-wins: the last effective object for an address. */
  function Last(log: seq<Object>, node: int, a: IPv4): Option<Object> {
    if log == [] then None
    else
      var o := log[|log| - 1];
      if Touches(o, node, a) then Some(o) else Last(log[..|log| - 1], node, a)
  }

  /**
   What the watchers rely on for an address: the last object that was effective there for this
   node is still the newest version of its key, so catch-up delivers it. A VM that moves onto
   this node breaks it, until a newer version of its key comes from another node.
   */
  ghost predicate Visible(log: seq<Object>, node: int, a: IPv4) {
    match Last(log, node, a)
    case None => true
    case Some(o) => forall i :: 0 <= i < |log| && log[i].key == o.key ==> log[i].timestamp <= o.timestamp
  }

  /** The tunnel endpoint that the log gives an address, empty for none. */
  function Owner(log: seq<Object>, node: int, a: IPv4): string {
    match Last(log, node, a)
    case Some(o) => if o.deleted then "" else o.gre
    case None => ""
  }

  /** The addresses that some object of the log carries. */
  function Mentioned(log: seq<Object>): set<IPv4> {
    set o | o in log && o.ip.Some? :: o.ip.value
  }

  lemma {:induction false} LastIs(log: seq<Object>, node: int, a: IPv4)
    ensures match Last(log, node, a)
            case None => forall i :: 0 <= i < |log| ==> !Touches(log[i], node, a)
            case Some(o) => exists i :: 0 <= i < |log| && log[i] == o && Touches(o, node, a)
                                     && forall j :: i < j < |log| ==> !Touches(log[j], node, a)
  {
    if log != [] {
      var front := log[..|log| - 1];
      LastIs(front, node, a);
      var o := log[|log| - 1];
      if !Touches(o, node, a) && Last(front, node, a).Some? {
        var i :| 0 <= i < |front| && front[i] == Last(front, node, a).value
              && forall j :: i < j < |front| ==> !Touches(front[j], node, a);
        assert log[i] == Last(log, node, a).value;
        assert forall j :: i < j < |log| ==> !Touches(log[j], node, a);
      }
      if Touches(o, node, a) {
        assert log[|log| - 1] == Last(log, node, a).value;
      }
    }
  }

  lemma LastAppend(log: seq<Object>, o: Object, node: int, a: IPv4)
    ensures Last(log + [o], node, a) == if Touches(o, node, a) then Some(o) else Last(log, node, a)
  {
  }

  /** An object for another address, or of this node, hides nothing that was hidden before. */
  lemma VisibleFewer(log: seq<Object>, o: Object, node: int, a: IPv4)
    requires Visible(log + [o], node, a) && !Touches(o, node, a)
    ensures Visible(log, node, a)
  {
    LastAppend(log, o, node, a);
    forall i | 0 <= i < |log| ensures (log + [o])[i] == log[i] {
    }
  }

  /** The last effective object for an address touches it, and is no newer than the log. */
  lemma LastFacts(log: seq<Object>, node: int, a: IPv4)
    requires ValidLog(log)
    ensures Last(log, node, a).Some? ==>
      var o := Last(log, node, a).value;
      o in log && Touches(o, node, a) && 0 < o.timestamp <= Head(log) && a in Mentioned(log)
  {
  }

  /** Nothing effective for the address comes after its last effective object. */
  lemma LastIsNewest(log: seq<Object>, node: int, a: IPv4, o: Object)
    requires ValidLog(log) && o in log && Touches(o, node, a)
    ensures Last(log, node, a).Some? && o.timestamp <= Last(log, node, a).value.timestamp
    ensures o.timestamp == Last(log, node, a).value.timestamp ==> o == Last(log, node, a).value
  {
  }

  // ------------------------------------------------------------------
  // Keys
  // ------------------------------------------------------------------

  /** The newest version of a key. */
  function LastOf(log: seq<Object>, key: string): Option<Object> {
    if log == [] then None
    else if log[|log| - 1].key == key then Some(log[|log| - 1])
    else LastOf(log[..|log| - 1], key)
  }

  lemma LastOfAppend(log: seq<Object>, o: Object, key: string)
    ensures LastOf(log + [o], key) == if o.key == key then Some(o) else LastOf(log, key)
  {
    assert (log + [o])[..|log|] == log;
  }

  lemma {:induction false} LastOfIn(log: seq<Object>, key: string)
    ensures LastOf(log, key).Some? ==> LastOf(log, key).value in log && LastOf(log, key).value.key == key
  {
    if log != [] {
      LastOfIn(log[..|log| - 1], key);
    }
  }

  lemma {:induction false} LastOfIsNewest(log: seq<Object>, key: string, o: Object)
    requires ValidLog(log) && o in log && o.key == key
    ensures LastOf(log, key).Some? && o.timestamp <= LastOf(log, key).value.timestamp
    ensures o.timestamp == LastOf(log, key).value.timestamp ==> o == LastOf(log, key).value
  {
    var front, last := log[..|log| - 1], log[|log| - 1];
    if last.key != key {
      LastOfIsNewest(front, key, o);
      LastOfIn(front, key);
    }
  }

  /** Only versions of this key carry the address. */
  ghost predicate Sole(log: seq<Object>, a: IPv4, key: string) {
    forall o :: o in log && o.ip == Some(a) ==> o.key == key
  }

  /** An address of one key is visible unless its newest version has hidden an effective one. */
  lemma VisibleIff(log: seq<Object>, node: int, a: IPv4, key: string)
    requires ValidLog(log) && Sole(log, a, key)
    ensures Visible(log, node, a) <==>
              Last(log, node, a).None? || (LastOf(log, key).Some? && Touches(LastOf(log, key).value, node, a))
    ensures LastOf(log, key).Some? && Touches(LastOf(log, key).value, node, a) ==>
              Last(log, node, a) == LastOf(log, key)
  {
    LastFacts(log, node, a);
    LastOfIn(log, key);
    if Last(log, node, a).Some? {
      LastOfIsNewest(log, key, Last(log, node, a).value);
    }
    if LastOf(log, key).Some? && Touches(LastOf(log, key).value, node, a) {
      LastIsNewest(log, node, a, LastOf(log, key).value);
      var z := LastOf(log, key).value;
      forall i | 0 <= i < |log| && log[i].key == key ensures log[i].timestamp <= z.timestamp {
        LastOfIsNewest(log, key, log[i]);
      }
    }
  }

  // ------------------------------------------------------------------
  // Subscribing from a revision
  // ------------------------------------------------------------------

  /** No later version of the same key. */
  predicate Newest(log: seq<Object>, i: nat)
    requires i < |log|
  {
    forall j :: i < j < |log| ==> log[j].key != log[i].key
  }

  /** The catch-up from index i on: the newest version of each key that changed after since. */
  function CatchUpFrom(log: seq<Object>, since: int, i: nat): seq<Object>
    requires i <= |log|
    decreases |log| - i
  {
    if i == |log| then []
    else
      var rest := CatchUpFrom(log, since, i + 1);
      if Newest(log, i) && log[i].timestamp > since then [log[i]] + rest else rest
  }

  function CatchUp(log: seq<Object>, since: int): seq<Object> {
    CatchUpFrom(log, since, 0)
  }

  ghost predicate Ascending(s: seq<Object>) {
    forall i, j :: 0 <= i < j < |s| ==> s[i].timestamp < s[j].timestamp
  }

  /** Some version from index i on is the newest of its key, and changed after since. */
  ghost predicate Due(log: seq<Object>, since: int, i: nat, o: Object) {
    exists k :: i <= k < |log| && log[k] == o && Newest(log, k) && log[k].timestamp > since
  }

  lemma DueStep(log: seq<Object>, since: int, i: nat, o: Object)
    requires i < |log|
    ensures Due(log, since, i, o)
       <==> (o == log[i] && Newest(log, i) && log[i].timestamp > since) || Due(log, since, i + 1, o)
  {
    if Due(log, since, i, o) {
      var k :| i <= k < |log| && log[k] == o && Newest(log, k) && log[k].timestamp > since;
      assert k == i || i + 1 <= k;
    }
  }

  lemma {:induction false} CatchUpFromIs(log: seq<Object>, since: int, i: nat)
    requires i <= |log| && ValidLog(log)
    ensures Ascending(CatchUpFrom(log, since, i))
    ensures forall o :: o in CatchUpFrom(log, since, i) <==> Due(log, since, i, o)
    decreases |log| - i
  {
    if i < |log| {
      CatchUpFromIs(log, since, i + 1);
      var rest := CatchUpFrom(log, since, i + 1);
      forall o | o in rest ensures o.timestamp > log[i].timestamp {
      }
      forall o ensures o in CatchUpFrom(log, since, i) <==> Due(log, since, i, o) {
        DueStep(log, since, i, o);
      }
    }
  }

  /**
   Catch-up never hides the last effective object of an address: if it is newer than the
   revision it is delivered, although older versions of its key are not.
   */
  lemma CatchUpComplete(log: seq<Object>, node: int, since: int, a: IPv4)
    requires ValidLog(log) && Visible(log, node, a)
    requires Last(log, node, a).Some? && Last(log, node, a).value.timestamp > since
    ensures Last(log, node, a).value in CatchUp(log, since)
  {
    LastIs(log, node, a);
    var o := Last(log, node, a).value;
    var i :| 0 <= i < |log| && log[i] == o && forall j :: i < j < |log| ==> !Touches(log[j], node, a);
    CatchUpFromIs(log, since, 0);
  }

  /** With one key on the address, catch-up brings its last effective object or nothing for it. */
  lemma CatchUpLast(log: seq<Object>, node: int, since: int, a: IPv4, key: string)
    requires ValidLog(log) && Sole(log, a, key)
    ensures var last := Last(log, node, a);
            Last(CatchUp(log, since), node, a)
            == if Visible(log, node, a) && last.Some? && last.value.timestamp > since then last else None
  {
    var stream, last := CatchUp(log, since), Last(log, node, a);
    CatchUpFromIs(log, since, 0);
    LastIs(stream, node, a);
    LastFacts(log, node, a);
    if Last(stream, node, a).Some? {
      var o := Last(stream, node, a).value;
      var i :| 0 <= i < |stream| && stream[i] == o && Touches(o, node, a)
               && forall j :: i < j < |stream| ==> !Touches(stream[j], node, a);
      assert o in stream;
      LastIsNewest(log, node, a, o);
      NewestIsLastOf(log, o, since);
      VisibleIff(log, node, a, key);
    } else if Visible(log, node, a) && last.Some? && last.value.timestamp > since {
      CatchUpComplete(log, node, since, a);
    }
  }

  lemma NewestIsLastOf(log: seq<Object>, o: Object, since: int)
    requires ValidLog(log) && o in CatchUp(log, since)
    ensures LastOf(log, o.key) == Some(o)
  {
    CatchUpFromIs(log, since, 0);
    var k :| 0 <= k < |log| && log[k] == o && Newest(log, k) && log[k].timestamp > since;
    LastOfIsNewest(log, o.key, o);
    LastOfIn(log, o.key);
    var i :| 0 <= i < |log| && log[i] == LastOf(log, o.key).value;
  }
}
