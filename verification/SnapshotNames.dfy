/** The names of snapshots, as a boot source and a deletion take them. */
module SnapshotNames {
  import opened Basics
  import opened Snapshots

  predicate SafeChar(c: char) {
    'a' <= c <= 'z' || 'A' <= c <= 'Z' || '0' <= c <= '9' || c == '-' || c == '_' || c == '.'
  }

  /** One path element that stays in its directory. */
  predicate IsSafe(name: string) {
    name != "" && name != "." && name != ".." && forall i :: 0 <= i < |name| ==> SafeChar(name[i])
  }

  /** safeName, with its loop. */
  method SafeName(name: string) returns (safe: bool)
    ensures safe == IsSafe(name)
  {
    if name == "" || name == "." || name == ".." {
      return false;
    }
    for i := 0 to |name|
      invariant forall j :: 0 <= j < i ==> SafeChar(name[j])
    {
      if !SafeChar(name[i]) {
        return false;
      }
    }
    return true;
  }

  /** strings.Split. */
  function Split(s: string, separator: char): (parts: seq<string>)
    ensures parts != []
  {
    if s == "" then [""]
    else
      var rest := Split(s[1..], separator);
      if s[0] == separator then [""] + rest else [[s[0]] + rest[0]] + rest[1..]
  }

  /** snapshotRootfsPath. A path is the sequence of its elements. */
  function RootfsPath(directory: seq<string>, reference: string): Option<seq<string>> {
    var parts := Split(reference, '/');
    if |parts| != 2 || !IsSafe(parts[0]) || !IsSafe(parts[1]) then None
    else Some(directory + [parts[0], parts[1], ROOTFS])
  }

  lemma {:induction false} SplitWhole(s: string)
    requires forall i :: 0 <= i < |s| ==> s[i] != '/'
    ensures Split(s, '/') == [s]
  {
    if s != "" {
      SplitWhole(s[1..]);
      assert [s[0]] + s[1..] == s;
    }
  }

  lemma {:induction false} SplitPair(a: string, b: string)
    requires forall i :: 0 <= i < |a| ==> a[i] != '/'
    requires forall i :: 0 <= i < |b| ==> b[i] != '/'
    ensures Split(a + "/" + b, '/') == [a, b]
  {
    var s := a + "/" + b;
    if a == "" {
      assert s[1..] == b;
      SplitWhole(b);
    } else {
      assert s[1..] == a[1..] + "/" + b && s[0] == a[0];
      SplitPair(a[1..], b);
      assert [a[0]] + a[1..] == a;
    }
  }

  /** The parts, put together again, are the text. */
  lemma {:induction false} SplitJoins(s: string)
    ensures var parts := Split(s, '/'); |parts| == 1 ==> s == parts[0]
    ensures var parts := Split(s, '/'); |parts| == 2 ==> s == parts[0] + "/" + parts[1]
  {
    if s != "" {
      SplitJoins(s[1..]);
      assert s == [s[0]] + s[1..];
    }
  }

  /** A reference is accepted exactly when it is two safe names, and then its path is those two. */
  lemma ReferenceMeans(directory: seq<string>, reference: string)
    ensures RootfsPath(directory, reference).Some?
            <==> exists vm, id :: IsSafe(vm) && IsSafe(id) && reference == vm + "/" + id
    ensures forall vm, id :: IsSafe(vm) && IsSafe(id) && reference == vm + "/" + id ==>
                               RootfsPath(directory, reference) == Some(directory + [vm, id, ROOTFS])
  {
    SplitJoins(reference);
    if RootfsPath(directory, reference).Some? {
      var parts := Split(reference, '/');
      assert IsSafe(parts[0]) && IsSafe(parts[1]) && reference == parts[0] + "/" + parts[1];
    }
    forall vm, id | IsSafe(vm) && IsSafe(id) && reference == vm + "/" + id
      ensures RootfsPath(directory, reference) == Some(directory + [vm, id, ROOTFS])
    {
      SplitPair(vm, id);
    }
  }

  /** Not only what ListSnapshots shows: the temporary directory of any snapshot is a safe name too. */
  lemma TemporaryIsSafe(random: string)
    requires forall i :: 0 <= i < |random| ==> SafeChar(random[i])
    ensures IsSafe(Temporary(SnapshotID(random))) && Hidden(Temporary(SnapshotID(random)))
    ensures IsSafe(SnapshotID(random)) && !Hidden(SnapshotID(random))
  {
  }
}
