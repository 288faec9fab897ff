/** The root disk of a VM: cloned or copied once, then only grown. */
module Disk {
  /**
   The rootfs file. Half: some PrepareRootfs made it and has not returned success. Whole:
   the PrepareRootfs that made it returned success.
   */
  datatype Rootfs = Absent | Half(length: nat) | Whole(length: nat)

  datatype CloneOutcome = Cloned(synced: bool) | CloneRefused
  datatype CopyOutcome = Copied(synced: bool) | CopyFailed
  datatype GrowOutcome = Grown | TruncateFailed | ResizeFailed

  /** How the foreign calls of one PrepareRootfs go; partial is how far cp got in between. */
  datatype Prepare = Prepare(clone: CloneOutcome, copy: CopyOutcome, partial: nat, grow: GrowOutcome)

  /** The states a call puts the file in, one after the other, and whether it succeeded. */
  datatype Steps = Steps(states: seq<Rootfs>, ok: bool)

  function Final(f: Rootfs, s: Steps): Rootfs {
    if s.states == [] then f else s.states[|s.states| - 1]
  }

  /** O_EXCL: an existing destination is an error, and is left alone. */
  function CloneFile(f: Rootfs, size: nat, c: CloneOutcome): Steps {
    if f != Absent then Steps([], false)
    else
      match c
      case Cloned(synced) => Steps([Half(0), Half(size)], synced)
      case CloneRefused => Steps([Half(0), Absent], false)
  }

  function CopyFile(f: Rootfs, size: nat, partial: nat, c: CopyOutcome): Steps {
    if f != Absent then Steps([], false)
    else
      match c
      case Copied(synced) => Steps([Half(partial), Half(size)], synced)
      case CopyFailed => Steps([Half(partial), Absent], false)
  }

  /** A missing file and a file that is long enough are both fine as they are. */
  function GrowRootfs(f: Rootfs, size: int, resizeFilesystem: bool, g: GrowOutcome): Steps {
    if f.Absent? || size <= f.length then Steps([], true)
    else
      match g
      case TruncateFailed => Steps([], false)
      case Grown => Steps([f.(length := size)], true)
      case ResizeFailed => Steps([f.(length := size)], !resizeFilesystem)
  }

  function Sequence(a: Steps, b: Steps): Steps { Steps(a.states + b.states, b.ok) }

  /** Clone, or copy when the clone failed for any reason. */
  function CloneOrCopy(f: Rootfs, size: nat, p: Prepare): Steps {
    var clone := CloneFile(f, size, p.clone);
    if clone.ok then clone
    else Sequence(clone, CopyFile(Final(f, clone), size, p.partial, p.copy))
  }

  /** PrepareRootfs from a source of the given length. */
  function PrepareRootfs(f: Rootfs, source: nat, size: int, p: Prepare): Steps {
    if source > size then Steps([], false)
    else
      var made := CloneOrCopy(f, source, p);
      if !made.ok then made
      else
        var grown := Sequence(made, GrowRootfs(Final(f, made), size, true, p.grow));
        if !grown.ok then grown
        else Steps(grown.states + [Whole(Final(f, grown).length)], true)
  }

  predicate NeverWhole(states: seq<Rootfs>) {
    forall i :: 0 <= i < |states| ==> !states[i].Whole?
  }

  /**
   PrepareRootfs succeeds at most once. It refuses an existing file, whole or half, without
   touching it. On success the file is whole and exactly as long as the configuration asks;
   on failure, and at every step before the last, it is absent or half.
   */
  lemma PrepareOnce(f: Rootfs, source: nat, size: int, p: Prepare)
    ensures f != Absent ==> PrepareRootfs(f, source, size, p) == Steps([], false)
    ensures var s := PrepareRootfs(f, source, size, p);
            && (s.ok ==> f == Absent && Final(f, s) == Whole(size) && s.states != []
                         && NeverWhole(s.states[..|s.states| - 1]))
            && (!s.ok && f == Absent ==> NeverWhole(s.states))
  {
    if f == Absent && source <= size {
      var made := CloneOrCopy(f, source, p);
      assert made.ok ==> Final(f, made) == Half(source);
    }
  }

  /**
   A build succeeds exactly if there is no file, the source fits, the clone or, when the clone
   left nothing, the copy works and is synced, and the growth works where it is needed.
   */
  lemma PrepareSucceedsIff(f: Rootfs, source: nat, size: int, p: Prepare)
    ensures PrepareRootfs(f, source, size, p).ok
       <==> && f == Absent && source <= size
            && (p.clone == Cloned(true) || (p.clone == CloneRefused && p.copy == Copied(true)))
            && (source < size ==> p.grow == Grown)
  {
  }

  /**
   A build that fails leaves no file, so that it can be tried again, exactly if the source was
   too long or both the clone and the copy were refused. Any other failure leaves one that no
   later build takes.
   */
  lemma FailureLeaves(source: nat, size: int, p: Prepare)
    requires !PrepareRootfs(Absent, source, size, p).ok
    ensures Final(Absent, PrepareRootfs(Absent, source, size, p)) == Absent
       <==> source > size || (p.clone == CloneRefused && p.copy == CopyFailed)
  {
  }

  /** Growth never shortens; after a success an existing file is at least as long as asked. */
  lemma GrowReaches(f: Rootfs, size: int, resizeFilesystem: bool, g: GrowOutcome)
    ensures var s := GrowRootfs(f, size, resizeFilesystem, g); var last := Final(f, s);
            && (last.Absent? <==> f.Absent?) && (last.Whole? <==> f.Whole?)
            && (!f.Absent? ==> last.length >= f.length && (s.ok ==> last.length >= size))
            && (!f.Absent? && last.length != f.length ==> last.length == size)
            && (s.ok <==> f.Absent? || size <= f.length || g == Grown || (g == ResizeFailed && !resizeFilesystem))
  {
  }

  /** The file and what happened to it, for the methods that change it in place. */
  class RootfsFile {
    var state: Rootfs
    ghost var seen: seq<Rootfs>

    constructor (f: Rootfs)
      ensures state == f && seen == []
    {
      state, seen := f, [];
    }

    method Become(next: Rootfs)
      modifies this
      ensures state == next && seen == old(seen) + [next]
    {
      state := next;
      seen := seen + [next];
    }

    method Clone(size: nat, c: CloneOutcome) returns (ok: bool)
      modifies this
      ensures ok == CloneFile(old(state), size, c).ok
      ensures seen == old(seen) + CloneFile(old(state), size, c).states
      ensures state == Final(old(state), CloneFile(old(state), size, c))
    {
      if state != Absent {
        return false;
      }
      Become(Half(0));
      if c.CloneRefused? {
        Become(Absent);
        return false;
      }
      Become(Half(size));
      return c.synced;
    }

    method Copy(size: nat, partial: nat, c: CopyOutcome) returns (ok: bool)
      modifies this
      ensures ok == CopyFile(old(state), size, partial, c).ok
      ensures seen == old(seen) + CopyFile(old(state), size, partial, c).states
      ensures state == Final(old(state), CopyFile(old(state), size, partial, c))
    {
      if state != Absent {
        return false;
      }
      Become(Half(partial));
      if c.CopyFailed? {
        Become(Absent);
        return false;
      }
      Become(Half(size));
      return c.synced;
    }

    method Grow(size: int, resizeFilesystem: bool, g: GrowOutcome) returns (ok: bool)
      modifies this
      ensures ok == GrowRootfs(old(state), size, resizeFilesystem, g).ok
      ensures seen == old(seen) + GrowRootfs(old(state), size, resizeFilesystem, g).states
      ensures state == Final(old(state), GrowRootfs(old(state), size, resizeFilesystem, g))
    {
      if state.Absent? || size <= state.length {
        return true;
      }
      if g.TruncateFailed? {
        return false;
      }
      Become(state.(length := size));
      return !resizeFilesystem || g.Grown?;
    }

    method PrepareFrom(source: nat, size: int, p: Prepare) returns (ok: bool)
      modifies this
      ensures ok == PrepareRootfs(old(state), source, size, p).ok
      ensures seen == old(seen) + PrepareRootfs(old(state), source, size, p).states
      ensures state == Final(old(state), PrepareRootfs(old(state), source, size, p))
    {
      if source > size {
        return false;
      }
      ok := Clone(source, p.clone);
      if !ok {
        ok := Copy(source, p.partial, p.copy);
        if !ok {
          return;
        }
      }
      ok := Grow(size, true, p.grow);
      if ok {
        Become(Whole(state.length));
      }
    }
  }
}
