/**
 * An abstract model of the part of Foundation's `FileManager` that FileKit
 * calls: the filesystem is a map from a path to a node, and each call either
 * has its documented effect or fails. A failure the code does not inspect
 * (permissions, an invalid URL) is the oracle argument `refused`.
 */
module FileSystem {
  import opened Results
  import opened Entities

  datatype Node = Directory | RegularFile(contents: Data)

  type Disk = map<Path, Node>

  function Parent(p: Path): Path
    requires |p| > 0
  {
    p[..|p| - 1]
  }

  /**
   * A tree: the root `[]` is a directory, and every other node sits in a
   * directory. The "/" that Foundation puts first in an absolute URL's path
   * components is thus an ordinary directory `["/"]` below this root, and
   * `[]` is also the path of a URL that has none, such as `file://invalid`.
   */
  ghost predicate IsTree(d: Disk) {
    && [] in d && d[[]].Directory?
    && forall p :: p in d && p != [] ==> Parent(p) in d && d[Parent(p)].Directory?
  }

  /** `fileExists(atPath:)`: something, file or directory, is at `p`. */
  predicate Exists(d: Disk, p: Path) {
    p in d
  }

  predicate IsDirectory(d: Disk, p: Path) {
    p in d && d[p].Directory?
  }

  /** `contents(atPath:)`: the bytes of the regular file at `p`, if there is one. */
  function Contents(d: Disk, p: Path): Option<Data> {
    if p in d && d[p].RegularFile? then Some(d[p].contents) else None
  }

  /** The immediate entries of the directory `p`. */
  function Children(d: Disk, p: Path): set<Path> {
    set q | q in d && |q| == |p| + 1 && q[..|p|] == p
  }

  /** `listing` names every entry of `p` exactly once, in some order. */
  predicate Enumerates(d: Disk, p: Path, listing: seq<Path>) {
    multiset(listing) == multiset(Children(d, p))
  }

  function Prefixes(p: Path): set<Path> {
    set i | 0 <= i <= |p| :: p[..i]
  }

  /**
   * `createDirectory(at:withIntermediateDirectories: true)` can succeed: no
   * prefix of `p`, `p` included, is occupied by a regular file.
   */
  predicate CanCreateDirectory(d: Disk, p: Path) {
    forall i :: 0 <= i <= |p| ==> p[..i] !in d || d[p[..i]].Directory?
  }

  /** The filesystem after `p` and all its missing ancestors were created. */
  function WithDirectories(d: Disk, p: Path): (d': Disk)
    requires CanCreateDirectory(d, p)
    ensures IsDirectory(d', p)
    ensures forall i :: 0 <= i <= |p| ==> IsDirectory(d', p[..i])
    ensures forall q :: q in d ==> q in d' && d'[q] == d[q]
    ensures forall q :: q in d' && q !in d ==> q <= p
  {
    var added := map q | q in Prefixes(p) :: Directory;
    assert forall i :: 0 <= i <= |p| ==> p[..i] in Prefixes(p);
    assert p[..|p|] == p;
    d + added
  }

  /** `createFile(atPath:contents:)` can succeed: `p` is in a directory and is not one. */
  predicate CanCreateFile(d: Disk, p: Path) {
    |p| > 0 && IsDirectory(d, Parent(p)) && !IsDirectory(d, p)
  }

  /** The filesystem after writing `bytes` to `p`, creating or replacing the file. */
  function WithFile(d: Disk, p: Path, bytes: Data): (d': Disk)
    ensures Contents(d', p) == Some(bytes)
    ensures forall q :: q != p ==> (q in d' <==> q in d)
    ensures forall q :: q != p && q in d ==> d'[q] == d[q]
  {
    d[p := RegularFile(bytes)]
  }

  /** `removeItem(at:)` can succeed: something is at `p`, and it is not the root. */
  predicate CanRemove(d: Disk, p: Path) {
    p in d && p != []
  }

  /** The filesystem after removing `p` and, recursively, everything under it. */
  function Without(d: Disk, p: Path): (d': Disk)
    ensures forall q :: q in d' <==> q in d && !(p <= q)
    ensures forall q :: q in d' ==> d'[q] == d[q]
  {
    map q | q in d && !(p <= q) :: d[q]
  }

  /**
   * What a refused recursive `removeItem(at:)` may leave behind: it has taken
   * away some part of the subtree at `p` and changed nothing else.
   */
  predicate PartlyRemoved(before: Disk, after: Disk, p: Path) {
    && (forall q :: q in after ==> q in before && after[q] == before[q])
    && (forall q :: q in before && !(p <= q) ==> q in after)
  }

  /**
   * What a refused `createDirectory(at:withIntermediateDirectories: true)` may
   * leave behind: it has added some directories along `p` and changed nothing else.
   */
  predicate PartlyCreated(before: Disk, after: Disk, p: Path) {
    && (forall q :: q in before ==> q in after && after[q] == before[q])
    && (forall q :: q in after && q !in before ==> q <= p && after[q].Directory?)
  }

  /** Both the untouched filesystem and the complete removal are partial removals. */
  lemma RemovalOutcomesBounded(d: Disk, p: Path)
    ensures PartlyRemoved(d, d, p)
    ensures PartlyRemoved(d, Without(d, p), p)
  {
  }

  /** A partial removal leaves everything outside `p` as it was and adds nothing. */
  lemma PartlyRemovedKeepsOutside(before: Disk, after: Disk, p: Path, q: Path)
    requires PartlyRemoved(before, after, p) && !(p <= q)
    ensures Exists(after, q) <==> Exists(before, q)
    ensures Contents(after, q) == Contents(before, q)
  {
  }

  /** Both the untouched filesystem and the complete creation are partial creations. */
  lemma CreationOutcomesBounded(d: Disk, p: Path)
    requires CanCreateDirectory(d, p)
    ensures PartlyCreated(d, d, p)
    ensures PartlyCreated(d, WithDirectories(d, p), p)
  {
    var d' := WithDirectories(d, p);
    forall q | q in d' && q !in d
      ensures d'[q].Directory?
    {
      assert q == p[..|q|];
    }
  }

  /** A partial creation never replaces or removes a node, so every file stays readable. */
  lemma PartlyCreatedKeepsContents(before: Disk, after: Disk, p: Path, q: Path)
    requires PartlyCreated(before, after, p)
    ensures Exists(before, q) ==> Exists(after, q)
    ensures Contents(after, q) == Contents(before, q)
  {
  }

  /** The owning folder of `file` is the parent of its location. */
  lemma ParentOfLocation(file: File)
    ensures Parent(file.Location()) == file.folder.location
  {
  }

  lemma WithDirectoriesValid(d: Disk, p: Path)
    requires IsTree(d) && CanCreateDirectory(d, p)
    ensures IsTree(WithDirectories(d, p))
  {
    var d' := WithDirectories(d, p);
    forall q | q in d' && q != []
      ensures Parent(q) in d' && d'[Parent(q)].Directory?
    {
      if q !in d {
        assert q <= p;
        assert Parent(q) == p[..|q| - 1];
      }
    }
  }

  lemma WithFileValid(d: Disk, p: Path, bytes: Data)
    requires IsTree(d) && CanCreateFile(d, p)
    ensures IsTree(WithFile(d, p, bytes))
  {
  }

  lemma WithoutValid(d: Disk, p: Path)
    requires IsTree(d) && p != []
    ensures IsTree(Without(d, p))
  {
  }

  /**
   * Creating with intermediate directories is idempotent: a second call can
   * succeed and changes nothing.
   */
  lemma CreateDirectoryIdempotent(d: Disk, p: Path)
    requires CanCreateDirectory(d, p)
    ensures CanCreateDirectory(WithDirectories(d, p), p)
    ensures WithDirectories(WithDirectories(d, p), p) == WithDirectories(d, p)
  {
    var d1 := WithDirectories(d, p);
    var d2 := WithDirectories(d1, p);
    assert d2.Keys == d1.Keys;
  }

  /** A regular file at any prefix of `p` makes creating `p` fail. */
  lemma FileOnPathBlocksCreate(d: Disk, p: Path, i: nat)
    requires i <= |p| && p[..i] in d && d[p[..i]].RegularFile?
    ensures !CanCreateDirectory(d, p)
  {
  }

  /** After removing `p` nothing at or under `p` exists or can be read. */
  lemma RemovedTreeIsGone(d: Disk, p: Path, q: Path)
    requires p <= q
    ensures !Exists(Without(d, p), q)
    ensures Contents(Without(d, p), q) == None
  {
  }

  /** In a tree, every proper prefix of an existing path is a directory. */
  lemma {:induction false} AncestorsAreDirectories(d: Disk, p: Path, i: nat)
    requires IsTree(d) && p in d && i < |p|
    ensures IsDirectory(d, p[..i])
    decreases |p|
  {
    if i < |p| - 1 {
      AncestorsAreDirectories(d, Parent(p), i);
      assert Parent(p)[..i] == p[..i];
    }
  }

  /** In a tree, a regular file has no entries. */
  lemma FileHasNoEntries(d: Disk, p: Path)
    requires IsTree(d) && Contents(d, p).Some?
    ensures Children(d, p) == {}
  {
  }

  /** Writing a file directly inside the directory `p` adds exactly that entry to it. */
  lemma WriteAddsEntry(d: Disk, p: Path, q: Path, bytes: Data)
    requires |q| == |p| + 1 && q[..|p|] == p
    ensures Children(WithFile(d, q, bytes), p) == Children(d, p) + {q}
  {
  }

  /**
   * A directory that `createDirectory` has just made, where nothing was
   * before, has no entries.
   */
  lemma CreatedDirectoryIsEmpty(d: Disk, p: Path)
    requires IsTree(d) && p !in d && CanCreateDirectory(d, p)
    ensures IsDirectory(WithDirectories(d, p), p)
    ensures Children(WithDirectories(d, p), p) == {}
  {
  }

  /** The paths of a multiset-enumeration are the entries, and as many. */
  lemma EnumerationCount(d: Disk, p: Path, listing: seq<Path>)
    requires Enumerates(d, p, listing)
    ensures |listing| == |Children(d, p)|
    ensures forall q :: q in listing <==> q in Children(d, p)
  {
    calc {
      |listing|;
      |multiset(listing)|;
      |multiset(Children(d, p))|;
      |Children(d, p)|;
    }
    forall q ensures q in listing <==> q in Children(d, p) {
      assert q in listing <==> q in multiset(listing);
    }
  }

  /** `FileManager.default`: the filesystem FileKit acts on, and the calls that change it. */
  class FileManager {
    var disk: Disk

    ghost predicate Valid()
      reads this
    {
      IsTree(disk)
    }

    constructor (disk: Disk)
      requires IsTree(disk)
      ensures Valid() && this.disk == disk
    {
      this.disk := disk;
    }

    /** `createFile(atPath:contents:attributes:)`; nil contents make an empty file. */
    method CreateFile(path: Path, contents: Option<Data>, refused: bool) returns (ok: bool)
      requires Valid()
      modifies this
      ensures Valid()
      ensures ok <==> CanCreateFile(old(disk), path) && !refused
      ensures disk == if ok then WithFile(old(disk), path, contents.GetOr([])) else old(disk)
    {
      ok := CanCreateFile(disk, path) && !refused;
      if ok {
        WithFileValid(disk, path, contents.GetOr([]));
        disk := WithFile(disk, path, contents.GetOr([]));
      }
    }

    /**
     * `createDirectory(at:withIntermediateDirectories: true, attributes:)`;
     * `ok` is false where it throws. A structural failure changes nothing; a
     * refused call may already have made some of the missing ancestors.
     */
    method CreateDirectory(path: Path, refused: bool) returns (ok: bool)
      requires Valid()
      modifies this
      ensures Valid()
      ensures ok <==> CanCreateDirectory(old(disk), path) && !refused
      ensures ok ==> disk == WithDirectories(old(disk), path)
      ensures !CanCreateDirectory(old(disk), path) ==> disk == old(disk)
      ensures !ok ==> PartlyCreated(old(disk), disk, path)
    {
      ok := CanCreateDirectory(disk, path) && !refused;
      if ok {
        WithDirectoriesValid(disk, path);
        disk := WithDirectories(disk, path);
      }
    }

    /**
     * `removeItem(at:)`, recursive on directories; `ok` is false where it
     * throws. Nothing changes when there is nothing to remove; a refused call
     * may already have removed part of the subtree.
     */
    method RemoveItem(path: Path, refused: bool) returns (ok: bool)
      requires Valid()
      modifies this
      ensures Valid()
      ensures ok <==> CanRemove(old(disk), path) && !refused
      ensures ok ==> disk == Without(old(disk), path)
      ensures !CanRemove(old(disk), path) ==> disk == old(disk)
      ensures !ok ==> PartlyRemoved(old(disk), disk, path)
    {
      ok := CanRemove(disk, path) && !refused;
      if ok {
        WithoutValid(disk, path);
        disk := Without(disk, path);
      }
    }
  }
}
