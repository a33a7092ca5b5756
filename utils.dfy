/**
 The workspace helpers of src/modules/utils.py over an abstract filesystem.

 A filesystem is a map from a location (the sequence of directory names below the
 working directory; [] is the working directory itself) to a directory or a file with
 its content. The operating-system primitives the helpers call (os.makedirs with
 exist_ok, shutil.rmtree, open for writing, os.remove) are pure functions from one
 filesystem to the next plus the error they raise, if any; the helpers themselves are
 the methods of class FileSystem, which updates its tree in place.
 */
module Utils {
  import opened Wrappers

  type Path = seq<string>

  datatype Entry = Dir | File(content: string)

  type Tree = map<Path, Entry>

  /** The OSError kinds the primitives raise. */
  datatype OsError = FileExists | FileNotFound | NotADirectory | IsADirectory | InvalidArgument

  /** The filesystem after a primitive, and the error it raised (None when it returned). */
  datatype OsOutcome = OsOutcome(tree: Tree, err: Option<OsError>)

  function Parent(p: Path): (r: Path)
    requires p != []
    ensures |r| == |p| - 1 && r <= p
  {
    p[..|p| - 1]
  }

  /** The directory part of a path (os.path.dirname); the working directory is its own. */
  function Dirname(p: Path): (r: Path) {
    if p == [] then [] else Parent(p)
  }

  /** check_if_folder_exists: the path exists and is a directory. */
  predicate IsFolder(t: Tree, p: Path) {
    p in t && t[p] == Dir
  }

  /** check_if_file_exists: the path exists and is a regular file. */
  predicate IsFile(t: Tree, p: Path) {
    p in t && t[p].File?
  }

  /** Every existing path is a folder or a file, and none is both. */
  lemma FolderOrFile(t: Tree, p: Path)
    ensures p in t <==> IsFolder(t, p) || IsFile(t, p)
    ensures !(IsFolder(t, p) && IsFile(t, p))
  {
  }

  /** A filesystem is a tree: the working directory is a folder, and so is the parent of every other path. */
  ghost predicate WellFormed(t: Tree) {
    && IsFolder(t, [])
    && forall q :: q in t && q != [] ==> IsFolder(t, Parent(q))
  }

  /** Some prefix of p, p included, is a file, so p can never become a folder. */
  predicate Blocked(t: Tree, p: Path) {
    exists k :: 0 <= k <= |p| && IsFile(t, p[..k])
  }

  /** The error a primitive raises for a path that does not exist. */
  function Missing(t: Tree, p: Path): (e: OsError) {
    if Blocked(t, p) then NotADirectory else FileNotFound
  }

  /** p and each of its ancestors. */
  function Prefixes(p: Path): (r: set<Path>)
    ensures forall k :: 0 <= k <= |p| ==> p[..k] in r
    ensures forall q :: q in r ==> q <= p
  {
    set k | 0 <= k <= |p| :: p[..k]
  }

  /** Every ancestor of an existing path is a folder. */
  lemma {:induction false} AncestorsAreFolders(t: Tree, p: Path, k: nat)
    requires WellFormed(t) && p in t && k <= |p|
    ensures p[..k] in t
    ensures k < |p| ==> IsFolder(t, p[..k])
    decreases |p| - k
  {
    if k == |p| {
      assert p[..k] == p;
    } else {
      AncestorsAreFolders(t, p, k + 1);
      assert Parent(p[..k + 1]) == p[..k];
    }
  }

  /** An existing folder is not blocked: none of its prefixes is a file. */
  lemma FolderNotBlocked(t: Tree, p: Path)
    requires WellFormed(t) && IsFolder(t, p)
    ensures !Blocked(t, p)
  {
    forall k | 0 <= k <= |p| ensures !IsFile(t, p[..k]) {
      AncestorsAreFolders(t, p, k);
      if k == |p| {
        assert p[..k] == p;
      }
    }
  }

  lemma MakeDirsWellFormed(t: Tree, p: Path, made: Tree)
    requires WellFormed(t) && !Blocked(t, p)
    requires made == map q | q in Prefixes(p) && q !in t :: Dir
    ensures WellFormed(t + made)
  {
    var u := t + made;
    forall q | q in u && q != [] ensures IsFolder(u, Parent(q)) {
      if q in t {
        assert IsFolder(t, Parent(q));
      } else {
        assert q in made;
        var k :| 0 <= k <= |p| && q == p[..k];
        assert k >= 1;
        assert Parent(q) == p[..k - 1];
        assert !IsFile(t, p[..k - 1]);
      }
    }
  }

  /**
   os.makedirs(p, exist_ok=True): creates p and every missing ancestor as folders; raises
   FileExistsError when p is a file and NotADirectoryError when an ancestor is one,
   changing nothing then.
   */
  function MakeDirs(t: Tree, p: Path): (r: OsOutcome)
    requires WellFormed(t)
    ensures WellFormed(r.tree)
    ensures r.err.None? <==> !Blocked(t, p)
    ensures r.err.Some? ==> r.tree == t && r.err.value == (if IsFile(t, p) then FileExists else NotADirectory)
    ensures r.err.None? ==> forall k :: 0 <= k <= |p| ==> IsFolder(r.tree, p[..k])
    ensures r.err.None? ==> r.tree.Keys == t.Keys + Prefixes(p)
    ensures forall q :: q in t ==> q in r.tree && r.tree[q] == t[q]
    ensures forall q :: q in r.tree && q !in t ==> r.tree[q] == Dir
  {
    if Blocked(t, p) then
      OsOutcome(t, Some(if IsFile(t, p) then FileExists else NotADirectory))
    else
      var made := map q | q in Prefixes(p) && q !in t :: Dir;
      MakeDirsWellFormed(t, p, made);
      OsOutcome(t + made, None)
  }

  /** Creating a folder that already exists changes nothing and raises nothing. */
  lemma CreateFolderIdempotent(t: Tree, p: Path)
    requires WellFormed(t) && IsFolder(t, p)
    ensures MakeDirs(t, p) == OsOutcome(t, None)
  {
    FolderNotBlocked(t, p);
    var r := MakeDirs(t, p);
    forall q | q in Prefixes(p) ensures q in t {
      var k :| 0 <= k <= |p| && q == p[..k];
      AncestorsAreFolders(t, p, k);
    }
    assert r.tree.Keys == t.Keys;
  }

  /** A prefix of the parent of q is a prefix of q. */
  lemma PrefixOfParent(p: Path, q: Path)
    requires q != []
    ensures p <= Parent(q) ==> p <= q
  {
  }

  /** A path below an existing path p exists only if p does. */
  lemma ExistsAbove(t: Tree, p: Path, q: Path)
    requires WellFormed(t) && q in t && p <= q
    ensures p in t
  {
    AncestorsAreFolders(t, q, |p|);
    assert q[..|p|] == p;
  }

  lemma RmTreeWellFormed(t: Tree, p: Path, rest: Tree)
    requires WellFormed(t)
    requires rest == map q | q in t && (q == [] || !(p <= q)) :: t[q]
    ensures WellFormed(rest)
  {
    forall q | q in rest && q != [] ensures IsFolder(rest, Parent(q)) {
      var pq := Parent(q);
      assert IsFolder(t, pq);
      PrefixOfParent(p, q);
    }
  }

  /**
   shutil.rmtree(p): removes the folder p with everything below it. It raises for a path
   that is missing or is a file, changing nothing; on the working directory itself it
   removes the contents and then fails to remove the directory.
   */
  function RmTree(t: Tree, p: Path): (r: OsOutcome)
    requires WellFormed(t)
    ensures WellFormed(r.tree)
    ensures r.err.None? <==> IsFolder(t, p) && p != []
    ensures !IsFolder(t, p) ==> r.tree == t
    ensures IsFolder(t, p) ==> forall q :: q in r.tree <==> q in t && (q == [] || !(p <= q))
    ensures forall q :: q in r.tree ==> q in t && r.tree[q] == t[q]
  {
    if p !in t then OsOutcome(t, Some(Missing(t, p)))
    else if IsFile(t, p) then OsOutcome(t, Some(NotADirectory))
    else
      var rest := map q | q in t && (q == [] || !(p <= q)) :: t[q];
      RmTreeWellFormed(t, p, rest);
      OsOutcome(rest, if p == [] then Some(InvalidArgument) else None)
  }

  /**
   open(p, "w") followed by a write of content: needs the parent folder, refuses a folder,
   and leaves p a file holding exactly content, whatever it held before.
   */
  function OpenWrite(t: Tree, p: Path, content: string): (r: OsOutcome)
    requires WellFormed(t)
    ensures WellFormed(r.tree)
    ensures r.err.None? <==> p != [] && !IsFolder(t, p) && IsFolder(t, Parent(p))
    ensures r.err.None? ==> IsFile(r.tree, p) && r.tree[p].content == content
    ensures r.err.None? ==> forall q :: q != p ==> (q in r.tree <==> q in t) && (q in t ==> r.tree[q] == t[q])
    ensures r.err.Some? ==> r.tree == t
  {
    if p == [] || IsFolder(t, p) then OsOutcome(t, Some(IsADirectory))
    else if IsFolder(t, Parent(p)) then OsOutcome(t[p := File(content)], None)
    else OsOutcome(t, Some(Missing(t, Parent(p))))
  }

  /** os.remove(p): deletes a file; raises for a folder or a missing path, changing nothing. */
  function Unlink(t: Tree, p: Path): (r: OsOutcome)
    requires WellFormed(t)
    ensures WellFormed(r.tree)
    ensures r.err.None? <==> IsFile(t, p)
    ensures r.err.None? ==> forall q :: q in r.tree <==> q in t && q != p
    ensures forall q :: q in r.tree ==> q in t && r.tree[q] == t[q]
    ensures r.err.Some? ==> r.tree == t
  {
    if p !in t then OsOutcome(t, Some(Missing(t, p)))
    else if IsFolder(t, p) then OsOutcome(t, Some(IsADirectory))
    else OsOutcome(t - {p}, None)
  }

  /** The filesystem the process sees; the helpers of utils.py change it in place. */
  class FileSystem {
    var tree: Tree

    ghost predicate Valid()
      reads this
    {
      WellFormed(tree)
    }

    constructor (initial: Tree)
      requires WellFormed(initial)
      ensures Valid() && tree == initial
    {
      tree := initial;
    }

    /** create_folder: the folder and all its missing parents exist afterwards. */
    method CreateFolder(p: Path) returns (err: Option<OsError>)
      requires Valid()
      modifies this
      ensures Valid()
      ensures OsOutcome(tree, err) == MakeDirs(old(tree), p)
      ensures err.None? ==> IsFolder(tree, p)
      ensures old(IsFolder(tree, p)) ==> tree == old(tree) && err.None?
    {
      if IsFolder(tree, p) {
        CreateFolderIdempotent(tree, p);
      }
      var r := MakeDirs(tree, p);
      assert p[..|p|] == p;
      tree, err := r.tree, r.err;
    }

    /**
     write_to_file: creates the parent folder when it is missing, then writes content,
     replacing what the file held.
     */
    method WriteToFile(p: Path, content: string) returns (err: Option<OsError>)
      requires Valid()
      modifies this
      ensures Valid()
      ensures err.None? <==> p != [] && !IsFolder(old(tree), p) && !Blocked(old(tree), Parent(p))
      ensures err.Some? ==> tree == old(tree)
      ensures err.None? ==> IsFile(tree, p) && tree[p].content == content && IsFolder(tree, Parent(p))
      ensures err.None? ==> tree == MakeDirs(old(tree), Parent(p)).tree[p := File(content)]
    {
      var dir := Dirname(p);
      if p != [] && IsFolder(tree, p) {
        FolderNotBlocked(tree, dir);
      }
      if !IsFolder(tree, dir) {
        err := CreateFolder(dir);
        if err.Some? {
          return;
        }
      } else if p != [] {
        FolderNotBlocked(tree, dir);
        CreateFolderIdempotent(tree, dir);
      }
      var r := OpenWrite(tree, p, content);
      tree, err := r.tree, r.err;
    }

    /** remove_folder: removes an existing folder with its contents; otherwise does nothing. */
    method RemoveFolder(p: Path) returns (err: Option<OsError>)
      requires Valid()
      modifies this
      ensures Valid()
      ensures !old(IsFolder(tree, p)) ==> tree == old(tree) && err.None?
      ensures old(IsFolder(tree, p)) ==> OsOutcome(tree, err) == RmTree(old(tree), p)
      ensures p != [] ==> err.None?
      ensures p != [] && !old(IsFile(tree, p)) ==> forall q :: q in old(tree) && p <= q ==> q !in tree
      ensures p != [] ==> forall q :: q in old(tree) && !(p <= q) ==> q in tree
      ensures forall q :: q in tree ==> q in old(tree) && tree[q] == old(tree)[q]
    {
      if IsFolder(tree, p) {
        var r := RmTree(tree, p);
        tree, err := r.tree, r.err;
      } else {
        forall q | q in tree && p <= q ensures p in tree {
          ExistsAbove(tree, p, q);
        }
        err := None;
      }
    }

    /** remove_file: removes p when it is a file; a folder or a missing path is left alone. */
    method RemoveFile(p: Path) returns (err: Option<OsError>)
      requires Valid()
      modifies this
      ensures Valid()
      ensures err.None?
      ensures !IsFile(tree, p)
      ensures tree == if old(IsFile(tree, p)) then old(tree) - {p} else old(tree)
    {
      if IsFile(tree, p) {
        var r := Unlink(tree, p);
        tree, err := r.tree, r.err;
      } else {
        err := None;
      }
    }
  }
}
