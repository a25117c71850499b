/**
 * File-system paths and the file tree the run-configuration producer walks.
 *
 * A path is the sequence of its components below the root: `/home/u/tests`
 * is ["home", "u", "tests"] and the root itself is []. The parent of a path
 * drops its last component, so the walk towards the root always ends.
 */
module Paths {

  type Path = seq<string>

  /** The last component (VirtualFile.getName); the root has the empty name. */
  function FileName(p: Path): string
  {
    if p == [] then "" else p[|p| - 1]
  }

  /** The parent directory (VirtualFile.getParent / Path.getParent); only the root has none. */
  function Parent(p: Path): Path
    requires p != []
  {
    p[..|p| - 1]
  }

  /**
   * The directories of the tree and, for each, the names of its children in
   * the order VirtualFile.getChildren returns them. A path that is not a key
   * is a plain file (isDirectory is false).
   */
  datatype FileTree = FileTree(dirs: map<Path, seq<string>>)

  predicate IsDirectory(tree: FileTree, p: Path)
  {
    p in tree.dirs
  }

  /** Components joined by '/', as Path.toString renders a relative path. */
  function Join(p: Path): string
  {
    if p == [] then "" else if |p| == 1 then p[0] else p[0] + "/" + Join(p[1..])
  }

  /** An absolute path rendered as a string ("/" for the root). */
  function AbsoluteString(p: Path): string
  {
    "/" + Join(p)
  }

  /** The length of the longest common prefix of two paths. */
  function CommonPrefixLength(a: Path, b: Path): (k: nat)
    ensures k <= |a| && k <= |b|
    ensures a[..k] == b[..k]
    ensures k < |a| && k < |b| ==> a[k] != b[k]
  {
    if a == [] || b == [] || a[0] != b[0] then 0
    else
      var k' := CommonPrefixLength(a[1..], b[1..]);
      assert a[..k' + 1] == [a[0]] + a[1..][..k'];
      assert b[..k' + 1] == [b[0]] + b[1..][..k'];
      k' + 1
  }

  function Ups(n: nat): (r: Path)
    ensures |r| == n && forall i :: 0 <= i < n ==> r[i] == ".."
  {
    if n == 0 then [] else Ups(n - 1) + [".."]
  }

  /**
   * `base.relativize(p)` for two normalised absolute paths: climb out of the
   * part of `base` not shared with `p`, then descend into the rest of `p`.
   */
  function Relativize(base: Path, p: Path): Path
  {
    var k := CommonPrefixLength(base, p);
    Ups(|base| - k) + p[k..]
  }

  /** Resolving a relative path against a directory, with ".." climbing one level. */
  function Resolve(base: Path, rel: Path): Path
    decreases |rel|
  {
    if rel != [] && rel[0] == ".." && base != [] then Resolve(Parent(base), rel[1..])
    else base + rel
  }

  predicate Normalised(p: Path)
  {
    forall i :: 0 <= i < |p| ==> p[i] != ".."
  }

  lemma {:induction false} ResolveUps(base: Path, n: nat, tail: Path)
    requires n <= |base|
    requires tail == [] || tail[0] != ".."
    ensures Resolve(base, Ups(n) + tail) == base[..|base| - n] + tail
    decreases n
  {
    if n == 0 {
      assert Ups(0) + tail == tail;
      assert base[..|base|] == base;
    } else {
      var rel := Ups(n) + tail;
      assert rel[0] == "..";
      assert rel[1..] == Ups(n - 1) + tail by {
        assert Ups(n) == [".."] + Ups(n - 1);
      }
      ResolveUps(Parent(base), n - 1, tail);
      assert Parent(base)[..|Parent(base)| - (n - 1)] == base[..|base| - n];
    }
  }

  /** Resolving the relativized path against the base gives the path back. */
  lemma ResolveRelativize(base: Path, p: Path)
    requires Normalised(p)
    ensures Resolve(base, Relativize(base, p)) == p
  {
    var k := CommonPrefixLength(base, p);
    ResolveUps(base, |base| - k, p[k..]);
    assert base[..k] + p[k..] == p[..k] + p[k..] == p;
  }

  /** A path below the base relativizes to the components below the base. */
  lemma RelativizeDescendant(base: Path, rest: Path)
    ensures Relativize(base, base + rest) == rest
  {
    var p := base + rest;
    var k := CommonPrefixLength(base, p);
    assert k == |base|;
    assert p[|base|..] == rest;
  }
}
