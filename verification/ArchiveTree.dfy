/**
 A file system as entries at absolute paths, and the recursive inventory of one of its
 subtrees (tools/hk_v1_archive_cleanup.py:83-84, 139-235, 312-362).
 */
module ArchiveTree {
  import opened Wrappers
  import opened Ordering

  type Bytes = seq<bv8>
  type Path = seq<string>

  datatype Entry =
    | File(content: Bytes, mode: nat, mtime: int)
    | Directory(mode: nat, mtime: int)
    | Link
    | Special
  {
    /** What an inventory may contain. */
    predicate Plain() {
      File? || Directory?
    }
  }

  type FileSystem = map<Path, Entry>

  predicate ValidName(name: string) {
    && name != "" && name != "." && name != ".."
    && '/' !in name
  }

  const MAX_MODE := 0xFFF

  predicate Hangs(fs: FileSystem, p: Path) {
    p != [] ==> p[..|p| - 1] in fs && fs[p[..|p| - 1]].Directory?
  }

  predicate ValidPath(p: Path) {
    forall i | 0 <= i < |p| :: ValidName(p[i])
  }

  /** Every entry hangs from a directory, under a name a file system allows. */
  predicate WellFormed(fs: FileSystem) {
    && (forall p {:trigger Hangs(fs, p)} | p in fs :: Hangs(fs, p))
    && (forall p {:trigger ValidPath(p)} | p in fs :: ValidPath(p))
    && (forall p | p in fs :: fs[p].Plain() ==> fs[p].mode <= MAX_MODE)
  }

  // ----- paths -------------------------------------------------------------------------

  /** `path.parents` */
  function Parents(p: Path): set<Path> {
    set k | 0 <= k < |p| :: p[..k]
  }

  /** `_overlaps` */
  predicate Overlaps(first: Path, second: Path) {
    first == second || first in Parents(second) || second in Parents(first)
  }

  lemma OverlapIsPrefix(p: Path, q: Path)
    ensures Overlaps(p, q) <==> p <= q || q <= p
  {
    if p <= q && p != q {
      assert p == q[..|p|];
    }
    if q <= p && p != q {
      assert q == p[..|q|];
    }
  }

  predicate Inside(x: Path, p: Path) {
    p <= x
  }

  /** Two paths overlap exactly when some path lies in both of their subtrees. */
  lemma OverlapMeansSharedSubtree(p: Path, q: Path)
    ensures Overlaps(p, q) <==> exists x: Path :: Inside(x, p) && Inside(x, q)
  {
    OverlapIsPrefix(p, q);
    if p <= q {
      assert Inside(q, p) && Inside(q, q);
    } else if q <= p {
      assert Inside(p, p) && Inside(p, q);
    }
    forall x: Path | Inside(x, p) && Inside(x, q) ensures p <= q || q <= p {
      assert p == x[..|p|] && q == x[..|q|];
    }
  }

  // ----- subtrees ----------------------------------------------------------------------

  /** The tree rooted at `p`, with paths made relative to it. */
  function Subtree(fs: FileSystem, p: Path): (t: map<Path, Entry>)
    ensures forall q :: q in t <==> p + q in fs
    ensures forall q | q in t :: t[q] == fs[p + q]
  {
    var relative := set x | x in fs.Keys && p <= x :: x[|p|..];
    forall q ensures q in relative <==> p + q in fs {
      if p + q in fs {
        assert (p + q)[|p|..] == q;
      }
      if q in relative {
        var x :| x in fs.Keys && p <= x && x[|p|..] == q;
        assert x == p + q;
      }
    }
    map q | q in relative :: fs[p + q]
  }

  /** `t` is a tree of files and directories that carry no timestamp an inventory refuses. */
  ghost predicate Inventoriable(t: map<Path, Entry>) {
    && [] in t
    && forall q | q in t :: t[q].Plain() && t[q].mtime >= 0
  }

  ghost function Below(fs: FileSystem, p: Path): set<Path> {
    set x | x in fs.Keys && p < x
  }

  function Children(fs: FileSystem, p: Path): set<string> {
    set x | x in fs.Keys && p < x && |x| == |p| + 1 :: x[|p|]
  }

  lemma ChildIsBelow(fs: FileSystem, p: Path, name: string)
    requires name in Children(fs, p)
    ensures p + [name] in Below(fs, p)
    ensures Below(fs, p + [name]) < Below(fs, p)
  {
    var x :| x in fs.Keys && p < x && |x| == |p| + 1 && x[|p|] == name;
    assert x == p + [name];
    assert p + [name] !in Below(fs, p + [name]);
  }

  /** `_descendants`: children in name order, each followed by its own descendants. */
  function Descendants(fs: FileSystem, p: Path): Option<seq<Path>>
    decreases Below(fs, p), 1, 0
  {
    Walk(fs, p, Sorted(Children(fs, p)))
  }

  function Walk(fs: FileSystem, p: Path, names: seq<string>): Option<seq<Path>>
    requires forall n | n in names :: n in Children(fs, p)
    decreases Below(fs, p), 0, |names|
  {
    if names == [] then Some([])
    else
      ChildIsBelow(fs, p, names[0]);
      var child := p + [names[0]];
      if !fs[child].Plain() then None
      else
        var inner := if fs[child].Directory? then Descendants(fs, child) else Some([]);
        var rest := Walk(fs, p, names[1..]);
        if inner.None? || rest.None? then None else Some([child] + inner.value + rest.value)
  }

  /** The entries below `p` that are reached through one of the names. */
  ghost function Through(fs: FileSystem, p: Path, names: seq<string>): set<Path> {
    set x | x in Below(fs, p) && x[|p|] in names
  }

  ghost predicate AllPlain(fs: FileSystem, paths: set<Path>)
    requires paths <= fs.Keys
  {
    forall x | x in paths :: fs[x].Plain()
  }

  /** A walk lists `paths`: it fails on an entry that is neither file nor directory, else gives each path once. */
  ghost predicate Lists(fs: FileSystem, walk: Option<seq<Path>>, paths: set<Path>)
    requires paths <= fs.Keys
  {
    && (walk.Some? <==> AllPlain(fs, paths))
    && (walk.Some? ==> Distinct(walk.value) && forall x :: x in walk.value <==> x in paths)
  }

  lemma NothingBelowFile(fs: FileSystem, p: Path)
    requires WellFormed(fs) && p in fs && !fs[p].Directory?
    ensures Below(fs, p) == {}
  {
    if x :| x in Below(fs, p) {
      assert x[..|p|] == p;
      DirectoryAbove(fs, x, |p|);
    }
  }

  lemma {:induction false} DirectoryAbove(fs: FileSystem, x: Path, n: nat)
    requires WellFormed(fs) && x in fs && n < |x|
    ensures x[..n] in fs && fs[x[..n]].Directory?
    decreases |x|
  {
    var parent := x[..|x| - 1];
    assert Hangs(fs, x);
    if n < |x| - 1 {
      DirectoryAbove(fs, parent, n);
      assert parent[..n] == x[..n];
    }
  }

  lemma ThroughEveryChild(fs: FileSystem, p: Path, names: seq<string>)
    requires WellFormed(fs)
    requires forall n :: n in names <==> n in Children(fs, p)
    ensures Through(fs, p, names) == Below(fs, p)
  {
    forall x | x in Below(fs, p) ensures x[|p|] in names {
      if |x| > |p| + 1 {
        DirectoryAbove(fs, x, |p| + 1);
      } else {
        assert x[..|p| + 1] == x;
      }
      var child := x[..|p| + 1];
      assert child in fs.Keys && p < child && child[|p|] == x[|p|];
    }
  }

  lemma {:induction false} DescendantsListsBelow(fs: FileSystem, p: Path)
    requires WellFormed(fs)
    ensures Lists(fs, Descendants(fs, p), Below(fs, p))
    decreases Below(fs, p), 1, 0
  {
    var names := Sorted(Children(fs, p));
    AscendingIsDistinct(names);
    WalkLists(fs, p, names);
    ThroughEveryChild(fs, p, names);
  }

  lemma ThroughSplits(fs: FileSystem, p: Path, names: seq<string>)
    requires names != []
    ensures Through(fs, p, names) == Through(fs, p, [names[0]]) + Through(fs, p, names[1..])
    ensures p + [names[0]] in fs ==>
              Through(fs, p, [names[0]]) == {p + [names[0]]} + Below(fs, p + [names[0]])
  {
    assert names == [names[0]] + names[1..];
    var child := p + [names[0]];
    forall x | x in Below(fs, p) && x[|p|] == names[0] ensures child == x || child < x {
      assert x == x[..|p|] + [x[|p|]] + x[|p| + 1..];
    }
    forall x | child < x ensures p < x && x[|p|] == names[0] {
      assert x[..|p|] == child[..|p|] == p;
    }
  }

  lemma {:induction false} WalkLists(fs: FileSystem, p: Path, names: seq<string>)
    requires WellFormed(fs) && Distinct(names)
    requires forall n | n in names :: n in Children(fs, p)
    ensures Lists(fs, Walk(fs, p, names), Through(fs, p, names))
    decreases Below(fs, p), 0, |names|
  {
    if names == [] {
      assert Through(fs, p, names) == {};
    } else {
      ChildIsBelow(fs, p, names[0]);
      ThroughSplits(fs, p, names);
      var child := p + [names[0]];
      assert child in Through(fs, p, names);
      WalkLists(fs, p, names[1..]);
      if fs[child].Plain() {
        if fs[child].Directory? {
          DescendantsListsBelow(fs, child);
        } else {
          NothingBelowFile(fs, child);
        }
        ListsJoin(fs, p, names, if fs[child].Directory? then Descendants(fs, child) else Some([]), Walk(fs, p, names[1..]));
      }
    }
  }

  lemma ListsJoin(fs: FileSystem, p: Path, names: seq<string>, inner: Option<seq<Path>>, rest: Option<seq<Path>>)
    requires names != [] && Distinct(names) && p + [names[0]] in fs && fs[p + [names[0]]].Plain()
    requires Lists(fs, inner, Below(fs, p + [names[0]]))
    requires Lists(fs, rest, Through(fs, p, names[1..]))
    ensures Lists(fs, if inner.None? || rest.None? then None else Some([p + [names[0]]] + inner.value + rest.value),
                  Through(fs, p, names))
  {
    ThroughSplits(fs, p, names);
    var child := p + [names[0]];
    forall x | x in Through(fs, p, names[1..]) ensures x !in Through(fs, p, [names[0]]) {
      assert forall j | 1 <= j < |names| :: names[0] != names[j];
    }
    if inner.Some? && rest.Some? {
      var whole := [child] + inner.value + rest.value;
      forall i, j | 0 <= i < j < |whole| ensures whole[i] != whole[j] {
        if i == 0 && j <= |inner.value| {
          assert whole[j] in inner.value;
        } else if i <= |inner.value| < j {
          assert whole[j] in rest.value;
          assert i > 0 ==> whole[i] in inner.value;
        }
      }
      forall x ensures x in whole <==> x in Through(fs, p, names) {
        assert x in whole <==> x == child || x in inner.value || x in rest.value;
      }
    }
  }
}
