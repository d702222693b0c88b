/**
 The inventory of one subtree and the candidate it is frozen into
 (tools/hk_v1_archive_cleanup.py:139-235, 312-362, 566-577).
 */
module ArchiveInventory {
  import opened Wrappers
  import opened Ordering
  import opened ArchiveTree

  /** SHA-256 of a file's bytes; equal digests mean equal bytes. */
  datatype Digest = Sha256(content: Bytes)

  datatype Kind = DirectoryKind | FileKind

  datatype Member = Member(
    relativePath: string, kind: Kind, byteLength: nat, fingerprint: Digest, mode: nat, mtime: int)

  /** SHA-256 of the canonical member list; equal digests mean equal lists. */
  datatype ListDigest = Sha256OfMembers(members: seq<Member>)

  datatype Candidate = Candidate(
    source: Path, name: string, byteLength: nat, fingerprint: ListDigest, mode: nat, mtime: int, members: seq<Member>)

  // ----- names of members --------------------------------------------------------------

  /** `relative_to(...).as_posix()`, and `.` for the root itself. */
  function Relative(q: Path): string {
    if q == [] then "."
    else if |q| == 1 then q[0]
    else q[0] + "/" + Relative(q[1..])
  }

  /** The part of a text before its first separator is the first name of the path it renders. */
  lemma FirstName(q: Path)
    requires q != [] && ValidPath(q)
    ensures |Relative(q)| >= |q[0]| && Relative(q)[..|q[0]|] == q[0]
    ensures |q| == 1 ==> '/' !in Relative(q)
    ensures |q| > 1 ==> |Relative(q)| > |q[0]| && Relative(q)[|q[0]|] == '/' && Relative(q)[|q[0]| + 1..] == Relative(q[1..])
  {
    assert ValidName(q[0]);
  }

  lemma {:induction false} RelativeIsInjective(a: Path, b: Path)
    requires ValidPath(a) && ValidPath(b) && Relative(a) == Relative(b)
    ensures a == b
  {
    if a == [] || b == [] {
      if a != [] {
        RootNameIsReserved(a);
      }
      if b != [] {
        RootNameIsReserved(b);
      }
    } else {
      FirstName(a);
      FirstName(b);
      assert ValidName(a[0]) && ValidName(b[0]);
      if |a| == 1 || |b| == 1 {
        assert a == [a[0]] && b == [b[0]];
      } else {
        RelativeIsInjective(a[1..], b[1..]);
        assert a == [a[0]] + a[1..] && b == [b[0]] + b[1..];
      }
    }
  }

  /** No path below the root renders as the root's own name. */
  lemma RootNameIsReserved(q: Path)
    requires q != [] && ValidPath(q)
    ensures Relative(q) != "."
  {
    FirstName(q);
    assert ValidName(q[0]);
    if |q[0]| == 1 && |q| > 1 {
      assert Relative(q)[1] == '/';
    }
  }

  // ----- members -----------------------------------------------------------------------

  /** `_member`, with the refusals of `ArchiveMember`'s own checks. */
  function MemberOf(e: Entry, relative: string): Option<Member>
    requires e.Plain()
  {
    if e.mtime < 0 || e.mode > MAX_MODE then None
    else
      match e
      case File(content, mode, mtime) => Some(Member(relative, FileKind, |content|, Sha256(content), mode, mtime))
      case Directory(mode, mtime) => Some(Member(relative, DirectoryKind, 0, Sha256([]), mode, mtime))
  }

  lemma MemberDeterminesEntry(e: Entry, f: Entry, relative: string, other: string)
    requires e.Plain() && f.Plain()
    requires MemberOf(e, relative).Some? && MemberOf(e, relative) == MemberOf(f, other)
    ensures e == f && relative == other
  {
  }

  /** One member for each path, in the order given. */
  function MembersAt(fs: FileSystem, p: Path, paths: seq<Path>): Option<seq<Member>>
    requires forall x | x in paths :: x in fs && fs[x].Plain() && p <= x
  {
    if paths == [] then Some([])
    else
      var first := MemberOf(fs[paths[0]], Relative(paths[0][|p|..]));
      var rest := MembersAt(fs, p, paths[1..]);
      if first.None? || rest.None? then None else Some([first.value] + rest.value)
  }

  lemma {:induction false} MembersAtEach(fs: FileSystem, p: Path, paths: seq<Path>)
    requires forall x | x in paths :: x in fs && fs[x].Plain() && p <= x
    ensures var ms := MembersAt(fs, p, paths);
            && (ms.Some? <==> forall x | x in paths :: MemberOf(fs[x], Relative(x[|p|..])).Some?)
            && (ms.Some? ==>
                  && |ms.value| == |paths|
                  && forall i | 0 <= i < |paths| :: Some(ms.value[i]) == MemberOf(fs[paths[i]], Relative(paths[i][|p|..])))
  {
    if paths != [] {
      MembersAtEach(fs, p, paths[1..]);
      assert paths == [paths[0]] + paths[1..];
    }
  }

  // ----- sorting by relative path ------------------------------------------------------

  function Insert(m: Member, ms: seq<Member>): (r: seq<Member>)
    ensures forall x :: x in r <==> x == m || x in ms
    ensures |r| == |ms| + 1
  {
    if ms == [] || Before(m.relativePath, ms[0].relativePath) then [m] + ms
    else
      assert ms == [ms[0]] + ms[1..];
      [ms[0]] + Insert(m, ms[1..])
  }

  /** `sorted(members, key=relative_path)` */
  function SortMembers(ms: seq<Member>): (r: seq<Member>)
    ensures forall x :: x in r <==> x in ms
    ensures |r| == |ms|
  {
    if ms == [] then []
    else
      assert ms == [ms[0]] + ms[1..];
      Insert(ms[0], SortMembers(ms[1..]))
  }

  function Keys(ms: seq<Member>): (r: seq<string>)
    ensures |r| == |ms| && forall i | 0 <= i < |ms| :: r[i] == ms[i].relativePath
  {
    seq(|ms|, i requires 0 <= i < |ms| => ms[i].relativePath)
  }

  predicate DistinctKeys(ms: seq<Member>) {
    forall i, j | 0 <= i < j < |ms| :: ms[i].relativePath != ms[j].relativePath
  }

  lemma {:induction false} InsertKeepsOrder(m: Member, ms: seq<Member>)
    requires Ascending(Keys(ms)) && forall x | x in ms :: x.relativePath != m.relativePath
    ensures Ascending(Keys(Insert(m, ms)))
  {
    if ms != [] {
      BeforeTrichotomy(m.relativePath, ms[0].relativePath);
      if Before(m.relativePath, ms[0].relativePath) {
        forall i | 0 < i < |ms| ensures Before(m.relativePath, ms[i].relativePath) {
          assert Before(Keys(ms)[0], Keys(ms)[i]);
          BeforeTransitive(m.relativePath, ms[0].relativePath, ms[i].relativePath);
        }
        var r := [m] + ms;
        forall i, j | 0 <= i < j < |r| ensures Before(Keys(r)[i], Keys(r)[j]) {
          if i > 0 {
            assert Before(Keys(ms)[i - 1], Keys(ms)[j - 1]);
          }
        }
      } else {
        forall i, j | 0 <= i < j < |ms| - 1 ensures Before(Keys(ms[1..])[i], Keys(ms[1..])[j]) {
          assert Before(Keys(ms)[i + 1], Keys(ms)[j + 1]);
        }
        InsertKeepsOrder(m, ms[1..]);
        var tail := Insert(m, ms[1..]);
        forall j | 0 <= j < |tail| ensures Before(ms[0].relativePath, tail[j].relativePath) {
          assert tail[j] in tail;
          if tail[j] in ms[1..] {
            var k :| 1 <= k < |ms| && ms[k] == tail[j];
            assert Before(Keys(ms)[0], Keys(ms)[k]);
          }
        }
        var r := [ms[0]] + tail;
        forall i, j | 0 <= i < j < |r| ensures Before(Keys(r)[i], Keys(r)[j]) {
          if i > 0 {
            assert Before(Keys(tail)[i - 1], Keys(tail)[j - 1]);
          }
        }
      }
    }
  }

  lemma {:induction false} SortOrders(ms: seq<Member>)
    requires DistinctKeys(ms)
    ensures Ascending(Keys(SortMembers(ms)))
  {
    if ms != [] {
      SortOrders(ms[1..]);
      forall x | x in SortMembers(ms[1..]) ensures x.relativePath != ms[0].relativePath {
        var k :| 1 <= k < |ms| && ms[k] == x;
      }
      InsertKeepsOrder(ms[0], SortMembers(ms[1..]));
    }
  }

  /** Members in ascending order of path are fixed by which members there are. */
  lemma {:induction false} OrderedMembersAreUnique(a: seq<Member>, b: seq<Member>)
    requires Ascending(Keys(a)) && Ascending(Keys(b))
    requires forall x :: x in a <==> x in b
    ensures a == b
  {
    forall k ensures k in Keys(a) <==> k in Keys(b) {
      if k in Keys(a) {
        var i :| 0 <= i < |a| && Keys(a)[i] == k;
        assert a[i] in b;
      }
      if k in Keys(b) {
        var i :| 0 <= i < |b| && Keys(b)[i] == k;
        assert b[i] in a;
      }
    }
    AscendingIsUnique(Keys(a), Keys(b));
    AscendingIsDistinct(Keys(a));
    forall i | 0 <= i < |a| ensures a[i] == b[i] {
      assert a[i] in b;
      var j :| 0 <= j < |b| && b[j] == a[i];
      assert Keys(a)[i] == Keys(b)[j] == Keys(a)[j];
    }
  }

  // ----- the inventory -----------------------------------------------------------------

  /** The members that `inventory_candidate` collects, or `None` where it raises. */
  function Inventory(fs: FileSystem, p: Path): Option<seq<Member>>
    requires WellFormed(fs)
  {
    if p !in fs || !fs[p].Plain() then None
    else
      DescendantsListsBelow(fs, p);
      var root := MemberOf(fs[p], ".");
      var inner := if fs[p].Directory? then Descendants(fs, p) else Some([]);
      if root.None? || inner.None? then None
      else
        var members := MembersAt(fs, p, inner.value);
        if members.None? then None else Some([root.value] + SortMembers(members.value))
  }

  /** What an inventory lists: the root first, then every entry below it once, in path order. */
  ghost predicate Inventories(fs: FileSystem, p: Path, ms: seq<Member>)
    requires WellFormed(fs)
  {
    && p in fs && fs[p].Plain()
    && ms != [] && Some(ms[0]) == MemberOf(fs[p], ".")
    && Ascending(Keys(ms[1..]))
    && (forall x | x in Below(fs, p) :: fs[x].Plain() && exists m | m in ms[1..] :: Some(m) == MemberOf(fs[x], Relative(x[|p|..])))
    && (forall m | m in ms[1..] :: exists x | x in Below(fs, p) :: fs[x].Plain() && Some(m) == MemberOf(fs[x], Relative(x[|p|..])))
  }

  lemma DescendantsKeysDistinct(fs: FileSystem, p: Path, paths: seq<Path>)
    requires WellFormed(fs) && Distinct(paths)
    requires forall x | x in paths :: x in fs && fs[x].Plain() && p <= x
    requires MembersAt(fs, p, paths).Some?
    ensures DistinctKeys(MembersAt(fs, p, paths).value)
  {
    MembersAtEach(fs, p, paths);
    var ms := MembersAt(fs, p, paths).value;
    forall i, j | 0 <= i < j < |ms| ensures ms[i].relativePath != ms[j].relativePath {
      var a, b := paths[i], paths[j];
      assert a in paths && b in paths && a != b;
      RelativeParts(fs, p, a);
      RelativeParts(fs, p, b);
      if Relative(a[|p|..]) == Relative(b[|p|..]) {
        RelativeIsInjective(a[|p|..], b[|p|..]);
      }
    }
  }

  lemma RelativeParts(fs: FileSystem, p: Path, x: Path)
    requires WellFormed(fs) && x in fs && p <= x
    ensures ValidPath(x[|p|..]) && x == p + x[|p|..]
  {
    assert ValidPath(x);
  }

  /** The inventory is a sorted, complete and duplicate-free account of the subtree. */
  lemma InventoryIsComplete(fs: FileSystem, p: Path)
    requires WellFormed(fs) && Inventory(fs, p).Some?
    ensures Inventories(fs, p, Inventory(fs, p).value)
  {
    DescendantsListsBelow(fs, p);
    if !fs[p].Directory? {
      NothingBelowFile(fs, p);
    }
    var paths := if fs[p].Directory? then Descendants(fs, p).value else [];
    var ms := MembersAt(fs, p, paths).value;
    var result := Inventory(fs, p).value;
    assert result[1..] == SortMembers(ms);
    MembersAtEach(fs, p, paths);
    DescendantsKeysDistinct(fs, p, paths);
    SortOrders(ms);
    forall x | x in Below(fs, p)
      ensures fs[x].Plain() && exists m | m in result[1..] :: Some(m) == MemberOf(fs[x], Relative(x[|p|..]))
    {
      var i :| 0 <= i < |paths| && paths[i] == x;
      assert ms[i] in ms && ms[i] in result[1..];
    }
    forall m | m in result[1..]
      ensures exists x | x in Below(fs, p) :: fs[x].Plain() && Some(m) == MemberOf(fs[x], Relative(x[|p|..]))
    {
      assert m in ms;
      var i :| 0 <= i < |ms| && ms[i] == m;
      assert paths[i] in paths;
    }
  }

  /** An inventory is refused exactly when the subtree holds something other than files and directories, or a negative time. */
  lemma InventoryIsDefined(fs: FileSystem, p: Path)
    requires WellFormed(fs)
    ensures Inventory(fs, p).Some? <==> Inventoriable(Subtree(fs, p))
  {
    var t := Subtree(fs, p);
    assert p + [] == p;
    DescendantsListsBelow(fs, p);
    forall x | x in Below(fs, p) ensures x[|p|..] in t && t[x[|p|..]] == fs[x] {
      assert p + x[|p|..] == x;
    }
    forall q | q in t && q != [] ensures p + q in Below(fs, p) {
    }
    if p in fs && fs[p].Plain() {
      if !fs[p].Directory? {
        NothingBelowFile(fs, p);
      }
      var inner := if fs[p].Directory? then Descendants(fs, p) else Some([]);
      if inner.Some? {
        MembersAtEach(fs, p, inner.value);
      }
    }
  }

  /** One inventory describes at most one tree: contents, kinds, modes and times of every entry. */
  lemma InventoriesAreFaithful(fs: FileSystem, p: Path, gs: FileSystem, r: Path, ms: seq<Member>)
    requires WellFormed(fs) && WellFormed(gs)
    requires Inventories(fs, p, ms) && Inventories(gs, r, ms)
    ensures Subtree(fs, p) == Subtree(gs, r)
  {
    InventoryDeterminesEntries(fs, p, gs, r, ms);
    InventoryDeterminesEntries(gs, r, fs, p, ms);
    var t, u := Subtree(fs, p), Subtree(gs, r);
    forall q ensures q in t <==> q in u {
      if q in t {
        assert p + q in fs;
      }
      if q in u {
        assert r + q in gs;
      }
    }
    forall q | q in t ensures t[q] == u[q] {
      assert p + q in fs;
    }
  }

  lemma InventoryDeterminesEntries(fs: FileSystem, p: Path, gs: FileSystem, r: Path, ms: seq<Member>)
    requires WellFormed(fs) && WellFormed(gs)
    requires Inventories(fs, p, ms) && Inventories(gs, r, ms)
    ensures forall q | p + q in fs :: r + q in gs && gs[r + q] == fs[p + q]
  {
    forall q | p + q in fs ensures r + q in gs && gs[r + q] == fs[p + q] {
      if q == [] {
        assert p + q == p && r + q == r;
        MemberDeterminesEntry(fs[p], gs[r], ".", ".");
      } else {
        var x := p + q;
        assert x in Below(fs, p) && x[|p|..] == q;
        var m :| m in ms[1..] && Some(m) == MemberOf(fs[x], Relative(q));
        var y :| y in Below(gs, r) && gs[y].Plain() && Some(m) == MemberOf(gs[y], Relative(y[|r|..]));
        MemberDeterminesEntry(fs[x], gs[y], Relative(q), Relative(y[|r|..]));
        RelativeParts(fs, p, x);
        RelativeParts(gs, r, y);
        RelativeIsInjective(q, y[|r|..]);
      }
    }
  }

  /** Two subtrees have the same inventory exactly when they are the same tree and can be inventoried at all. */
  lemma SameInventoryMeansSameTree(fs: FileSystem, p: Path, gs: FileSystem, r: Path)
    requires WellFormed(fs) && WellFormed(gs)
    requires Inventory(fs, p).Some?
    ensures Inventory(fs, p) == Inventory(gs, r) <==> Subtree(fs, p) == Subtree(gs, r)
  {
    InventoryIsComplete(fs, p);
    InventoryIsDefined(fs, p);
    InventoryIsDefined(gs, r);
    var ms := Inventory(fs, p).value;
    if Inventory(gs, r) == Some(ms) {
      InventoryIsComplete(gs, r);
      InventoriesAreFaithful(fs, p, gs, r, ms);
    }
    if Subtree(fs, p) == Subtree(gs, r) {
      InventoryIsComplete(gs, r);
      var ns := Inventory(gs, r).value;
      SameTreeSameMembers(fs, p, gs, r, ms, ns);
      SameTreeSameMembers(gs, r, fs, p, ns, ms);
      OrderedMembersAreUnique(ms[1..], ns[1..]);
      assert p + [] == p && r + [] == r;
      assert [] in Subtree(fs, p);
      assert ms == [ms[0]] + ms[1..] && ns == [ns[0]] + ns[1..];
    }
  }

  lemma SameTreeSameMembers(fs: FileSystem, p: Path, gs: FileSystem, r: Path, ms: seq<Member>, ns: seq<Member>)
    requires WellFormed(fs) && WellFormed(gs)
    requires Inventories(fs, p, ms) && Inventories(gs, r, ns)
    requires Subtree(fs, p) == Subtree(gs, r)
    ensures forall m | m in ms[1..] :: m in ns[1..]
  {
    forall m | m in ms[1..] ensures m in ns[1..] {
      var x :| x in Below(fs, p) && fs[x].Plain() && Some(m) == MemberOf(fs[x], Relative(x[|p|..]));
      var q := x[|p|..];
      assert x == p + q;
      assert q in Subtree(fs, p);
      assert r + q in Below(gs, r) && (r + q)[|r|..] == q;
    }
  }

  // ----- candidates --------------------------------------------------------------------

  function FileBytes(ms: seq<Member>): nat {
    if ms == [] then 0 else (if ms[0].kind.FileKind? then ms[0].byteLength else 0) + FileBytes(ms[1..])
  }

  // ----- the bytes of a tree -----------------------------------------------------------

  function Size(e: Entry): nat {
    if e.File? then |e.content| else 0
  }

  /** The bytes of the files among these entries. */
  ghost function BytesOf(fs: FileSystem, paths: set<Path>): nat
    requires paths <= fs.Keys
  {
    if paths == {} then 0
    else
      var x :| x in paths;
      Size(fs[x]) + BytesOf(fs, paths - {x})
  }

  lemma {:induction false} BytesWithout(fs: FileSystem, paths: set<Path>, x: Path)
    requires paths <= fs.Keys && x in paths
    ensures BytesOf(fs, paths) == Size(fs[x]) + BytesOf(fs, paths - {x})
    decreases |paths|
  {
    var y :| y in paths && BytesOf(fs, paths) == Size(fs[y]) + BytesOf(fs, paths - {y});
    if y != x {
      BytesWithout(fs, paths - {y}, x);
      BytesWithout(fs, paths - {x}, y);
      assert paths - {y} - {x} == paths - {x} - {y};
    }
  }

  lemma {:induction false} InsertBytes(m: Member, ms: seq<Member>)
    ensures FileBytes(Insert(m, ms)) == FileBytes([m]) + FileBytes(ms)
  {
    if ms != [] && !Before(m.relativePath, ms[0].relativePath) {
      InsertBytes(m, ms[1..]);
    }
  }

  lemma {:induction false} SortBytes(ms: seq<Member>)
    ensures FileBytes(SortMembers(ms)) == FileBytes(ms)
  {
    if ms != [] {
      SortBytes(ms[1..]);
      InsertBytes(ms[0], SortMembers(ms[1..]));
    }
  }

  lemma {:induction false} ListedBytes(fs: FileSystem, p: Path, paths: seq<Path>)
    requires Distinct(paths) && forall x | x in paths :: x in fs && fs[x].Plain() && p <= x
    requires MembersAt(fs, p, paths).Some?
    ensures FileBytes(MembersAt(fs, p, paths).value) == BytesOf(fs, set x | x in paths)
  {
    if paths != [] {
      ListedBytes(fs, p, paths[1..]);
      var all, rest := set x | x in paths, set x | x in paths[1..];
      assert paths[0] in paths;
      assert all - {paths[0]} == rest;
      BytesWithout(fs, all, paths[0]);
    }
  }

  /** An inventory's sum is that of the files in the tree. */
  lemma InventoryBytes(fs: FileSystem, p: Path)
    requires WellFormed(fs) && Inventory(fs, p).Some?
    ensures FileBytes(Inventory(fs, p).value) == BytesOf(fs, set x | x in fs && p <= x)
  {
    DescendantsListsBelow(fs, p);
    if !fs[p].Directory? {
      NothingBelowFile(fs, p);
    }
    var paths := if fs[p].Directory? then Descendants(fs, p).value else [];
    var ms := MembersAt(fs, p, paths).value;
    ListedBytes(fs, p, paths);
    SortBytes(ms);
    var all := set x | x in fs && p <= x;
    forall x ensures x in all - {p} <==> x in paths {
      if p <= x && |p| == |x| {
        assert x == x[..|p|] == p;
      }
      assert x in all - {p} <==> x in Below(fs, p);
    }
    assert all - {p} == set x | x in paths;
    BytesWithout(fs, all, p);
  }

  /** `ArchiveCandidate.__post_init__`, apart from the shape of the source path. */
  predicate ValidCandidate(c: Candidate) {
    && c.name != "" && '/' !in c.name && c.name !in {".", ".."}
    && c.members != []
    && c.members[0].relativePath == "."
    && (forall i, j | 0 <= i < j < |c.members| ::
          c.members[i].relativePath == "."
          || (c.members[j].relativePath != "."
              && (c.members[i].relativePath == c.members[j].relativePath
                  || Before(c.members[i].relativePath, c.members[j].relativePath))))
    && DistinctKeys(c.members)
    && c.byteLength == FileBytes(c.members)
    && c.fingerprint == Sha256OfMembers(c.members)
    && c.mode == c.members[0].mode
    && c.mtime == c.members[0].mtime
  }

  function Freeze(p: Path, name: string, ms: seq<Member>): Candidate
    requires ms != []
  {
    Candidate(p, name, FileBytes(ms), Sha256OfMembers(ms), ms[0].mode, ms[0].mtime, ms)
  }

  /** `inventory_candidate` */
  function InventoryCandidate(fs: FileSystem, p: Path, name: string): Option<Candidate>
    requires WellFormed(fs)
  {
    var ms := Inventory(fs, p);
    if ms.None? || !ValidCandidate(Freeze(p, name, ms.value)) then None
    else Some(Freeze(p, name, ms.value))
  }

  lemma RootFirstIsValid(p: Path, name: string, ms: seq<Member>)
    requires name != "" && '/' !in name && name !in {".", ".."}
    requires ms != [] && ms[0].relativePath == "." && Ascending(Keys(ms[1..]))
    requires forall m | m in ms[1..] :: m.relativePath != "."
    ensures ValidCandidate(Freeze(p, name, ms))
  {
    AscendingIsDistinct(Keys(ms[1..]));
    forall j | 1 <= j < |ms| ensures ms[j].relativePath != "." {
      assert ms[j] in ms[1..];
    }
    forall i, j | 1 <= i < j < |ms|
      ensures Before(ms[i].relativePath, ms[j].relativePath) && ms[i].relativePath != ms[j].relativePath
    {
      assert Before(Keys(ms[1..])[i - 1], Keys(ms[1..])[j - 1]);
      assert Keys(ms[1..])[i - 1] != Keys(ms[1..])[j - 1];
    }
  }

  /** The candidate's own ordering, uniqueness and sum checks never refuse an inventory that was taken. */
  lemma InventoryPassesItsChecks(fs: FileSystem, p: Path, name: string)
    requires WellFormed(fs) && Inventory(fs, p).Some?
    requires name != "" && '/' !in name && name !in {".", ".."}
    ensures InventoryCandidate(fs, p, name) == Some(Freeze(p, name, Inventory(fs, p).value))
    ensures var c := InventoryCandidate(fs, p, name).value;
            && c.source == p && c.name == name && c.mode == fs[p].mode && c.mtime == fs[p].mtime
            && c.byteLength == BytesOf(fs, set x | x in fs && p <= x)
            && c.members == Inventory(fs, p).value && c.fingerprint == Sha256OfMembers(c.members)
  {
    InventoryIsComplete(fs, p);
    InventoryBytes(fs, p);
    var ms := Inventory(fs, p).value;
    forall m | m in ms[1..] ensures m.relativePath != "." {
      var x :| x in Below(fs, p) && fs[x].Plain() && Some(m) == MemberOf(fs[x], Relative(x[|p|..]));
      RelativeParts(fs, p, x);
      RootNameIsReserved(x[|p|..]);
    }
    RootFirstIsValid(p, name, ms);
  }

  /** `_matches_inventory` */
  predicate Matches(c: Candidate, fs: FileSystem, p: Path)
    requires WellFormed(fs)
  {
    var observed := InventoryCandidate(fs, p, c.name);
    && observed.Some?
    && observed.value.byteLength == c.byteLength
    && observed.value.fingerprint == c.fingerprint
    && observed.value.mode == c.mode
    && observed.value.mtime == c.mtime
    && observed.value.members == c.members
  }

  /** A readback matches exactly when the tree there is the tree that was inventoried. */
  lemma MatchesMeansSameTree(c: Candidate, fs: FileSystem, p: Path, original: FileSystem)
    requires WellFormed(fs) && WellFormed(original)
    requires InventoryCandidate(original, c.source, c.name) == Some(c)
    ensures Matches(c, fs, p) <==> Subtree(fs, p) == Subtree(original, c.source)
  {
    SameInventoryMeansSameTree(original, c.source, fs, p);
    if Inventory(fs, p) == Inventory(original, c.source) {
      InventoryPassesItsChecks(fs, p, c.name);
    }
  }
}
