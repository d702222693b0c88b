/** The two whole-tree edits a faithful host makes, and where they reach. */
module ArchiveEdits {
  import opened ArchiveTree
  import opened ArchiveInventory
  import opened ArchiveCleanup
  import opened ArchiveRuns

  /** Everything outside the subtree at `p`. */
  function Cut(fs: FileSystem, p: Path): FileSystem {
    map x | x in fs && !(p <= x) :: fs[x]
  }

  /** The tree `t` put at `p`, in place of whatever was there. */
  function Graft(fs: FileSystem, p: Path, t: map<Path, Entry>): FileSystem {
    Cut(fs, p) + map x | x in (set q | q in t.Keys :: p + q) && p <= x && x[|p|..] in t :: t[x[|p|..]]
  }

  lemma ParentOutside(p: Path, x: Path)
    requires x != [] && !(p <= x)
    ensures !(p <= x[..|x| - 1])
  {
    var parent := x[..|x| - 1];
    if p <= parent {
      PrefixOfPrefix(p, parent, x);
    }
  }

  lemma CutChanges(fs: FileSystem, p: Path)
    requires WellFormed(fs) && p != []
    ensures WellFormed(Cut(fs, p)) && ChangedOnly(fs, Cut(fs, p), {p}) && Shrunk(fs, Cut(fs, p), p)
    ensures p !in Cut(fs, p)
  {
    var gs := Cut(fs, p);
    forall x | x in gs ensures Hangs(gs, x) && ValidPath(x) {
      assert Hangs(fs, x) && ValidPath(x);
      if x != [] {
        ParentOutside(p, x);
      }
    }
    forall x | Clear(x, {p}) ensures SameEntry(fs, gs, x) {
      OverlapIsPrefix(x, p);
    }
  }

  lemma GraftAt(fs: FileSystem, p: Path, t: map<Path, Entry>, q: Path)
    ensures p + q in Graft(fs, p, t) <==> q in t
    ensures q in t ==> Graft(fs, p, t)[p + q] == t[q]
  {
    assert p <= p + q && (p + q)[|p|..] == q;
  }

  lemma GraftBeside(fs: FileSystem, p: Path, t: map<Path, Entry>, x: Path)
    requires !(p <= x)
    ensures SameEntry(fs, Graft(fs, p, t), x)
  {
  }

  lemma GraftHolds(fs: FileSystem, p: Path, t: map<Path, Entry>)
    ensures Subtree(Graft(fs, p, t), p) == t
    ensures forall x | !(p <= x) :: SameEntry(fs, Graft(fs, p, t), x)
    ensures ChangedOnly(fs, Graft(fs, p, t), {p})
  {
    hide Graft, SameEntry;
    var gs := Graft(fs, p, t);
    forall q ensures q in Subtree(gs, p) <==> q in t {
      GraftAt(fs, p, t, q);
    }
    forall q | q in t ensures Subtree(gs, p)[q] == t[q] {
      GraftAt(fs, p, t, q);
    }
    forall x | !(p <= x) ensures SameEntry(fs, gs, x) {
      GraftBeside(fs, p, t, x);
    }
    forall x | Clear(x, {p}) ensures SameEntry(fs, gs, x) {
      OverlapIsPrefix(x, p);
    }
  }

  /** A well-formed tree grafted under a directory leaves the file system well-formed. */
  lemma GraftIsWellFormed(fs: FileSystem, p: Path, source: FileSystem, s: Path)
    requires WellFormed(fs) && WellFormed(source) && s in source
    requires p != [] && ValidPath(p) && p[..|p| - 1] in fs && fs[p[..|p| - 1]].Directory?
    ensures WellFormed(Graft(fs, p, Subtree(source, s)))
  {
    var t := Subtree(source, s);
    var gs := Graft(fs, p, t);
    GraftHolds(fs, p, t);
    forall x | x in gs ensures Hangs(gs, x) && ValidPath(x) && (gs[x].Plain() ==> gs[x].mode <= MAX_MODE) {
      if p <= x {
        var q := x[|p|..];
        assert x == p + q && q in Subtree(gs, p);
        GraftedEntry(fs, p, source, s, q);
      } else {
        assert SameEntry(fs, gs, x);
        assert Hangs(fs, x) && ValidPath(x);
        if x != [] {
          ParentOutside(p, x);
          assert SameEntry(fs, gs, x[..|x| - 1]);
        }
      }
    }
  }

  lemma GraftedEntry(fs: FileSystem, p: Path, source: FileSystem, s: Path, q: Path)
    requires WellFormed(fs) && WellFormed(source) && q in Subtree(source, s)
    requires p != [] && ValidPath(p) && p[..|p| - 1] in fs && fs[p[..|p| - 1]].Directory?
    ensures var gs := Graft(fs, p, Subtree(source, s));
            p + q in gs && gs[p + q] == source[s + q] && Hangs(gs, p + q) && ValidPath(p + q)
            && (gs[p + q].Plain() ==> gs[p + q].mode <= MAX_MODE)
  {
    var t := Subtree(source, s);
    var gs := Graft(fs, p, t);
    GraftHolds(fs, p, t);
    assert q in Subtree(gs, p);
    assert s + q in source;
    assert Hangs(source, s + q) && ValidPath(s + q);
    forall i | 0 <= i < |p + q| ensures ValidName((p + q)[i]) {
      if i >= |p| {
        assert (p + q)[i] == (s + q)[i - |p| + |s|];
      }
    }
    if q == [] {
      assert p + q == p;
      assert !(p <= p[..|p| - 1]);
      assert SameEntry(fs, gs, p[..|p| - 1]);
    } else {
      var r := q[..|q| - 1];
      assert (s + q)[..|s + q| - 1] == s + r && (p + q)[..|p + q| - 1] == p + r;
      assert r in t;
      assert r in Subtree(gs, p);
    }
  }

  /** The rename of a finished temporary. */
  function RenameTo(fs: FileSystem, p: Path, q: Path): FileSystem {
    Graft(Cut(fs, p), q, Subtree(fs, p))
  }

  lemma RenameIsAllowed(plan: Plan, fs: FileSystem, c: Candidate)
    requires ValidPlan(plan) && WellFormed(fs) && c in plan.candidates && Temporary(plan, c) in fs
    ensures var gs := RenameTo(fs, Temporary(plan, c), Target(plan, c));
            && WellFormed(gs) && Renamed(fs, gs, Temporary(plan, c), Target(plan, c))
            && Items(plan) in gs && gs[Items(plan)].Directory?
  {
    var p, q := Temporary(plan, c), Target(plan, c);
    var cut := Cut(fs, p);
    var gs := RenameTo(fs, p, q);
    CutChanges(fs, p);
    assert Hangs(fs, p);
    assert p[..|p| - 1] == Items(plan) == q[..|q| - 1];
    assert !(p <= Items(plan));
    assert ValidPath(q) by {
      assert ValidPath(p);
      forall i | 0 <= i < |q| ensures ValidName(q[i]) {
        assert i < |p| - 1 ==> q[i] == p[i];
      }
    }
    GraftIsWellFormed(cut, q, fs, p);
    GraftHolds(cut, q, Subtree(fs, p));
    SiblingsApart(plan, c.name, "." + c.name + ".tmp");
    OverlapIsPrefix(p, q);
    OverlapIsPrefix(q, p);
    assert SameEntry(cut, gs, p);
    forall x | Clear(x, {p, q}) ensures SameEntry(fs, gs, x) {
      assert !Overlaps(x, p) && !Overlaps(x, q);
      OverlapIsPrefix(x, p);
      OverlapIsPrefix(x, q);
      assert SameEntry(cut, gs, x);
    }
    assert !(q <= Items(plan));
    assert SameEntry(cut, gs, Items(plan));
  }

  lemma TemporaryIsPath(plan: Plan, c: Candidate)
    requires ValidPlan(plan) && c in plan.candidates && ValidPath(Items(plan))
    ensures ValidPath(Temporary(plan, c)) && Temporary(plan, c) != []
    ensures Temporary(plan, c)[..|Temporary(plan, c)| - 1] == Items(plan)
    ensures !(Temporary(plan, c) <= Items(plan))
  {
    assert ValidCandidate(c);
    assert '/' !in "." + c.name + ".tmp" by {
      assert '/' !in ".tmp";
    }
  }

  lemma CopyIsAllowed(plan: Plan, fs: FileSystem, c: Candidate)
    requires ValidPlan(plan) && WellFormed(fs) && c in plan.candidates && c.source in fs
    requires Items(plan) in fs && fs[Items(plan)].Directory?
    ensures var gs := Graft(fs, Temporary(plan, c), Subtree(fs, c.source));
            && WellFormed(gs) && ChangedOnly(fs, gs, {Temporary(plan, c)})
            && Subtree(gs, Temporary(plan, c)) == Subtree(fs, c.source)
            && Temporary(plan, c) in gs
            && Items(plan) in gs && gs[Items(plan)].Directory?
  {
    hide ValidPlan, Graft, ValidCandidate, Temporary, Items;
    var p := Temporary(plan, c);
    var t := Subtree(fs, c.source);
    var gs := Graft(fs, p, t);
    assert ValidPath(Items(plan));
    TemporaryIsPath(plan, c);
    GraftIsWellFormed(fs, p, fs, c.source);
    GraftHolds(fs, p, t);
    assert c.source + [] == c.source && p + [] == p;
    assert [] in t;
    assert [] in Subtree(gs, p);
    assert SameEntry(fs, gs, Items(plan));
  }
}
