/**
 What the archive tool's state file says and what each of its moves does, entry by entry
 (tools/hk_v1_archive_cleanup.py:546-724).
 */
module ArchiveStory {
  import opened Wrappers
  import opened Ordering
  import opened ArchiveTree
  import opened ArchiveInventory
  import opened ArchiveCleanup

  // ----- members -----------------------------------------------------------------------

  /** The member of an entry: its name, kind, length, content digest, permission bits and time. */
  predicate Describes(m: Member, e: Entry, name: string) {
    && m.relativePath == name
    && match e
       case File(content, mode, mtime) =>
         m.kind == FileKind && m.byteLength == |content| && m.fingerprint == Sha256(content) && m.mode == mode && m.mtime == mtime
       case Directory(mode, mtime) =>
         m.kind == DirectoryKind && m.byteLength == 0 && m.fingerprint == Sha256([]) && m.mode == mode && m.mtime == mtime
       case _ => false
  }

  lemma MemberDescribes(e: Entry, name: string)
    requires e.Plain()
    ensures MemberOf(e, name).Some? <==> e.mtime >= 0 && e.mode <= 0xFFF
    ensures MemberOf(e, name).Some? ==> Describes(MemberOf(e, name).value, e, name)
  {
  }

  /** Some member describes the entry at this relative path. */
  predicate Listed(ms: seq<Member>, fs: FileSystem, p: Path, q: Path) {
    p + q in fs && exists i | 1 <= i < |ms| :: Describes(ms[i], fs[p + q], Relative(q))
  }

  /** The member describes some entry below the root. */
  ghost predicate Real(m: Member, fs: FileSystem, p: Path) {
    exists q :: q != [] && p + q in fs && Describes(m, fs[p + q], Relative(q))
  }

  lemma EntryIsListed(fs: FileSystem, p: Path, ms: seq<Member>, q: Path)
    requires WellFormed(fs) && Inventories(fs, p, ms) && q != [] && p + q in fs
    ensures Listed(ms, fs, p, q)
  {
    hide Describes, MemberOf, Relative;
    var x := p + q;
    assert x in Below(fs, p) && x[|p|..] == q;
    var m :| m in ms[1..] && Some(m) == MemberOf(fs[x], Relative(x[|p|..]));
    MemberDescribes(fs[x], Relative(q));
    var i :| 1 <= i < |ms| && ms[i] == m;
  }

  lemma MemberIsReal(fs: FileSystem, p: Path, ms: seq<Member>, i: nat)
    requires WellFormed(fs) && Inventories(fs, p, ms) && 1 <= i < |ms|
    ensures Real(ms[i], fs, p)
  {
    hide Describes, MemberOf, Relative;
    assert ms[i] in ms[1..];
    var x :| x in Below(fs, p) && fs[x].Plain() && Some(ms[i]) == MemberOf(fs[x], Relative(x[|p|..]));
    var q := x[|p|..];
    assert x == p + q && |q| > 0;
    MemberDescribes(fs[x], Relative(q));
  }

  /** An inventory begins with the root as `.`, and holds a member for each entry below it under its relative name, and no other. */
  lemma InventoryDescribes(fs: FileSystem, p: Path)
    requires WellFormed(fs) && Inventory(fs, p).Some?
    ensures var ms := Inventory(fs, p).value;
            && ms != [] && p in fs && Describes(ms[0], fs[p], ".")
            && (forall q | q != [] && p + q in fs :: Listed(ms, fs, p, q))
            && (forall i | 1 <= i < |ms| :: Real(ms[i], fs, p))
            && (forall i, j | 1 <= i < j < |ms| :: Before(ms[i].relativePath, ms[j].relativePath))
  {
    hide Inventory, Describes, MemberOf, Relative, Listed, Real;
    InventoryIsComplete(fs, p);
    var ms := Inventory(fs, p).value;
    MemberDescribes(fs[p], ".");
    forall q | q != [] && p + q in fs ensures Listed(ms, fs, p, q) {
      EntryIsListed(fs, p, ms, q);
    }
    forall i | 1 <= i < |ms| ensures Real(ms[i], fs, p) {
      MemberIsReal(fs, p, ms, i);
    }
    forall i, j | 1 <= i < j < |ms| ensures Before(ms[i].relativePath, ms[j].relativePath) {
      assert Before(Keys(ms[1..])[i - 1], Keys(ms[1..])[j - 1]);
    }
  }

  // ----- candidates --------------------------------------------------------------------

  /** A name that is one path part, the root first and then members in strict order of name, and their sum, seal, mode and time. */
  predicate CandidateHolds(c: Candidate) {
    && c.name != "" && c.name != "." && c.name != ".." && '/' !in c.name
    && c.members != [] && c.members[0].relativePath == "."
    && (forall i | 1 <= i < |c.members| :: c.members[i].relativePath != ".")
    && (forall i, j | 1 <= i < j < |c.members| :: Before(c.members[i].relativePath, c.members[j].relativePath))
    && c.byteLength == FileBytes(c.members)
    && c.fingerprint == Sha256OfMembers(c.members)
    && c.mode == c.members[0].mode && c.mtime == c.members[0].mtime
  }

  /** The checks of a loaded candidate come to this. */
  lemma CandidateChecks(c: Candidate)
    ensures ValidCandidate(c) <==> CandidateHolds(c)
  {
    hide FileBytes, Before;
    var ms := c.members;
    forall a: string, b: string ensures Before(a, b) ==> a != b {
      BeforeTrichotomy(a, b);
    }
    if ValidCandidate(c) {
      forall i | 1 <= i < |ms| ensures ms[i].relativePath != "." {
        assert ms[0].relativePath != ms[i].relativePath;
      }
    }
  }

  /** A path matches a candidate exactly if inventorying it gives that very candidate, but for where it was taken. */
  lemma MatchesIs(c: Candidate, fs: FileSystem, p: Path)
    requires WellFormed(fs)
    ensures Matches(c, fs, p) <==> InventoryCandidate(fs, p, c.name) == Some(c.(source := p))
  {
    hide Inventory, ValidCandidate, FileBytes;
  }

  // ----- the state file ----------------------------------------------------------------

  predicate NoRepeats(names: seq<string>) {
    forall i, j | 0 <= i < |names| && 0 <= j < |names| && names[i] == names[j] :: i == j
  }

  /** No file, or one that fits and lists planned names once each, the deleted ones among the copied. */
  predicate Readable(plan: Plan, journal: Journal) {
    match journal
    case NoJournal => true
    case Broken => false
    case Checkpoint(copied, deleted) =>
      && plan.size(journal) <= 5_000_000
      && NoRepeats(copied) && NoRepeats(deleted)
      && (forall name | name in deleted :: name in copied)
      && (forall name | name in copied :: exists c | c in plan.candidates :: c.name == name)
  }

  lemma NamesAre(plan: Plan, names: seq<string>)
    ensures Elements(names) <= Names(plan) <==> forall name | name in names :: exists c | c in plan.candidates :: c.name == name
  {
    if Elements(names) <= Names(plan) {
      forall name | name in names ensures exists c | c in plan.candidates :: c.name == name {
        assert name in Elements(names);
        assert name in Names(plan);
      }
    }
  }

  /** A state file is gone on from exactly if it is readable, and then with the names that it lists. */
  lemma StateReads(plan: Plan, journal: Journal)
    ensures Fits(plan, journal) && ReadState(plan, journal).Some? <==> Readable(plan, journal)
    ensures journal.Checkpoint? && Readable(plan, journal) ==>
              var (copied, deleted) := ReadState(plan, journal).value;
              && (forall name :: name in copied <==> name in journal.copied)
              && (forall name :: name in deleted <==> name in journal.deleted)
    ensures journal.NoJournal? ==> ReadState(plan, journal) == Some(({}, {}))
  {
    if journal.Checkpoint? {
      NamesAre(plan, journal.copied);
      assert Elements(journal.deleted) <= Elements(journal.copied) <==> forall name | name in journal.deleted :: name in journal.copied by {
        if Elements(journal.deleted) <= Elements(journal.copied) {
          forall name | name in journal.deleted ensures name in journal.copied {
            assert name in Elements(journal.deleted);
          }
        }
      }
    }
  }

  /** What is written lists both sets in order, and reads back as they are where it fits. */
  lemma StateIsWritten(plan: Plan, copied: set<string>, deleted: set<string>)
    requires deleted <= copied <= Names(plan)
    ensures var journal := CopiedState(plan, copied, deleted);
            && journal.Checkpoint? && Ascending(journal.copied) && Ascending(journal.deleted)
            && (forall name :: name in journal.copied <==> name in copied) && (forall name :: name in journal.deleted <==> name in deleted)
            && ReadState(plan, journal) == Some((copied, deleted))
  {
    assert Elements(Ordered(copied)) == copied && Elements(Ordered(deleted)) == deleted;
  }

  // ----- the moves ---------------------------------------------------------------------

  /** The entry at this path is the same in both, or in neither. */
  predicate Kept(fs: FileSystem, gs: FileSystem, x: Path) {
    (x in gs) == (x in fs) && (x in fs ==> gs[x] == fs[x])
  }

  predicate Beside(x: Path, p: Path) {
    !(x <= p) && !(p <= x)
  }

  /** A placing is the rename of the whole temporary tree to the target, and of nothing else. */
  lemma PlaceRenames(plan: Plan, w: World, fs: FileSystem)
    requires WellFormed(w.fs) && After(plan, w, Place(fs)) != w
    ensures w.process.Staging? && w.process.i < |plan.candidates|
    ensures var c := plan.candidates[w.process.i];
            var from, to := Temporary(plan, c), Target(plan, c);
            && After(plan, w, Place(fs)) == World(fs, w.journal, Placed(w.process.i, w.process.copied, w.process.deleted))
            && (forall q: Path :: (to + q in fs) == (from + q in w.fs) && (from + q in w.fs ==> fs[to + q] == w.fs[from + q]))
            && (forall x | Beside(x, from) && Beside(x, to) :: Kept(w.fs, fs, x))
            && from !in fs
  {
    var c := plan.candidates[w.process.i];
    var from, to := Temporary(plan, c), Target(plan, c);
    forall q: Path ensures (to + q in fs) == (from + q in w.fs) && (from + q in w.fs ==> fs[to + q] == w.fs[from + q]) {
      assert q in Subtree(fs, to) <==> to + q in fs;
      assert q in Subtree(w.fs, from) <==> from + q in w.fs;
    }
    forall x | Beside(x, from) && Beside(x, to) ensures Kept(w.fs, fs, x) {
      ApartIsClear(x, from);
      ApartIsClear(x, to);
      assert SameEntry(w.fs, fs, x);
    }
  }

  lemma ApartIsClear(x: Path, p: Path)
    ensures Beside(x, p) <==> !Overlaps(x, p)
  {
    OverlapIsPrefix(x, p);
  }

  /**
   Clearing and copying touch nothing beside the temporary, removing nothing beside the source, where no entry
   appears that was not there; in no other place of the loops does a file change between two decisions.
   */
  lemma DisturbanceIsConfined(plan: Plan, w: World, fs: FileSystem)
    requires WellFormed(w.fs) && After(plan, w, Disturb(fs)) != w
    ensures After(plan, w, Disturb(fs)) == w.(fs := fs)
    ensures !w.process.Idle? && w.process.i < |plan.candidates|
    ensures var c := plan.candidates[w.process.i];
            || ((w.process.Clearing? || w.process.Staging?) && forall x | Beside(x, Temporary(plan, c)) :: Kept(w.fs, fs, x))
            || (w.process.Removing? && (forall x | Beside(x, c.source) :: Kept(w.fs, fs, x))
                && forall x | c.source <= x && x in fs :: x in w.fs)
  {
    var c := plan.candidates[w.process.i];
    if w.process.Removing? {
      forall x | Beside(x, c.source) ensures Kept(w.fs, fs, x) {
        ApartIsClear(x, c.source);
        assert SameEntry(w.fs, fs, x);
      }
    } else {
      forall x | Beside(x, Temporary(plan, c)) ensures Kept(w.fs, fs, x) {
        ApartIsClear(x, Temporary(plan, c));
        assert SameEntry(w.fs, fs, x);
      }
    }
  }

  /** Beginning makes no more than the directories on the way to the archive's items. */
  lemma BeginningMakesRoots(plan: Plan, w: World, made: FileSystem)
    requires WellFormed(w.fs) && After(plan, w, Begin(made)) != w
    ensures w.process.Idle? && Readable(plan, w.journal) && After(plan, w, Begin(made)).fs == made
    ensures forall x | !(x <= plan.destination + [plan.id, "items"]) :: Kept(w.fs, made, x)
    ensures After(plan, w, Begin(made)).process.Copying? && After(plan, w, Begin(made)).process.i == 0
  {
    hide ReadState, Fits;
    StateReads(plan, w.journal);
    forall x | !(x <= Items(plan)) ensures Kept(w.fs, made, x) {
      assert SameEntry(w.fs, made, x);
    }
  }

  /** A source that has not drifted is whole: its tree is the very one that was inventoried. */
  lemma UndriftedIsWhole(plan: Plan, fs: FileSystem, original: FileSystem, c: Candidate)
    requires WellFormed(fs) && WellFormed(original) && InventoryCandidate(original, c.source, c.name) == Some(c)
    ensures Undrifted(fs, c) <==> Subtree(fs, c.source) == Subtree(original, c.source)
  {
    MatchesMeansSameTree(c, fs, c.source, original);
    if Undrifted(fs, c) {
      assert Matches(c, fs, c.source);
    }
    if Subtree(fs, c.source) == Subtree(original, c.source) {
      SameInventoryMeansSameTree(original, c.source, fs, c.source);
      assert c.source + [] == c.source;
      assert [] in Subtree(original, c.source);
      assert [] in Subtree(fs, c.source);
    }
  }
}
