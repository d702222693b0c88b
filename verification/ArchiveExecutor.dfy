/**
 The cleanup as it runs (tools/hk_v1_archive_cleanup.py:546-563, 584-600, 641-724). Every
 effect appends one move to the ghost list `moves`, and `Valid` says that replaying those
 moves gives the file system and state file at hand, so ArchiveRuns speaks of this code.

 A `calm` invocation is one that nothing interrupts and whose copies and removals are exact.
 Otherwise a copy may write anything, a removal may stop halfway, and any effect may raise.
 */
module ArchiveExecutor {
  import opened Wrappers
  import opened Ordering
  import opened ArchiveTree
  import opened ArchiveInventory
  import opened ArchiveCleanup
  import opened ArchiveRuns
  import opened ArchiveEdits

  datatype Report = Report(succeeded: bool, copied: seq<string>, deleted: seq<string>, complete: bool)

  predicate DirectoryOrAbsent(fs: FileSystem, p: Path) {
    p in fs ==> fs[p].Directory?
  }

  function OperationRoot(plan: Plan): Path {
    plan.destination + [plan.id]
  }

  /** The checks on the destination and the two directories beneath it. */
  predicate RootsUsable(plan: Plan, fs: FileSystem) {
    && plan.destination in fs && fs[plan.destination].Directory?
    && DirectoryOrAbsent(fs, OperationRoot(plan))
    && DirectoryOrAbsent(fs, Items(plan))
  }

  function MakeDirectory(fs: FileSystem, p: Path): FileSystem {
    if p in fs then fs else fs[p := Directory(0x1FF, 0)]
  }

  /** `archive_root.mkdir(parents=True, exist_ok=True)` */
  function MakeRoots(plan: Plan, fs: FileSystem): FileSystem {
    MakeDirectory(MakeDirectory(fs, OperationRoot(plan)), Items(plan))
  }

  lemma MakeDirectoryIsWellFormed(fs: FileSystem, p: Path, name: string)
    requires WellFormed(fs) && p in fs && fs[p].Directory? && ValidName(name)
    ensures WellFormed(MakeDirectory(fs, p + [name]))
  {
    var gs := MakeDirectory(fs, p + [name]);
    forall x | x in gs ensures Hangs(gs, x) && ValidPath(x) {
      if x in fs {
        assert Hangs(fs, x) && ValidPath(x);
      } else {
        assert ValidPath(p);
        assert x[..|x| - 1] == p;
      }
    }
  }

  lemma MakeRootsIsAllowed(plan: Plan, fs: FileSystem)
    requires ValidPlan(plan) && WellFormed(fs) && RootsUsable(plan, fs)
    ensures var made := MakeRoots(plan, fs);
            && WellFormed(made) && RootsMade(plan, fs, made)
            && Items(plan) in made && made[Items(plan)].Directory?
  {
    assert Items(plan) == OperationRoot(plan) + ["items"];
    var first := MakeDirectory(fs, OperationRoot(plan));
    MakeDirectoryIsWellFormed(fs, plan.destination, plan.id);
    MakeDirectoryIsWellFormed(first, OperationRoot(plan), "items");
    assert OperationRoot(plan) <= Items(plan);
  }

  /** `ChangedOnly`, by looking at the finitely many paths on either side. */
  predicate ChangedWithin(fs: FileSystem, gs: FileSystem, roots: set<Path>) {
    forall p | p in fs.Keys + gs.Keys && Clear(p, roots) :: SameEntry(fs, gs, p)
  }

  predicate HasItems(plan: Plan, fs: FileSystem) {
    Items(plan) in fs && fs[Items(plan)].Directory?
  }

  /** What stands at the temporary, if anything, is a file to unlink or a directory to remove. */
  predicate Clearable(plan: Plan, fs: FileSystem, c: Candidate) {
    Temporary(plan, c) in fs ==> fs[Temporary(plan, c)].Plain()
  }

  /** An exact removal of what stands at a temporary. */
  method ExactClear(plan: Plan, fs: FileSystem, c: Candidate) returns (gs: FileSystem)
    requires ValidPlan(plan) && WellFormed(fs) && Clearable(plan, fs, c)
    ensures WellFormed(gs) && ChangedOnly(fs, gs, {Temporary(plan, c)}) && Temporary(plan, c) !in gs
    ensures HasItems(plan, fs) ==> HasItems(plan, gs)
  {
    CutChanges(fs, Temporary(plan, c));
    assert !(Temporary(plan, c) <= Items(plan));
    gs := Cut(fs, Temporary(plan, c));
  }

  /** An exact copy of a source to its temporary. */
  method ExactCopy(plan: Plan, fs: FileSystem, c: Candidate) returns (gs: FileSystem)
    requires ValidPlan(plan) && WellFormed(fs) && c in plan.candidates && c.source in fs && HasItems(plan, fs)
    ensures WellFormed(gs) && ChangedOnly(fs, gs, {Temporary(plan, c)}) && HasItems(plan, gs)
    ensures Temporary(plan, c) in gs && Subtree(gs, Temporary(plan, c)) == Subtree(fs, c.source)
  {
    CopyIsAllowed(plan, fs, c);
    gs := Graft(fs, Temporary(plan, c), Subtree(fs, c.source));
  }

  /** `temporary.replace(target)` */
  method ExactRename(plan: Plan, fs: FileSystem, c: Candidate) returns (gs: FileSystem)
    requires ValidPlan(plan) && WellFormed(fs) && c in plan.candidates && Temporary(plan, c) in fs
    ensures WellFormed(gs) && Renamed(fs, gs, Temporary(plan, c), Target(plan, c)) && HasItems(plan, gs)
  {
    RenameIsAllowed(plan, fs, c);
    gs := RenameTo(fs, Temporary(plan, c), Target(plan, c));
  }

  /** An exact removal of a source. */
  method ExactRemove(plan: Plan, fs: FileSystem, c: Candidate) returns (gs: FileSystem)
    requires ValidPlan(plan) && WellFormed(fs) && c in plan.candidates && c.source != []
    ensures WellFormed(gs) && Shrunk(fs, gs, c.source) && c.source !in gs
  {
    CutChanges(fs, c.source);
    gs := Cut(fs, c.source);
  }

  lemma RelocatesTo(plan: Plan, w: World, gs: FileSystem)
    requires WellFormed(w.fs) && WellFormed(gs) && w.process.Staging? && w.process.i < |plan.candidates|
    requires var c := plan.candidates[w.process.i]; Renamed(w.fs, gs, Temporary(plan, c), Target(plan, c))
    ensures Relocated(plan, w, gs) == World(gs, w.journal, Placed(w.process.i, w.process.copied, w.process.deleted))
  {
  }

  /** What happens at a temporary leaves every source, and its drift check, as they were. */
  lemma TemporaryLeavesSource(plan: Plan, fs: FileSystem, gs: FileSystem, c: Candidate)
    requires ValidPlan(plan) && WellFormed(fs) && WellFormed(gs) && c in plan.candidates
    requires ChangedOnly(fs, gs, {Temporary(plan, c)})
    ensures Subtree(gs, c.source) == Subtree(fs, c.source)
    ensures Undrifted(gs, c) <==> Undrifted(fs, c)
  {
    SourceClearOfItems(plan, c, ["." + c.name + ".tmp"]);
    SubtreeUntouched(fs, gs, {Temporary(plan, c)}, c.source);
    ChecksFollowTree(fs, gs, c.source, c);
  }

  lemma CopyChanges(plan: Plan, start: FileSystem, cleared: FileSystem, filled: FileSystem, fs: FileSystem, c: Candidate)
    requires ValidPlan(plan) && WellFormed(start) && WellFormed(cleared) && c in plan.candidates
    requires ChangedOnly(start, cleared, {Temporary(plan, c)}) && ChangedOnly(cleared, filled, {Temporary(plan, c)})
    requires Subtree(filled, Temporary(plan, c)) == Subtree(cleared, c.source)
    requires Renamed(filled, fs, Temporary(plan, c), Target(plan, c))
    ensures ChangedOnly(start, fs, {Temporary(plan, c), Target(plan, c)})
    ensures Subtree(fs, Target(plan, c)) == Subtree(start, c.source)
  {
    TemporaryLeavesSource(plan, start, cleared, c);
    var one, two := {Temporary(plan, c)}, {Temporary(plan, c), Target(plan, c)};
    forall p | Clear(p, two) ensures SameEntry(start, fs, p) {
      assert Temporary(plan, c) in two;
      assert Clear(p, one);
      assert SameEntry(start, cleared, p) && SameEntry(cleared, filled, p) && SameEntry(filled, fs, p);
    }
  }

  /** An exact copy of an undrifted source passes its readback. */
  lemma ExactCopyMatches(fs: FileSystem, gs: FileSystem, target: Path, c: Candidate)
    requires WellFormed(fs) && WellFormed(gs) && Undrifted(fs, c) && Subtree(gs, target) == Subtree(fs, c.source)
    ensures Matches(c, gs, target)
  {
    MatchesMeansSameTree(c, gs, target, fs);
  }

  /** What passes a readback is there, and is no link. */
  lemma MatchedIsThere(c: Candidate, fs: FileSystem, p: Path)
    requires WellFormed(fs) && Matches(c, fs, p)
    ensures p in fs && !fs[p].Link?
  {
  }

  /** The copy loop gets past this candidate: its target passes the readback, or nothing stands in the way of copying it. */
  predicate CopyReady(plan: Plan, fs: FileSystem, copied: set<string>, c: Candidate)
    requires WellFormed(fs)
  {
    || Matches(c, fs, Target(plan, c))
    || (c.name !in copied && Target(plan, c) !in fs && Clearable(plan, fs, c) && Undrifted(fs, c))
  }

  /** While the copy loop runs: earlier candidates were ready and now match, later ones are as they were at the start. */
  ghost predicate ForNow(plan: Plan, start: FileSystem, copied: set<string>, fs: FileSystem, copied': set<string>, i: nat)
    requires WellFormed(start) && WellFormed(fs)
  {
    && i <= |plan.candidates|
    && (forall k | 0 <= k < i :: CopyReady(plan, start, copied, plan.candidates[k]))
    && (forall k | 0 <= k < i :: Matches(plan.candidates[k], fs, Target(plan, plan.candidates[k])))
    && (forall k | i <= k < |plan.candidates| :: AsBefore(plan, start, copied, fs, copied', plan.candidates[k]))
    && (forall k | 0 <= k < |plan.candidates| :: Subtree(fs, plan.candidates[k].source) == Subtree(start, plan.candidates[k].source))
  }

  ghost predicate AsBefore(plan: Plan, start: FileSystem, copied: set<string>, fs: FileSystem, copied': set<string>, c: Candidate) {
    && SameEntry(start, fs, Temporary(plan, c))
    && SameEntry(start, fs, Target(plan, c))
    && Subtree(fs, Target(plan, c)) == Subtree(start, Target(plan, c))
    && (c.name in copied <==> c.name in copied')
  }

  lemma StillReady(plan: Plan, start: FileSystem, copied: set<string>, fs: FileSystem, copied': set<string>, c: Candidate)
    requires WellFormed(start) && WellFormed(fs) && AsBefore(plan, start, copied, fs, copied', c)
    requires Subtree(fs, c.source) == Subtree(start, c.source)
    ensures CopyReady(plan, fs, copied', c) <==> CopyReady(plan, start, copied, c)
  {
    hide Matches, Undrifted, Subtree, WellFormed;
    ChecksFollowTree(start, fs, Target(plan, c), c);
    ChecksFollowTree(start, fs, c.source, c);
  }

  lemma TurnKeeps(plan: Plan, start: FileSystem, copied: set<string>, before: FileSystem, was: set<string>, fs: FileSystem, i: nat)
    requires ValidPlan(plan) && CollisionFree(plan) && i < |plan.candidates|
    requires WellFormed(start) && WellFormed(before) && WellFormed(fs)
    requires ForNow(plan, start, copied, before, was, i)
    requires ChangedOnly(before, fs, {Temporary(plan, plan.candidates[i]), Target(plan, plan.candidates[i])})
    ensures CopyReady(plan, before, was, plan.candidates[i]) <==> CopyReady(plan, start, copied, plan.candidates[i])
    ensures CopyReady(plan, before, was, plan.candidates[i]) && Matches(plan.candidates[i], fs, Target(plan, plan.candidates[i])) ==>
              ForNow(plan, start, copied, fs, was + {plan.candidates[i].name}, i + 1)
    ensures forall k | 0 <= k < |plan.candidates| :: Subtree(fs, plan.candidates[k].source) == Subtree(start, plan.candidates[k].source)
  {
    hide ValidPlan, WellFormed, Matches, Subtree, ChangedOnly, CopyReady, SameEntry, Temporary, Target;
    var c := plan.candidates[i];
    assert AsBefore(plan, start, copied, before, was, c);
    StillReady(plan, start, copied, before, was, c);
    forall k | i < k < |plan.candidates|
      ensures AsBefore(plan, start, copied, fs, was + {c.name}, plan.candidates[k])
    {
      var d := plan.candidates[k];
      assert AsBefore(plan, start, copied, before, was, d);
      TurnLeavesOther(plan, before, fs, c, d);
      SameEntryThrough(start, before, fs, Temporary(plan, d));
      SameEntryThrough(start, before, fs, Target(plan, d));
    }
    forall k | 0 <= k < i ensures Matches(plan.candidates[k], fs, Target(plan, plan.candidates[k])) {
      TurnLeavesOther(plan, before, fs, c, plan.candidates[k]);
      ChecksFollowTree(before, fs, Target(plan, plan.candidates[k]), plan.candidates[k]);
    }
    TurnLeavesSources(plan, before, fs, c);
  }

  lemma SameEntryThrough(fs: FileSystem, gs: FileSystem, hs: FileSystem, p: Path)
    requires SameEntry(fs, gs, p) && SameEntry(gs, hs, p)
    ensures SameEntry(fs, hs, p)
  {
  }

  lemma TurnLeavesSources(plan: Plan, before: FileSystem, fs: FileSystem, c: Candidate)
    requires ValidPlan(plan)
    requires ChangedOnly(before, fs, {Temporary(plan, c), Target(plan, c)})
    ensures forall k | 0 <= k < |plan.candidates| :: Subtree(fs, plan.candidates[k].source) == Subtree(before, plan.candidates[k].source)
  {
    forall k | 0 <= k < |plan.candidates|
      ensures Subtree(fs, plan.candidates[k].source) == Subtree(before, plan.candidates[k].source)
    {
      var d := plan.candidates[k];
      assert d in plan.candidates;
      SourceClearOfItems(plan, d, [c.name]);
      SourceClearOfItems(plan, d, ["." + c.name + ".tmp"]);
      SubtreeUntouched(before, fs, {Temporary(plan, c), Target(plan, c)}, d.source);
    }
  }

  lemma StemOfTemporary(a: string)
    ensures |"." + a + ".tmp"| == |a| + 5
    ensures ("." + a + ".tmp")[1..|a| + 1] == a
  {
  }

  lemma TemporariesDiffer(a: string, b: string)
    requires a != b
    ensures "." + a + ".tmp" != "." + b + ".tmp"
  {
    StemOfTemporary(a);
    StemOfTemporary(b);
  }

  lemma TurnLeavesOther(plan: Plan, before: FileSystem, fs: FileSystem, c: Candidate, d: Candidate)
    requires c.name != d.name && d.name != "." + c.name + ".tmp" && c.name != "." + d.name + ".tmp"
    requires ChangedOnly(before, fs, {Temporary(plan, c), Target(plan, c)})
    ensures SameEntry(before, fs, Temporary(plan, d)) && SameEntry(before, fs, Target(plan, d))
    ensures Subtree(fs, Target(plan, d)) == Subtree(before, Target(plan, d))
  {
    TemporariesDiffer(d.name, c.name);
    SiblingsApart(plan, d.name, c.name);
    SiblingsApart(plan, d.name, "." + c.name + ".tmp");
    SiblingsApart(plan, "." + d.name + ".tmp", c.name);
    SiblingsApart(plan, "." + d.name + ".tmp", "." + c.name + ".tmp");
    SubtreeUntouched(before, fs, {Temporary(plan, c), Target(plan, c)}, Target(plan, d));
    assert Clear(Temporary(plan, d), {Temporary(plan, c), Target(plan, c)});
    assert Clear(Target(plan, d), {Temporary(plan, c), Target(plan, c)});
  }

  /** Every target passes its readback. */
  predicate AllMatch(plan: Plan, fs: FileSystem)
    requires WellFormed(fs)
  {
    forall c | c in plan.candidates :: Matches(c, fs, Target(plan, c))
  }

  lemma ReadyAll(plan: Plan, start: FileSystem, copied: set<string>, fs: FileSystem, copied': set<string>)
    requires WellFormed(start) && WellFormed(fs) && ForNow(plan, start, copied, fs, copied', |plan.candidates|)
    ensures forall c | c in plan.candidates :: CopyReady(plan, start, copied, c)
    ensures forall c | c in plan.candidates :: Subtree(fs, c.source) == Subtree(start, c.source)
    ensures AllMatch(plan, fs)
  {
    hide Matches, Subtree, WellFormed, CopyReady;
    forall c | c in plan.candidates
      ensures CopyReady(plan, start, copied, c) && Subtree(fs, c.source) == Subtree(start, c.source) && Matches(c, fs, Target(plan, c))
    {
      var k :| 0 <= k < |plan.candidates| && plan.candidates[k] == c;
    }
  }

  lemma SourceIsNotRoot(plan: Plan, c: Candidate)
    requires ValidPlan(plan) && c in plan.candidates
    ensures c.source != []
  {
    OverlapIsPrefix(c.source, plan.destination);
  }

  /** The delete loop gets past this candidate: its source is gone, or may be and passes the drift check. */
  predicate DeleteReady(fs: FileSystem, deleted: set<string>, c: Candidate)
    requires WellFormed(fs)
  {
    if c.name in deleted then c.source !in fs else c.source in fs ==> Undrifted(fs, c)
  }

  lemma SameTreeSameVerdict(fs: FileSystem, gs: FileSystem, deleted: set<string>, deleted': set<string>, c: Candidate)
    requires WellFormed(fs) && WellFormed(gs) && Subtree(fs, c.source) == Subtree(gs, c.source)
    requires c.name in deleted <==> c.name in deleted'
    ensures DeleteReady(fs, deleted, c) <==> DeleteReady(gs, deleted', c)
  {
    ChecksFollowTree(fs, gs, c.source, c);
  }

  /** While the delete loop runs: earlier sources were ready, later ones are as they were, and every target still matches. */
  ghost predicate SoFar(plan: Plan, start: FileSystem, deleted: set<string>, fs: FileSystem, deleted': set<string>, i: nat)
    requires WellFormed(start) && WellFormed(fs)
  {
    && i <= |plan.candidates| && AllMatch(plan, fs)
    && (forall k | 0 <= k < i :: DeleteReady(start, deleted, plan.candidates[k]))
    && (forall k | i <= k < |plan.candidates| ::
          && Subtree(start, plan.candidates[k].source) == Subtree(fs, plan.candidates[k].source)
          && (plan.candidates[k].name in deleted <==> plan.candidates[k].name in deleted'))
  }

  lemma DeletionKeeps(plan: Plan, start: FileSystem, deleted: set<string>, before: FileSystem, was: set<string>, fs: FileSystem, i: nat)
    requires ValidPlan(plan) && CollisionFree(plan) && i < |plan.candidates|
    requires WellFormed(start) && WellFormed(before) && WellFormed(fs) && SoFar(plan, start, deleted, before, was, i)
    requires ChangedOnly(before, fs, {plan.candidates[i].source})
    ensures DeleteReady(before, was, plan.candidates[i]) <==> DeleteReady(start, deleted, plan.candidates[i])
    ensures DeleteReady(start, deleted, plan.candidates[i]) ==> SoFar(plan, start, deleted, fs, was + {plan.candidates[i].name}, i + 1)
  {
    hide ValidPlan, WellFormed, Matches, Subtree, ChangedOnly, DeleteReady, Target;
    var c := plan.candidates[i];
    assert c in plan.candidates;
    SameTreeSameVerdict(start, before, deleted, was, c);
    forall k | i < k < |plan.candidates|
      ensures Subtree(start, plan.candidates[k].source) == Subtree(fs, plan.candidates[k].source)
    {
      SourcesDiffer(plan, i, k);
      assert plan.candidates[k] in plan.candidates;
      RemovalLeavesRest(plan, before, fs, c, plan.candidates[k]);
    }
    forall d | d in plan.candidates ensures Matches(d, fs, Target(plan, d)) {
      RemovalLeavesRest(plan, before, fs, c, d);
      ChecksFollowTree(before, fs, Target(plan, d), d);
    }
  }

  lemma SoFarAll(plan: Plan, start: FileSystem, deleted: set<string>, fs: FileSystem, deleted': set<string>)
    requires WellFormed(start) && WellFormed(fs) && SoFar(plan, start, deleted, fs, deleted', |plan.candidates|)
    ensures forall c | c in plan.candidates :: DeleteReady(start, deleted, c)
  {
    hide Matches, WellFormed, DeleteReady;
    forall c | c in plan.candidates ensures DeleteReady(start, deleted, c) {
      var k :| 0 <= k < |plan.candidates| && plan.candidates[k] == c;
    }
  }

  lemma FinishFacts(plan: Plan, original: FileSystem, journal: Journal, moves: seq<Move>, w: World)
    requires ValidPlan(plan) && WellFormed(original) && Replay(plan, original, journal, moves) == w
    requires w.process.Deleting? && w.process.i == |plan.candidates|
    ensures w.process.copied == Names(plan) && w.process.deleted == Names(plan)
    ensures forall c | c in plan.candidates :: c.source !in w.fs && HoldsTree(plan, original, w.fs, c)
    ensures CollisionFree(plan) ==> WellFormed(w.fs) && AllMatch(plan, w.fs)
  {
    FinishedMeansComplete(plan, original, journal, moves);
    hide Matches, ValidPlan, Replay, CollisionFree, HoldsTree;
    if CollisionFree(plan) {
      FinishedMeansReadBack(plan, original, journal, moves);
    }
  }

  /** An invocation that nothing disturbs will finish from here, whatever led here. */
  predicate Ready(plan: Plan, fs: FileSystem, journal: Journal)
    requires WellFormed(fs)
  {
    && RootsUsable(plan, fs)
    && Fits(plan, journal) && ReadState(plan, journal).Some?
    && (forall c | c in plan.candidates :: CopyReady(plan, fs, ReadState(plan, journal).value.0, c))
    && (forall c | c in plan.candidates :: DeleteReady(fs, ReadState(plan, journal).value.1, c))
  }

  lemma IntactMeansUndrifted(original: FileSystem, fs: FileSystem, c: Candidate)
    requires WellFormed(fs) && Taken(original, c)
    ensures Intact(original, fs, c) <==> Undrifted(fs, c)
  {
    OriginalHasRoot(original, c);
    SameInventoryMeansSameTree(original, c.source, fs, c.source);
    assert c.source + [] == c.source;
    if Intact(original, fs, c) {
      assert [] in Subtree(fs, c.source);
      InventoryIsDefined(fs, c.source);
    }
  }

  /** What the readiness of one candidate comes to between runs of a plan taken from the original file system. */
  lemma CandidateReadyMeans(plan: Plan, original: FileSystem, moves: seq<Move>, c: Candidate)
    requires ValidPlan(plan) && WellFormed(original) && TakenFrom(plan, original) && CollisionFree(plan) && c in plan.candidates
    ensures var w := Replay(plan, original, NoJournal, moves);
            && ReadState(plan, w.journal).Some?
            && var (copied, deleted) := ReadState(plan, w.journal).value;
               && (CopyReady(plan, w.fs, copied, c) <==>
                     c.name in copied || Archived(plan, original, w.fs, c) || (Target(plan, c) !in w.fs && Clearable(plan, w.fs, c)))
               && (DeleteReady(w.fs, deleted, c) <==> (c.source in w.fs ==> Intact(original, w.fs, c)))
  {
    hide ValidPlan, CollisionFree, Matches, Undrifted, Clearable, Subtree, Replay, Tracks, Intact, Archived;
    NothingCopiedStands(plan, original);
    EveryWorldIsSound(plan, original, NoJournal, moves);
    CheckpointsAreNested(plan, original, NoJournal, moves);
    CheckpointedCopiesStand(plan, original, NoJournal, moves);
    DeletedSourcesStayGone(plan, original, NoJournal, moves);
    var w := Replay(plan, original, NoJournal, moves);
    MatchedMeansArchived(plan, original, w.fs, c);
    IntactMeansUndrifted(original, w.fs, c);
    var k :| 0 <= k < |plan.candidates| && plan.candidates[k] == c;
    CandidateNamed(plan, k);
  }

  lemma MatchedMeansArchived(plan: Plan, original: FileSystem, fs: FileSystem, c: Candidate)
    requires Taken(original, c) && WellFormed(fs)
    ensures Matches(c, fs, Target(plan, c)) <==> Archived(plan, original, fs, c)
  {
    MatchesMeansSameTree(c, fs, Target(plan, c), original);
  }

  /**
   Between the runs of a plan whose sources were as inventoried before the first, an undisturbed run will
   finish exactly when its directories and its state file are usable, every name is copied, archived or
   free to be copied, and no source is half removed.
   */
  lemma ReadyMeans(plan: Plan, original: FileSystem, moves: seq<Move>)
    requires ValidPlan(plan) && WellFormed(original) && TakenFrom(plan, original) && CollisionFree(plan)
    ensures var w := Replay(plan, original, NoJournal, moves);
            Ready(plan, w.fs, w.journal) <==>
              && RootsUsable(plan, w.fs) && Fits(plan, w.journal)
              && (forall c | c in plan.candidates ::
                    || (ReadState(plan, w.journal).Some? && c.name in ReadState(plan, w.journal).value.0)
                    || Archived(plan, original, w.fs, c)
                    || (Target(plan, c) !in w.fs && Clearable(plan, w.fs, c)))
              && (forall c | c in plan.candidates :: c.source in w.fs ==> Intact(original, w.fs, c))
  {
    hide CopyReady, DeleteReady, Replay, RootsUsable, Fits, Archived, Intact, Clearable, CollisionFree;
    assert plan.candidates[0] in plan.candidates;
    CandidateReadyMeans(plan, original, moves, plan.candidates[0]);
    forall c | c in plan.candidates
      ensures var w := Replay(plan, original, NoJournal, moves);
              && ReadState(plan, w.journal).Some?
              && var (copied, deleted) := ReadState(plan, w.journal).value;
                 && (CopyReady(plan, w.fs, copied, c) <==>
                       c.name in copied || Archived(plan, original, w.fs, c) || (Target(plan, c) !in w.fs && Clearable(plan, w.fs, c)))
                 && (DeleteReady(w.fs, deleted, c) <==> (c.source in w.fs ==> Intact(original, w.fs, c)))
    {
      CandidateReadyMeans(plan, original, moves, c);
    }
  }

  lemma SameSourcesSameVerdicts(plan: Plan, fs: FileSystem, gs: FileSystem, deleted: set<string>)
    requires WellFormed(fs) && WellFormed(gs)
    requires forall c | c in plan.candidates :: Subtree(gs, c.source) == Subtree(fs, c.source)
    ensures forall c | c in plan.candidates :: DeleteReady(fs, deleted, c) <==> DeleteReady(gs, deleted, c)
  {
    hide WellFormed, DeleteReady, Subtree;
    forall c | c in plan.candidates ensures DeleteReady(fs, deleted, c) <==> DeleteReady(gs, deleted, c) {
      SameTreeSameVerdict(fs, gs, deleted, deleted, c);
    }
  }

  lemma MadeLeavesCandidate(plan: Plan, fs: FileSystem, made: FileSystem, c: Candidate)
    requires ValidPlan(plan) && RootsMade(plan, fs, made) && c in plan.candidates
    ensures Subtree(made, c.source) == Subtree(fs, c.source)
    ensures Subtree(made, Target(plan, c)) == Subtree(fs, Target(plan, c))
    ensures SameEntry(fs, made, Target(plan, c)) && SameEntry(fs, made, Temporary(plan, c))
  {
    SourceClearOfItems(plan, c, []);
    SubtreeKeptByMaking(plan, fs, made, c.source);
    SubtreeKeptByMaking(plan, fs, made, Target(plan, c));
  }

  lemma MadeKeepsReady(plan: Plan, fs: FileSystem, made: FileSystem)
    requires ValidPlan(plan) && WellFormed(fs) && WellFormed(made) && RootsMade(plan, fs, made)
    ensures forall c, copied | c in plan.candidates :: CopyReady(plan, made, copied, c) <==> CopyReady(plan, fs, copied, c)
    ensures forall c | c in plan.candidates :: Subtree(made, c.source) == Subtree(fs, c.source)
  {
    hide WellFormed, CopyReady, Subtree, ValidPlan, RootsMade, SameEntry;
    forall c | c in plan.candidates ensures Subtree(made, c.source) == Subtree(fs, c.source) {
      MadeLeavesCandidate(plan, fs, made, c);
    }
    forall c, copied | c in plan.candidates ensures CopyReady(plan, made, copied, c) <==> CopyReady(plan, fs, copied, c) {
      MadeLeavesCandidate(plan, fs, made, c);
      StillReady(plan, fs, copied, made, copied, c);
    }
  }

  lemma BeginsTo(plan: Plan, w: World, made: FileSystem)
    requires WellFormed(w.fs) && WellFormed(made) && w.process.Idle? && RootsMade(plan, w.fs, made)
    requires Fits(plan, w.journal) && ReadState(plan, w.journal).Some?
    ensures var (copied, deleted) := ReadState(plan, w.journal).value;
            Begun(plan, w, made) == World(made, w.journal, Copying(0, copied, deleted))
  {
  }

  lemma Unchanged(fs: FileSystem, roots: set<Path>)
    ensures ChangedOnly(fs, fs, roots)
  {
  }

  lemma OneRootOfTwo(fs: FileSystem, gs: FileSystem, p: Path, q: Path)
    requires ChangedOnly(fs, gs, {p})
    ensures ChangedOnly(fs, gs, {p, q})
  {
    forall x | Clear(x, {p, q}) ensures SameEntry(fs, gs, x) {
      assert p in {p, q};
      assert Clear(x, {p});
    }
  }

  class Cleanup {
    const plan: Plan
    ghost const original: FileSystem
    ghost const retained: Journal
    var fs: FileSystem
    var journal: Journal
    ghost var process: Process
    ghost var moves: seq<Move>

    ghost predicate Valid()
      reads this
    {
      && ValidPlan(plan) && WellFormed(original)
      && Replay(plan, original, retained, moves) == World(fs, journal, process)
    }

    /** A cleanup over any file system and whatever state file is retained. */
    constructor (plan: Plan, fs: FileSystem, journal: Journal)
      requires ValidPlan(plan) && WellFormed(fs)
      ensures Valid() && this.plan == plan && original == fs && retained == journal
      ensures this.fs == fs && this.journal == journal && process.Idle?
    {
      this.plan, this.original, this.fs, this.retained, this.journal := plan, fs, fs, journal, journal;
      process, moves := Idle, [];
    }

    /** Note one move that leaves files and journal alone. */
    ghost method Note(move: Move)
      requires Valid()
      requires var w := After(plan, World(fs, journal, process), move); w.fs == fs && w.journal == journal
      modifies this`process, this`moves
      ensures Valid() && moves == old(moves) + [move]
      ensures process == After(plan, World(fs, journal, old(process)), move).process
    {
      hide ValidPlan, Decide, Begun, Disturbed, Relocated, Saved;
      ArchiveRuns.OneMore(plan, original, retained, moves, move);
      var w := After(plan, World(fs, journal, process), move);
      moves, process := moves + [move], w.process;
    }

    /** Carry out one change to the file system. */
    method Change(gs: FileSystem, ghost move: Move)
      requires Valid()
      requires var w := After(plan, World(fs, journal, process), move); w.fs == gs && w.journal == journal
      modifies this`fs, this`process, this`moves
      ensures Valid() && moves == old(moves) + [move] && fs == gs
      ensures process == After(plan, World(old(fs), journal, old(process)), move).process
    {
      ArchiveRuns.OneMore(plan, original, retained, moves, move);
      ghost var w := After(plan, World(fs, journal, process), move);
      moves, process := moves + [move], w.process;
      fs := gs;
    }

    /** Take the next decision of the loop that is running. */
    ghost method Look()
      requires Valid()
      modifies this`process, this`moves
      ensures Valid() && old(moves) <= moves
      ensures process == Decide(plan, fs, old(process))
    {
      Note(Proceed);
    }

    method Raise()
      requires Valid()
      modifies this`process, this`moves
      ensures Valid() && old(moves) <= moves && process.Idle?
    {
      Note(Crash);
    }

    /** Whatever a careless or interrupted host may leave at the temporary. */
    method Scribble(i: nat)
      requires Valid() && (process.Clearing? || process.Staging?) && process.i == i < |plan.candidates|
      modifies this`fs, this`process, this`moves
      ensures Valid() && old(moves) <= moves && process == old(process)
    {
      var gs: FileSystem := *;
      var temporary := Temporary(plan, plan.candidates[i]);
      if !WellFormed(gs) || !ChangedWithin(fs, gs, {temporary}) {
        gs := fs;
      }
      assert ChangedOnly(fs, gs, {temporary});
      Change(gs, Disturb(gs));
    }

    /** Whatever an interrupted removal may leave of a source. */
    method Gnaw(i: nat)
      requires Valid() && process.Removing? && process.i == i < |plan.candidates|
      modifies this`fs, this`process, this`moves
      ensures Valid() && old(moves) <= moves && process == old(process)
    {
      var gs: FileSystem := *;
      var source := plan.candidates[i].source;
      if !WellFormed(gs) || !ChangedWithin(fs, gs, {source}) || exists x | x in gs :: source <= x && x !in fs {
        gs := fs;
      }
      assert ChangedOnly(fs, gs, {source});
      assert Shrunk(fs, gs, source);
      Change(gs, Disturb(gs));
    }

    /** `_write_state`, called after a readback or a removal: an atomic replacement. */
    method WriteState(i: nat, copied: set<string>, deleted: set<string>, calm: bool) returns (ok: bool)
      requires Valid() && i < |plan.candidates| && (process.ReadBack? || process.Removed?) && process.i == i
      requires var name := plan.candidates[i].name;
               if process.ReadBack? then copied == process.copied + {name} && deleted == process.deleted
               else copied == process.copied && deleted == process.deleted + {name}
      modifies this
      ensures Valid() && old(moves) <= moves && fs == old(fs)
      ensures calm ==> ok
      ensures ok ==> journal == CopiedState(plan, copied, deleted)
      ensures ok ==> process == if old(process).ReadBack? then Copying(i + 1, copied, deleted) else Deleting(i + 1, copied, deleted)
      ensures !ok ==> process.Idle?
    {
      var before, after: bool := *, *;
      if !calm && before {
        Raise();
        return false;
      }
      SaveIs(plan, World(fs, journal, process));
      ArchiveRuns.OneMore(plan, original, retained, moves, Save);
      ghost var w := After(plan, World(fs, journal, process), Save);
      moves := moves + [Save];
      journal := CopiedState(plan, copied, deleted);
      process := w.process;
      if !calm && after {
        Raise();
        return false;
      }
      ok := true;
    }

    /** Remove the file or directory an earlier attempt left at the temporary; `rmtree` raises on anything else. */
    method ClearTemporary(i: nat, calm: bool) returns (ok: bool)
      requires Valid() && process.Clearing? && process.i == i < |plan.candidates|
      modifies this`fs, this`process, this`moves
      ensures Valid() && old(moves) <= moves && (if ok then process == old(process) else process.Idle?)
      ensures !Clearable(plan, old(fs), plan.candidates[i]) ==> !ok && fs == old(fs)
      ensures calm && Clearable(plan, old(fs), plan.candidates[i]) ==>
                && ok && Temporary(plan, plan.candidates[i]) !in fs
                && ChangedOnly(old(fs), fs, {Temporary(plan, plan.candidates[i])})
                && (HasItems(plan, old(fs)) ==> HasItems(plan, fs))
    {
      if !Clearable(plan, fs, plan.candidates[i]) {
        Raise();
        return false;
      }
      if calm {
        var cleared := ExactClear(plan, fs, plan.candidates[i]);
        Change(cleared, Disturb(cleared));
      } else {
        Scribble(i);
        var interrupted: bool := *;
        if interrupted {
          Raise();
          return false;
        }
      }
      ok := true;
    }

    /** Copy the source to the temporary. */
    method CopyBytes(i: nat, calm: bool) returns (ok: bool)
      requires Valid() && process.Staging? && process.i == i < |plan.candidates|
      requires calm ==> HasItems(plan, fs) && plan.candidates[i].source in fs
      modifies this`fs, this`process, this`moves
      ensures Valid() && old(moves) <= moves && (if ok then process == old(process) else process.Idle?)
      ensures ok ==> Temporary(plan, plan.candidates[i]) in fs
      ensures calm ==>
                var c := plan.candidates[i];
                && ok && HasItems(plan, fs)
                && ChangedOnly(old(fs), fs, {Temporary(plan, c)})
                && Subtree(fs, Temporary(plan, c)) == Subtree(old(fs), c.source)
    {
      if calm {
        var copied := ExactCopy(plan, fs, plan.candidates[i]);
        Change(copied, Disturb(copied));
      } else {
        Scribble(i);
        var interrupted: bool := *;
        if interrupted || Temporary(plan, plan.candidates[i]) !in fs {
          Raise();
          return false;
        }
      }
      ok := true;
    }

    /** Rename the temporary to its target. */
    method Publish(i: nat)
      requires Valid() && process.Staging? && process.i == i < |plan.candidates|
      requires Temporary(plan, plan.candidates[i]) in fs
      modifies this`fs, this`process, this`moves
      ensures Valid() && old(moves) <= moves && HasItems(plan, fs)
      ensures process == Placed(i, old(process).copied, old(process).deleted)
      ensures var c := plan.candidates[i]; Renamed(old(fs), fs, Temporary(plan, c), Target(plan, c))
    {
      var renamed := ExactRename(plan, fs, plan.candidates[i]);
      RelocatesTo(plan, World(fs, journal, process), renamed);
      Change(renamed, Place(renamed));
    }

    /** `_copy_candidate`, once both staging paths are known not to be links. */
    method CopyCandidate(i: nat, calm: bool) returns (ok: bool)
      requires Valid() && process.Clearing? && process.i == i < |plan.candidates|
      requires calm ==> HasItems(plan, fs)
      modifies this`fs, this`process, this`moves
      ensures Valid() && old(moves) <= moves
      ensures if ok then process == Placed(i, old(process).copied, old(process).deleted) else process.Idle?
      ensures calm ==>
                var c := plan.candidates[i];
                && (ok <==> Clearable(plan, old(fs), c) && Undrifted(old(fs), c))
                && HasItems(plan, fs) && ChangedOnly(old(fs), fs, {Temporary(plan, c), Target(plan, c)})
                && (ok ==> Subtree(fs, Target(plan, c)) == Subtree(old(fs), c.source))
    {
      hide ValidPlan, WellFormed, Subtree, ChangedOnly, Undrifted, HasItems, Replay, Matches, Clearable, StageDecision;
      var c := plan.candidates[i];
      ghost var start := fs;
      ok := ClearTemporary(i, calm);
      if !ok {
        Unchanged(start, {Temporary(plan, c), Target(plan, c)});
        return;
      }
      ghost var cleared := fs;
      if calm {
        TemporaryLeavesSource(plan, start, cleared, c);
        OneRootOfTwo(start, cleared, Temporary(plan, c), Target(plan, c));
      }
      ok := Staged(i);
      if !ok {
        return;
      }
      ok := CopyBytes(i, calm);
      if !ok {
        return;
      }
      ghost var filled := fs;
      Publish(i);
      if calm {
        CopyChanges(plan, start, cleared, filled, fs, c);
      }
    }

    /** The source check of `_copy_candidate`. */
    method Staged(i: nat) returns (ok: bool)
      requires Valid() && process.Clearing? && process.i == i < |plan.candidates|
      modifies this`process, this`moves
      ensures Valid() && old(moves) <= moves
      ensures ok <==> Temporary(plan, plan.candidates[i]) !in fs && Undrifted(fs, plan.candidates[i])
      ensures if ok then process == Staging(i, old(process).copied, old(process).deleted) && plan.candidates[i].source in fs
              else process.Idle?
    {
      var c := plan.candidates[i];
      ok := Temporary(plan, c) !in fs && Undrifted(fs, c);
      Look();
    }

    /** The part of a turn that copies a candidate with no target yet, and reads the copy back. */
    method CopyAndReadBack(i: nat, calm: bool) returns (ok: bool)
      requires Valid() && process.Copying? && process.i == i < |plan.candidates| && plan.candidates[i].name !in process.copied
      requires Target(plan, plan.candidates[i]) !in fs
      requires calm ==> HasItems(plan, fs)
      modifies this`fs, this`process, this`moves
      ensures Valid() && old(moves) <= moves
      ensures if ok then process == ReadBack(i, old(process).copied, old(process).deleted) else process.Idle?
      ensures ok ==> Matches(plan.candidates[i], fs, Target(plan, plan.candidates[i]))
      ensures calm ==>
                var c := plan.candidates[i];
                && (ok <==> Clearable(plan, old(fs), c) && Undrifted(old(fs), c))
                && HasItems(plan, fs) && ChangedOnly(old(fs), fs, {Temporary(plan, c), Target(plan, c)})
    {
      hide ValidPlan, Matches, InventoryCandidate, Undrifted, Subtree, HasItems, Replay, StageDecision,
        DeleteDecision, WellFormed;
      var c := plan.candidates[i];
      ghost var start := fs;
      ok := !(Temporary(plan, c) in fs && fs[Temporary(plan, c)].Link?);
      Look();
      if !ok {
        Unchanged(start, {Temporary(plan, c), Target(plan, c)});
        return;
      }
      ok := CopyCandidate(i, calm);
      if !ok {
        return;
      }
      ok := Matches(c, fs, Target(plan, c));
      if calm {
        ExactCopyMatches(start, fs, Target(plan, c), c);
      }
      Look();
    }

    /** The part of a turn that ends in a matching readback: of what stands there, or of a new copy. */
    method ReachReadBack(i: nat, calm: bool) returns (ok: bool)
      requires Valid() && process.Copying? && process.i == i < |plan.candidates| && plan.candidates[i].name !in process.copied
      requires var target := Target(plan, plan.candidates[i]); !(target in fs && fs[target].Link?)
      requires calm ==> HasItems(plan, fs)
      modifies this`fs, this`process, this`moves
      ensures Valid() && old(moves) <= moves
      ensures if ok then process == ReadBack(i, old(process).copied, old(process).deleted) else process.Idle?
      ensures ok ==> Matches(plan.candidates[i], fs, Target(plan, plan.candidates[i]))
      ensures calm ==>
                var c := plan.candidates[i];
                && (ok <==> CopyReady(plan, old(fs), old(process).copied, c))
                && HasItems(plan, fs) && ChangedOnly(old(fs), fs, {Temporary(plan, c), Target(plan, c)})
    {
      hide ValidPlan, Matches, InventoryCandidate, Undrifted, Subtree, HasItems, Replay, StageDecision,
        DeleteDecision, WellFormed, Clearable;
      var c := plan.candidates[i];
      Unchanged(fs, {Temporary(plan, c), Target(plan, c)});
      if Target(plan, c) in fs {
        ok := Matches(c, fs, Target(plan, c));
        Look();
        return;
      }
      if Matches(c, fs, Target(plan, c)) {
        MatchedIsThere(c, fs, Target(plan, c));
      }
      ok := CopyAndReadBack(i, calm);
    }

    /** One turn of the loop in `_copy_and_checkpoint`. */
    method CopyOne(i: nat, copied: set<string>, deleted: set<string>, calm: bool) returns (ok: bool, copied': set<string>)
      requires Valid() && process == Copying(i, copied, deleted) && i < |plan.candidates|
      requires calm ==> HasItems(plan, fs)
      modifies this
      ensures Valid() && old(moves) <= moves
      ensures if ok then process == Copying(i + 1, copied', deleted) && copied' == copied + {plan.candidates[i].name} else process.Idle?
      ensures ok ==> Matches(plan.candidates[i], fs, Target(plan, plan.candidates[i]))
      ensures calm ==>
                var c := plan.candidates[i];
                && (ok <==> CopyReady(plan, old(fs), copied, c))
                && HasItems(plan, fs) && ChangedOnly(old(fs), fs, {Temporary(plan, c), Target(plan, c)})
    {
      hide ValidPlan, Matches, InventoryCandidate, Undrifted, Subtree, HasItems, Replay, StageDecision,
        DeleteDecision, WellFormed, Clearable;
      var c := plan.candidates[i];
      var target := Target(plan, c);
      copied' := copied + {c.name};
      Unchanged(fs, {Temporary(plan, c), Target(plan, c)});
      if target in fs && fs[target].Link? {
        if Matches(c, fs, target) {
          MatchedIsThere(c, fs, target);
        }
        Look();
        return false, copied';
      }
      if c.name in copied {
        ok := Matches(c, fs, target);
        Look();
        assert copied' == copied;
        return ok, copied';
      }
      ok := ReachReadBack(i, calm);
      if !ok {
        return;
      }
      ok := WriteState(i, copied', deleted, calm);
    }

    /** `_copy_and_checkpoint` */
    method CopyAndCheckpoint(copied: set<string>, deleted: set<string>, calm: bool) returns (ok: bool, copied': set<string>)
      requires Valid() && process == Copying(0, copied, deleted)
      requires calm ==> HasItems(plan, fs) && CollisionFree(plan)
      modifies this
      ensures Valid() && old(moves) <= moves
      ensures if ok then process == Deleting(0, copied', deleted) else process.Idle?
      ensures calm ==> (ok <==> forall c | c in plan.candidates :: CopyReady(plan, old(fs), copied, c))
      ensures calm && ok ==> AllMatch(plan, fs)
      ensures calm ==> forall c | c in plan.candidates :: Subtree(fs, c.source) == Subtree(old(fs), c.source)
    {
      hide ValidPlan, Matches, InventoryCandidate, Subtree, HasItems, Replay, StageDecision, CollisionFree,
        CopyReady, WellFormed, AllMatch;
      ghost var start := fs;
      copied' := copied;
      var i := 0;
      while i < |plan.candidates|
        invariant 0 <= i <= |plan.candidates|
        invariant Valid() && old(moves) <= moves && process == Copying(i, copied', deleted)
        invariant calm ==> HasItems(plan, fs) && ForNow(plan, start, copied, fs, copied', i)
      {
        ghost var before := fs;
        var was := copied';
        ok, copied' := CopyOne(i, copied', deleted, calm);
        if calm {
          TurnKeeps(plan, start, copied, before, was, fs, i);
        }
        if !ok {
          return;
        }
        i := i + 1;
      }
      Look();
      ok := true;
      if calm {
        ReadyAll(plan, start, copied, fs, copied');
      }
    }

    /** One turn of the loop in `_delete_and_checkpoint`. */
    method DeleteOne(i: nat, copied: set<string>, deleted: set<string>, calm: bool) returns (ok: bool, deleted': set<string>)
      requires Valid() && process == Deleting(i, copied, deleted) && i < |plan.candidates|
      requires calm ==> Matches(plan.candidates[i], fs, Target(plan, plan.candidates[i]))
      modifies this
      ensures Valid() && old(moves) <= moves
      ensures if ok then process == Deleting(i + 1, copied, deleted') && deleted' == deleted + {plan.candidates[i].name} else process.Idle?
      ensures calm ==>
                var c := plan.candidates[i];
                && (ok <==> DeleteReady(old(fs), deleted, c))
                && ChangedOnly(old(fs), fs, {c.source})
    {
      hide ValidPlan, Matches, InventoryCandidate, Subtree, Replay, StageDecision, CopyDecision, Undrifted;
      var c := plan.candidates[i];
      deleted' := deleted + {c.name};
      if c.name in deleted {
        ok := c.source !in fs;
        Look();
        assert deleted' == deleted;
        return ok, deleted';
      }
      ok := Matches(c, fs, Target(plan, c));
      if !ok {
        Look();
        return;
      }
      if c.source in fs {
        ok := Undrifted(fs, c);
        Look();
        if !ok {
          return;
        }
        ok := RemoveSource(i, calm);
        if !ok {
          return;
        }
      } else {
        Look();
      }
      ok := WriteState(i, copied, deleted', calm);
    }

    /** `unlink` or `rmtree` on a source that has passed every check. */
    method RemoveSource(i: nat, calm: bool) returns (ok: bool)
      requires Valid() && process.Removing? && process.i == i < |plan.candidates|
      modifies this`fs, this`process, this`moves
      ensures Valid() && old(moves) <= moves
      ensures if ok then process == Removed(i, old(process).copied, old(process).deleted) else process.Idle?
      ensures calm ==> ok && ChangedOnly(old(fs), fs, {plan.candidates[i].source})
    {
      var c := plan.candidates[i];
      SourceIsNotRoot(plan, c);
      if calm {
        var removed := ExactRemove(plan, fs, c);
        Change(removed, Disturb(removed));
      } else {
        Gnaw(i);
        var interrupted: bool := *;
        if interrupted || c.source in fs {
          Raise();
          return false;
        }
      }
      Look();
      ok := true;
    }

    /** `_delete_and_checkpoint` */
    method DeleteAndCheckpoint(copied: set<string>, deleted: set<string>, calm: bool) returns (ok: bool, deleted': set<string>)
      requires Valid() && process == Deleting(0, copied, deleted)
      requires calm ==> CollisionFree(plan) && AllMatch(plan, fs)
      modifies this
      ensures Valid() && old(moves) <= moves
      ensures if ok then process == Deleting(|plan.candidates|, copied, deleted') else process.Idle?
      ensures calm ==> (ok <==> forall c | c in plan.candidates :: DeleteReady(old(fs), deleted, c))
    {
      hide ValidPlan, Matches, WellFormed, DeleteReady, Replay, CollisionFree, ChangedOnly;
      ghost var start := fs;
      deleted' := deleted;
      var i := 0;
      while i < |plan.candidates|
        invariant 0 <= i <= |plan.candidates|
        invariant Valid() && old(moves) <= moves && process == Deleting(i, copied, deleted')
        invariant calm ==> SoFar(plan, start, deleted, fs, deleted', i)
      {
        ghost var before := fs;
        ghost var was := deleted';
        ok, deleted' := DeleteOne(i, copied, deleted', calm);
        if calm {
          DeletionKeeps(plan, start, deleted, before, was, fs, i);
        }
        if !ok {
          return;
        }
        i := i + 1;
      }
      ok := true;
      if calm {
        SoFarAll(plan, start, deleted, fs, deleted');
      }
    }

    /**
     `execute_archive_cleanup`. A calm invocation, over whatever earlier ones left, returns a report exactly
     when its authority is good, its directories and state file are usable, every target matches or can be copied, and every
     source is gone if it was deleted and else absent or undrifted; any report at all is complete, with every
     source gone and, where names cannot collide, every target matching.
     */
    method Execute(authorized: bool, calm: bool) returns (r: Option<Report>)
      requires Valid() && process.Idle?
      requires calm ==> CollisionFree(plan)
      modifies this
      ensures Valid() && process.Idle? && old(moves) <= moves
      ensures !authorized ==> r == None && fs == old(fs) && journal == old(journal)
      ensures r.Some? ==>
                && r.value.succeeded && r.value.complete
                && Elements(r.value.copied) == Elements(r.value.deleted) == Names(plan)
                && (forall c | c in plan.candidates :: c.source !in fs && HoldsTree(plan, original, fs, c))
                && (CollisionFree(plan) ==> AllMatch(plan, fs))
      ensures calm ==> (r.Some? <==> authorized && Ready(plan, old(fs), old(journal)))
    {
      hide ValidPlan, Matches, Replay, CollisionFree, RootsUsable, WellFormed, CopyReady, DeleteReady, AllMatch;
      var state := ReadState(plan, journal);
      if !RootsUsable(plan, fs) || !authorized || !Fits(plan, journal) || state.None? {
        return None;
      }
      var (copied, deleted) := state.value;
      MakeArchiveRoots();
      ghost var made := fs;
      var ok: bool;
      ok, copied := CopyAndCheckpoint(copied, deleted, calm);
      if !ok {
        return None;
      }
      if calm {
        SameSourcesSameVerdicts(plan, old(fs), fs, deleted);
      }
      ok, deleted := DeleteAndCheckpoint(copied, deleted, calm);
      if !ok {
        return None;
      }
      var complete := copied == Names(plan) && deleted == Names(plan);
      FinishFacts(plan, original, retained, moves, World(fs, journal, process));
      Look();
      r := Some(Report(complete, Ordered(copied), Ordered(deleted), complete));
    }

    /** `archive_root.mkdir(parents=True, exist_ok=True)`, after the state has been read. */
    method MakeArchiveRoots()
      requires Valid() && process.Idle? && RootsUsable(plan, fs) && Fits(plan, journal) && ReadState(plan, journal).Some?
      modifies this`fs, this`process, this`moves
      ensures Valid() && old(moves) <= moves && HasItems(plan, fs)
      ensures var (copied, deleted) := ReadState(plan, journal).value; process == ArchiveCleanup.Copying(0, copied, deleted)
      ensures forall c, copied | c in plan.candidates ::
                CopyReady(plan, fs, copied, c) <==> CopyReady(plan, old(fs), copied, c)
      ensures forall c | c in plan.candidates :: Subtree(fs, c.source) == Subtree(old(fs), c.source)
    {
      MakeRootsIsAllowed(plan, fs);
      var made := MakeRoots(plan, fs);
      MadeKeepsReady(plan, fs, made);
      BeginsTo(plan, World(fs, journal, process), made);
      Change(made, Begin(made));
    }
  }
}
