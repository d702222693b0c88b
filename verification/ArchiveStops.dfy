/**
 A removal that stops halfway (tools/hk_v1_archive_cleanup.py:665-690): the tree is safe in the
 archive, yet what is left of its source is drift to every later run, so none ever reports.
 */
module ArchiveStops {
  import opened Wrappers
  import opened Ordering
  import opened ArchiveTree
  import opened ArchiveInventory
  import opened ArchiveCleanup
  import opened ArchiveRuns
  import opened ArchiveEdits
  import opened ArchiveExecutor

  /** The source is present, but no longer the tree that the plan froze. */
  ghost predicate Drifted(fs: FileSystem, c: Candidate) {
    WellFormed(fs) && c.source in fs && !Undrifted(fs, c)
  }

  predicate IsRemoving(plan: Plan, p: Process, c: Candidate) {
    p.Removing? && p.i < |plan.candidates| && plan.candidates[p.i] == c
  }

  predicate Finished(plan: Plan, p: Process) {
    p.Deleting? && p.i == |plan.candidates|
  }

  lemma DriftFollowsTree(fs: FileSystem, gs: FileSystem, c: Candidate)
    requires Drifted(fs, c) && WellFormed(gs) && Subtree(gs, c.source) == Subtree(fs, c.source)
    ensures Drifted(gs, c)
  {
    assert c.source + [] == c.source;
    assert [] in Subtree(fs, c.source);
    assert [] in Subtree(gs, c.source) && fs[c.source] == gs[c.source];
    if Undrifted(gs, c) {
      SameInventoryMeansSameTree(gs, c.source, fs, c.source);
    }
  }

  lemma DecisionSparesDrifted(plan: Plan, w: World, move: Move, c: Candidate)
    requires WellFormed(w.fs) && Drifted(w.fs, c) && !IsRemoving(plan, w.process, c)
    ensures !IsRemoving(plan, After(plan, w, move).process, c)
  {
    hide Undrifted, WellFormed, Matches, ChangedOnly, Subtree;
  }

  lemma FinishedMeansGone(plan: Plan, original: FileSystem, journal: Journal, moves: seq<Move>, c: Candidate)
    requires ValidPlan(plan) && WellFormed(original) && c in plan.candidates
    requires c.source in Replay(plan, original, journal, moves).fs
    ensures !Finished(plan, Replay(plan, original, journal, moves).process)
  {
    if Finished(plan, Replay(plan, original, journal, moves).process) {
      FinishedMeansComplete(plan, original, journal, moves);
    }
  }

  /** A drifted source that is not being removed stays exactly as it is, and no later run comes to its end. */
  lemma {:induction false} DriftedSourceStays(plan: Plan, original: FileSystem, journal: Journal, moves: seq<Move>, later: seq<Move>, c: Candidate)
    requires ValidPlan(plan) && WellFormed(original) && c in plan.candidates
    requires Drifted(Replay(plan, original, journal, moves).fs, c) && !IsRemoving(plan, Replay(plan, original, journal, moves).process, c)
    ensures var w := Replay(plan, original, journal, moves + later);
            && Subtree(w.fs, c.source) == Subtree(Replay(plan, original, journal, moves).fs, c.source)
            && Drifted(w.fs, c) && !IsRemoving(plan, w.process, c) && !Finished(plan, w.process)
  {
    hide ValidPlan, Subtree, Drifted, Footprint, After, IsRemoving, Finished;
    if later == [] {
      assert moves + later == moves;
      assert Replay(plan, original, journal, moves + later).fs == Replay(plan, original, journal, moves).fs;
    } else {
      var most, last := later[..|later| - 1], later[|later| - 1];
      DriftedSourceStays(plan, original, journal, moves, most, c);
      assert moves + later == (moves + most) + [last];
      OneMore(plan, original, journal, moves + most, last);
      DriftOutlastsMove(plan, Replay(plan, original, journal, moves + most), last, c);
    }
    DriftIsThere(Replay(plan, original, journal, moves + later).fs, c);
    FinishedMeansGone(plan, original, journal, moves + later, c);
  }

  lemma DriftIsThere(fs: FileSystem, c: Candidate)
    requires Drifted(fs, c)
    ensures c.source in fs
  {
  }

  lemma DriftOutlastsMove(plan: Plan, w: World, move: Move, c: Candidate)
    requires ValidPlan(plan) && c in plan.candidates && WellFormed(w.fs)
    requires Drifted(w.fs, c) && !IsRemoving(plan, w.process, c)
    ensures var w' := After(plan, w, move);
            && Subtree(w'.fs, c.source) == Subtree(w.fs, c.source)
            && Drifted(w'.fs, c) && !IsRemoving(plan, w'.process, c)
  {
    hide ValidPlan, Subtree, Drifted, Footprint, After;
    MoveHasFootprint(plan, w, move);
    FootprintOnSource(plan, w, After(plan, w, move).fs, c);
    DriftFollowsTree(w.fs, After(plan, w, move).fs, c);
    DecisionSparesDrifted(plan, w, move, c);
  }

  // ----- such a source can be left behind ----------------------------------------------

  lemma CutBelowShrinks(fs: FileSystem, p: Path, x: Path)
    requires WellFormed(fs) && p < x
    ensures WellFormed(Cut(fs, x)) && Shrunk(fs, Cut(fs, x), p)
    ensures p in fs ==> p in Cut(fs, x)
  {
    var gs := Cut(fs, x);
    CutChanges(fs, x);
    forall q | Clear(q, {p}) ensures SameEntry(fs, gs, q) {
      OverlapIsPrefix(q, p);
      if x <= q {
        PrefixOfPrefix(p, x, q);
      }
    }
  }

  lemma CutTreeDrifts(original: FileSystem, fs: FileSystem, c: Candidate, x: Path)
    requires Taken(original, c) && Intact(original, fs, c) && WellFormed(fs) && x in fs && c.source < x
    ensures Drifted(Cut(fs, x), c)
  {
    var gs := Cut(fs, x);
    CutBelowShrinks(fs, c.source, x);
    OriginalHasRoot(original, c);
    assert c.source + [] == c.source;
    var q := x[|c.source|..];
    assert x == c.source + q;
    assert q in Subtree(fs, c.source) && q !in Subtree(gs, c.source);
    if Undrifted(gs, c) {
      SameInventoryMeansSameTree(original, c.source, gs, c.source);
    }
  }

  lemma RemovingMeansArchived(plan: Plan, original: FileSystem, journal: Journal, moves: seq<Move>, c: Candidate)
    requires ValidPlan(plan) && WellFormed(original) && IsRemoving(plan, Replay(plan, original, journal, moves).process, c)
    ensures Taken(original, c) && Archived(plan, original, Replay(plan, original, journal, moves).fs, c)
  {
    EveryWorldIsSound(plan, original, journal, moves);
  }

  /** The two moves: one entry of the source goes, with all below it, and then the process dies. */
  function Interruption(fs: FileSystem, x: Path): seq<Move> {
    [Disturb(Cut(fs, x)), Crash]
  }

  lemma InterruptionLeads(plan: Plan, original: FileSystem, journal: Journal, moves: seq<Move>, c: Candidate, x: Path)
    requires WellFormed(original) && IsRemoving(plan, Replay(plan, original, journal, moves).process, c) && c.source < x
    ensures var w := Replay(plan, original, journal, moves);
            Replay(plan, original, journal, moves + Interruption(w.fs, x)) == World(Cut(w.fs, x), w.journal, Idle)
  {
    hide ChangedOnly, Shrunk, WellFormed, Replay;
    var w := Replay(plan, original, journal, moves);
    var gs := Cut(w.fs, x);
    CutBelowShrinks(w.fs, c.source, x);
    assert moves + Interruption(w.fs, x) == (moves + [Disturb(gs)]) + [Crash];
    OneMore(plan, original, journal, moves, Disturb(gs));
    OneMore(plan, original, journal, moves + [Disturb(gs)], Crash);
  }

  lemma SameTreeSameEntry(fs: FileSystem, gs: FileSystem, p: Path, x: Path)
    requires Subtree(fs, p) == Subtree(gs, p) && p <= x
    ensures x in fs <==> x in gs
  {
    assert x == p + x[|p|..];
    assert x[|p|..] in Subtree(fs, p) <==> x[|p|..] in Subtree(gs, p);
  }

  /** A crash once some entry of a whole source is gone: the tree is in the archive, and no later history reports. */
  lemma InterruptedRemoval(plan: Plan, original: FileSystem, journal: Journal, moves: seq<Move>, c: Candidate, x: Path, later: seq<Move>)
    requires ValidPlan(plan) && WellFormed(original) && c in plan.candidates
    requires IsRemoving(plan, Replay(plan, original, journal, moves).process, c) && Intact(original, Replay(plan, original, journal, moves).fs, c)
    requires x in Replay(plan, original, journal, moves).fs && c.source < x
    ensures var crashed := moves + Interruption(Replay(plan, original, journal, moves).fs, x);
            && Replay(plan, original, journal, crashed).process.Idle?
            && Archived(plan, original, Replay(plan, original, journal, crashed).fs, c)
            && c.source in Replay(plan, original, journal, crashed + later).fs
            && x !in Replay(plan, original, journal, crashed + later).fs
            && !Finished(plan, Replay(plan, original, journal, crashed + later).process)
  {
    hide ValidPlan, WellFormed, Replay, Subtree, Drifted, ChangedOnly, Taken, Interruption;
    var w := Replay(plan, original, journal, moves);
    var crashed := moves + Interruption(w.fs, x);
    RemovingMeansArchived(plan, original, journal, moves, c);
    InterruptionLeads(plan, original, journal, moves, c, x);
    CutBelowShrinks(w.fs, c.source, x);
    CutTreeDrifts(original, w.fs, c, x);
    RemovalLeavesRest(plan, w.fs, Cut(w.fs, x), c, c);
    DriftedSourceStays(plan, original, journal, crashed, later, c);
    DriftIsThere(Replay(plan, original, journal, crashed + later).fs, c);
    SameTreeSameEntry(Cut(w.fs, x), Replay(plan, original, journal, crashed + later).fs, c.source, x);
  }

  // ----- and a removal is reached ------------------------------------------------------

  /** One planned source, still what was inventoried, with nothing yet in the archive under its names. */
  ghost predicate FreshRun(plan: Plan, original: FileSystem, c: Candidate) {
    && ValidPlan(plan) && WellFormed(original) && plan.candidates == [c]
    && Taken(original, c) && RootsUsable(plan, original)
    && Target(plan, c) !in original && Temporary(plan, c) !in original
  }

  function CopiedTo(plan: Plan, fs: FileSystem, c: Candidate): FileSystem {
    Graft(fs, Temporary(plan, c), Subtree(fs, c.source))
  }

  function RenamedTo(plan: Plan, fs: FileSystem, c: Candidate): FileSystem {
    RenameTo(CopiedTo(plan, fs, c), Temporary(plan, c), Target(plan, c))
  }

  lemma MadeIsReady(plan: Plan, original: FileSystem, c: Candidate)
    requires FreshRun(plan, original, c)
    ensures var made := MakeRoots(plan, original);
            && WellFormed(made) && RootsMade(plan, original, made) && HasItems(plan, made)
            && Intact(original, made, c) && Undrifted(made, c)
            && Target(plan, c) !in made && Temporary(plan, c) !in made
  {
    var made := MakeRoots(plan, original);
    assert c in plan.candidates;
    MakeRootsIsAllowed(plan, original);
    MadeLeavesCandidate(plan, original, made, c);
    IntactMeansUndrifted(original, made, c);
  }

  lemma CopyIsFilled(plan: Plan, original: FileSystem, c: Candidate)
    requires FreshRun(plan, original, c)
    ensures var made := MakeRoots(plan, original);
            var filled := CopiedTo(plan, made, c);
            && WellFormed(filled) && ChangedOnly(made, filled, {Temporary(plan, c)})
            && Subtree(filled, Temporary(plan, c)) == Subtree(made, c.source) && Temporary(plan, c) in filled
  {
    MadeIsReady(plan, original, c);
    CopyIsAllowed(plan, MakeRoots(plan, original), c);
  }

  lemma CopyIsPlaced(plan: Plan, original: FileSystem, c: Candidate)
    requires FreshRun(plan, original, c)
    ensures var made := MakeRoots(plan, original);
            var filled := CopiedTo(plan, made, c);
            var fs := RenamedTo(plan, made, c);
            && WellFormed(fs) && Renamed(filled, fs, Temporary(plan, c), Target(plan, c))
            && ChangedOnly(made, fs, {Temporary(plan, c), Target(plan, c)})
            && Archived(plan, original, fs, c)
  {
    hide WellFormed, Subtree, ChangedOnly, MakeRoots, CopiedTo, RenameTo, ValidPlan, Taken, Undrifted;
    var made := MakeRoots(plan, original);
    assert c in plan.candidates;
    MadeIsReady(plan, original, c);
    CopyIsFilled(plan, original, c);
    RenameIsAllowed(plan, CopiedTo(plan, made, c), c);
    Unchanged(made, {Temporary(plan, c)});
    CopyChanges(plan, made, made, CopiedTo(plan, made, c), RenamedTo(plan, made, c), c);
  }

  /** The copy of the one source is in place, and both it and the source are the original tree. */
  lemma CopyIsExact(plan: Plan, original: FileSystem, c: Candidate)
    requires FreshRun(plan, original, c)
    ensures var fs := RenamedTo(plan, MakeRoots(plan, original), c);
            WellFormed(fs) && Intact(original, fs, c) && Matches(c, fs, Target(plan, c)) && Undrifted(fs, c)
  {
    hide WellFormed, Subtree, ChangedOnly, MakeRoots, RenamedTo, ValidPlan, Undrifted, Matches;
    var made := MakeRoots(plan, original);
    var fs := RenamedTo(plan, made, c);
    MadeIsReady(plan, original, c);
    CopyIsPlaced(plan, original, c);
    TurnLeavesSources(plan, made, fs, c);
    assert plan.candidates[0] == c;
    MatchesMeansSameTree(c, fs, Target(plan, c), original);
    IntactMeansUndrifted(original, fs, c);
  }

  /** What the decisions of such a run are, while the target is missing and once it is there. */
  lemma DecisionsBefore(plan: Plan, fs: FileSystem, c: Candidate)
    requires plan.candidates == [c] && WellFormed(fs) && Undrifted(fs, c)
    requires Target(plan, c) !in fs && Temporary(plan, c) !in fs
    ensures Decide(plan, fs, Copying(0, {}, {})) == Clearing(0, {}, {})
    ensures Decide(plan, fs, Clearing(0, {}, {})) == Staging(0, {}, {})
  {
    hide WellFormed, Matches, Undrifted, Target, Temporary;
  }

  lemma DecisionsAfter(plan: Plan, fs: FileSystem, c: Candidate)
    requires plan.candidates == [c] && WellFormed(fs) && Undrifted(fs, c) && Matches(c, fs, Target(plan, c))
    ensures Decide(plan, fs, Placed(0, {}, {})) == ReadBack(0, {}, {})
    ensures Decide(plan, fs, Copying(1, {c.name}, {})) == Deleting(0, {c.name}, {})
    ensures Decide(plan, fs, Deleting(0, {c.name}, {})) == Removing(0, {c.name}, {})
  {
    hide WellFormed, Matches, InventoryCandidate, Target, Temporary;
  }

  /** Where its changes lead. */
  lemma CopyLeads(plan: Plan, made: FileSystem, filled: FileSystem, fs: FileSystem, c: Candidate)
    requires plan.candidates == [c] && WellFormed(made) && WellFormed(filled) && WellFormed(fs)
    requires ChangedOnly(made, filled, {Temporary(plan, c)}) && Renamed(filled, fs, Temporary(plan, c), Target(plan, c))
    ensures Disturbed(plan, World(made, NoJournal, Staging(0, {}, {})), filled) == World(filled, NoJournal, Staging(0, {}, {}))
    ensures Relocated(plan, World(filled, NoJournal, Staging(0, {}, {})), fs) == World(fs, NoJournal, Placed(0, {}, {}))
  {
    hide WellFormed, Renamed, ChangedOnly, Target, Temporary;
  }

  lemma SaveLeads(plan: Plan, fs: FileSystem, c: Candidate)
    requires plan.candidates == [c] && WellFormed(fs)
    ensures Saved(plan, World(fs, NoJournal, ReadBack(0, {}, {}))) ==
            World(fs, CopiedState(plan, {c.name}, {}), Copying(1, {c.name}, {}))
  {
    hide WellFormed, CopiedState;
    SaveIs(plan, World(fs, NoJournal, ReadBack(0, {}, {})));
    assert {} + {c.name} == {c.name};
  }

  lemma FreshRunIs(plan: Plan, original: FileSystem, c: Candidate)
    requires FreshRun(plan, original, c)
    ensures plan.candidates == [c] && WellFormed(original)
  {
  }

  /** The history that copies the one source, checkpoints it, and comes to its removal. */
  function RunToRemoval(plan: Plan, original: FileSystem, c: Candidate): seq<Move> {
    var made := MakeRoots(plan, original);
    [Begin(made), Proceed, Proceed, Disturb(CopiedTo(plan, made, c)), Place(RenamedTo(plan, made, c)),
     Proceed, Save, Proceed, Proceed]
  }

  lemma StepLeads(plan: Plan, original: FileSystem, journal: Journal, moves: seq<Move>, k: nat, w: World)
    requires WellFormed(original) && k < |moves| && Replay(plan, original, journal, moves[..k]) == w
    ensures Replay(plan, original, journal, moves[..k + 1]) == After(plan, w, moves[k])
  {
    assert moves[..k + 1] == moves[..k] + [moves[k]];
    OneMore(plan, original, journal, moves[..k], moves[k]);
  }

  /** So a source can be half removed: the state `InterruptedRemoval` starts from is reached. */
  lemma RemovalIsReached(plan: Plan, original: FileSystem, c: Candidate)
    requires FreshRun(plan, original, c)
    ensures var w := Replay(plan, original, NoJournal, RunToRemoval(plan, original, c));
            && IsRemoving(plan, w.process, c) && Intact(original, w.fs, c)
            && w.fs == RenamedTo(plan, MakeRoots(plan, original), c)
  {
    hide WellFormed, MakeRoots, RenamedTo, CopiedTo, ValidPlan, FreshRun, CopiedState, Replay,
      Begun, Decide, Disturbed, Relocated, Saved, Undrifted, Matches, Renamed, ChangedOnly, Intact, Archived,
      Subtree, RootsMade, HasItems, Target, Temporary;
    var moves := RunToRemoval(plan, original, c);
    var made := MakeRoots(plan, original);
    var filled := CopiedTo(plan, made, c);
    var fs := RenamedTo(plan, made, c);
    var copied := CopiedState(plan, {c.name}, {});
    FreshRunIs(plan, original, c);
    MadeIsReady(plan, original, c);
    CopyIsFilled(plan, original, c);
    CopyIsPlaced(plan, original, c);
    CopyIsExact(plan, original, c);
    ReplayOfNothing(plan, original);
    BeginsTo(plan, World(original, NoJournal, Idle), made);
    DecisionsBefore(plan, made, c);
    CopyLeads(plan, made, filled, fs, c);
    DecisionsAfter(plan, fs, c);
    SaveLeads(plan, fs, c);
    assert moves[..0] == [] && moves[..9] == moves;
    StepLeads(plan, original, NoJournal, moves, 0, World(original, NoJournal, Idle));
    StepLeads(plan, original, NoJournal, moves, 1, World(made, NoJournal, Copying(0, {}, {})));
    StepLeads(plan, original, NoJournal, moves, 2, World(made, NoJournal, Clearing(0, {}, {})));
    StepLeads(plan, original, NoJournal, moves, 3, World(made, NoJournal, Staging(0, {}, {})));
    StepLeads(plan, original, NoJournal, moves, 4, World(filled, NoJournal, Staging(0, {}, {})));
    StepLeads(plan, original, NoJournal, moves, 5, World(fs, NoJournal, Placed(0, {}, {})));
    StepLeads(plan, original, NoJournal, moves, 6, World(fs, NoJournal, ReadBack(0, {}, {})));
    StepLeads(plan, original, NoJournal, moves, 7, World(fs, copied, Copying(1, {c.name}, {})));
    StepLeads(plan, original, NoJournal, moves, 8, World(fs, copied, Deleting(0, {c.name}, {})));
  }

  lemma ReplayOfNothing(plan: Plan, original: FileSystem)
    requires WellFormed(original)
    ensures Replay(plan, original, NoJournal, []) == World(original, NoJournal, Idle)
  {
  }

  /** The history that is stuck: run to the removal, lose one entry of the source, die. */
  function RunToCrash(plan: Plan, original: FileSystem, c: Candidate, x: Path): seq<Move> {
    RunToRemoval(plan, original, c) + Interruption(RenamedTo(plan, MakeRoots(plan, original), c), x)
  }

  /** For every such plan over a source with anything in it, one history keeps the tree and yet no extension of it reports. */
  lemma CrashStopsEveryRun(plan: Plan, original: FileSystem, c: Candidate, x: Path, later: seq<Move>)
    requires FreshRun(plan, original, c) && x in original && c.source < x
    ensures var crashed := Replay(plan, original, NoJournal, RunToCrash(plan, original, c, x));
            crashed.process.Idle? && Archived(plan, original, crashed.fs, c)
    ensures var w := Replay(plan, original, NoJournal, RunToCrash(plan, original, c, x) + later);
            c.source in w.fs && x !in w.fs && !Finished(plan, w.process)
  {
    hide WellFormed, MakeRoots, RenamedTo, ValidPlan, Replay, Subtree, IsRemoving, Interruption, RunToRemoval;
    FreshRunIs(plan, original, c);
    RemovalIsReached(plan, original, c);
    var w := Replay(plan, original, NoJournal, RunToRemoval(plan, original, c));
    SameTreeSameEntry(original, w.fs, c.source, x);
    InterruptedRemoval(plan, original, NoJournal, RunToRemoval(plan, original, c), c, x, later);
  }

  // ----- and such a run exists ---------------------------------------------------------

  /** A destination, and a source directory with one file in it. */
  const SAMPLE: FileSystem := map[
    [] := Directory(0, 0), ["d"] := Directory(0, 0), ["s"] := Directory(0, 0), ["s", "f"] := File([], 0, 0)]

  lemma SampleIsWellFormed()
    ensures WellFormed(SAMPLE)
  {
    forall p | p in SAMPLE ensures Hangs(SAMPLE, p) && ValidPath(p) {
      if p == ["s", "f"] {
        assert p[..|p| - 1] == ["s"];
      } else if p != [] {
        assert p[..|p| - 1] == [];
      }
    }
  }

  lemma SampleIsTaken() returns (c: Candidate)
    ensures c.source == ["s"] && c.name == "a" && Taken(SAMPLE, c)
  {
    hide Inventory, ValidCandidate;
    SampleIsWellFormed();
    var t := Subtree(SAMPLE, ["s"]);
    assert ["s"] + [] == ["s"];
    forall q | q in t ensures t[q].Plain() && t[q].mtime >= 0 {
      assert SAMPLE[["s"] + q].Plain();
    }
    InventoryIsDefined(SAMPLE, ["s"]);
    InventoryPassesItsChecks(SAMPLE, ["s"], "a");
    InventoryIsComplete(SAMPLE, ["s"]);
    c := Freeze(["s"], "a", Inventory(SAMPLE, ["s"]).value);
  }

  lemma TakenIsValid(original: FileSystem, c: Candidate)
    requires Taken(original, c)
    ensures ValidCandidate(c)
  {
    hide Inventory, ValidCandidate;
  }

  lemma SamplePaths(plan: Plan, c: Candidate)
    requires plan.id == "p" && plan.destination == ["d"] && c.source == ["s"]
    ensures Target(plan, c) !in SAMPLE && Temporary(plan, c) !in SAMPLE && RootsUsable(plan, SAMPLE)
    ensures !Overlaps(c.source, plan.destination)
  {
    OverlapIsPrefix(["s"], ["d"]);
    assert ["s"][0] != ["d"][0];
    assert |Target(plan, c)| == 4 && |Temporary(plan, c)| == 4 && |OperationRoot(plan)| == 2 && |Items(plan)| == 3;
    assert OperationRoot(plan)[0] == "d";
  }

  /** One run that `CrashStopsEveryRun` speaks of. */
  lemma SomeRunIsFresh() returns (plan: Plan, c: Candidate)
    ensures FreshRun(plan, SAMPLE, c) && ["s", "f"] in SAMPLE && c.source < ["s", "f"]
  {
    hide Taken, ValidCandidate, RootsUsable, Overlaps, WellFormed, Target, Temporary;
    SampleIsWellFormed();
    c := SampleIsTaken();
    TakenIsValid(SAMPLE, c);
    plan := Plan("p", ["d"], [], [c], _ => 0);
    SamplePaths(plan, c);
  }
}
