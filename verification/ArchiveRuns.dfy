/** What holds of the archive and its sources in every history of the cleanup. */
module ArchiveRuns {
  import opened Wrappers
  import opened Ordering
  import opened ArchiveTree
  import opened ArchiveInventory
  import opened ArchiveCleanup

  /** The candidate is the inventory of the original file system. */
  ghost predicate Taken(original: FileSystem, c: Candidate) {
    WellFormed(original) && InventoryCandidate(original, c.source, c.name) == Some(c)
  }

  /** So are all of the plan's; otherwise some source drifted before the first run. */
  ghost predicate TakenFrom(plan: Plan, original: FileSystem) {
    forall c | c in plan.candidates :: Taken(original, c)
  }

  ghost function Original(original: FileSystem, c: Candidate): map<Path, Entry> {
    Subtree(original, c.source)
  }

  /** The source still is the tree that was inventoried. */
  ghost predicate Intact(original: FileSystem, fs: FileSystem, c: Candidate) {
    Subtree(fs, c.source) == Original(original, c)
  }

  /** The archive holds the tree that was inventoried. */
  ghost predicate Archived(plan: Plan, original: FileSystem, fs: FileSystem, c: Candidate) {
    Subtree(fs, Target(plan, c)) == Original(original, c)
  }

  /** The target passed its readback: it holds the original tree, if that is what was inventoried. */
  ghost predicate HoldsTree(plan: Plan, original: FileSystem, fs: FileSystem, c: Candidate) {
    Taken(original, c) ==> Archived(plan, original, fs, c)
  }

  // ----- frames ------------------------------------------------------------------------

  lemma PrefixesOfOne(a: Path, b: Path, x: Path)
    requires a <= x && b <= x
    ensures a <= b || b <= a
  {
    assert a == x[..|a|] && b == x[..|b|];
  }

  lemma PrefixOfPrefix(a: Path, b: Path, x: Path)
    requires a <= b && b <= x
    ensures a <= x
  {
    assert a == b[..|a|] == x[..|a|];
  }

  /** A subtree apart from a root lies apart from it entry by entry. */
  lemma BelowClear(p: Path, q: Path, r: Path)
    requires !Overlaps(p, r)
    ensures !Overlaps(p + q, r)
  {
    OverlapIsPrefix(p, r);
    OverlapIsPrefix(p + q, r);
    assert p <= p + q;
    if r <= p + q {
      PrefixesOfOne(p, r, p + q);
    }
    if p + q <= r {
      PrefixOfPrefix(p, p + q, r);
    }
  }

  lemma SameSubtree(fs: FileSystem, gs: FileSystem, p: Path)
    requires forall q :: SameEntry(fs, gs, p + q)
    ensures Subtree(fs, p) == Subtree(gs, p)
  {
    forall q ensures q in Subtree(fs, p) <==> q in Subtree(gs, p) {
      assert SameEntry(fs, gs, p + q);
    }
    forall q | q in Subtree(fs, p) ensures Subtree(fs, p)[q] == Subtree(gs, p)[q] {
      assert SameEntry(fs, gs, p + q);
    }
  }

  lemma SubtreeUntouched(fs: FileSystem, gs: FileSystem, roots: set<Path>, p: Path)
    requires ChangedOnly(fs, gs, roots) && Clear(p, roots)
    ensures Subtree(fs, p) == Subtree(gs, p)
  {
    forall q ensures SameEntry(fs, gs, p + q) {
      forall r | r in roots ensures !Overlaps(p + q, r) {
        BelowClear(p, q, r);
      }
      assert Clear(p + q, roots);
    }
    SameSubtree(fs, gs, p);
  }

  lemma SourceClearOfItems(plan: Plan, c: Candidate, names: Path)
    requires ValidPlan(plan) && c in plan.candidates
    ensures !Overlaps(c.source, Items(plan) + names)
    ensures !Overlaps(Items(plan) + names, c.source)
    ensures !(c.source <= Items(plan))
  {
    var d := plan.destination;
    OverlapIsPrefix(c.source, d);
    OverlapIsPrefix(d, c.source);
    BelowClear(d, [plan.id, "items"] + names, c.source);
    BelowClear(d, [plan.id, "items"], c.source);
    assert d + ([plan.id, "items"] + names) == Items(plan) + names;
    OverlapIsPrefix(Items(plan) + names, c.source);
    OverlapIsPrefix(c.source, Items(plan) + names);
    OverlapIsPrefix(Items(plan), c.source);
  }

  lemma SourcesApart(plan: Plan, c: Candidate, d: Candidate)
    requires ValidPlan(plan) && c in plan.candidates && d in plan.candidates && c != d
    ensures !Overlaps(c.source, d.source)
  {
    OverlapIsPrefix(c.source, d.source);
    OverlapIsPrefix(d.source, c.source);
  }

  lemma SubtreeKeptByMaking(plan: Plan, fs: FileSystem, gs: FileSystem, p: Path)
    requires RootsMade(plan, fs, gs) && !(p <= Items(plan))
    ensures Subtree(fs, p) == Subtree(gs, p)
  {
    forall q ensures SameEntry(fs, gs, p + q) {
      assert p <= p + q;
      if p + q <= Items(plan) {
        PrefixOfPrefix(p, p + q, Items(plan));
      }
    }
    SameSubtree(fs, gs, p);
  }

  // ----- the invariant -----------------------------------------------------------------

  predicate CopyingSide(p: Process) {
    p.Clearing? || p.Staging? || p.Placed? || p.ReadBack?
  }

  predicate DeletingSide(p: Process) {
    p.Deleting? || p.Removing? || p.Removed?
  }

  /** The two sets in memory are those in the state file, and the loops have got as far as they say. */
  ghost predicate Tracks(plan: Plan, fs: FileSystem, journal: Journal, p: Process) {
    !p.Idle? ==>
          && ReadState(plan, journal) == Some((p.copied, p.deleted))
          && p.i <= |plan.candidates|
          && (!p.Copying? && !p.Deleting? ==> p.i < |plan.candidates|)
          && (CopyingSide(p) ==> plan.candidates[p.i].name !in p.copied)
          && (!DeletingSide(p) ==> forall k | 0 <= k < p.i :: plan.candidates[k].name in p.copied)
          && (DeletingSide(p) ==> p.copied == Names(plan))
          && (DeletingSide(p) ==> forall k | 0 <= k < p.i :: plan.candidates[k].name in p.deleted && plan.candidates[k].source !in fs)
          && (p.Removing? || p.Removed? ==> plan.candidates[p.i].name !in p.deleted)
          && (p.Removed? ==> plan.candidates[p.i].source !in fs)
  }

  ghost predicate Safe(plan: Plan, original: FileSystem, w: World) {
    && (forall c | c in plan.candidates :: Intact(original, w.fs, c) || (Taken(original, c) && Archived(plan, original, w.fs, c)))
    && ((exists c | c in plan.candidates :: !Intact(original, w.fs, c)) ==>
          ReadState(plan, w.journal).Some? && ReadState(plan, w.journal).value.0 == Names(plan))
    && ((w.process.Removing? || w.process.ReadBack?) && w.process.i < |plan.candidates| ==>
          HoldsTree(plan, original, w.fs, plan.candidates[w.process.i]))
    && (w.process.Removing? && w.process.i < |plan.candidates| ==> Taken(original, plan.candidates[w.process.i]))
  }

  ghost predicate Sound(plan: Plan, original: FileSystem, w: World) {
    Tracks(plan, w.fs, w.journal, w.process) && Safe(plan, original, w)
  }

  // ----- every move keeps it -----------------------------------------------------------

  lemma SavedStateReads(plan: Plan, copied: set<string>, deleted: set<string>)
    requires deleted <= copied <= Names(plan)
    ensures ReadState(plan, CopiedState(plan, copied, deleted)) == Some((copied, deleted))
  {
  }

  lemma CandidateNamed(plan: Plan, i: nat)
    requires i < |plan.candidates|
    ensures plan.candidates[i] in plan.candidates && plan.candidates[i].name in Names(plan)
  {
  }

  /** Where a decision may lead, and what it has then established. */
  ghost predicate Leads(plan: Plan, original: FileSystem, fs: FileSystem, p: Process, p': Process)
    requires !p.Idle?
  {
    || p'.Idle?
    || p' == p
    || (p.Copying? && p.i >= |plan.candidates| && p' == Deleting(0, p.copied, p.deleted))
    || (p.i < |plan.candidates|
        && var c := plan.candidates[p.i];
           || (p.Copying? && c.name in p.copied && p' == Copying(p.i + 1, p.copied, p.deleted))
           || (p.Copying? && c.name !in p.copied && HoldsTree(plan, original, fs, c) && p' == ReadBack(p.i, p.copied, p.deleted))
           || (p.Copying? && c.name !in p.copied && p' == Clearing(p.i, p.copied, p.deleted))
           || (p.Clearing? && p' == Staging(p.i, p.copied, p.deleted))
           || (p.Placed? && HoldsTree(plan, original, fs, c) && p' == ReadBack(p.i, p.copied, p.deleted))
           || (p.Deleting? && c.name in p.deleted && c.source !in fs && p' == Deleting(p.i + 1, p.copied, p.deleted))
           || (p.Deleting? && c.name !in p.deleted && c.source !in fs && p' == Removed(p.i, p.copied, p.deleted))
           || (p.Deleting? && c.name !in p.deleted && HoldsTree(plan, original, fs, c) && (Intact(original, fs, c) ==> Taken(original, c))
               && p' == Removing(p.i, p.copied, p.deleted))
           || (p.Removing? && c.source !in fs && p' == Removed(p.i, p.copied, p.deleted)))
  }

  lemma ReadbackHoldsTree(plan: Plan, original: FileSystem, fs: FileSystem, c: Candidate)
    requires WellFormed(original) && WellFormed(fs)
    ensures Matches(c, fs, Target(plan, c)) ==> HoldsTree(plan, original, fs, c)
  {
    if Taken(original, c) {
      MatchesMeansSameTree(c, fs, Target(plan, c), original);
    }
  }

  /** A source that is as it was before the first run, and passes the drift check, is what was inventoried. */
  lemma UndriftedIsTaken(original: FileSystem, fs: FileSystem, c: Candidate)
    requires WellFormed(original) && WellFormed(fs)
    ensures Undrifted(fs, c) && Intact(original, fs, c) ==> Taken(original, c)
  {
    if Undrifted(fs, c) && Intact(original, fs, c) {
      SameInventoryMeansSameTree(fs, c.source, original, c.source);
    }
  }

  lemma DecisionLeads(plan: Plan, original: FileSystem, fs: FileSystem, p: Process)
    requires WellFormed(original) && WellFormed(fs)
    ensures !p.Idle? ==> Leads(plan, original, fs, p, Decide(plan, fs, p))
  {
    hide WellFormed, Matches, Undrifted, Subtree, HoldsTree, Intact, Taken;
    if !p.Idle? && p.i < |plan.candidates| {
      var c := plan.candidates[p.i];
      ReadbackHoldsTree(plan, original, fs, c);
      UndriftedIsTaken(original, fs, c);
    }
  }

  lemma LeadsKeepsTracks(plan: Plan, original: FileSystem, fs: FileSystem, journal: Journal, p: Process, p': Process)
    requires Tracks(plan, fs, journal, p) && !p.Idle? && Leads(plan, original, fs, p, p')
    ensures Tracks(plan, fs, journal, p')
  {
    if p.Copying? && p.i >= |plan.candidates| {
      forall n | n in Names(plan) ensures n in p.copied {
        var c :| c in plan.candidates && c.name == n;
      }
    }
  }

  lemma ProceedKeepsSound(plan: Plan, original: FileSystem, w: World)
    requires ValidPlan(plan) && WellFormed(original) && WellFormed(w.fs)
    requires Sound(plan, original, w)
    ensures Sound(plan, original, w.(process := Decide(plan, w.fs, w.process)))
  {
    if !w.process.Idle? {
      DecisionLeads(plan, original, w.fs, w.process);
      LeadsKeepsTracks(plan, original, w.fs, w.journal, w.process, Decide(plan, w.fs, w.process));
    }
  }

  /** While some name is not yet checkpointed as copied, no source has been touched. */
  lemma CopyingMeansIntact(plan: Plan, original: FileSystem, w: World, c: Candidate)
    requires Sound(plan, original, w) && CopyingSide(w.process) && c in plan.candidates
    ensures Intact(original, w.fs, c)
  {
    CandidateNamed(plan, w.process.i);
  }

  /** A change confined to the archive's items leaves every source as it was. */
  lemma ArchiveChangeKeepsSafe(plan: Plan, original: FileSystem, w: World, gs: FileSystem, process: Process, roots: set<Path>)
    requires ValidPlan(plan) && WellFormed(original)
    requires Sound(plan, original, w) && CopyingSide(w.process) && !process.Removing? && !process.ReadBack?
    requires forall r | r in roots :: Items(plan) <= r
    requires ChangedOnly(w.fs, gs, roots)
    ensures Safe(plan, original, World(gs, w.journal, process))
  {
    forall c | c in plan.candidates ensures Intact(original, gs, c) {
      CopyingMeansIntact(plan, original, w, c);
      forall r | r in roots ensures !Overlaps(c.source, r) {
        SourceClearOfItems(plan, c, r[|Items(plan)|..]);
        assert r == Items(plan) + r[|Items(plan)|..];
      }
      SubtreeUntouched(w.fs, gs, roots, c.source);
    }
  }

  /** A removal within one source leaves the other sources and every target as they were. */
  lemma RemovalLeavesRest(plan: Plan, fs: FileSystem, gs: FileSystem, c: Candidate, d: Candidate)
    requires ValidPlan(plan) && c in plan.candidates && d in plan.candidates && ChangedOnly(fs, gs, {c.source})
    ensures Subtree(gs, Target(plan, d)) == Subtree(fs, Target(plan, d))
    ensures d != c ==> Subtree(gs, d.source) == Subtree(fs, d.source) && SameEntry(fs, gs, d.source)
  {
    SourceClearOfItems(plan, c, [d.name]);
    SubtreeUntouched(fs, gs, {c.source}, Target(plan, d));
    if d != c {
      SourcesApart(plan, d, c);
      assert Clear(d.source, {c.source});
      SubtreeUntouched(fs, gs, {c.source}, d.source);
    }
  }

  /** Shrinking one source whose archive copy is exact loses nothing. */
  lemma RemovalKeepsSafe(plan: Plan, original: FileSystem, w: World, gs: FileSystem)
    requires ValidPlan(plan) && Sound(plan, original, w) && w.process.Removing?
    requires Shrunk(w.fs, gs, plan.candidates[w.process.i].source)
    ensures Safe(plan, original, w.(fs := gs))
    ensures Tracks(plan, gs, w.journal, w.process)
  {
    hide ChangedOnly, Subtree, ReadState, Names, ValidPlan, Target;
    var c := plan.candidates[w.process.i];
    forall d | d in plan.candidates
      ensures Subtree(gs, Target(plan, d)) == Subtree(w.fs, Target(plan, d))
      ensures d != c ==> Subtree(gs, d.source) == Subtree(w.fs, d.source) && SameEntry(w.fs, gs, d.source)
    {
      RemovalLeavesRest(plan, w.fs, gs, c, d);
    }
    forall k | 0 <= k < w.process.i ensures plan.candidates[k].source !in gs {
      SourcesDiffer(plan, k, w.process.i);
      assert plan.candidates[k] in plan.candidates;
    }
  }

  lemma SourcesDiffer(plan: Plan, i: nat, j: nat)
    requires ValidPlan(plan) && i < j < |plan.candidates|
    ensures plan.candidates[i] != plan.candidates[j]
  {
    assert plan.candidates[i].source != plan.candidates[j].source;
  }

  lemma BeginKeepsSafe(plan: Plan, original: FileSystem, w: World, gs: FileSystem, process: Process)
    requires ValidPlan(plan) && Sound(plan, original, w) && RootsMade(plan, w.fs, gs) && process.Copying?
    ensures Safe(plan, original, World(gs, w.journal, process))
  {
    forall c | c in plan.candidates
      ensures Subtree(gs, c.source) == Subtree(w.fs, c.source)
      ensures Subtree(gs, Target(plan, c)) == Subtree(w.fs, Target(plan, c))
    {
      SourceClearOfItems(plan, c, []);
      SubtreeKeptByMaking(plan, w.fs, gs, c.source);
      SubtreeKeptByMaking(plan, w.fs, gs, Target(plan, c));
    }
  }

  lemma SaveCopiedKeepsTracks(plan: Plan, w: World)
    requires ValidPlan(plan) && Tracks(plan, w.fs, w.journal, w.process) && w.process.ReadBack?
    ensures var p := w.process;
            var copied := p.copied + {plan.candidates[p.i].name};
            && ReadState(plan, CopiedState(plan, copied, p.deleted)) == Some((copied, p.deleted)) && copied <= Names(plan)
            && Tracks(plan, w.fs, CopiedState(plan, copied, p.deleted), Copying(p.i + 1, copied, p.deleted))
  {
    hide ValidPlan, CopiedState;
    var p := w.process;
    CandidateNamed(plan, p.i);
    SavedStateReads(plan, p.copied + {plan.candidates[p.i].name}, p.deleted);
  }

  lemma SaveCopiedKeepsSound(plan: Plan, original: FileSystem, w: World)
    requires ValidPlan(plan) && Sound(plan, original, w) && w.process.ReadBack?
    ensures var p := w.process;
            var copied := p.copied + {plan.candidates[p.i].name};
            Sound(plan, original, World(w.fs, CopiedState(plan, copied, p.deleted), Copying(p.i + 1, copied, p.deleted)))
  {
    hide ValidPlan, CopiedState, ReadState, Safe, Names;
    var p := w.process;
    SaveCopiedKeepsTracks(plan, w);
    CopiedReadsSafe(plan, original, w, CopiedState(plan, p.copied + {plan.candidates[p.i].name}, p.deleted),
                    Copying(p.i + 1, p.copied + {plan.candidates[p.i].name}, p.deleted));
  }

  /** Safety survives a checkpoint that drops no copied name. */
  lemma CopiedReadsSafe(plan: Plan, original: FileSystem, w: World, journal: Journal, process: Process)
    requires Safe(plan, original, w) && !process.Removing? && !process.ReadBack?
    requires ReadState(plan, w.journal).Some? && ReadState(plan, journal).Some?
    requires ReadState(plan, w.journal).value.0 <= ReadState(plan, journal).value.0 <= Names(plan)
    ensures Safe(plan, original, World(w.fs, journal, process))
  {
  }

  lemma SaveDeletedKeepsTracks(plan: Plan, w: World)
    requires ValidPlan(plan) && Tracks(plan, w.fs, w.journal, w.process) && w.process.Removed?
    ensures var p := w.process;
            var deleted := p.deleted + {plan.candidates[p.i].name};
            && ReadState(plan, CopiedState(plan, p.copied, deleted)) == Some((p.copied, deleted))
            && Tracks(plan, w.fs, CopiedState(plan, p.copied, deleted), Deleting(p.i + 1, p.copied, deleted))
  {
    var p := w.process;
    CandidateNamed(plan, p.i);
    assert p.copied == Names(plan) && p.deleted <= p.copied;
    SavedStateReads(plan, p.copied, p.deleted + {plan.candidates[p.i].name});
  }

  lemma SaveDeletedKeepsSound(plan: Plan, original: FileSystem, w: World)
    requires ValidPlan(plan) && Sound(plan, original, w) && w.process.Removed?
    ensures var p := w.process;
            var deleted := p.deleted + {plan.candidates[p.i].name};
            Sound(plan, original, World(w.fs, CopiedState(plan, p.copied, deleted), Deleting(p.i + 1, p.copied, deleted)))
  {
    var p := w.process;
    var deleted := p.deleted + {plan.candidates[p.i].name};
    SaveDeletedKeepsTracks(plan, w);
    CopiedReadsSafe(plan, original, w, CopiedState(plan, p.copied, deleted), Deleting(p.i + 1, p.copied, deleted));
  }

  lemma SaveIs(plan: Plan, w: World)
    requires WellFormed(w.fs) && (w.process.Idle? || w.process.i <= |plan.candidates|)
    requires w.process.ReadBack? || w.process.Removed? ==> w.process.i < |plan.candidates|
    ensures var p := w.process;
            Saved(plan, w) ==
            if p.ReadBack? then
              var copied := p.copied + {plan.candidates[p.i].name};
              World(w.fs, CopiedState(plan, copied, p.deleted), Copying(p.i + 1, copied, p.deleted))
            else if p.Removed? then
              var deleted := p.deleted + {plan.candidates[p.i].name};
              World(w.fs, CopiedState(plan, p.copied, deleted), Deleting(p.i + 1, p.copied, deleted))
            else w
  {
  }

  lemma SaveKeepsSound(plan: Plan, original: FileSystem, w: World)
    requires ValidPlan(plan) && WellFormed(w.fs) && Sound(plan, original, w)
    ensures Sound(plan, original, Saved(plan, w))
  {
    SaveIs(plan, w);
    if w.process.ReadBack? {
      SaveCopiedKeepsSound(plan, original, w);
    } else if w.process.Removed? {
      SaveDeletedKeepsSound(plan, original, w);
    }
  }

  lemma DisturbKeepsSound(plan: Plan, original: FileSystem, w: World, fs: FileSystem)
    requires ValidPlan(plan) && WellFormed(original) && WellFormed(w.fs) && Sound(plan, original, w)
    ensures Sound(plan, original, Disturbed(plan, w, fs))
  {
    var p := w.process;
    if Disturbed(plan, w, fs) != w {
      var c := plan.candidates[p.i];
      if p.Removing? {
        RemovalKeepsSafe(plan, original, w, fs);
      } else {
        ArchiveChangeKeepsSafe(plan, original, w, fs, p, {Temporary(plan, c)});
      }
    }
  }

  lemma PlacedTracks(plan: Plan, fs: FileSystem, gs: FileSystem, journal: Journal, p: Process)
    requires Tracks(plan, fs, journal, p) && p.Staging?
    ensures Tracks(plan, gs, journal, Placed(p.i, p.copied, p.deleted))
  {
  }

  lemma RelocatedKeepsSafe(plan: Plan, original: FileSystem, w: World, gs: FileSystem, c: Candidate, process: Process)
    requires ValidPlan(plan) && WellFormed(original) && Sound(plan, original, w) && CopyingSide(w.process)
    requires process.Placed? && ChangedOnly(w.fs, gs, {Temporary(plan, c), Target(plan, c)})
    ensures Safe(plan, original, World(gs, w.journal, process))
  {
    assert Items(plan) <= Temporary(plan, c) && Items(plan) <= Target(plan, c);
    ArchiveChangeKeepsSafe(plan, original, w, gs, process, {Temporary(plan, c), Target(plan, c)});
  }

  lemma PlaceKeepsSound(plan: Plan, original: FileSystem, w: World, fs: FileSystem)
    requires ValidPlan(plan) && WellFormed(original) && WellFormed(w.fs) && Sound(plan, original, w)
    ensures Sound(plan, original, Relocated(plan, w, fs))
  {
    if Relocated(plan, w, fs) != w {
      var p := w.process;
      PlacedTracks(plan, w.fs, fs, w.journal, p);
      RelocatedKeepsSafe(plan, original, w, fs, plan.candidates[p.i], Placed(p.i, p.copied, p.deleted));
    }
  }

  lemma MoveKeepsSound(plan: Plan, original: FileSystem, w: World, move: Move)
    requires ValidPlan(plan) && WellFormed(original) && WellFormed(w.fs)
    requires Sound(plan, original, w)
    ensures Sound(plan, original, After(plan, w, move))
  {
    match move
    case Begin(made) =>
      var w' := After(plan, w, move);
      if w' != w {
        BeginKeepsSafe(plan, original, w, made, w'.process);
      }
    case Proceed =>
      ProceedKeepsSound(plan, original, w);
    case Disturb(fs) => DisturbKeepsSound(plan, original, w, fs);
    case Place(fs) => PlaceKeepsSound(plan, original, w, fs);
    case Save => SaveKeepsSound(plan, original, w);
    case Crash =>
  }

  lemma {:induction false} EveryWorldIsSound(plan: Plan, original: FileSystem, journal: Journal, moves: seq<Move>)
    requires ValidPlan(plan) && WellFormed(original)
    ensures Sound(plan, original, Replay(plan, original, journal, moves))
  {
    if moves != [] {
      EveryWorldIsSound(plan, original, journal, moves[..|moves| - 1]);
      MoveKeepsSound(plan, original, Replay(plan, original, journal, moves[..|moves| - 1]), moves[|moves| - 1]);
    }
  }

  // ----- theorems about whole histories ------------------------------------------------

  lemma OneMore(plan: Plan, original: FileSystem, journal: Journal, moves: seq<Move>, move: Move)
    requires WellFormed(original)
    ensures Replay(plan, original, journal, moves + [move]) == After(plan, Replay(plan, original, journal, moves), move)
  {
    assert (moves + [move])[..|moves|] == moves;
  }

  /** At every moment each planned tree is whole, at its source or in the archive. */
  lemma NothingIsLost(plan: Plan, original: FileSystem, journal: Journal, moves: seq<Move>, c: Candidate)
    requires ValidPlan(plan) && WellFormed(original) && c in plan.candidates
    ensures var fs := Replay(plan, original, journal, moves).fs;
            Intact(original, fs, c) || Archived(plan, original, fs, c)
  {
    EveryWorldIsSound(plan, original, journal, moves);
  }

  predicate EveryNameCopied(plan: Plan, journal: Journal) {
    ReadState(plan, journal).Some? && ReadState(plan, journal).value.0 == Names(plan)
  }

  /** What one move may have changed in the file system. */
  ghost predicate Footprint(plan: Plan, w: World, gs: FileSystem) {
    var p := w.process;
    || gs == w.fs
    || (p.Idle? && RootsMade(plan, w.fs, gs))
    || (!p.Idle? && p.i < |plan.candidates|
        && var d := plan.candidates[p.i];
           || (p.Removing? && ChangedOnly(w.fs, gs, {d.source}))
           || ((p.Clearing? || p.Staging?) && ChangedOnly(w.fs, gs, {Temporary(plan, d), Target(plan, d)})))
  }

  lemma MoveHasFootprint(plan: Plan, w: World, move: Move)
    requires WellFormed(w.fs)
    ensures Footprint(plan, w, After(plan, w, move).fs)
    ensures !move.Save? ==> After(plan, w, move).journal == w.journal
  {
    var p := w.process;
    if !p.Idle? && p.i < |plan.candidates| {
      var d := plan.candidates[p.i];
      forall q | Clear(q, {Temporary(plan, d), Target(plan, d)}) ensures Clear(q, {Temporary(plan, d)}) {
        assert Temporary(plan, d) in {Temporary(plan, d), Target(plan, d)};
      }
    }
  }

  /** A subtree outside the archive changes only when it is the source being removed. */
  lemma FootprintOutside(plan: Plan, w: World, gs: FileSystem, p: Path)
    requires Footprint(plan, w, gs) && !Overlaps(p, Items(plan))
    requires w.process.Removing? && w.process.i < |plan.candidates| ==> !Overlaps(p, plan.candidates[w.process.i].source)
    ensures Subtree(gs, p) == Subtree(w.fs, p)
  {
    OverlapIsPrefix(p, Items(plan));
    OverlapIsPrefix(Items(plan), p);
    if gs == w.fs {
    } else if w.process.Idle? {
      SubtreeKeptByMaking(plan, w.fs, gs, p);
    } else {
      var d := plan.candidates[w.process.i];
      BelowClear(Items(plan), [d.name], p);
      BelowClear(Items(plan), ["." + d.name + ".tmp"], p);
      OverlapIsPrefix(Temporary(plan, d), p);
      OverlapIsPrefix(p, Temporary(plan, d));
      OverlapIsPrefix(Target(plan, d), p);
      OverlapIsPrefix(p, Target(plan, d));
      SubtreeUntouched(w.fs, gs, if w.process.Removing? then {d.source} else {Temporary(plan, d), Target(plan, d)}, p);
    }
  }

  /** An archived item changes only while its own candidate, or one whose temporary bears its name, is being copied. */
  lemma FootprintInside(plan: Plan, w: World, gs: FileSystem, name: string)
    requires ValidPlan(plan) && Footprint(plan, w, gs)
    requires (w.process.Clearing? || w.process.Staging?) && w.process.i < |plan.candidates| ==>
               var d := plan.candidates[w.process.i]; name != d.name && name != "." + d.name + ".tmp"
    ensures Subtree(gs, Items(plan) + [name]) == Subtree(w.fs, Items(plan) + [name])
  {
    if gs == w.fs {
    } else if w.process.Idle? {
      SubtreeKeptByMaking(plan, w.fs, gs, Items(plan) + [name]);
    } else {
      var d := plan.candidates[w.process.i];
      assert d in plan.candidates;
      if w.process.Removing? {
        SourceClearOfItems(plan, d, [name]);
        SubtreeUntouched(w.fs, gs, {d.source}, Items(plan) + [name]);
      } else {
        SiblingsApart(plan, name, "." + d.name + ".tmp");
        SiblingsApart(plan, name, d.name);
        SubtreeUntouched(w.fs, gs, {Temporary(plan, d), Target(plan, d)}, Items(plan) + [name]);
      }
    }
  }

  lemma SiblingsApart(plan: Plan, a: string, b: string)
    requires a != b
    ensures !Overlaps(Items(plan) + [a], Items(plan) + [b])
  {
    OverlapIsPrefix(Items(plan) + [a], Items(plan) + [b]);
    var n := |Items(plan)|;
    assert (Items(plan) + [a])[n] == a && (Items(plan) + [b])[n] == b;
  }

  lemma FootprintOnSource(plan: Plan, w: World, gs: FileSystem, c: Candidate)
    requires ValidPlan(plan) && Footprint(plan, w, gs) && c in plan.candidates
    ensures Subtree(gs, c.source) != Subtree(w.fs, c.source) ==>
              w.process.Removing? && w.process.i < |plan.candidates| && plan.candidates[w.process.i] == c
  {
    SourceClearOfItems(plan, c, []);
    assert Items(plan) + [] == Items(plan);
    if w.process.Removing? && w.process.i < |plan.candidates| {
      var d := plan.candidates[w.process.i];
      if d != c {
        assert d in plan.candidates;
        SourcesApart(plan, c, d);
        FootprintOutside(plan, w, gs, c.source);
      }
    } else {
      FootprintOutside(plan, w, gs, c.source);
    }
  }

  lemma FootprintOnItem(plan: Plan, w: World, gs: FileSystem, x: Path)
    requires ValidPlan(plan) && Footprint(plan, w, gs) && Items(plan) < x
    requires !w.process.Clearing? && !w.process.Staging?
    ensures SameEntry(w.fs, gs, x)
  {
    if gs != w.fs && w.process.Removing? {
      var d := plan.candidates[w.process.i];
      assert d in plan.candidates;
      SourceClearOfItems(plan, d, x[|Items(plan)|..]);
      assert x == Items(plan) + x[|Items(plan)|..];
      assert Clear(x, {d.source});
    }
  }

  /** No checkpoint forgets a copied name. */
  lemma SaveKeepsNames(plan: Plan, w: World)
    requires ValidPlan(plan) && WellFormed(w.fs) && Tracks(plan, w.fs, w.journal, w.process)
    ensures EveryNameCopied(plan, w.journal) ==> EveryNameCopied(plan, Saved(plan, w).journal)
  {
    SaveIs(plan, w);
    var p := w.process;
    if p.ReadBack? {
      CandidateNamed(plan, p.i);
      SavedStateReads(plan, p.copied + {plan.candidates[p.i].name}, p.deleted);
    } else if p.Removed? {
      CandidateNamed(plan, p.i);
      SavedStateReads(plan, p.copied, p.deleted + {plan.candidates[p.i].name});
    }
  }

  lemma MoveKeepsItems(plan: Plan, original: FileSystem, w: World, move: Move, x: Path)
    requires ValidPlan(plan) && WellFormed(w.fs)
    requires Tracks(plan, w.fs, w.journal, w.process) && EveryNameCopied(plan, w.journal) && Items(plan) < x
    ensures SameEntry(w.fs, After(plan, w, move).fs, x)
    ensures EveryNameCopied(plan, After(plan, w, move).journal)
  {
    if CopyingSide(w.process) {
      CandidateNamed(plan, w.process.i);
    }
    MoveHasFootprint(plan, w, move);
    FootprintOnItem(plan, w, After(plan, w, move).fs, x);
    SaveKeepsNames(plan, w);
  }

  /**
   Once the state file names every candidate as copied, nothing in the archive is written or
   removed again. It does so before any source is touched (`SourcesWaitForTheArchive`).
   */
  lemma {:induction false} ArchiveIsFrozen(plan: Plan, original: FileSystem, journal: Journal, moves: seq<Move>, later: seq<Move>, x: Path)
    requires ValidPlan(plan) && WellFormed(original)
    requires EveryNameCopied(plan, Replay(plan, original, journal, moves).journal) && Items(plan) < x
    ensures SameEntry(Replay(plan, original, journal, moves).fs, Replay(plan, original, journal, moves + later).fs, x)
    ensures EveryNameCopied(plan, Replay(plan, original, journal, moves + later).journal)
  {
    if later == [] {
      assert moves + later == moves;
    } else {
      var most := later[..|later| - 1];
      ArchiveIsFrozen(plan, original, journal, moves, most, x);
      EveryWorldIsSound(plan, original, journal, moves + most);
      MoveKeepsItems(plan, original, Replay(plan, original, journal, moves + most), later[|later| - 1], x);
      assert moves + later == (moves + most) + [later[|later| - 1]];
      OneMore(plan, original, journal, moves + most, later[|later| - 1]);
    }
  }

  /**
   A move reaches into a source only while that very tree stands in the archive, with every
   name already checkpointed as copied; the sources still waiting are not touched by it.
   */
  lemma SourcesWaitForTheArchive(plan: Plan, original: FileSystem, journal: Journal, moves: seq<Move>, move: Move, c: Candidate)
    requires ValidPlan(plan) && WellFormed(original) && c in plan.candidates
    ensures var w := Replay(plan, original, journal, moves);
            var w' := Replay(plan, original, journal, moves + [move]);
            Subtree(w'.fs, c.source) != Subtree(w.fs, c.source) ==>
              && EveryNameCopied(plan, w.journal)
              && Archived(plan, original, w.fs, c) && Archived(plan, original, w'.fs, c)
              && forall d | d in plan.candidates && d != c :: Subtree(w'.fs, d.source) == Subtree(w.fs, d.source)
  {
    EveryWorldIsSound(plan, original, journal, moves);
    OneMore(plan, original, journal, moves, move);
    var w := Replay(plan, original, journal, moves);
    MoveHasFootprint(plan, w, move);
    TouchedSource(plan, original, w, After(plan, w, move).fs, c);
  }

  lemma TouchedSource(plan: Plan, original: FileSystem, w: World, gs: FileSystem, c: Candidate)
    requires ValidPlan(plan) && Sound(plan, original, w) && c in plan.candidates && Footprint(plan, w, gs)
    ensures Subtree(gs, c.source) != Subtree(w.fs, c.source) ==>
              && EveryNameCopied(plan, w.journal)
              && Archived(plan, original, w.fs, c) && Archived(plan, original, gs, c)
              && forall d | d in plan.candidates && d != c :: Subtree(gs, d.source) == Subtree(w.fs, d.source)
  {
    FootprintOnSource(plan, w, gs, c);
    forall d | d in plan.candidates && Subtree(gs, d.source) != Subtree(w.fs, d.source)
      ensures w.process.Removing? && w.process.i < |plan.candidates| && plan.candidates[w.process.i] == d
    {
      FootprintOnSource(plan, w, gs, d);
    }
    if Subtree(gs, c.source) != Subtree(w.fs, c.source) {
      FootprintInside(plan, w, gs, c.name);
    }
  }

  /** A readback has just matched, and nothing has changed since. */
  ghost predicate ReadBackHolds(plan: Plan, w: World) {
    WellFormed(w.fs) && (w.process.ReadBack? && w.process.i < |plan.candidates| ==>
                           var c := plan.candidates[w.process.i]; Matches(c, w.fs, Target(plan, c)))
  }

  lemma MoveKeepsReadBack(plan: Plan, w: World, move: Move)
    requires ReadBackHolds(plan, w)
    ensures ReadBackHolds(plan, After(plan, w, move))
  {
    hide Matches, WellFormed, Undrifted;
  }

  lemma {:induction false} ReadBackMatches(plan: Plan, original: FileSystem, journal: Journal, moves: seq<Move>)
    requires WellFormed(original)
    ensures ReadBackHolds(plan, Replay(plan, original, journal, moves))
  {
    if moves != [] {
      ReadBackMatches(plan, original, journal, moves[..|moves| - 1]);
      MoveKeepsReadBack(plan, Replay(plan, original, journal, moves[..|moves| - 1]), moves[|moves| - 1]);
    }
  }

  ghost predicate HoldsCopy(plan: Plan, fs: FileSystem, name: string) {
    WellFormed(fs) && exists c | c in plan.candidates :: c.name == name && Matches(c, fs, Target(plan, c))
  }

  predicate NamedCopied(plan: Plan, journal: Journal, name: string) {
    ReadState(plan, journal).Some? && name in ReadState(plan, journal).value.0
  }

  /** A name that a history has checkpointed as copied was, at some earlier moment of it, read back and matched. */
  lemma {:induction false} CopiedMeansReadBack(plan: Plan, original: FileSystem, journal: Journal, moves: seq<Move>, name: string)
    returns (earlier: seq<Move>)
    requires ValidPlan(plan) && WellFormed(original)
    requires NamedCopied(plan, Replay(plan, original, journal, moves).journal, name) && !NamedCopied(plan, journal, name)
    ensures earlier <= moves && HoldsCopy(plan, Replay(plan, original, journal, earlier).fs, name)
  {
    earlier := [];
    if moves != [] {
      var before := moves[..|moves| - 1];
      EveryWorldIsSound(plan, original, journal, before);
      ReadBackMatches(plan, original, journal, before);
      var w := Replay(plan, original, journal, before);
      if NamedCopied(plan, w.journal, name) {
        earlier := CopiedMeansReadBack(plan, original, journal, before, name);
      } else {
        MoveCheckpoints(plan, original, w, moves[|moves| - 1], name);
        earlier := before;
      }
    }
  }

  /** The only move that adds a copied name is a save just after its readback. */
  lemma MoveCheckpoints(plan: Plan, original: FileSystem, w: World, move: Move, name: string)
    requires ValidPlan(plan) && WellFormed(w.fs) && Sound(plan, original, w) && ReadBackHolds(plan, w)
    requires NamedCopied(plan, After(plan, w, move).journal, name) && !NamedCopied(plan, w.journal, name)
    ensures HoldsCopy(plan, w.fs, name)
  {
    hide Begun, Disturbed, Relocated, Decide, ValidPlan, WellFormed, Footprint, CopiedState, Subtree, Saved, Matches, Safe;
    var p := w.process;
    if move.Save? {
      SaveIs(plan, w);
      if p.ReadBack? {
        CandidateNamed(plan, p.i);
        SavedStateReads(plan, p.copied + {plan.candidates[p.i].name}, p.deleted);
      } else {
        OtherSavesCopyNothing(plan, w, name);
      }
    } else {
      MoveHasFootprint(plan, w, move);
    }
  }

  lemma OtherSavesCopyNothing(plan: Plan, w: World, name: string)
    requires ValidPlan(plan) && WellFormed(w.fs) && Tracks(plan, w.fs, w.journal, w.process) && !w.process.ReadBack?
    ensures NamedCopied(plan, Saved(plan, w).journal, name) ==> NamedCopied(plan, w.journal, name)
  {
    hide ValidPlan, WellFormed, CopiedState, Saved;
    SaveIs(plan, w);
    var p := w.process;
    if p.Removed? {
      CandidateNamed(plan, p.i);
      SavedStateReads(plan, p.copied, p.deleted + {plan.candidates[p.i].name});
    }
  }

  /** A state file that reads as two nested sets of planned names, as an absent one does, always reads so. */
  lemma {:induction false} CheckpointsAreNested(plan: Plan, original: FileSystem, journal: Journal, moves: seq<Move>)
    requires ValidPlan(plan) && WellFormed(original) && ReadState(plan, journal).Some?
    ensures var state := ReadState(plan, Replay(plan, original, journal, moves).journal);
            state.Some? && state.value.1 <= state.value.0 <= Names(plan)
  {
    if moves != [] {
      CheckpointsAreNested(plan, original, journal, moves[..|moves| - 1]);
      EveryWorldIsSound(plan, original, journal, moves[..|moves| - 1]);
      MoveKeepsReadable(plan, Replay(plan, original, journal, moves[..|moves| - 1]), moves[|moves| - 1]);
    }
  }

  /** With a state file that is too long, or does not read so, no run does anything. */
  lemma {:induction false} UnreadableStateStops(plan: Plan, original: FileSystem, journal: Journal, moves: seq<Move>)
    requires WellFormed(original) && (!Fits(plan, journal) || ReadState(plan, journal).None?)
    ensures Replay(plan, original, journal, moves) == World(original, journal, Idle)
  {
    hide ReadState, Fits;
    if moves != [] {
      UnreadableStateStops(plan, original, journal, moves[..|moves| - 1]);
    }
  }

  lemma MoveKeepsReadable(plan: Plan, w: World, move: Move)
    requires ValidPlan(plan) && WellFormed(w.fs) && Tracks(plan, w.fs, w.journal, w.process)
    requires ReadState(plan, w.journal).Some?
    ensures ReadState(plan, After(plan, w, move).journal).Some?
  {
    hide Begun, Disturbed, Relocated, Decide, ValidPlan, WellFormed, Footprint, CopiedState, ReadState, Saved, Subtree;
    if move.Save? {
      SaveIs(plan, w);
      if !w.process.Idle? {
        NestedInMemory(plan, w);
      }
      var p := w.process;
      if p.ReadBack? {
        CandidateNamed(plan, p.i);
        SavedStateReads(plan, p.copied + {plan.candidates[p.i].name}, p.deleted);
      } else if p.Removed? {
        CandidateNamed(plan, p.i);
        SavedStateReads(plan, p.copied, p.deleted + {plan.candidates[p.i].name});
      }
    } else {
      MoveHasFootprint(plan, w, move);
    }
  }

  lemma NestedInMemory(plan: Plan, w: World)
    requires Tracks(plan, w.fs, w.journal, w.process) && !w.process.Idle?
    ensures w.process.deleted <= w.process.copied <= Names(plan)
    ensures w.process.Removed? ==> w.process.copied == Names(plan)
  {
  }

  /**
   An invocation that comes to the end of its delete loop has finished: every source is gone,
   every archived tree is the original, and both sets name every candidate. So the report it
   returns is always the complete one.
   */
  lemma FinishedMeansComplete(plan: Plan, original: FileSystem, journal: Journal, moves: seq<Move>)
    requires ValidPlan(plan) && WellFormed(original)
    requires Replay(plan, original, journal, moves).process.Deleting?
    requires Replay(plan, original, journal, moves).process.i == |plan.candidates|
    ensures var w := Replay(plan, original, journal, moves);
            && w.process.copied == Names(plan) && w.process.deleted == Names(plan)
            && ReadState(plan, w.journal) == Some((Names(plan), Names(plan)))
            && forall c | c in plan.candidates :: c.source !in w.fs && HoldsTree(plan, original, w.fs, c)
  {
    hide ValidPlan, WellFormed, Replay, Subtree, Archived, Intact, Taken;
    EveryWorldIsSound(plan, original, journal, moves);
    var w := Replay(plan, original, journal, moves);
    forall n | n in Names(plan) ensures n in w.process.deleted {
      var c :| c in plan.candidates && c.name == n;
      var k :| 0 <= k < |plan.candidates| && plan.candidates[k] == c;
    }
    forall c | c in plan.candidates ensures c.source !in w.fs && HoldsTree(plan, original, w.fs, c) {
      var k :| 0 <= k < |plan.candidates| && plan.candidates[k] == c;
      if Taken(original, c) {
        AbsentIsNotIntact(original, w.fs, c);
      }
    }
  }

  lemma AbsentIsNotIntact(original: FileSystem, fs: FileSystem, c: Candidate)
    requires Taken(original, c) && c.source !in fs
    ensures !Intact(original, fs, c)
  {
    OriginalHasRoot(original, c);
    assert c.source + [] == c.source;
    assert [] !in Subtree(fs, c.source);
  }

  lemma OriginalHasRoot(original: FileSystem, c: Candidate)
    requires Taken(original, c)
    ensures [] in Original(original, c)
  {
    InventoryIsDefined(original, c.source);
  }

  /** Nothing apart from the sources and the archive's own items ever changes. */
  lemma {:induction false} ChangesAreConfined(plan: Plan, original: FileSystem, journal: Journal, moves: seq<Move>, p: Path)
    requires ValidPlan(plan) && WellFormed(original)
    requires !Overlaps(p, Items(plan)) && forall c | c in plan.candidates :: !Overlaps(p, c.source)
    ensures Subtree(Replay(plan, original, journal, moves).fs, p) == Subtree(original, p)
  {
    if moves != [] {
      ChangesAreConfined(plan, original, journal, moves[..|moves| - 1], p);
      EveryWorldIsSound(plan, original, journal, moves[..|moves| - 1]);
      var w := Replay(plan, original, journal, moves[..|moves| - 1]);
      MoveHasFootprint(plan, w, moves[|moves| - 1]);
      if w.process.Removing? && w.process.i < |plan.candidates| {
        CandidateNamed(plan, w.process.i);
      }
      FootprintOutside(plan, w, After(plan, w, moves[|moves| - 1]).fs, p);
    }
  }

  /** What a removal of `c` must leave alone: protected paths, the destination and the other sources. */
  ghost predicate Spared(plan: Plan, c: Candidate, p: Path) {
    p in plan.protections || p == plan.destination || exists d | d in plan.candidates && d != c :: d.source == p
  }

  lemma SparedIsApart(plan: Plan, c: Candidate, p: Path)
    requires ValidPlan(plan) && c in plan.candidates && Spared(plan, c, p)
    ensures !Overlaps(p, c.source)
  {
    OverlapIsPrefix(p, c.source);
    OverlapIsPrefix(c.source, p);
    if d :| d in plan.candidates && d != c && d.source == p {
      SourcesApart(plan, d, c);
    }
  }

  lemma RemovalSpares(plan: Plan, w: World, gs: FileSystem, p: Path)
    requires ValidPlan(plan) && w.process.Removing? && w.process.i < |plan.candidates| && Footprint(plan, w, gs)
    requires Spared(plan, plan.candidates[w.process.i], p)
    ensures Subtree(gs, p) == Subtree(w.fs, p)
  {
    var c := plan.candidates[w.process.i];
    SparedIsApart(plan, c, p);
    if gs != w.fs {
      SubtreeUntouched(w.fs, gs, {c.source}, p);
    }
  }

  /** Whatever move is made while a source is being removed, no protected path, no other source and nothing in the destination changes. */
  lemma RemovalIsConfined(plan: Plan, original: FileSystem, journal: Journal, moves: seq<Move>, move: Move, p: Path)
    requires ValidPlan(plan) && WellFormed(original)
    requires Replay(plan, original, journal, moves).process.Removing?
    ensures var w := Replay(plan, original, journal, moves);
            && w.process.i < |plan.candidates|
            && (Spared(plan, plan.candidates[w.process.i], p) ==>
                  Subtree(Replay(plan, original, journal, moves + [move]).fs, p) == Subtree(w.fs, p))
  {
    hide ValidPlan, WellFormed, Replay, Subtree, Safe, After, Spared, Footprint, ReadState, Names;
    EveryWorldIsSound(plan, original, journal, moves);
    OneMore(plan, original, journal, moves, move);
    var w := Replay(plan, original, journal, moves);
    if Spared(plan, plan.candidates[w.process.i], p) {
      MoveHasFootprint(plan, w, move);
      RemovalSpares(plan, w, After(plan, w, move).fs, p);
    }
  }

  /** At and below a protected path every entry stands as it was, in every history, unless it is the archive's own. */
  lemma ProtectionsStand(plan: Plan, original: FileSystem, journal: Journal, moves: seq<Move>, p: Path, x: Path)
    requires ValidPlan(plan) && WellFormed(original)
    requires p in plan.protections && Inside(x, p) && !Overlaps(x, Items(plan))
    ensures SameEntry(original, Replay(plan, original, journal, moves).fs, x)
  {
    forall c | c in plan.candidates ensures !Overlaps(x, c.source) {
      SparedIsApart(plan, c, p);
      BelowClear(p, x[|p|..], c.source);
      assert x == p + x[|p|..];
    }
    ChangesAreConfined(plan, original, journal, moves, x);
    var fs := Replay(plan, original, journal, moves).fs;
    assert x + [] == x;
    assert [] in Subtree(original, x) <==> [] in Subtree(fs, x);
  }

  // ----- names that cannot collide -----------------------------------------------------

  /** No two candidates share an archive name, and none is named like another's temporary. */
  predicate CollisionFree(plan: Plan) {
    var cs := plan.candidates;
    && (forall i, j | 0 <= i < j < |cs| :: cs[i].name != cs[j].name)
    && (forall i, j | 0 <= i < |cs| && 0 <= j < |cs| :: cs[j].name != "." + cs[i].name + ".tmp")
  }

  /** What stands at a path decides its inventory, and so every readback and drift check there. */
  lemma ChecksFollowTree(fs: FileSystem, gs: FileSystem, p: Path, c: Candidate)
    requires WellFormed(fs) && WellFormed(gs) && Subtree(fs, p) == Subtree(gs, p)
    ensures InventoryCandidate(fs, p, c.name) == InventoryCandidate(gs, p, c.name)
    ensures Matches(c, fs, p) <==> Matches(c, gs, p)
    ensures p in fs <==> p in gs
    ensures c.source == p ==> (Undrifted(fs, c) <==> Undrifted(gs, c))
  {
    assert p + [] == p;
    assert [] in Subtree(fs, p) <==> p in fs;
    assert [] in Subtree(gs, p) <==> p in gs;
    InventoryIsDefined(fs, p);
    InventoryIsDefined(gs, p);
    if Inventory(fs, p).Some? {
      SameInventoryMeansSameTree(fs, p, gs, p);
    }
  }

  /** Every target checkpointed as copied passes its readback as it stands. */
  ghost predicate CopiesStand(plan: Plan, w: World) {
    WellFormed(w.fs) && forall c | c in plan.candidates && NamedCopied(plan, w.journal, c.name) :: Matches(c, w.fs, Target(plan, c))
  }

  lemma SaveCopiedKeepsCopies(plan: Plan, w: World)
    requires ValidPlan(plan) && CollisionFree(plan) && w.process.ReadBack?
    requires Tracks(plan, w.fs, w.journal, w.process) && ReadBackHolds(plan, w) && CopiesStand(plan, w)
    ensures var p := w.process;
            var copied := p.copied + {plan.candidates[p.i].name};
            CopiesStand(plan, World(w.fs, CopiedState(plan, copied, p.deleted), Copying(p.i + 1, copied, p.deleted)))
  {
    hide Matches, WellFormed, ValidPlan, CopiedState;
    var p := w.process;
    CandidateNamed(plan, p.i);
    var c := plan.candidates[p.i];
    SavedStateReads(plan, p.copied + {c.name}, p.deleted);
    forall d | d in plan.candidates && d.name == c.name ensures d == c {
      var k :| 0 <= k < |plan.candidates| && plan.candidates[k] == d;
    }
  }

  lemma SaveDeletedKeepsCopies(plan: Plan, w: World)
    requires ValidPlan(plan) && w.process.Removed?
    requires Tracks(plan, w.fs, w.journal, w.process) && CopiesStand(plan, w)
    ensures var p := w.process;
            var deleted := p.deleted + {plan.candidates[p.i].name};
            CopiesStand(plan, World(w.fs, CopiedState(plan, p.copied, deleted), Deleting(p.i + 1, p.copied, deleted)))
  {
    hide Matches, WellFormed, ValidPlan, CopiedState;
    var p := w.process;
    CandidateNamed(plan, p.i);
    SavedStateReads(plan, p.copied, p.deleted + {plan.candidates[p.i].name});
  }

  lemma SaveKeepsCopies(plan: Plan, w: World)
    requires ValidPlan(plan) && CollisionFree(plan) && WellFormed(w.fs)
    requires Tracks(plan, w.fs, w.journal, w.process) && ReadBackHolds(plan, w) && CopiesStand(plan, w)
    ensures CopiesStand(plan, Saved(plan, w))
  {
    hide CopiesStand, ReadBackHolds, ValidPlan, WellFormed, CollisionFree, CopiedState;
    SaveIs(plan, w);
    if w.process.ReadBack? {
      SaveCopiedKeepsCopies(plan, w);
    } else if w.process.Removed? {
      SaveDeletedKeepsCopies(plan, w);
    }
  }

  lemma MoveKeepsCopies(plan: Plan, w: World, move: Move)
    requires ValidPlan(plan) && CollisionFree(plan) && WellFormed(w.fs)
    requires Tracks(plan, w.fs, w.journal, w.process) && ReadBackHolds(plan, w) && CopiesStand(plan, w)
    ensures CopiesStand(plan, After(plan, w, move))
  {
    hide Begun, Disturbed, Relocated, Saved, Decide, ValidPlan, WellFormed, CollisionFree, Footprint, Subtree, Matches, Tracks, ReadBackHolds;
    if move.Save? {
      SaveKeepsCopies(plan, w);
    } else {
      MoveHasFootprint(plan, w, move);
      var gs := After(plan, w, move).fs;
      forall c | c in plan.candidates && NamedCopied(plan, w.journal, c.name) ensures Matches(c, gs, Target(plan, c)) {
        CopyUntouched(plan, w, gs, c);
        ChecksFollowTree(w.fs, gs, Target(plan, c), c);
      }
    }
  }

  lemma CopyUntouched(plan: Plan, w: World, gs: FileSystem, c: Candidate)
    requires ValidPlan(plan) && CollisionFree(plan) && Footprint(plan, w, gs)
    requires Tracks(plan, w.fs, w.journal, w.process) && c in plan.candidates && NamedCopied(plan, w.journal, c.name)
    ensures Subtree(w.fs, Target(plan, c)) == Subtree(gs, Target(plan, c))
  {
    hide Footprint, ValidPlan, Subtree;
    var k :| 0 <= k < |plan.candidates| && plan.candidates[k] == c;
    FootprintInside(plan, w, gs, c.name);
  }

  /**
   With names that cannot collide, a state file whose copies all pass their readback, as an absent one's
   do, is only ever followed by such state files: a copy once checkpointed stands at every later moment.
   */
  lemma {:induction false} CheckpointedCopiesStand(plan: Plan, original: FileSystem, journal: Journal, moves: seq<Move>)
    requires ValidPlan(plan) && WellFormed(original) && CollisionFree(plan)
    requires CopiesStand(plan, World(original, journal, Idle))
    ensures CopiesStand(plan, Replay(plan, original, journal, moves))
  {
    hide CopiesStand, ReadBackHolds, ValidPlan, CollisionFree, Safe;
    if moves != [] {
      CheckpointedCopiesStand(plan, original, journal, moves[..|moves| - 1]);
      EveryWorldIsSound(plan, original, journal, moves[..|moves| - 1]);
      ReadBackMatches(plan, original, journal, moves[..|moves| - 1]);
      MoveKeepsCopies(plan, Replay(plan, original, journal, moves[..|moves| - 1]), moves[|moves| - 1]);
    }
  }

  lemma NothingCopiedStands(plan: Plan, fs: FileSystem)
    requires WellFormed(fs)
    ensures CopiesStand(plan, World(fs, NoJournal, Idle)) && DeletedAreGone(plan, World(fs, NoJournal, Idle))
  {
  }

  /** The targets that the invocation in hand has read back so far. */
  predicate ReadBackSoFar(plan: Plan, p: Process, k: nat) {
    !p.Idle? && (DeletingSide(p) || k < p.i || (p.ReadBack? && k == p.i))
  }

  ghost predicate LoopMatched(plan: Plan, w: World) {
    && WellFormed(w.fs)
    && forall k | 0 <= k < |plan.candidates| && ReadBackSoFar(plan, w.process, k) ::
         Matches(plan.candidates[k], w.fs, Target(plan, plan.candidates[k]))
  }

  /** A decision counts one more target as read back only where its readback matches. */
  lemma DecisionReadsBack(plan: Plan, w: World, k: nat)
    requires Tracks(plan, w.fs, w.journal, w.process) && WellFormed(w.fs) && k < |plan.candidates|
    requires ReadBackSoFar(plan, Decide(plan, w.fs, w.process), k) && !ReadBackSoFar(plan, w.process, k)
    ensures Matches(plan.candidates[k], w.fs, Target(plan, plan.candidates[k]))
  {
    hide Matches, WellFormed, Undrifted, ReadState, Names;
  }

  lemma OthersReadBackNothing(plan: Plan, w: World, move: Move, k: nat)
    requires WellFormed(w.fs) && Tracks(plan, w.fs, w.journal, w.process) && k < |plan.candidates| && !move.Proceed?
    ensures ReadBackSoFar(plan, After(plan, w, move).process, k) ==> ReadBackSoFar(plan, w.process, k)
  {
    hide WellFormed, ReadState, Names, CopiedState;
  }

  lemma TargetUntouched(plan: Plan, w: World, gs: FileSystem, k: nat)
    requires ValidPlan(plan) && CollisionFree(plan) && Footprint(plan, w, gs)
    requires k < |plan.candidates| && ReadBackSoFar(plan, w.process, k)
    ensures Subtree(w.fs, Target(plan, plan.candidates[k])) == Subtree(gs, Target(plan, plan.candidates[k]))
  {
    hide Footprint, ValidPlan, Subtree;
    FootprintInside(plan, w, gs, plan.candidates[k].name);
  }

  lemma MoveKeepsLoopMatched(plan: Plan, w: World, move: Move)
    requires ValidPlan(plan) && CollisionFree(plan) && Tracks(plan, w.fs, w.journal, w.process) && LoopMatched(plan, w)
    ensures LoopMatched(plan, After(plan, w, move))
  {
    hide ValidPlan, WellFormed, CollisionFree, Footprint, Subtree, Matches, Tracks, ReadBackSoFar, After;
    MoveHasFootprint(plan, w, move);
    var w' := After(plan, w, move);
    forall k | 0 <= k < |plan.candidates| && ReadBackSoFar(plan, w'.process, k)
      ensures Matches(plan.candidates[k], w'.fs, Target(plan, plan.candidates[k]))
    {
      if ReadBackSoFar(plan, w.process, k) {
        TargetUntouched(plan, w, w'.fs, k);
        ChecksFollowTree(w.fs, w'.fs, Target(plan, plan.candidates[k]), plan.candidates[k]);
      } else if move.Proceed? {
        ProceedIs(plan, w);
        DecisionReadsBack(plan, w, k);
      } else {
        OthersReadBackNothing(plan, w, move, k);
      }
    }
  }

  lemma ProceedIs(plan: Plan, w: World)
    requires WellFormed(w.fs)
    ensures After(plan, w, Proceed) == w.(process := Decide(plan, w.fs, w.process))
  {
  }

  lemma {:induction false} LoopsMatch(plan: Plan, original: FileSystem, journal: Journal, moves: seq<Move>)
    requires ValidPlan(plan) && WellFormed(original) && CollisionFree(plan)
    ensures LoopMatched(plan, Replay(plan, original, journal, moves))
  {
    if moves != [] {
      LoopsMatch(plan, original, journal, moves[..|moves| - 1]);
      EveryWorldIsSound(plan, original, journal, moves[..|moves| - 1]);
      hide LoopMatched, Tracks, Safe, ValidPlan, CollisionFree, After;
      MoveKeepsLoopMatched(plan, Replay(plan, original, journal, moves[..|moves| - 1]), moves[|moves| - 1]);
    }
  }

  /**
   From any file system and any state file: an invocation that comes to its end has itself read back
   every target, whatever was checkpointed before, and each of them still passes.
   */
  lemma FinishedMeansReadBack(plan: Plan, original: FileSystem, journal: Journal, moves: seq<Move>)
    requires ValidPlan(plan) && WellFormed(original) && CollisionFree(plan)
    requires DeletingSide(Replay(plan, original, journal, moves).process)
    ensures var fs := Replay(plan, original, journal, moves).fs;
            forall c | c in plan.candidates :: Matches(c, fs, Target(plan, c))
  {
    LoopsMatch(plan, original, journal, moves);
    hide Matches, Replay, ValidPlan, CollisionFree;
    var fs := Replay(plan, original, journal, moves).fs;
    forall c | c in plan.candidates ensures Matches(c, fs, Target(plan, c)) {
      var k :| 0 <= k < |plan.candidates| && plan.candidates[k] == c;
    }
  }

  /** A name is checkpointed as deleted only while its source is gone. */
  ghost predicate DeletedAreGone(plan: Plan, w: World) {
    forall c | c in plan.candidates && ReadState(plan, w.journal).Some? && c.name in ReadState(plan, w.journal).value.1 ::
      c.source !in w.fs
  }

  lemma MoveKeepsGone(plan: Plan, original: FileSystem, w: World, move: Move)
    requires ValidPlan(plan) && WellFormed(w.fs) && CollisionFree(plan)
    requires Sound(plan, original, w) && DeletedAreGone(plan, w)
    ensures DeletedAreGone(plan, After(plan, w, move))
  {
    hide Begun, Disturbed, Relocated, Saved, Decide, ValidPlan, WellFormed, CollisionFree, Footprint, Subtree, Tracks, Safe;
    if move.Save? {
      SaveKeepsGone(plan, original, w);
    } else {
      MoveHasFootprint(plan, w, move);
      GoneStaysGone(plan, original, w, After(plan, w, move).fs);
    }
  }

  lemma GoneStaysGone(plan: Plan, original: FileSystem, w: World, gs: FileSystem)
    requires ValidPlan(plan) && Sound(plan, original, w) && DeletedAreGone(plan, w) && Footprint(plan, w, gs)
    ensures forall c | c in plan.candidates && ReadState(plan, w.journal).Some? && c.name in ReadState(plan, w.journal).value.1 ::
              c.source !in gs
  {
    forall c | c in plan.candidates && ReadState(plan, w.journal).Some? && c.name in ReadState(plan, w.journal).value.1
      ensures c.source !in gs
    {
      FootprintOnSource(plan, w, gs, c);
      assert c.source + [] == c.source;
      assert [] !in Subtree(w.fs, c.source);
      assert [] !in Subtree(gs, c.source);
    }
  }

  lemma SaveKeepsGone(plan: Plan, original: FileSystem, w: World)
    requires ValidPlan(plan) && WellFormed(w.fs) && CollisionFree(plan)
    requires Sound(plan, original, w) && DeletedAreGone(plan, w)
    ensures DeletedAreGone(plan, Saved(plan, w))
  {
    SaveIs(plan, w);
    if w.process.ReadBack? {
      SaveCopiedKeepsGone(plan, w);
    } else if w.process.Removed? {
      SaveDeletedKeepsGone(plan, w);
    }
  }

  lemma SaveCopiedKeepsGone(plan: Plan, w: World)
    requires ValidPlan(plan) && w.process.ReadBack?
    requires Tracks(plan, w.fs, w.journal, w.process) && DeletedAreGone(plan, w)
    ensures var p := w.process;
            var copied := p.copied + {plan.candidates[p.i].name};
            DeletedAreGone(plan, World(w.fs, CopiedState(plan, copied, p.deleted), Copying(p.i + 1, copied, p.deleted)))
  {
    var p := w.process;
    CandidateNamed(plan, p.i);
    SavedStateReads(plan, p.copied + {plan.candidates[p.i].name}, p.deleted);
  }

  lemma SaveDeletedKeepsGone(plan: Plan, w: World)
    requires ValidPlan(plan) && CollisionFree(plan) && w.process.Removed?
    requires Tracks(plan, w.fs, w.journal, w.process) && DeletedAreGone(plan, w)
    ensures var p := w.process;
            var deleted := p.deleted + {plan.candidates[p.i].name};
            DeletedAreGone(plan, World(w.fs, CopiedState(plan, p.copied, deleted), Deleting(p.i + 1, p.copied, deleted)))
  {
    hide ValidPlan, CopiedState, ReadState, Names;
    SaveDeletedKeepsTracks(plan, w);
    var p := w.process;
    forall d | d in plan.candidates && d.name == plan.candidates[p.i].name ensures d == plan.candidates[p.i] {
      var k :| 0 <= k < |plan.candidates| && plan.candidates[k] == d;
    }
  }

  /** Where every source checkpointed as deleted is gone, as for an absent state file, that stays so. */
  lemma {:induction false} DeletedSourcesStayGone(plan: Plan, original: FileSystem, journal: Journal, moves: seq<Move>)
    requires ValidPlan(plan) && WellFormed(original) && CollisionFree(plan)
    requires DeletedAreGone(plan, World(original, journal, Idle))
    ensures DeletedAreGone(plan, Replay(plan, original, journal, moves))
  {
    if moves != [] {
      DeletedSourcesStayGone(plan, original, journal, moves[..|moves| - 1]);
      EveryWorldIsSound(plan, original, journal, moves[..|moves| - 1]);
      MoveKeepsGone(plan, original, Replay(plan, original, journal, moves[..|moves| - 1]), moves[|moves| - 1]);
    }
  }
}
