/**
 Copy, read back, then delete (tools/hk_v1_archive_cleanup.py:238-274, 546-724), as a machine
 over worlds driven by moves.

 A move that touches the file system names the file system it leads to, so a copy may write
 anything, and a copy or a removal may stop at any point: every intermediate file system is
 itself a world, and `Crash` may follow each move.
 */
module ArchiveCleanup {
  import opened Wrappers
  import opened Ordering
  import opened ArchiveTree
  import opened ArchiveInventory

  /** `size` measures the plan's state files. */
  datatype Plan = Plan(
    id: string, destination: Path, protections: seq<Path>, candidates: seq<Candidate>, size: Journal -> nat)

  /** `ArchiveCleanupPlan.__post_init__` and its candidates' own checks, apart from the plan's digests. */
  predicate ValidPlan(plan: Plan) {
    var cs := plan.candidates;
    && ValidName(plan.id)
    && ValidPath(plan.destination) && plan.destination != []
    && cs != []
    && (forall i | 0 <= i < |cs| :: ValidCandidate(cs[i]))
    && (forall i, j | 0 <= i < j < |cs| :: cs[i].source != cs[j].source)
    && (forall i, j | 0 <= i < j < |cs| :: !Overlaps(cs[i].source, cs[j].source))
    && (forall i | 0 <= i < |cs| :: !Overlaps(cs[i].source, plan.destination))
    && (forall i | 0 <= i < |cs| :: forall p | p in plan.protections :: !Overlaps(cs[i].source, p))
  }

  function Items(plan: Plan): Path {
    plan.destination + [plan.id, "items"]
  }

  function Target(plan: Plan, c: Candidate): Path {
    Items(plan) + [c.name]
  }

  /** `target.with_name(f".{target.name}.tmp")` */
  function Temporary(plan: Plan, c: Candidate): Path {
    Items(plan) + ["." + c.name + ".tmp"]
  }

  function Names(plan: Plan): set<string> {
    set c | c in plan.candidates :: c.name
  }

  datatype Journal = NoJournal | Broken | Checkpoint(copied: seq<string>, deleted: seq<string>)

  function Elements(s: seq<string>): set<string> {
    set x | x in s
  }

  /** `_read_state`, and the check against the plan's names that follows it; `None` where they raise. */
  function ReadState(plan: Plan, journal: Journal): Option<(set<string>, set<string>)> {
    match journal
    case NoJournal => Some(({}, {}))
    case Broken => None
    case Checkpoint(copied, deleted) =>
      if Distinct(copied) && Distinct(deleted) && Elements(deleted) <= Elements(copied)
         && Elements(copied) <= Names(plan) && Elements(deleted) <= Names(plan)
      then Some((Elements(copied), Elements(deleted)))
      else None
  }

  /** `_MAX_DOCUMENT_BYTES` */
  const MAX_BYTES: nat := 5_000_000

  predicate Fits(plan: Plan, journal: Journal) {
    journal.Checkpoint? ==> plan.size(journal) <= MAX_BYTES
  }

  // ----- what a change to the file system may reach ------------------------------------

  predicate SameEntry(fs: FileSystem, gs: FileSystem, p: Path) {
    (p in fs <==> p in gs) && (p in fs ==> fs[p] == gs[p])
  }

  predicate Clear(p: Path, roots: set<Path>) {
    forall r | r in roots :: !Overlaps(p, r)
  }

  /** Only the subtrees at the roots changed, and perhaps the directories above them. */
  ghost predicate ChangedOnly(fs: FileSystem, gs: FileSystem, roots: set<Path>) {
    forall p | Clear(p, roots) :: SameEntry(fs, gs, p)
  }

  /** A renaming: the tree at `p` is now at `q`, and `p` is gone. */
  ghost predicate Renamed(fs: FileSystem, gs: FileSystem, p: Path, q: Path) {
    && ChangedOnly(fs, gs, {p, q})
    && Subtree(gs, q) == Subtree(fs, p)
    && p !in gs
  }

  /** Part of a removal: nothing under `p` is new. */
  ghost predicate Shrunk(fs: FileSystem, gs: FileSystem, p: Path) {
    && ChangedOnly(fs, gs, {p})
    && forall x | p <= x :: x in gs ==> x in fs
  }

  /** Directories made on the way to the archive's items; nothing else differs. */
  ghost predicate RootsMade(plan: Plan, fs: FileSystem, gs: FileSystem) {
    && forall p :: !(p <= Items(plan)) ==> SameEntry(fs, gs, p)
  }

  // ----- the machine -------------------------------------------------------------------

  /**
   Where an invocation stands. `copied` and `deleted` are its two sets, as last checkpointed.
   */
  datatype Process =
    | Idle
    | Copying(i: nat, copied: set<string>, deleted: set<string>)
    | Clearing(i: nat, copied: set<string>, deleted: set<string>)
    | Staging(i: nat, copied: set<string>, deleted: set<string>)
    | Placed(i: nat, copied: set<string>, deleted: set<string>)
    | ReadBack(i: nat, copied: set<string>, deleted: set<string>)
    | Deleting(i: nat, copied: set<string>, deleted: set<string>)
    | Removing(i: nat, copied: set<string>, deleted: set<string>)
    | Removed(i: nat, copied: set<string>, deleted: set<string>)

  datatype World = World(fs: FileSystem, journal: Journal, process: Process)

  datatype Move =
    | Begin(made: FileSystem)      // read the state and make the archive's directories
    | Proceed                      // take the next decision; nothing is written
    | Disturb(fs: FileSystem)      // one piece of clearing, copying or removing
    | Place(fs: FileSystem)        // rename the temporary to the target
    | Save                         // replace the state file
    | Crash

  function CopiedState(plan: Plan, copied: set<string>, deleted: set<string>): Journal {
    Checkpoint(Ordered(copied), Ordered(deleted))
  }

  function Ordered(s: set<string>): (r: seq<string>)
    ensures Elements(r) == s && Distinct(r)
  {
    var r := Sorted(s);
    AscendingIsDistinct(r);
    r
  }

  /** The head of the copy loop. */
  function CopyDecision(plan: Plan, fs: FileSystem, p: Process): Process
    requires WellFormed(fs) && p.Copying?
  {
    if p.i >= |plan.candidates| then Deleting(0, p.copied, p.deleted)
    else
      var c := plan.candidates[p.i];
      var target := Target(plan, c);
      if target in fs && fs[target].Link? then Idle
      else if c.name in p.copied then
        if Matches(c, fs, target) then Copying(p.i + 1, p.copied, p.deleted) else Idle
      else if target in fs then
        if Matches(c, fs, target) then ReadBack(p.i, p.copied, p.deleted) else Idle
      else if Temporary(plan, c) in fs && fs[Temporary(plan, c)].Link? then Idle
      else Clearing(p.i, p.copied, p.deleted)
  }

  /** The source is there, is no link, and still inventories to the frozen candidate. */
  predicate Undrifted(fs: FileSystem, c: Candidate)
    requires WellFormed(fs)
  {
    c.source in fs && !fs[c.source].Link? && InventoryCandidate(fs, c.source, c.name) == Some(c)
  }

  /** The source check of `_copy_candidate`, once the temporary is gone. */
  function StageDecision(plan: Plan, fs: FileSystem, p: Process): Process
    requires WellFormed(fs) && p.Clearing? && p.i < |plan.candidates|
  {
    var c := plan.candidates[p.i];
    if Temporary(plan, c) in fs || !Undrifted(fs, c) then Idle
    else Staging(p.i, p.copied, p.deleted)
  }

  /** The head of the delete loop. */
  function DeleteDecision(plan: Plan, fs: FileSystem, p: Process): Process
    requires WellFormed(fs) && p.Deleting?
  {
    if p.i >= |plan.candidates| then Idle
    else
      var c := plan.candidates[p.i];
      if c.name in p.deleted then
        if c.source in fs then Idle else Deleting(p.i + 1, p.copied, p.deleted)
      else if !Matches(c, fs, Target(plan, c)) then Idle
      else if c.source !in fs then Removed(p.i, p.copied, p.deleted)
      else if !Undrifted(fs, c) then Idle
      else Removing(p.i, p.copied, p.deleted)
  }

  function Decide(plan: Plan, fs: FileSystem, p: Process): Process
    requires WellFormed(fs)
  {
    if p.Copying? then CopyDecision(plan, fs, p)
    else if p.Deleting? then DeleteDecision(plan, fs, p)
    else if p.Idle? || p.i >= |plan.candidates| then p
    else
      var c := plan.candidates[p.i];
      match p
      case Clearing(_, _, _) => StageDecision(plan, fs, p)
      case Placed(i, copied, deleted) => if Matches(c, fs, Target(plan, c)) then ReadBack(i, copied, deleted) else Idle
      case Removing(i, copied, deleted) => if c.source in fs then Idle else Removed(i, copied, deleted)
      case _ => p
  }

  ghost function Begun(plan: Plan, w: World, made: FileSystem): (w': World)
    requires WellFormed(w.fs)
    ensures WellFormed(w'.fs)
  {
    if !w.process.Idle? || !WellFormed(made) || !RootsMade(plan, w.fs, made)
       || !Fits(plan, w.journal) || ReadState(plan, w.journal).None? then w
    else
      var (copied, deleted) := ReadState(plan, w.journal).value;
      World(made, w.journal, Copying(0, copied, deleted))
  }

  ghost function Disturbed(plan: Plan, w: World, fs: FileSystem): (w': World)
    requires WellFormed(w.fs)
    ensures WellFormed(w'.fs)
  {
    var p := w.process;
    if p.Idle? || p.i >= |plan.candidates| || !WellFormed(fs) then w
    else
      var c := plan.candidates[p.i];
      if (p.Clearing? || p.Staging?) && ChangedOnly(w.fs, fs, {Temporary(plan, c)}) then w.(fs := fs)
      else if p.Removing? && Shrunk(w.fs, fs, c.source) then w.(fs := fs)
      else w
  }

  ghost function Relocated(plan: Plan, w: World, fs: FileSystem): (w': World)
    requires WellFormed(w.fs)
    ensures WellFormed(w'.fs)
  {
    var p := w.process;
    if !p.Staging? || p.i >= |plan.candidates| || !WellFormed(fs) then w
    else
      var c := plan.candidates[p.i];
      if Renamed(w.fs, fs, Temporary(plan, c), Target(plan, c)) then World(fs, w.journal, Placed(p.i, p.copied, p.deleted))
      else w
  }

  function Saved(plan: Plan, w: World): (w': World)
    ensures w'.fs == w.fs
  {
    var p := w.process;
    if p.Idle? || p.i >= |plan.candidates| then w
    else
      var name := plan.candidates[p.i].name;
      match p
      case ReadBack(i, copied, deleted) =>
        World(w.fs, CopiedState(plan, copied + {name}, deleted), Copying(i + 1, copied + {name}, deleted))
      case Removed(i, copied, deleted) =>
        World(w.fs, CopiedState(plan, copied, deleted + {name}), Deleting(i + 1, copied, deleted + {name}))
      case _ => w
  }

  ghost function After(plan: Plan, w: World, move: Move): (w': World)
    requires WellFormed(w.fs)
    ensures WellFormed(w'.fs)
  {
    match move
    case Begin(made) => Begun(plan, w, made)
    case Proceed => w.(process := Decide(plan, w.fs, w.process))
    case Disturb(fs) => Disturbed(plan, w, fs)
    case Place(fs) => Relocated(plan, w, fs)
    case Save => Saved(plan, w)
    case Crash => w.(process := Idle)
  }

  /** The world that a history leads to, from any file system and any state file. */
  ghost function Replay(plan: Plan, original: FileSystem, journal: Journal, moves: seq<Move>): (w: World)
    requires WellFormed(original)
    ensures WellFormed(w.fs)
  {
    if moves == [] then World(original, journal, Idle)
    else After(plan, Replay(plan, original, journal, moves[..|moves| - 1]), moves[|moves| - 1])
  }
}
