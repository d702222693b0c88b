/**
 Exactly the states that histories of the build phase leave, against the states that its loader accepts
 (tools/hk_v1_host_apply.py:804-845, 925-1020, 1130-1288).
 */
module HostBuildHistories {
  import opened Wrappers
  import opened Text
  import opened HostPlan
  import opened HostJournal
  import opened HostBuildPhase
  import opened HostBuildRecords
  import opened HostBuildRuns

  // ----- what the validator compares, and what it does not ------------------------------

  /** What the validator does not compare: what the receipts read back, the verdict that rests on them, and the two paths. */
  predicate Consistent(job: BuildJob, s: State)
    requires BuildShaped(job.plan)
  {
    match s.result
    case InProgress =>
      if s.steps == [] then s.buildFingerprint == None && s.buildPath == None
      else AllBuilt(job, s.steps) && IsFingerprintOption(s.buildFingerprint) && s.buildPath == Some(ResultsPath(job))
    case PhaseCompleteReplanRequired =>
      && AllBuilt(job, s.steps) && (|s.steps| == 6 ==> s.steps[5].returncode == 0)
      && (|s.steps| == 6 && s.factsFingerprint.Some? ==> s.steps[5].readback == FactsFingerprint(s.factsFingerprint.value))
      && s.factsPath == Some(FactsPath(job)) && s.buildPath == Some(ResultsPath(job))
    case FailedRolledBack => FailedForward(job, s.steps) && AllPreserved(s.rollbacks) && s.buildFingerprint == None && s.buildPath == None
    case FailedRollbackUnverified =>
      FailedForward(job, s.steps) && !AllPreserved(s.rollbacks) && s.buildFingerprint == None && s.buildPath == None
    case _ => true
  }

  /** An accepted state is of the written shape exactly when it is consistent. */
  lemma AcceptedAndConsistent(job: BuildJob, s: State)
    requires Good(job)
    ensures Written(job, s) <==> Accepts(job.plan, s.authority, s) && Consistent(job, s)
  {
    hide AllBuilt, FailedForward, AllPreserved, IsFingerprint;
    if Written(job, s) {
      WrittenIsAccepted(job, s);
    } else if Accepts(job.plan, s.authority, s) && Consistent(job, s) {
      ConsistentIsWritten(job, s);
    }
  }

  lemma ConsistentIsWritten(job: BuildJob, s: State)
    requires Good(job) && Accepts(job.plan, s.authority, s) && Consistent(job, s)
    ensures Written(job, s)
  {
    hide AllBuilt, FailedForward, AllPreserved, IsFingerprint, FactsPath, ResultsPath;
  }

  // ----- what a receipt can be ---------------------------------------------------------

  ghost predicate GenuineSteps(job: BuildJob, steps: seq<Receipt>)
    requires BuildShaped(job.plan)
  {
    && (steps != [] ==> exists result :: TellsBuild(job, steps, result))
    && (|steps| == 6 ==> exists result :: TellsCollection(job, steps[5], result))
  }

  /** The fingerprint, where there is one, is that of a current results file. */
  ghost predicate Bound(job: BuildJob, fingerprint: Option<string>)
    requires BuildShaped(job.plan)
  {
    fingerprint.Some? ==> exists file :: Current(job, Some(file)) && fingerprint == Some(job.digest(file))
  }

  ghost predicate InspectionTold(job: BuildJob, k: nat, receipt: Receipt)
    requires BuildShaped(job.plan) && k < 5
  {
    exists seen :: TellsInspection(job, k, receipt, seen)
  }

  /** Every receipt is one that its own command can give, and the results named are those of some current file. */
  ghost predicate Genuine(job: BuildJob, s: State)
    requires BuildShaped(job.plan)
  {
    && GenuineSteps(job, s.steps) && Bound(job, s.buildFingerprint)
    && |s.rollbacks| <= 5 && forall k | 0 <= k < |s.rollbacks| :: InspectionTold(job, k, s.rollbacks[k])
  }

  // ----- histories leave only such states ----------------------------------------------

  ghost predicate GenuineWorld(job: BuildJob, w: World)
    requires BuildShaped(job.plan)
  {
    && (w.disk.Retained? ==> GenuineSteps(job, w.disk.state.steps) && Bound(job, w.disk.state.buildFingerprint))
    && match w.process
       case Storing(_, steps, _) => GenuineSteps(job, steps)
       case Rereading(_, steps) => GenuineSteps(job, steps)
       case Reading(_, steps) => GenuineSteps(job, steps)
       case CollectDue(_, steps, read) => GenuineSteps(job, steps) && |steps| == 5 && Current(job, Some(read))
       case Inspecting(_, steps, _) => GenuineSteps(job, steps)
       case Writing(s) => GenuineSteps(job, s.steps) && Bound(job, s.buildFingerprint)
       case _ => true
  }

  lemma NoStepsAreGenuine(job: BuildJob)
    requires BuildShaped(job.plan)
    ensures GenuineSteps(job, []) && Bound(job, None)
  {
  }

  lemma BuildIsGenuine(job: BuildJob, result: CommandResult)
    requires BuildShaped(job.plan)
    ensures GenuineSteps(job, FailedSteps(job, result))
    ensures forall rows | ValidRows(rows) :: GenuineSteps(job, BuiltSteps(job, result, rows))
  {
    hide TellsBuild, ValidRows;
    FailedStepsTell(job, result);
    forall rows | ValidRows(rows) ensures GenuineSteps(job, BuiltSteps(job, result, rows)) {
      BuiltStepsTell(job, result, rows);
    }
  }

  lemma CollectionIsGenuine(job: BuildJob, steps: seq<Receipt>, seen: Seen)
    requires BuildShaped(job.plan) && GenuineSteps(job, steps) && |steps| == 5
    ensures GenuineSteps(job, steps + [RecollectReceipt(job, seen)])
  {
    hide Tells, TellsCollection, RecollectReceipt;
    var result :| TellsBuild(job, steps, result);
    var more := steps + [RecollectReceipt(job, seen)];
    assert TellsBuild(job, more, result);
    RecollectReceiptTells(job, seen);
    assert TellsCollection(job, more[5], seen.result);
  }

  lemma RunKeepsGenuine(job: BuildJob, w: World, seen: Option<Seen>)
    requires Good(job) && GenuineWorld(job, w)
    ensures GenuineWorld(job, After(job, w, Run(seen)))
  {
    hide GenuineSteps, Bound, ArgvOf, Current, ValidRows, BuiltSteps, FailedSteps, RecollectReceipt, InspectReceipt;
    if CommandDue(w.process) && seen.Some? {
      BuildIsGenuine(job, seen.value.result);
      NoFingerprint(job);
      if w.process.CollectDue? {
        CollectionIsGenuine(job, w.process.steps, seen.value);
        CurrentBinds(job, w.process.read);
      }
    }
  }

  lemma NoFingerprint(job: BuildJob)
    requires BuildShaped(job.plan)
    ensures Bound(job, None)
  {
  }

  lemma CurrentBinds(job: BuildJob, file: ResultsFile)
    requires BuildShaped(job.plan) && Current(job, Some(file))
    ensures Bound(job, Some(job.digest(file)))
  {
  }

  lemma LookKeepsGenuine(job: BuildJob, w: World)
    requires Good(job) && Sound(job, w) && GenuineWorld(job, w)
    ensures GenuineWorld(job, After(job, w, Look))
  {
    hide GenuineSteps, Bound, Current, ValidResults, AllBuilt, FailedForward, Told;
    CurrentIs(job, w.results);
    if (w.process.Rereading? || w.process.Reading?) && ValidResults(job, w.results) {
      CurrentIsSome(job, w.results);
      CurrentBinds(job, w.results.value);
    }
  }

  lemma CurrentIsSome(job: BuildJob, file: Option<ResultsFile>)
    requires job.plan.BuildPhase? && Current(job, file)
    ensures file.Some?
  {
  }

  lemma BeginKeepsGenuine(job: BuildJob, w: World, authority: Authority)
    requires Good(job) && GenuineWorld(job, w)
    ensures GenuineWorld(job, After(job, w, Begin(authority)))
  {
    hide GenuineSteps, Bound, Current, Valid;
    NoStepsAreGenuine(job);
  }

  lemma MoveKeepsGenuine(job: BuildJob, w: World, move: Move)
    requires Good(job) && Sound(job, w) && GenuineWorld(job, w)
    ensures GenuineWorld(job, After(job, w, move))
  {
    hide GenuineSteps, Bound, Current, Begun, Ran, Looked, Sound;
    match move
    case Begin(authority) => BeginKeepsGenuine(job, w, authority);
    case Run(seen) => RunKeepsGenuine(job, w, seen);
    case Look => LookKeepsGenuine(job, w);
    case Write =>
    case Crash =>
    case Replace(_) =>
  }

  lemma {:induction false} EveryWorldIsGenuine(job: BuildJob, results: Option<ResultsFile>, moves: seq<Move>)
    requires Good(job)
    ensures GenuineWorld(job, Replay(job, results, moves))
  {
    if moves != [] {
      EveryWorldIsGenuine(job, results, moves[..|moves| - 1]);
      EveryWorldIsSound(job, results, moves[..|moves| - 1]);
      hide GenuineWorld, Sound, After, Good;
      MoveKeepsGenuine(job, Replay(job, results, moves[..|moves| - 1]), moves[|moves| - 1]);
    }
  }

  lemma LeftIsGenuine(job: BuildJob, results: Option<ResultsFile>, moves: seq<Move>, s: State)
    requires Good(job) && Replay(job, results, moves).disk == Retained(s)
    ensures Written(job, s) && Genuine(job, s)
  {
    hide Replay, Written, GenuineSteps, Bound, TellsInspection, InspectReceipt;
    EveryWorldIsSound(job, results, moves);
    EveryWorldIsGenuine(job, results, moves);
    var trace := Replay(job, results, moves).trace;
    forall k | 0 <= k < |s.rollbacks| ensures InspectionTold(job, k, s.rollbacks[k]) {
      assert Inspected(job, trace, k, s.rollbacks[k]);
      var i :| 0 <= i < |trace| && trace[i].command == Inspect(k) && trace[i].seen.Some?
               && s.rollbacks[k] == InspectReceipt(job, k, trace[i].seen.value);
      InspectReceiptTells(job, k, trace[i].seen.value);
    }
  }

  // ----- and they leave every such state -----------------------------------------------

  ghost predicate Reaches(job: BuildJob, w: World)
    requires BuildShaped(job.plan)
  {
    exists moves :: Replay(job, None, moves) == w
  }

  lemma ReachesOn(job: BuildJob, w: World, move: Move)
    requires BuildShaped(job.plan) && Reaches(job, w)
    ensures Reaches(job, After(job, w, move))
  {
    hide After;
    var moves :| Replay(job, None, moves) == w;
    OneMore(job, None, moves, move);
    assert Replay(job, None, moves + [move]) == After(job, w, move);
  }

  function Started(job: BuildJob, authority: Authority): World
    requires BuildShaped(job.plan)
  {
    World(Retained(Initial(job, authority)), None, [], BuildDue(authority))
  }

  lemma StartedReached(job: BuildJob, authority: Authority)
    requires BuildShaped(job.plan)
    ensures Reaches(job, Started(job, authority))
  {
    var empty := World(Absent, None, [], Idle);
    assert Replay(job, None, []) == empty;
    ReachesOn(job, empty, Begin(authority));
    ReachesOn(job, After(job, empty, Begin(authority)), Write);
  }

  /** The world once these rows were built, this file was found in the results' place, and the checkpoint was written. */
  function Checkpoint(job: BuildJob, authority: Authority, result: CommandResult, rows: seq<ResultRow>, file: ResultsFile): World
    requires BuildShaped(job.plan) && ValidRows(rows)
  {
    var steps := BuiltSteps(job, result, rows);
    World(Retained(Body(job, authority, InProgress, steps, [], None, Some(job.digest(file)))), Some(file),
          [Attempt(Build, ArgvOf(job, Build), None, Some(Seen(result, "", Some(rows), "")))], Reading(authority, steps))
  }

  lemma CheckpointReached(job: BuildJob, authority: Authority, result: CommandResult, rows: seq<ResultRow>, file: ResultsFile)
    requires BuildShaped(job.plan) && ValidRows(rows) && result.returncode == 0 && ValidResults(job, Some(file))
    ensures Reaches(job, Checkpoint(job, authority, result, rows, file))
  {
    hide ArgvOf, BuiltSteps, ValidRows, Reaches;
    StartedReached(job, authority);
    var seen := Seen(result, "", Some(rows), "");
    var w0 := Started(job, authority);
    var w1 := After(job, w0, Run(Some(seen)));
    ReachesOn(job, w0, Run(Some(seen)));
    var w2 := After(job, w1, Write);
    ReachesOn(job, w1, Write);
    var w3 := After(job, w2, Replace(Some(file)));
    ReachesOn(job, w2, Replace(Some(file)));
    var w4 := After(job, w3, Look);
    ReachesOn(job, w3, Look);
    ReachesOn(job, w4, Write);
    assert After(job, w4, Write) == Checkpoint(job, authority, result, rows, file);
  }

  function Receipts(job: BuildJob, seens: seq<Seen>): (r: seq<Receipt>)
    requires BuildShaped(job.plan) && |seens| <= 5
    ensures |r| == |seens|
  {
    seq(|seens|, k requires 0 <= k < |seens| => InspectReceipt(job, k, seens[k]))
  }

  /** From a failure on, the five inspections lead to its verdict. */
  lemma {:induction false} InspectionsReach(job: BuildJob, w: World, authority: Authority, steps: seq<Receipt>, seens: seq<Seen>, count: nat)
    returns (after: World)
    requires BuildShaped(job.plan) && Reaches(job, w) && w.process == Inspecting(authority, steps, []) && count < |seens| == 5
    ensures Reaches(job, after) && after.disk == w.disk
    ensures after.process == Inspecting(authority, steps, Receipts(job, seens[..count]))
  {
    hide Reaches, ArgvOf, InspectReceipt;
    if count == 0 {
      after := w;
    } else {
      var before := InspectionsReach(job, w, authority, steps, seens, count - 1);
      ReachesOn(job, before, Run(Some(seens[count - 1])));
      after := After(job, before, Run(Some(seens[count - 1])));
      assert Receipts(job, seens[..count]) == Receipts(job, seens[..count - 1]) + [InspectReceipt(job, count - 1, seens[count - 1])];
    }
  }

  lemma VerdictReached(job: BuildJob, w: World, authority: Authority, steps: seq<Receipt>, seens: seq<Seen>) returns (after: World)
    requires BuildShaped(job.plan) && Reaches(job, w) && w.process == Inspecting(authority, steps, []) && |seens| == 5
    ensures Reaches(job, after) && after.disk == Retained(FailedState(job, authority, steps, Receipts(job, seens)))
  {
    hide Reaches, ArgvOf, InspectReceipt, FailedState;
    var before := InspectionsReach(job, w, authority, steps, seens, 4);
    ReachesOn(job, before, Run(Some(seens[4])));
    var due := After(job, before, Run(Some(seens[4])));
    assert Receipts(job, seens) == Receipts(job, seens[..4]) + [InspectReceipt(job, 4, seens[4])];
    ReachesOn(job, due, Write);
    after := After(job, due, Write);
  }

  /** The five observations behind genuine rollback receipts. */
  lemma SeensOf(job: BuildJob, s: State) returns (seens: seq<Seen>)
    requires BuildShaped(job.plan) && Genuine(job, s) && |s.rollbacks| == 5
    ensures |seens| == 5 && Receipts(job, seens) == s.rollbacks
  {
    hide GenuineSteps, Bound, TellsInspection, InspectReceipt;
    seens := [];
    while |seens| < 5
      invariant |seens| <= 5
      invariant forall k | 0 <= k < |seens| :: InspectReceipt(job, k, seens[k]) == s.rollbacks[k]
    {
      assert InspectionTold(job, |seens|, s.rollbacks[|seens|]);
      var seen :| TellsInspection(job, |seens|, s.rollbacks[|seens|], seen);
      ToldInspection(job, |seens|, s.rollbacks[|seens|], seen);
      seens := seens + [seen];
    }
  }

  lemma ToldInspection(job: BuildJob, k: nat, receipt: Receipt, seen: Seen)
    requires BuildShaped(job.plan) && k < 5 && TellsInspection(job, k, receipt, seen)
    ensures InspectReceipt(job, k, seen) == receipt
  {
    InspectReceiptTells(job, k, seen);
  }

  // ----- the theorem -------------------------------------------------------------------

  /** Built steps are those of one result and the rows that they record. */
  lemma StepsAreBuilt(job: BuildJob, steps: seq<Receipt>) returns (result: CommandResult, rows: seq<ResultRow>)
    requires BuildShaped(job.plan) && GenuineSteps(job, steps) && |steps| >= 5 && AllBuilt(job, steps)
    ensures ValidRows(rows) && result.returncode == 0 && steps[..5] == BuiltSteps(job, result, rows)
  {
    hide Tells, BuiltSteps, FailedSteps, ValidRow, TellsCollection, InOrder;
    result :| TellsBuild(job, steps, result);
    rows := RowsOf(steps);
    ToldSteps(job, steps, result);
    ResultIsSteps(job, steps, result);
  }

  lemma ResultIsSteps(job: BuildJob, steps: seq<Receipt>, result: CommandResult)
    requires BuildShaped(job.plan) && TellsBuild(job, steps, result)
    ensures steps[0].returncode == result.returncode
  {
    assert Tells(steps[0], 0 + 1, job.plan.actions[0], BuildCommand(job.repositoryRoot), result, steps[0].readback);
  }

  /** A collection receipt that tells of a result is the receipt of a collection with it. */
  lemma CollectionOf(job: BuildJob, steps: seq<Receipt>, facts: string) returns (seen: Seen)
    requires BuildShaped(job.plan) && GenuineSteps(job, steps) && |steps| == 6
    requires steps[5].readback == if steps[5].returncode != 0 then FactsNotCollected else FactsFingerprint(facts)
    ensures RecollectReceipt(job, seen) == steps[5] && seen.facts == facts && seen.result.returncode == steps[5].returncode
  {
    hide TellsBuild;
    var result :| TellsCollection(job, steps[5], result);
    seen := Seen(result, "", None, facts);
    RecollectReceiptTells(job, seen);
  }

  lemma BuildFails(job: BuildJob, authority: Authority, result: CommandResult) returns (w: World)
    requires BuildShaped(job.plan) && result.returncode != 0
    ensures Reaches(job, w) && w.process == Inspecting(authority, FailedSteps(job, result), [])
  {
    hide Reaches, ArgvOf, FailedSteps;
    StartedReached(job, authority);
    var seen := Seen(result, "", None, "");
    ReachesOn(job, Started(job, authority), Run(Some(seen)));
    w := After(job, Started(job, authority), Run(Some(seen)));
  }

  /** From the checkpoint on, the recollection over whatever current file is then found. */
  lemma Collects(job: BuildJob, authority: Authority, result: CommandResult, rows: seq<ResultRow>, file: ResultsFile, seen: Seen) returns (w: World)
    requires BuildShaped(job.plan) && ValidRows(rows) && result.returncode == 0 && ValidResults(job, Some(file))
    requires seen.result.returncode == 0 ==> IsFingerprint(seen.facts)
    ensures Reaches(job, w)
    ensures var steps := BuiltSteps(job, result, rows) + [RecollectReceipt(job, seen)];
            w.process == if seen.result.returncode != 0 then Inspecting(authority, steps, [])
                         else Writing(Body(job, authority, PhaseCompleteReplanRequired, steps, [], Some(seen.facts), Some(job.digest(file))))
  {
    hide Reaches, ArgvOf, BuiltSteps, RecollectReceipt, ValidRows, IsFingerprint;
    CheckpointReached(job, authority, result, rows, file);
    var w0 := Checkpoint(job, authority, result, rows, file);
    ReachesOn(job, w0, Look);
    var w1 := After(job, w0, Look);
    ReachesOn(job, w1, Run(Some(seen)));
    w := After(job, w1, Run(Some(seen)));
  }

  lemma InProgressReached(job: BuildJob, s: State) returns (w: World)
    requires Good(job) && Written(job, s) && Genuine(job, s) && s.result == InProgress
    ensures Reaches(job, w) && w.disk == Retained(s)
  {
    hide Reaches, ArgvOf, BuiltSteps, AllBuilt, ValidRows, GenuineSteps, InOrder, IsFingerprint, Current;
    if s.steps == [] {
      StartedReached(job, s.authority);
      w := Started(job, s.authority);
    } else {
      var result, rows := StepsAreBuilt(job, s.steps);
      var file :| Current(job, Some(file)) && s.buildFingerprint == Some(job.digest(file));
      CurrentIs(job, Some(file));
      CheckpointReached(job, s.authority, result, rows, file);
      w := Checkpoint(job, s.authority, result, rows, file);
      assert s.steps[..5] == s.steps;
    }
  }

  lemma CompleteReached(job: BuildJob, s: State) returns (w: World)
    requires Good(job) && Written(job, s) && Genuine(job, s) && s.result == PhaseCompleteReplanRequired
    ensures Reaches(job, w) && w.disk == Retained(s)
  {
    hide Reaches, ArgvOf, BuiltSteps, AllBuilt, ValidRows, GenuineSteps, InOrder, IsFingerprint, Current, RecollectReceipt;
    var result, rows := StepsAreBuilt(job, s.steps);
    var file :| Current(job, Some(file)) && s.buildFingerprint == Some(job.digest(file));
    CurrentIs(job, Some(file));
    var seen := CollectionOf(job, s.steps, s.factsFingerprint.value);
    var due := Collects(job, s.authority, result, rows, file, seen);
    assert s.steps == s.steps[..5] + [s.steps[5]];
    ReachesOn(job, due, Write);
    w := After(job, due, Write);
  }

  lemma FailureReached(job: BuildJob, s: State) returns (w: World)
    requires Good(job) && FailedForward(job, s.steps) && GenuineSteps(job, s.steps)
    ensures Reaches(job, w) && w.process == Inspecting(s.authority, s.steps, [])
  {
    hide Reaches, ArgvOf, BuiltSteps, FailedSteps, AllBuilt, ValidRows, InOrder, IsFingerprint, RecollectReceipt, Tells;
    if |s.steps| == 5 {
      var result :| TellsBuild(job, s.steps, result);
      ToldSteps(job, s.steps, result);
      ResultIsSteps(job, s.steps, result);
      assert s.steps[..5] == s.steps;
      w := BuildFails(job, s.authority, result);
    } else {
      var result, rows := StepsAreBuilt(job, s.steps);
      var seen := CollectionOf(job, s.steps, "");
      assert s.steps == s.steps[..5] + [s.steps[5]];
      var file := ResultsFile(job.plan.imageInputs, rows);
      w := Collects(job, s.authority, result, rows, file, seen);
    }
  }

  lemma FailedReached(job: BuildJob, s: State) returns (w: World)
    requires Good(job) && Written(job, s) && Genuine(job, s) && s.result in {FailedRolledBack, FailedRollbackUnverified}
    ensures Reaches(job, w) && w.disk == Retained(s)
  {
    hide Reaches, InOrder, GenuineSteps, InspectionTold, FailedForward, Receipts, AllPreserved;
    var before := FailureReached(job, s);
    var seens := SeensOf(job, s);
    w := VerdictReached(job, before, s.authority, s.steps, seens);
  }

  /** Every genuine state of the written shape is left by some history. */
  lemma HistoryOf(job: BuildJob, s: State) returns (moves: seq<Move>)
    requires Good(job) && Written(job, s) && Genuine(job, s)
    ensures Replay(job, None, moves).disk == Retained(s)
  {
    hide Genuine, Replay;
    var w: World;
    if s.result == InProgress {
      w := InProgressReached(job, s);
    } else if s.result == PhaseCompleteReplanRequired {
      w := CompleteReached(job, s);
    } else {
      w := FailedReached(job, s);
    }
    moves :| Replay(job, None, moves) == w;
  }

  /**
   The validator is wider than the writer here too. Whatever lay in the results file's place, and whoever replaced it
   meanwhile, a state is what some history leaves exactly when the validator accepts it, each receipt is one that its
   own command can give, the results it names are some current file's, and it is consistent with its receipts.
   */
  lemma AcceptedVersusWritten(job: BuildJob, s: State)
    requires Good(job)
    ensures (exists results, moves :: Replay(job, results, moves).disk == Retained(s))
       <==> Accepts(job.plan, s.authority, s) && Genuine(job, s) && Consistent(job, s)
  {
    hide Accepts, Replay, Written, Genuine, Consistent;
    AcceptedAndConsistent(job, s);
    if exists results, moves :: Replay(job, results, moves).disk == Retained(s) {
      var results, moves :| Replay(job, results, moves).disk == Retained(s);
      LeftIsGenuine(job, results, moves, s);
    } else if Written(job, s) && Genuine(job, s) {
      var moves := HistoryOf(job, s);
      assert Replay(job, None, moves).disk == Retained(s);
    }
  }

  /** A state in progress that names results before any was built: accepted for resumption, yet in no history. */
  lemma AcceptedButNeverWritten(job: BuildJob, authority: Authority, fingerprint: string, results: Option<ResultsFile>, moves: seq<Move>)
    requires Good(job)
    ensures var s := Initial(job, authority).(buildFingerprint := Some(fingerprint));
            Accepts(job.plan, authority, s) && Replay(job, results, moves).disk != Retained(s)
  {
    hide Replay;
    EveryWorldIsSound(job, results, moves);
  }
}
