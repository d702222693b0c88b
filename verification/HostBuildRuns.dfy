/** What holds in every history of the image-build phase. */
module HostBuildRuns {
  import opened Wrappers
  import opened Text
  import opened HostPlan
  import opened HostJournal
  import opened HostGrammar
  import opened HostBuildPhase
  import opened HostBuildRecords

  // ----- the states that the executor writes -------------------------------------------

  /** Five successful image receipts that record these rows. */
  predicate Built(job: BuildJob, steps: seq<Receipt>, rows: seq<ResultRow>)
    requires BuildShaped(job.plan)
  {
    && ValidRows(rows)
    && |steps| >= 5 && InOrder(steps[..5], job.plan.actions)
    && forall k | 0 <= k < 5 ::
         steps[k].returncode == 0 && steps[k].readback == ImageBuilt(rows[k].imageId, rows[k].installedTree)
  }

  /** The rows that five image receipts record. */
  function RowsOf(steps: seq<Receipt>): seq<ResultRow> {
    seq(if |steps| >= 5 then 5 else 0, k requires 0 <= k < 5 && |steps| >= 5 =>
      if steps[k].readback.ImageBuilt? then ResultRow(SERVICES[k], steps[k].readback.imageId, steps[k].readback.installedTree)
      else ResultRow(SERVICES[k], "", ""))
  }

  predicate AllBuilt(job: BuildJob, steps: seq<Receipt>)
    requires BuildShaped(job.plan)
  {
    Built(job, steps, RowsOf(steps))
  }

  /** Where a failure leaves the forward receipts: no image built, or all built and the facts not collected. */
  predicate FailedForward(job: BuildJob, steps: seq<Receipt>)
    requires BuildShaped(job.plan)
  {
    && InOrder(steps, job.plan.actions)
    && ((|steps| == 5 && forall k | 0 <= k < 5 :: steps[k].returncode != 0 && steps[k].readback == ImageNotBuilt)
        || (|steps| == 6 && AllBuilt(job, steps) && steps[5].returncode != 0 && steps[5].readback == FactsNotCollected))
  }

  /** The exact shape of every state the executor writes for this job. */
  predicate Written(job: BuildJob, s: State)
    requires BuildShaped(job.plan)
  {
    && s == Body(job, s.authority, s.result, s.steps, s.rollbacks, s.factsFingerprint, s.buildFingerprint)
    && InOrder(s.steps, job.plan.actions)
    && InOrder(s.rollbacks, job.plan.RollbackRows())
    && match s.result
       case InProgress =>
         && s.rollbacks == [] && s.factsFingerprint.None?
         && ((s.steps == [] && s.buildFingerprint.None?)
             || (|s.steps| == 5 && AllBuilt(job, s.steps) && IsFingerprintOption(s.buildFingerprint)))
       case PhaseCompleteReplanRequired =>
         && |s.steps| == 6 && AllBuilt(job, s.steps) && s.steps[5].returncode == 0 && s.rollbacks == []
         && IsFingerprintOption(s.factsFingerprint) && s.steps[5].readback == FactsFingerprint(s.factsFingerprint.value)
         && IsFingerprintOption(s.buildFingerprint)
       case FailedRolledBack =>
         FailedForward(job, s.steps) && |s.rollbacks| == 5 && AllPreserved(s.rollbacks) && s.factsFingerprint.None? && s.buildFingerprint.None?
       case FailedRollbackUnverified =>
         FailedForward(job, s.steps) && |s.rollbacks| == 5 && !AllPreserved(s.rollbacks) && s.factsFingerprint.None? && s.buildFingerprint.None?
       case _ => false
  }

  /** Whatever the executor writes, its own loader accepts again for the same plan and authority, exactly where it fits. */
  lemma WrittenIsAccepted(job: BuildJob, s: State)
    requires Good(job) && Written(job, s)
    ensures Accepts(job.plan, s.authority, s)
    ensures Load(job.size, Retained(s), job.plan, s.authority)
            == if Fits(job.size, s) then Success(Some(s)) else Failure(StateInvalid)
  {
    hide ValidRow, IsFingerprint;
  }

  // ----- the invariant -----------------------------------------------------------------

  /** The durable state that an invocation in hand goes on from. */
  predicate GoesOn(w: World, authority: Authority, steps: seq<Receipt>) {
    && w.disk.Retained? && w.disk.state.result == InProgress && w.disk.state.authority == authority
    && w.disk.state.steps == steps
  }

  /** The last command was the recollection, and the retained build fingerprint is that of the file read before it. */
  predicate NamesLastRead(job: BuildJob, trace: seq<Attempt>, s: State)
    requires BuildShaped(job.plan)
  {
    && trace != []
    && var last := trace[|trace| - 1];
       && last.command == Recollect && ValidResults(job, last.read)
       && s.buildFingerprint == Some(job.digest(last.read.value))
  }

  /** Some attempt inspected this predecessor with this receipt. */
  predicate Inspected(job: BuildJob, trace: seq<Attempt>, k: nat, receipt: Receipt)
    requires BuildShaped(job.plan) && k < 5
  {
    exists i | 0 <= i < |trace| :: trace[i].command == Inspect(k) && trace[i].seen.Some? && receipt == InspectReceipt(job, k, trace[i].seen.value)
  }

  predicate InspectedAll(job: BuildJob, trace: seq<Attempt>, rollbacks: seq<Receipt>)
    requires BuildShaped(job.plan)
  {
    |rollbacks| <= 5 && forall k | 0 <= k < |rollbacks| :: Inspected(job, trace, k, rollbacks[k])
  }

  /** What the trace says of a state that was written or is due to be. */
  predicate Told(job: BuildJob, trace: seq<Attempt>, s: State)
    requires BuildShaped(job.plan)
  {
    && Written(job, s)
    && (s.result == PhaseCompleteReplanRequired ==> NamesLastRead(job, trace, s))
    && InspectedAll(job, trace, s.rollbacks)
  }

  predicate InHand(job: BuildJob, w: World)
    requires BuildShaped(job.plan)
  {
    match w.process
    case Idle => true
    case BuildDue(authority) => GoesOn(w, authority, [])
    case Storing(authority, steps, file) => GoesOn(w, authority, []) && |steps| == 5 && Built(job, steps, file.rows)
    case Rereading(authority, steps) => GoesOn(w, authority, []) && |steps| == 5 && AllBuilt(job, steps)
    case Writing(s) =>
      && Told(job, w.trace, s)
      && (w.disk.Absent? ==> s == Initial(job, s.authority))
      && (w.disk.Retained? ==> w.disk.state.result == InProgress && w.disk.state.authority == s.authority)
    case Reading(authority, steps) => GoesOn(w, authority, steps) && |steps| == 5
    case CollectDue(authority, steps, read) => GoesOn(w, authority, steps) && |steps| == 5 && ValidResults(job, Some(read))
    case Inspecting(authority, steps, rollbacks) =>
      && w.disk.Retained? && w.disk.state.result == InProgress && w.disk.state.authority == authority
      && FailedForward(job, steps) && |rollbacks| < 5
      && InOrder(rollbacks, job.plan.RollbackRows()) && InspectedAll(job, w.trace, rollbacks)
      && LastFits(w.trace, rollbacks)
  }

  /** An inspection due follows the one before it, or the failed command that made it due. */
  predicate LastFits(trace: seq<Attempt>, rollbacks: seq<Receipt>) {
    && trace != []
    && var last := trace[|trace| - 1];
       && last.seen.Some?
       && if rollbacks == [] then last.command in {Build, Recollect} && last.seen.value.result.returncode != 0
          else last.command == Inspect(|rollbacks| - 1)
  }

  predicate Sound(job: BuildJob, w: World)
    requires BuildShaped(job.plan)
  {
    && InHand(job, w)
    && !w.disk.Unreadable?
    && (w.disk.Retained? ==> Told(job, w.trace, w.disk.state))
    && (w.disk.Retained? && w.disk.state.result.Terminal() ==> w.process.Idle?)
  }

  // ----- every move keeps it -----------------------------------------------------------

  lemma RowsAreRecorded(job: BuildJob, steps: seq<Receipt>, rows: seq<ResultRow>)
    requires BuildShaped(job.plan) && Built(job, steps, rows)
    ensures RowsOf(steps) == rows && AllBuilt(job, steps)
  {
    assert forall k | 0 <= k < 5 :: ValidRow(rows[k], SERVICES[k]);
  }

  lemma BuiltStepsAre(job: BuildJob, result: CommandResult, rows: seq<ResultRow>)
    requires BuildShaped(job.plan) && ValidRows(rows) && result.returncode == 0
    ensures Built(job, BuiltSteps(job, result, rows), rows)
  {
    hide ValidRow, ArgvOf;
    var steps := BuiltSteps(job, result, rows);
    assert steps[..5] == steps;
  }

  lemma FailedStepsAre(job: BuildJob, result: CommandResult)
    requires BuildShaped(job.plan) && result.returncode != 0
    ensures FailedForward(job, FailedSteps(job, result))
  {
    hide ArgvOf;
  }

  lemma OneMoreStep(job: BuildJob, steps: seq<Receipt>, receipt: Receipt)
    requires BuildShaped(job.plan) && |steps| == 5 && AllBuilt(job, steps) && InOrder(steps, job.plan.actions)
    requires receipt.sequence == 6 && receipt.action == job.plan.recollectAction
    ensures InOrder(steps + [receipt], job.plan.actions) && AllBuilt(job, steps + [receipt])
  {
    hide ValidRow;
    var more := steps + [receipt];
    assert more[..5] == steps == steps[..5];
    assert RowsOf(more) == RowsOf(steps);
  }

  lemma InspectionsExtend(job: BuildJob, trace: seq<Attempt>, a: Attempt, rollbacks: seq<Receipt>)
    requires BuildShaped(job.plan) && InspectedAll(job, trace, rollbacks)
    ensures InspectedAll(job, trace + [a], rollbacks)
  {
    hide InspectReceipt;
    forall k | 0 <= k < |rollbacks| ensures Inspected(job, trace + [a], k, rollbacks[k]) {
      assert Inspected(job, trace, k, rollbacks[k]);
      var i :| 0 <= i < |trace| && trace[i].command == Inspect(k) && trace[i].seen.Some? && rollbacks[k] == InspectReceipt(job, k, trace[i].seen.value);
      assert (trace + [a])[i] == trace[i];
    }
  }

  lemma InspectionAppends(job: BuildJob, trace: seq<Attempt>, rollbacks: seq<Receipt>, argv: seq<string>, read: Option<ResultsFile>, seen: Seen)
    requires BuildShaped(job.plan) && InspectedAll(job, trace, rollbacks) && |rollbacks| < 5
    requires InOrder(rollbacks, job.plan.RollbackRows())
    ensures var a := Attempt(Inspect(|rollbacks|), argv, read, Some(seen));
            var more := rollbacks + [InspectReceipt(job, |rollbacks|, seen)];
            InspectedAll(job, trace + [a], more) && InOrder(more, job.plan.RollbackRows())
  {
    var a := Attempt(Inspect(|rollbacks|), argv, read, Some(seen));
    var more := rollbacks + [InspectReceipt(job, |rollbacks|, seen)];
    InspectionsExtend(job, trace, a, rollbacks);
    assert (trace + [a])[|trace|] == a;
    assert Inspected(job, trace + [a], |rollbacks|, more[|rollbacks|]);
    hide InspectReceipt, Inspected;
    forall k | 0 <= k < |more| ensures Inspected(job, trace + [a], k, more[k]) {
      if k < |rollbacks| {
        assert more[k] == rollbacks[k];
      }
    }
  }

  lemma FailedIsTold(job: BuildJob, trace: seq<Attempt>, authority: Authority, steps: seq<Receipt>, rollbacks: seq<Receipt>)
    requires BuildShaped(job.plan) && FailedForward(job, steps) && |rollbacks| == 5
    requires InOrder(rollbacks, job.plan.RollbackRows()) && InspectedAll(job, trace, rollbacks)
    ensures Told(job, trace, FailedState(job, authority, steps, rollbacks))
    ensures FailedState(job, authority, steps, rollbacks).authority == authority
  {
    hide InspectedAll, InOrder, AllPreserved;
  }

  lemma CollectedIsTold(job: BuildJob, trace: seq<Attempt>, s: State, read: ResultsFile, seen: Seen)
    requires Good(job) && Written(job, s) && s.result == InProgress && |s.steps| == 5
    requires ValidResults(job, Some(read)) && seen.result.returncode == 0 && IsFingerprint(seen.facts)
    ensures var a := Attempt(Recollect, ArgvOf(job, Recollect), Some(read), Some(seen));
            var done := Body(job, s.authority, PhaseCompleteReplanRequired, s.steps + [RecollectReceipt(job, seen)], [],
                             Some(seen.facts), Some(job.digest(read)));
            Told(job, trace + [a], done) && done.authority == s.authority
  {
    hide IsFingerprint, ValidResults, AllBuilt, InOrder, ArgvOf;
    OneMoreStep(job, s.steps, RecollectReceipt(job, seen));
    EmptyIsInOrder(job.plan.RollbackRows());
  }

  lemma EmptyIsInOrder(rows: seq<string>)
    ensures InOrder([], rows)
  {
  }

  lemma UncollectedFails(job: BuildJob, s: State, seen: Seen)
    requires BuildShaped(job.plan) && Written(job, s) && s.result == InProgress && |s.steps| == 5
    requires seen.result.returncode != 0
    ensures FailedForward(job, s.steps + [RecollectReceipt(job, seen)])
  {
    hide AllBuilt, InOrder, ArgvOf;
    OneMoreStep(job, s.steps, RecollectReceipt(job, seen));
  }

  lemma TraceGrows(job: BuildJob, trace: seq<Attempt>, a: Attempt, s: State)
    requires BuildShaped(job.plan) && Told(job, trace, s) && s.result == InProgress
    ensures Told(job, trace + [a], s)
  {
    InspectionsExtend(job, trace, a, s.rollbacks);
  }

  lemma RunKeepsSound(job: BuildJob, w: World, seen: Option<Seen>)
    requires Good(job) && Sound(job, w)
    ensures Sound(job, After(job, w, Run(seen)))
  {
    hide Written, FailedForward, AllBuilt, Built, InspectedAll, InspectReceipt, BuiltSteps, FailedSteps,
      RecollectReceipt, ArgvOf, InOrder, Body, FailedState, ValidRows, IsFingerprint;
    if CommandDue(w.process) {
      var p := w.process;
      var a := Attempt(DueCommand(p), ArgvOf(job, DueCommand(p)), ReadOf(p), seen);
      TraceGrows(job, w.trace, a, w.disk.state);
      assert (w.trace + [a])[|w.trace|] == a;
      if seen.Some? {
        match p
        case BuildDue(_) =>
          if seen.value.result.returncode != 0 {
            FailedStepsAre(job, seen.value.result);
            NothingInspected(job, w.trace + [a]);
            EmptyIsInOrder(job.plan.RollbackRows());
          } else if seen.value.rows.Some? && ValidRows(seen.value.rows.value) {
            BuiltStepsAre(job, seen.value.result, seen.value.rows.value);
          }
        case CollectDue(_, _, read) =>
          if seen.value.result.returncode != 0 {
            UncollectedFails(job, w.disk.state, seen.value);
            NothingInspected(job, w.trace + [a]);
            EmptyIsInOrder(job.plan.RollbackRows());
          } else if IsFingerprint(seen.value.facts) {
            CollectedIsTold(job, w.trace, w.disk.state, read, seen.value);
          }
        case Inspecting(authority, steps, rollbacks) =>
          InspectionAppends(job, w.trace, rollbacks, a.argv, a.read, seen.value);
          if |rollbacks| == 4 {
            FailedIsTold(job, w.trace + [a], authority, steps, rollbacks + [InspectReceipt(job, |rollbacks|, seen.value)]);
          }
      }
    }
  }

  lemma NothingInspected(job: BuildJob, trace: seq<Attempt>)
    requires BuildShaped(job.plan)
    ensures InspectedAll(job, trace, [])
  {
  }

  lemma InitialIsTold(job: BuildJob, trace: seq<Attempt>, authority: Authority)
    requires BuildShaped(job.plan)
    ensures Told(job, trace, Initial(job, authority))
  {
  }

  lemma BeginKeepsSound(job: BuildJob, w: World, authority: Authority)
    requires Good(job) && Sound(job, w)
    ensures Sound(job, After(job, w, Begin(authority)))
  {
    hide AllBuilt, InspectedAll, InOrder, Valid, FailedForward;
    InitialIsTold(job, w.trace, authority);
  }

  lemma ProgressIsTold(job: BuildJob, trace: seq<Attempt>, authority: Authority, steps: seq<Receipt>, file: ResultsFile)
    requires Good(job) && |steps| == 5 && AllBuilt(job, steps)
    ensures Told(job, trace, Body(job, authority, InProgress, steps, [], None, Some(job.digest(file))))
  {
    hide RowsOf, ValidRows, IsFingerprint;
    assert steps[..5] == steps;
  }

  lemma LookKeepsSound(job: BuildJob, w: World)
    requires Good(job) && Sound(job, w)
    ensures Sound(job, After(job, w, Look))
  {
    hide AllBuilt, InspectedAll, InOrder, FailedForward, Written, ValidRows;
    if w.process.Rereading? && ValidResults(job, w.results) {
      ProgressIsTold(job, w.trace, w.process.authority, w.process.steps, w.results.value);
    }
  }

  lemma WriteKeepsSound(job: BuildJob, w: World)
    requires Good(job) && Sound(job, w)
    ensures Sound(job, After(job, w, Write))
  {
    hide InspectedAll, InOrder, Body, FailedForward, AllBuilt, Built;
    if w.process.Storing? {
      RowsAreRecorded(job, w.process.steps, w.process.file.rows);
    }
  }

  lemma MoveKeepsSound(job: BuildJob, w: World, move: Move)
    requires Good(job) && Sound(job, w)
    ensures Sound(job, After(job, w, move))
  {
    match move
    case Begin(authority) => BeginKeepsSound(job, w, authority);
    case Run(seen) => RunKeepsSound(job, w, seen);
    case Look => LookKeepsSound(job, w);
    case Write => WriteKeepsSound(job, w);
    case Crash =>
    case Replace(_) => ReplaceKeepsSound(job, w, move);
  }

  lemma ReplaceKeepsSound(job: BuildJob, w: World, move: Move)
    requires Good(job) && Sound(job, w) && move.Replace?
    ensures Sound(job, After(job, w, move))
  {
    hide Told, AllBuilt, Built, FailedForward, InspectedAll, InOrder, ValidRows;
  }

  lemma {:induction false} EveryWorldIsSound(job: BuildJob, results: Option<ResultsFile>, moves: seq<Move>)
    requires Good(job)
    ensures Sound(job, Replay(job, results, moves))
  {
    if moves != [] {
      EveryWorldIsSound(job, results, moves[..|moves| - 1]);
      hide Sound, After, Good;
      MoveKeepsSound(job, Replay(job, results, moves[..|moves| - 1]), moves[|moves| - 1]);
    }
  }

  // ----- theorems about whole histories ------------------------------------------------

  lemma OneMoreFrom(job: BuildJob, disk: Disk, results: Option<ResultsFile>, moves: seq<Move>, move: Move)
    requires BuildShaped(job.plan)
    ensures ReplayFrom(job, disk, results, moves + [move]) == After(job, ReplayFrom(job, disk, results, moves), move)
  {
    assert (moves + [move])[..|moves|] == moves;
  }

  lemma OneMore(job: BuildJob, results: Option<ResultsFile>, moves: seq<Move>, move: Move)
    requires BuildShaped(job.plan)
    ensures Replay(job, results, moves + [move]) == After(job, Replay(job, results, moves), move)
  {
    OneMoreFrom(job, Absent, results, moves, move);
  }

  /** Every durable state that fits is loaded again by its own authority, and by no other. */
  lemma EveryDurableStateReloads(job: BuildJob, results: Option<ResultsFile>, moves: seq<Move>, authority: Authority)
    requires Good(job) && Replay(job, results, moves).disk.Retained?
    ensures var s := Replay(job, results, moves).disk.state;
            Load(job.size, Retained(s), job.plan, authority)
            == if authority == s.authority && Fits(job.size, s) then Success(Some(s)) else Failure(StateInvalid)
  {
    EveryWorldIsSound(job, results, moves);
    hide Replay, Written, InspectedAll, Valid;
    WrittenIsAccepted(job, Replay(job, results, moves).disk.state);
  }

  /** After a crash the next invocation, where the state fits, builds if no receipt is durable, and recollects if all five are. */
  lemma CrashThenResume(job: BuildJob, results: Option<ResultsFile>, moves: seq<Move>)
    requires Good(job) && Replay(job, results, moves).disk.Retained?
    requires Replay(job, results, moves).disk.state.result == InProgress
    ensures var w := Replay(job, results, moves);
            var s := w.disk.state;
            && Replay(job, results, (moves + [Crash]) + [Begin(s.authority)])
               == w.(process := if Fits(job.size, s) then Continue(s.authority, s.steps) else Idle)
            && (|s.steps| == 0 || (|s.steps| == 5 && AllBuilt(job, s.steps)))
  {
    EveryWorldIsSound(job, results, moves);
    hide AllBuilt, InspectedAll, Valid, FailedForward, InOrder;
    var w := Replay(job, results, moves);
    OneMore(job, results, moves, Crash);
    OneMore(job, results, moves + [Crash], Begin(w.disk.state.authority));
    WrittenIsAccepted(job, w.disk.state);
  }

  /**
   A build reaches the host only while no receipt is durable, a recollection only while five
   successful ones are and after a valid results file was read, and the inspections only in their
   order, the first straight after a failed build or recollection.
   */
  lemma CommandsFollowTheJournal(job: BuildJob, results: Option<ResultsFile>, moves: seq<Move>, move: Move)
    requires Good(job)
    ensures var w := Replay(job, results, moves);
            var w' := Replay(job, results, moves + [move]);
            w'.trace != w.trace ==>
              && w'.disk == w.disk && w.disk.Retained? && w.disk.state.result == InProgress
              && |w'.trace| == |w.trace| + 1 && w'.trace[..|w.trace|] == w.trace
              && var a := w'.trace[|w.trace|];
                 && Spelt(job, a)
                 && match a.command
                 case Build => w.disk.state.steps == []
                 case Recollect => |w.disk.state.steps| == 5 && AllBuilt(job, w.disk.state.steps) && ValidResults(job, a.read)
                 case Inspect(k) =>
                   && w.trace != [] && w.trace[|w.trace| - 1].seen.Some?
                   && var last := w.trace[|w.trace| - 1];
                      if k == 0 then last.command in {Build, Recollect} && last.seen.value.result.returncode != 0
                      else last.command == Inspect(k - 1)
  {
    hide AllBuilt, InspectedAll, FailedForward, InOrder, Body, ArgvOf, Returned, ValidRows, Load, Replay;
    EveryWorldIsSound(job, results, moves);
    hide AllBuilt, InspectedAll, FailedForward, InOrder, Body, ArgvOf, Returned, ValidRows, Spelt;
    OneMore(job, results, moves, move);
    FirstRunsAreSpelt(job, results, moves + [move]);
  }

  /** These two files do not collide: if they differ, so do their fingerprints. */
  predicate Apart(digest: ResultsFile -> string, a: ResultsFile, b: ResultsFile) {
    digest(a) == digest(b) ==> a == b
  }

  /** The results file that a state's own image receipts record. */
  function OwnResults(job: BuildJob, s: State): ResultsFile
    requires BuildShaped(job.plan)
  {
    ResultsFile(job.plan.imageInputs, RowsOf(s.steps))
  }

  /** A file in hand for a recollection is the one that stood when it was looked at. */
  lemma {:induction false} LookedAt(job: BuildJob, results: Option<ResultsFile>, moves: seq<Move>) returns (looked: nat)
    requires BuildShaped(job.plan) && Replay(job, results, moves).process.CollectDue?
    ensures looked < |moves| && moves[looked] == Look
    ensures Replay(job, results, moves[..looked]).results == Some(Replay(job, results, moves).process.read)
  {
    hide Load, ValidResults, Returned, ArgvOf, BuildShaped;
    var before := moves[..|moves| - 1];
    if Replay(job, results, before).process.CollectDue? {
      looked := LookedAt(job, results, before);
      assert before[..looked] == moves[..looked];
      StillDue(job, Replay(job, results, before), moves[|moves| - 1]);
    } else {
      NewlyDue(job, Replay(job, results, before), moves[|moves| - 1]);
      looked := |moves| - 1;
    }
  }

  lemma StillDue(job: BuildJob, w: World, move: Move)
    requires BuildShaped(job.plan) && w.process.CollectDue? && After(job, w, move).process.CollectDue?
    ensures After(job, w, move).process == w.process
  {
    hide Load, ValidResults, ArgvOf;
  }

  lemma NewlyDue(job: BuildJob, w: World, move: Move)
    requires BuildShaped(job.plan) && !w.process.CollectDue? && After(job, w, move).process.CollectDue?
    ensures move == Look && w.results == Some(After(job, w, move).process.read)
  {
    hide Load, ValidRows, ArgvOf;
  }

  /** The file that the last recollection went on is the one that stood when it was looked at. */
  lemma {:induction false} RecollectionLookedAt(job: BuildJob, results: Option<ResultsFile>, moves: seq<Move>) returns (looked: nat)
    requires BuildShaped(job.plan)
    requires var trace := Replay(job, results, moves).trace; trace != [] && trace[|trace| - 1].command == Recollect
    ensures looked < |moves| && moves[looked] == Look
    ensures var trace := Replay(job, results, moves).trace;
            Replay(job, results, moves[..looked]).results == trace[|trace| - 1].read && trace[|trace| - 1].read.Some?
  {
    hide Load, ValidResults, Returned, ArgvOf, BuildShaped;
    var before := moves[..|moves| - 1];
    if Replay(job, results, before).trace == Replay(job, results, moves).trace {
      looked := RecollectionLookedAt(job, results, before);
    } else {
      looked := LookedAt(job, results, before);
    }
    assert before[..looked] == moves[..looked];
  }

  /**
   PHASE_COMPLETE is durable only after all five images were built and the facts recollected. It
   names the results file that stood at the last look before the recollection, whoever had written it:
   its own receipts' results exactly when that file held them, if the two files do not collide.
   */
  lemma PhaseCompleteNamesWhatStood(job: BuildJob, results: Option<ResultsFile>, moves: seq<Move>) returns (looked: nat)
    requires Good(job)
    requires Replay(job, results, moves).disk.Retained?
    requires Replay(job, results, moves).disk.state.result == PhaseCompleteReplanRequired
    ensures var s := Replay(job, results, moves).disk.state;
            && |s.steps| == 6 && AllBuilt(job, s.steps) && s.steps[5].returncode == 0
            && s.factsFingerprint.Some? && s.steps[5].readback == FactsFingerprint(s.factsFingerprint.value)
            && looked < |moves| && moves[looked] == Look
            && ValidResults(job, Replay(job, results, moves[..looked]).results)
            && var stood := Replay(job, results, moves[..looked]).results.value;
               && s.buildFingerprint == Some(job.digest(stood))
               && (Apart(job.digest, stood, OwnResults(job, s)) ==>
                     (s.buildFingerprint == Some(job.digest(OwnResults(job, s))) <==> stood == OwnResults(job, s)))
  {
    EveryWorldIsSound(job, results, moves);
    looked := RecollectionLookedAt(job, results, moves);
    hide Replay, AllBuilt, InspectedAll, InOrder, Body, ValidResults;
  }

  /** The results file is as the image receipts in hand record it. */
  predicate Kept(job: BuildJob, w: World)
    requires BuildShaped(job.plan)
  {
    && (w.disk.Retained? && |w.disk.state.steps| >= 5 && w.disk.state.result == InProgress ==> w.results == Some(OwnResults(job, w.disk.state)))
    && (w.disk.Retained? && w.disk.state.result == PhaseCompleteReplanRequired ==>
          w.disk.state.buildFingerprint == Some(job.digest(OwnResults(job, w.disk.state))))
    && match w.process
       case Storing(_, steps, file) => file == ResultsFile(job.plan.imageInputs, RowsOf(steps))
       case Rereading(_, steps) => w.results == Some(ResultsFile(job.plan.imageInputs, RowsOf(steps)))
       case CollectDue(_, steps, read) => read == ResultsFile(job.plan.imageInputs, RowsOf(steps))
       case Writing(s) =>
         && (s.result == InProgress && |s.steps| >= 5 ==> w.results == Some(OwnResults(job, s)))
         && (s.result == PhaseCompleteReplanRequired ==> s.buildFingerprint == Some(job.digest(OwnResults(job, s))))
       case _ => true
  }

  lemma MoveKeepsResults(job: BuildJob, w: World, move: Move)
    requires Good(job) && Sound(job, w) && Kept(job, w) && !move.Replace?
    ensures Kept(job, After(job, w, move))
  {
    hide Begun, Ran, Looked, Wrote, Told, RowsOf, OwnResults;
    match move
    case Begin(_) => BeginKeepsResults(job, w, move);
    case Run(_) => RunKeepsResults(job, w, move);
    case Look => LookKeepsResults(job, w);
    case Write => WriteKeepsResults(job, w);
    case Crash =>
    case Replace(_) =>
  }

  lemma BeginKeepsResults(job: BuildJob, w: World, move: Move)
    requires BuildShaped(job.plan) && Kept(job, w) && move.Begin?
    ensures Kept(job, After(job, w, move))
  {
    hide Load, RowsOf;
  }

  lemma LookKeepsResults(job: BuildJob, w: World)
    requires Good(job) && Sound(job, w) && Kept(job, w)
    ensures Kept(job, After(job, w, Look))
  {
    hide RowsOf, ValidRows, Told, Built, FailedForward, InspectedAll;
  }

  lemma WriteKeepsResults(job: BuildJob, w: World)
    requires Good(job) && Sound(job, w) && Kept(job, w)
    ensures Kept(job, After(job, w, Write))
  {
    hide RowsOf, ValidRows, InspectedAll, NamesLastRead, AllBuilt, Built, FailedForward, InOrder;
  }

  lemma RunKeepsResults(job: BuildJob, w: World, move: Move)
    requires Good(job) && Sound(job, w) && Kept(job, w) && move.Run?
    ensures Kept(job, After(job, w, move))
  {
    hide AllBuilt, InspectedAll, InOrder, FailedForward, ArgvOf, InspectReceipt, RecollectReceipt, FailedSteps,
      Written, RowsOf, Built, ValidRow;
    if move.seen.Some? {
      var seen := move.seen.value;
      if w.process.BuildDue? && seen.result.returncode == 0 && seen.rows.Some? && ValidRows(seen.rows.value) {
        BuiltStepsAre(job, seen.result, seen.rows.value);
        RowsAreRecorded(job, BuiltSteps(job, seen.result, seen.rows.value), seen.rows.value);
      } else if w.process.CollectDue? {
        OneMoreKeepsRows(w.process.steps, RecollectReceipt(job, seen));
      }
    }
  }

  lemma {:induction false} ResultsStay(job: BuildJob, results: Option<ResultsFile>, moves: seq<Move>)
    requires Good(job) && forall i | 0 <= i < |moves| :: !moves[i].Replace?
    ensures Kept(job, Replay(job, results, moves))
  {
    if moves != [] {
      var before := moves[..|moves| - 1];
      ResultsStay(job, results, before);
      EveryWorldIsSound(job, results, before);
      hide Sound, Kept, After, Good;
      MoveKeepsResults(job, Replay(job, results, before), moves[|moves| - 1]);
    }
  }

  /** Where nobody else writes the results file, PHASE_COMPLETE names the results of its own receipts. */
  lemma UndisturbedPhaseNamesItsOwnBuild(job: BuildJob, results: Option<ResultsFile>, moves: seq<Move>)
    requires Good(job) && forall i | 0 <= i < |moves| :: !moves[i].Replace?
    requires Replay(job, results, moves).disk.Retained?
    requires Replay(job, results, moves).disk.state.result == PhaseCompleteReplanRequired
    ensures var s := Replay(job, results, moves).disk.state;
            s.buildFingerprint == Some(job.digest(OwnResults(job, s))) && AllBuilt(job, s.steps)
  {
    ResultsStay(job, results, moves);
    EveryWorldIsSound(job, results, moves);
    hide Replay, AllBuilt, InspectedAll, InOrder;
  }

  /** The moves of a phase whose results file another writer replaces between the checkpoint and the recollection. */
  function ReplacedMoves(authority: Authority, built: Seen, other: ResultsFile, collected: Seen): seq<Move> {
    [Begin(authority), Write, Run(Some(built)), Write, Look, Write, Replace(Some(other)), Look, Run(Some(collected)), Write]
  }

  /**
   The fingerprint that the checkpoint names is not compared when the file is read again: a replaced
   file ends in a PHASE_COMPLETE that names results its receipts do not record.
   */
  lemma ReplacedResultsAreNamed(job: BuildJob, authority: Authority, built: Seen, other: ResultsFile, collected: Seen)
    requires Good(job)
    requires built.result.returncode == 0 && built.rows.Some? && ValidRows(built.rows.value)
    requires ValidResults(job, Some(other)) && other.rows != built.rows.value
    requires Apart(job.digest, other, ResultsFile(job.plan.imageInputs, built.rows.value))
    requires collected.result.returncode == 0 && IsFingerprint(collected.facts)
    ensures var moves := ReplacedMoves(authority, built, other, collected);
            var checkpoint, s := Replay(job, None, moves[..6]).disk, Replay(job, None, moves).disk;
            && checkpoint.Retained? && s.Retained?
            && checkpoint.state.buildFingerprint == Some(job.digest(ResultsFile(job.plan.imageInputs, built.rows.value)))
            && s.state.result == PhaseCompleteReplanRequired
            && s.state.buildFingerprint == Some(job.digest(other)) != checkpoint.state.buildFingerprint
            && RowsOf(s.state.steps) == built.rows.value
  {
    var moves := ReplacedMoves(authority, built, other, collected);
    FirstHalf(job, authority, built);
    SecondHalf(job, authority, built, other, collected, moves);
    assert moves[..6] == [Begin(authority), Write, Run(Some(built)), Write, Look, Write];
  }

  function Digits(digit: char, count: nat): (r: string)
    ensures |r| == count && forall i | 0 <= i < count :: r[i] == digit
  {
    seq(count, _ => digit)
  }

  function SampleFingerprint(digit: char): (r: string)
    requires IsHex(digit)
    ensures IsFingerprint(r) && r[7] == digit
  {
    "sha256:" + Digits(digit, 64)
  }

  function SampleRow(digit: char, service: string): (r: ResultRow)
    requires IsHex(digit)
    ensures ValidRow(r, service) && r.imageId == SampleFingerprint(digit)
  {
    ResultRow(service, SampleFingerprint(digit), Digits(digit, 128))
  }

  function SampleRows(digit: char): (r: seq<ResultRow>)
    requires IsHex(digit)
    ensures ValidRows(r) && r[0].imageId == SampleFingerprint(digit)
  {
    seq(5, k requires 0 <= k < 5 => SampleRow(digit, SERVICES[k]))
  }

  function SampleBuild(digit: char): Seen
    requires IsHex(digit)
  {
    Seen(CommandResult(0, "", ""), "", Some(SampleRows(digit)), SampleFingerprint('0'))
  }

  /** A shaped plan, with whatever rows. */
  function SamplePlan(fingerprint: PlanDigest): (r: HostPlan)
    ensures BuildShaped(r)
  {
    BuildPhase(fingerprint, ["", "", "", "", "", ""], [],
               seq(5, k requires 0 <= k < 5 => ImageAction(k + 1, SERVICES[k], "", "", "", "")), "", "",
               seq(5, k requires 0 <= k < 5 => PreserveAction(k + 1, SERVICES[k], None, "")), "")
  }

  /**
   Nothing in `ReplacedResultsAreNamed` is hypothetical: for every good job and two builds with different rows
   there is a good job over the same plan whose fingerprints keep the two results files apart.
   */
  lemma SomeJobKeepsApart(job: BuildJob, a: ResultsFile, b: ResultsFile) returns (apart: BuildJob)
    requires Good(job)
    ensures Good(apart) && apart == job.(digest := apart.digest) && Apart(apart.digest, a, b)
  {
    var digest := (file: ResultsFile) => if file == a then SampleFingerprint('0') else SampleFingerprint('1');
    apart := job.(digest := digest);
    if a != b {
      assert digest(a)[7] == '0' && digest(b)[7] == '1';
    }
  }

  /** And such a run exists: a job, a build, another build's file and a recollection that meet every condition of it. */
  lemma SomeRunNamesReplacedResults(authority: Authority, fingerprint: PlanDigest)
    returns (job: BuildJob, moves: seq<Move>)
    ensures Good(job)
    ensures var s := Replay(job, None, moves).disk;
            && s.Retained? && s.state.result == PhaseCompleteReplanRequired
            && s.state.buildFingerprint.Some? && s.state.buildFingerprint != Some(job.digest(OwnResults(job, s.state)))
  {
    var plan := SamplePlan(fingerprint);
    var other := ResultsFile(plan.imageInputs, SampleRows('1'));
    var own := ResultsFile(plan.imageInputs, SampleRows('0'));
    job := BuildJob(plan, "/", _ => SampleFingerprint('0'), _ => 0);
    job := SomeJobKeepsApart(job, other, own);
    var built := SampleBuild('0');
    assert other.rows[0].imageId[7] != own.rows[0].imageId[7];
    moves := ReplacedMoves(authority, built, other, built);
    ReplacedResultsAreNamed(job, authority, built, other, built);
  }

  /** The world once the images are built, their results stored, and the checkpoint written. */
  function Checkpointed(job: BuildJob, authority: Authority, built: Seen): World
    requires BuildShaped(job.plan) && built.rows.Some? && ValidRows(built.rows.value)
  {
    var file := ResultsFile(job.plan.imageInputs, built.rows.value);
    var steps := BuiltSteps(job, built.result, built.rows.value);
    World(Retained(Body(job, authority, InProgress, steps, [], None, Some(job.digest(file)))), Some(file),
          [Attempt(Build, ArgvOf(job, Build), None, Some(built))], Reading(authority, steps))
  }

  lemma FirstHalf(job: BuildJob, authority: Authority, built: Seen)
    requires Good(job)
    requires built.result.returncode == 0 && built.rows.Some? && ValidRows(built.rows.value)
    ensures Replay(job, None, [Begin(authority), Write, Run(Some(built)), Write, Look, Write]) == Checkpointed(job, authority, built)
  {
    hide ArgvOf, BuiltSteps, ValidRows, IsFingerprint;
    var w0 := World(Absent, None, [], Idle);
    var w2 := After(job, After(job, w0, Begin(authority)), Write);
    assert w2 == World(Retained(Initial(job, authority)), None, [], BuildDue(authority));
    var w4 := After(job, After(job, w2, Run(Some(built))), Write);
    var steps := BuiltSteps(job, built.result, built.rows.value);
    var file := ResultsFile(job.plan.imageInputs, built.rows.value);
    assert w4 == World(w2.disk, Some(file), [Attempt(Build, ArgvOf(job, Build), None, Some(built))], Rereading(authority, steps));
    var w6 := After(job, After(job, w4, Look), Write);
    assert w6 == Checkpointed(job, authority, built);
    ReplayTwo(job, None, [], Begin(authority), Write);
    ReplayTwo(job, None, [Begin(authority), Write], Run(Some(built)), Write);
    ReplayTwo(job, None, [Begin(authority), Write, Run(Some(built)), Write], Look, Write);
    assert [] + [Begin(authority), Write] == [Begin(authority), Write];
    assert [Begin(authority), Write] + [Run(Some(built)), Write] == [Begin(authority), Write, Run(Some(built)), Write];
    assert [Begin(authority), Write, Run(Some(built)), Write] + [Look, Write]
        == [Begin(authority), Write, Run(Some(built)), Write, Look, Write];
  }

  lemma ReplayTwo(job: BuildJob, results: Option<ResultsFile>, moves: seq<Move>, a: Move, b: Move)
    requires BuildShaped(job.plan)
    ensures Replay(job, results, moves + [a, b]) == After(job, After(job, Replay(job, results, moves), a), b)
  {
    OneMore(job, results, moves, a);
    OneMore(job, results, moves + [a], b);
    assert moves + [a] + [b] == moves + [a, b];
  }

  lemma SecondHalf(job: BuildJob, authority: Authority, built: Seen, other: ResultsFile, collected: Seen, moves: seq<Move>)
    requires Good(job) && moves == ReplacedMoves(authority, built, other, collected)
    requires built.result.returncode == 0 && built.rows.Some? && ValidRows(built.rows.value)
    requires ValidResults(job, Some(other)) && collected.result.returncode == 0 && IsFingerprint(collected.facts)
    requires Replay(job, None, [Begin(authority), Write, Run(Some(built)), Write, Look, Write]) == Checkpointed(job, authority, built)
    ensures var s := Replay(job, None, moves).disk;
            && s.Retained? && s.state.result == PhaseCompleteReplanRequired
            && s.state.buildFingerprint == Some(job.digest(other)) && RowsOf(s.state.steps) == built.rows.value
  {
    hide ArgvOf, ValidRows, IsFingerprint, RowsOf;
    var steps := BuiltSteps(job, built.result, built.rows.value);
    var first := [Begin(authority), Write, Run(Some(built)), Write, Look, Write];
    var w6 := Checkpointed(job, authority, built);
    var w8 := After(job, After(job, w6, Replace(Some(other))), Look);
    assert w8 == w6.(results := Some(other), process := CollectDue(authority, steps, other));
    var w10 := After(job, After(job, w8, Run(Some(collected))), Write);
    ReplayTwo(job, None, first, Replace(Some(other)), Look);
    ReplayTwo(job, None, first + [Replace(Some(other)), Look], Run(Some(collected)), Write);
    assert first + [Replace(Some(other)), Look] + [Run(Some(collected)), Write] == moves;
    BuiltStepsAre(job, built.result, built.rows.value);
    RowsAreRecorded(job, steps, built.rows.value);
    OneMoreKeepsRows(steps, RecollectReceipt(job, collected));
  }

  lemma OneMoreKeepsRows(steps: seq<Receipt>, receipt: Receipt)
    requires |steps| == 5
    ensures RowsOf(steps + [receipt]) == RowsOf(steps)
  {
  }

  /** Some inspection of this predecessor's own container found what it should preserve, or did not. */
  predicate Found(job: BuildJob, trace: seq<Attempt>, k: nat, preserved: bool)
    requires BuildShaped(job.plan) && k < 5
  {
    exists i | 0 <= i < |trace| ::
      && trace[i].command == Inspect(k) && trace[i].argv == InspectCommand(job.plan.preserveActions[k].service)
      && trace[i].seen.Some? && Preserves(job.plan.preserveActions[k].imageId, trace[i].seen.value) == preserved
  }

  lemma InspectedIsFound(job: BuildJob, trace: seq<Attempt>, k: nat, receipt: Receipt)
    requires BuildShaped(job.plan) && k < 5 && Inspected(job, trace, k, receipt)
    requires forall i | 0 <= i < |trace| :: Spelt(job, trace[i])
    ensures receipt.readback.PredecessorPreserved? && Found(job, trace, k, receipt.readback.matched)
  {
    hide ArgvOf, Matched, Preserves;
    var i :| 0 <= i < |trace| && trace[i].command == Inspect(k) && trace[i].seen.Some? && receipt == InspectReceipt(job, k, trace[i].seen.value);
    MatchedIs(job.plan.preserveActions[k], trace[i].seen.value);
    assert Spelt(job, trace[i]);
  }

  /**
   A failed phase ends FAILED_ROLLED_BACK only if each of the five inspections found what the plan
   preserves, and otherwise with one that did not; in either verdict each was carried out.
   */
  lemma RolledBackMeansPreserved(job: BuildJob, results: Option<ResultsFile>, moves: seq<Move>)
    requires Good(job)
    requires Replay(job, results, moves).disk.Retained?
    requires Replay(job, results, moves).disk.state.result in {FailedRolledBack, FailedRollbackUnverified}
    ensures var w := Replay(job, results, moves);
            && (w.disk.state.result == FailedRolledBack ==> forall k | 0 <= k < 5 :: Found(job, w.trace, k, true))
            && (w.disk.state.result == FailedRollbackUnverified ==> exists k | 0 <= k < 5 :: Found(job, w.trace, k, false))
            && (forall k | 0 <= k < 5 :: Found(job, w.trace, k, true) || Found(job, w.trace, k, false))
            && FailedForward(job, w.disk.state.steps)
  {
    EveryWorldIsSound(job, results, moves);
    FirstRunsAreSpelt(job, results, moves);
    hide Replay, InOrder, Body, FailedForward, Found, Spelt, Matched;
    var w := Replay(job, results, moves);
    var rollbacks := w.disk.state.rollbacks;
    forall k | 0 <= k < 5
      ensures Found(job, w.trace, k, true) || Found(job, w.trace, k, false)
      ensures rollbacks[k].readback == PredecessorPreserved(true) ==> Found(job, w.trace, k, true)
      ensures rollbacks[k].readback != PredecessorPreserved(true) ==> Found(job, w.trace, k, false)
    {
      assert Inspected(job, w.trace, k, rollbacks[k]);
      InspectedIsFound(job, w.trace, k, rollbacks[k]);
    }
  }

  lemma TerminalStep(job: BuildJob, w: World, move: Move)
    requires BuildShaped(job.plan) && w.disk.Retained? && w.disk.state.result.Terminal() && w.process.Idle?
    ensures After(job, w, move).disk == w.disk && After(job, w, move).trace == w.trace
  {
    hide Valid;
  }

  /** A state too long to read again is never replaced and no command follows it, whoever writes the results file. */
  lemma {:induction false} OversizedStateStays(job: BuildJob, disk: Disk, results: Option<ResultsFile>, moves: seq<Move>, later: seq<Move>)
    requires BuildShaped(job.plan)
    requires var w := ReplayFrom(job, disk, results, moves); w.disk.Retained? && !Fits(job.size, w.disk.state) && w.process.Idle?
    ensures var w, w' := ReplayFrom(job, disk, results, moves), ReplayFrom(job, disk, results, moves + later);
            w'.disk == w.disk && w'.trace == w.trace && w'.process.Idle?
  {
    hide Fits, ArgvOf, Returned;
    if later == [] {
      assert moves + later == moves;
    } else {
      var most := later[..|later| - 1];
      OversizedStateStays(job, disk, results, moves, most);
      assert (moves + later)[..|moves + later| - 1] == moves + most;
    }
  }

  /** A terminal state is never rewritten and no later invocation runs a command. */
  lemma {:induction false} TerminalIsAbsorbing(job: BuildJob, results: Option<ResultsFile>, moves: seq<Move>, later: seq<Move>)
    requires Good(job) && Replay(job, results, moves).disk.Retained?
    requires Replay(job, results, moves).disk.state.result.Terminal()
    ensures Replay(job, results, moves + later).disk == Replay(job, results, moves).disk
    ensures Replay(job, results, moves + later).trace == Replay(job, results, moves).trace
    decreases |later|
  {
    hide InHand, Returned, Valid, Told, ArgvOf, Looked, Wrote, Begun, Ran;
    if later == [] {
      assert moves + later == moves;
    } else {
      var most := later[..|later| - 1];
      TerminalIsAbsorbing(job, results, moves, most);
      EveryWorldIsSound(job, results, moves + most);
      hide Told, After, Good;
      TerminalStep(job, Replay(job, results, moves + most), later[|later| - 1]);
      assert (moves + later)[..|moves + later| - 1] == moves + most;
    }
  }
}
