/**
 What the build phase runs, reads and records, spelled out (tools/hk_v1_host_apply.py:925-1020, 1130-1288).
 */
module HostBuildRecords {
  import opened Wrappers
  import opened Text
  import opened HostPlan
  import opened HostJournal
  import opened HostBuildPhase

  // ----- commands ----------------------------------------------------------------------

  function BuildCommand(root: string): seq<string> {
    [root + "/.venv/bin/python", "-m", "tools.v1_poc_build_images", "--tag-suffix", "hk-v1-candidate"]
  }

  /** The collector, writing to the output that the plan names. */
  function CollectCommand(root: string, output: string): seq<string> {
    [root + "/.venv/bin/python", "-m", "tools.v1_poc_collect_host_facts", "--acknowledge-read-only-host-inspection", "--output",
     root + "/" + output]
  }

  /** The image of the service's own container. */
  function InspectCommand(service: string): seq<string> {
    ["/usr/bin/docker", "container", "inspect", "--format", "{{.Image}}", "asklegal-" + service]
  }

  /** The vector is the one that its command stands for. */
  predicate Spelt(job: BuildJob, a: Attempt)
    requires BuildShaped(job.plan)
  {
    match a.command
    case Build => a.argv == BuildCommand(job.repositoryRoot)
    case Recollect => a.argv == CollectCommand(job.repositoryRoot, job.plan.recollectOutput)
    case Inspect(k) => k < 5 && a.argv == InspectCommand(job.plan.preserveActions[k].service)
  }

  lemma CommandIsSpelt(job: BuildJob, command: Command, read: Option<ResultsFile>, seen: Option<Seen>)
    requires BuildShaped(job.plan) && (command.Inspect? ==> command.k < 5)
    ensures Spelt(job, Attempt(command, ArgvOf(job, command), read, seen))
  {
  }

  predicate AllSpelt(job: BuildJob, trace: seq<Attempt>)
    requires BuildShaped(job.plan)
  {
    forall i | 0 <= i < |trace| :: Spelt(job, trace[i])
  }

  lemma MoveKeepsSpelling(job: BuildJob, w: World, move: Move)
    requires BuildShaped(job.plan) && AllSpelt(job, w.trace)
    ensures AllSpelt(job, After(job, w, move).trace)
  {
    hide Spelt, ArgvOf, Load, Returned, ValidResults, Initial, Body;
    if CommandDue(w.process) && move.Run? {
      CommandIsSpelt(job, DueCommand(w.process), ReadOf(w.process), move.seen);
    }
  }

  /** Every command of a history, from whatever lay at the two paths, is so spelled. */
  lemma {:induction false} EveryCommandIsSpelt(job: BuildJob, disk: Disk, results: Option<ResultsFile>, moves: seq<Move>)
    requires BuildShaped(job.plan)
    ensures AllSpelt(job, ReplayFrom(job, disk, results, moves).trace)
  {
    hide Spelt, After;
    if moves != [] {
      EveryCommandIsSpelt(job, disk, results, moves[..|moves| - 1]);
      MoveKeepsSpelling(job, ReplayFrom(job, disk, results, moves[..|moves| - 1]), moves[|moves| - 1]);
    }
  }

  lemma FirstRunsAreSpelt(job: BuildJob, results: Option<ResultsFile>, moves: seq<Move>)
    requires BuildShaped(job.plan)
    ensures AllSpelt(job, Replay(job, results, moves).trace)
  {
    EveryCommandIsSpelt(job, Absent, results, moves);
  }

  // ----- readbacks ---------------------------------------------------------------------

  /** What an inspection must find: the image that the plan preserves, or no container. */
  predicate Preserves(image: Option<string>, seen: Seen) {
    match image
    case None => seen.result.returncode != 0
    case Some(id) => seen.result.returncode == 0 && seen.text == id
  }

  lemma MatchedIs(action: PreserveAction, seen: Seen)
    ensures Matched(action, seen) <==> Preserves(action.imageId, seen)
  {
  }

  /** A digest and a tree of the service. */
  predicate CurrentRow(row: ResultRow, service: string) {
    && row.service == service && IsFingerprint(row.imageId)
    && |row.installedTree| == 128 && forall c | c in row.installedTree :: c in "0123456789abcdef"
  }

  /** A current results file: built from the plan's own inputs, one row for each service in order. */
  predicate Current(job: BuildJob, file: Option<ResultsFile>)
    requires job.plan.BuildPhase?
  {
    && file.Some? && file.value.imageInputs == job.plan.imageInputs && |file.value.rows| == 5
    && forall k | 0 <= k < 5 :: CurrentRow(file.value.rows[k], SERVICES[k])
  }

  lemma RowIs(row: ResultRow, service: string)
    ensures ValidRow(row, service) <==> CurrentRow(row, service)
  {
    TreeIs(row.installedTree);
  }

  lemma CurrentIs(job: BuildJob, file: Option<ResultsFile>)
    requires job.plan.BuildPhase?
    ensures ValidResults(job, file) <==> Current(job, file)
  {
    hide ValidRow, CurrentRow;
    forall row, service ensures ValidRow(row, service) <==> CurrentRow(row, service) {
      RowIs(row, service);
    }
  }

  lemma TreeIs(tree: string)
    ensures IsSha512(tree) <==> |tree| == 128 && forall c | c in tree :: c in "0123456789abcdef"
  {
    HexDigits();
    if IsSha512(tree) {
      forall c | c in tree ensures IsHex(c) {
        var i :| 0 <= i < |tree| && tree[i] == c;
      }
    }
  }

  // ----- receipts ----------------------------------------------------------------------

  /** The receipt tells of this row, this command, what it returned, and what was then read back. */
  predicate Tells(receipt: Receipt, sequence: int, row: string, argv: seq<string>, result: CommandResult, readback: Readback) {
    && receipt.sequence == sequence && receipt.action == row && receipt.argv == OfArgv(argv)
    && receipt.returncode == result.returncode && receipt.stdout == OfText(result.stdout) && receipt.stderr == OfText(result.stderr)
    && receipt.readback == readback
  }

  /** The five receipts of one build, all of its one command. */
  predicate TellsBuild(job: BuildJob, steps: seq<Receipt>, result: CommandResult)
    requires BuildShaped(job.plan)
  {
    && |steps| >= 5
    && forall k | 0 <= k < 5 :: Tells(steps[k], k + 1, job.plan.actions[k], BuildCommand(job.repositoryRoot), result, steps[k].readback)
  }

  predicate TellsCollection(job: BuildJob, receipt: Receipt, result: CommandResult)
    requires BuildShaped(job.plan)
  {
    Tells(receipt, 6, job.plan.actions[5], CollectCommand(job.repositoryRoot, job.plan.recollectOutput), result, receipt.readback)
  }

  predicate TellsInspection(job: BuildJob, k: nat, receipt: Receipt, seen: Seen)
    requires BuildShaped(job.plan) && k < 5
  {
    var action := job.plan.preserveActions[k];
    Tells(receipt, k + 1, action.raw, InspectCommand(action.service), seen.result, PredecessorPreserved(Preserves(action.imageId, seen)))
  }

  lemma FailedStepsTell(job: BuildJob, result: CommandResult)
    requires BuildShaped(job.plan)
    ensures TellsBuild(job, FailedSteps(job, result), result)
    ensures forall k | 0 <= k < 5 :: FailedSteps(job, result)[k].readback == ImageNotBuilt
  {
  }

  lemma BuiltStepsTell(job: BuildJob, result: CommandResult, rows: seq<ResultRow>)
    requires BuildShaped(job.plan) && ValidRows(rows)
    ensures TellsBuild(job, BuiltSteps(job, result, rows), result)
    ensures forall k | 0 <= k < 5 :: BuiltSteps(job, result, rows)[k].readback == ImageBuilt(rows[k].imageId, rows[k].installedTree)
  {
  }

  lemma RecollectReceiptTells(job: BuildJob, seen: Seen)
    requires BuildShaped(job.plan)
    ensures TellsCollection(job, RecollectReceipt(job, seen), seen.result)
    ensures RecollectReceipt(job, seen).readback == if seen.result.returncode != 0 then FactsNotCollected else FactsFingerprint(seen.facts)
  {
  }

  lemma InspectReceiptTells(job: BuildJob, k: nat, seen: Seen)
    requires BuildShaped(job.plan) && k < 5
    ensures TellsInspection(job, k, InspectReceipt(job, k, seen), seen)
  {
    MatchedIs(job.plan.preserveActions[k], seen);
  }

  /** Such receipts are no other. */
  lemma ToldSteps(job: BuildJob, steps: seq<Receipt>, result: CommandResult)
    requires BuildShaped(job.plan) && TellsBuild(job, steps, result)
    ensures (forall k | 0 <= k < 5 :: steps[k].readback == ImageNotBuilt) ==> steps[..5] == FailedSteps(job, result)
    ensures forall rows: seq<ResultRow> | ValidRows(rows) && (forall k | 0 <= k < 5 :: steps[k].readback == ImageBuilt(rows[k].imageId, rows[k].installedTree)) ::
              steps[..5] == BuiltSteps(job, result, rows)
  {
    hide ValidRow;
  }
}
