/**
 Histories that a deployment can have: over a host that shows what was asked of it the transaction ends COMPLETE,
 and a failed one over restored predecessors ends FAILED_ROLLED_BACK (tools/hk_v1_host_apply.py:1380-1560).
 */
module HostDeploymentHistories {
  import opened Wrappers
  import opened Text
  import opened HostPlan
  import opened HostJournal
  import opened HostGrammar
  import opened HostDeployment
  import opened HostReadbacks
  import opened HostDeploymentRuns
  import HostGrammarShape
  import Files = HostPlanFiles

  function Returned(code: int, facts: FactsView): Observation {
    Observation(CommandResult(code, "", ""), facts)
  }

  // ----- a transaction that completes --------------------------------------------------

  /** The receipts of an undisturbed run over these facts. */
  function Receipts(job: Job, rollback: bool, facts: FactsView): (r: seq<Receipt>)
    requires Shaped(job.plan) && IsFingerprint(facts.fingerprint)
    ensures |r| == (if rollback then 10 else 13)
    ensures forall k | 0 <= k < |r| :: ReceiptOf(job, rollback, k, Returned(0, facts)) == Some(r[k])
  {
    seq(if rollback then 10 else 13, k requires 0 <= k < (if rollback then 10 else 13) => (
      ReadsWell(job, rollback, k, facts);
      ReceiptOf(job, rollback, k, Returned(0, facts)).value))
  }

  lemma ReadsWell(job: Job, rollback: bool, k: nat, facts: FactsView)
    requires Shaped(job.plan) && IsFingerprint(facts.fingerprint) && k < (if rollback then 10 else 13)
    ensures ReceiptOf(job, rollback, k, Returned(0, facts)).Some?
  {
    hide DeploymentReady, ManifestReady, FirewallReady, RollbackReady, Argv, IsFingerprint;
  }

  /** Such a receipt is its own row's, and reports success unless the facts are not what is asked of them. */
  lemma ReceiptReports(job: Job, rollback: bool, k: nat, facts: FactsView)
    requires Shaped(job.plan) && IsFingerprint(facts.fingerprint) && k < (if rollback then 10 else 13)
    ensures var receipt := Receipts(job, rollback, facts)[k];
            && receipt.sequence == k + 1 && receipt.action == Row(job.plan, rollback, k)
            && (k != (if rollback then 9 else 11) ==> receipt.returncode == 0)
            && (receipt.returncode == 0 && k == (if rollback then 9 else 11) ==> receipt.readback == FactsFingerprint(facts.fingerprint))
            && (!rollback && k == 11 ==> (receipt.returncode == 0 <==> Launched(facts, job.plan.expectedImages)))
            && (rollback && k == 9 ==> (receipt.returncode == 0 <==> Restored(facts.containers, job.plan.predecessorImages)))
  {
    hide Launched, Restored, ReceiptOf, CommandFor, IsFingerprint;
    assert ReceiptOf(job, rollback, k, Returned(0, facts)) == Some(Receipts(job, rollback, facts)[k]);
    ReceiptAccounts(job, rollback, k, Returned(0, facts));
    RecollectionAdmits(job, Returned(0, facts));
    RollbackRecollectionRestores(job, Returned(0, facts));
  }

  function CompleteOver(job: Job, authority: Authority, facts: FactsView): State
    requires Shaped(job.plan) && IsFingerprint(facts.fingerprint)
  {
    Body(job, authority, Complete, Receipts(job, false, facts), [], Some(facts.fingerprint), Some(OutputPath(job, false)), false, true)
  }

  lemma CompleteIsWritten(job: Job, authority: Authority, facts: FactsView)
    requires Shaped(job.plan) && IsFingerprint(facts.fingerprint) && Launched(facts, job.plan.expectedImages)
    ensures Written(job, CompleteOver(job, authority, facts)) && Genuine(job, CompleteOver(job, authority, facts))
  {
    hide Launched, Receipts, ReceiptOf, IsFingerprint, OutputPath;
    var s := CompleteOver(job, authority, facts);
    forall k | 0 <= k < 13
      ensures s.steps[k].sequence == k + 1 && s.steps[k].action == job.plan.actions[k] && s.steps[k].returncode == 0
      ensures Observable(job, false, k, s.steps[k])
    {
      ReceiptReports(job, false, k, facts);
      assert ReceiptOf(job, false, k, Returned(0, facts)) == Some(s.steps[k]);
    }
    ReceiptReports(job, false, 11, facts);
  }

  /** Over facts of a launched host, some history under this authority ends COMPLETE and retains their digest. */
  lemma SomeHistoryCompletes(job: Job, authority: Authority, facts: FactsView) returns (moves: seq<Move>)
    requires Shaped(job.plan) && IsFingerprint(facts.fingerprint) && Launched(facts, job.plan.expectedImages)
    ensures var disk := Replay(job, moves).disk;
            && disk.Retained? && disk.state.result == Complete && disk.state.authority == authority
            && disk.state.factsFingerprint == Some(facts.fingerprint)
  {
    hide Replay, Written, Genuine, Receipts, Launched;
    CompleteIsWritten(job, authority, facts);
    moves := HistoryOf(job, CompleteOver(job, authority, facts));
  }

  // ----- a transaction that is rolled back ---------------------------------------------

  /** The first action failed, and the whole rollback was carried out over these facts. */
  function FailedOver(job: Job, authority: Authority, facts: FactsView): State
    requires Shaped(job.plan) && IsFingerprint(facts.fingerprint)
  {
    FirstFails(job, facts);
    var restored := Receipts(job, true, facts)[9].returncode == 0;
    Body(job, authority, if restored then FailedRolledBack else FailedRollbackUnverified,
         [ReceiptOf(job, false, 0, Returned(1, facts)).value], Receipts(job, true, facts),
         if restored then Some(facts.fingerprint) else None, if restored then Some(OutputPath(job, true)) else None, restored, false)
  }

  lemma FirstFails(job: Job, facts: FactsView)
    requires Shaped(job.plan)
    ensures var r := ReceiptOf(job, false, 0, Returned(1, facts));
            r.Some? && r.value.returncode == 1 && r.value.sequence == 1 && r.value.action == job.plan.actions[0]
  {
    hide Argv;
  }

  lemma FailedIsWritten(job: Job, authority: Authority, facts: FactsView)
    requires Shaped(job.plan) && IsFingerprint(facts.fingerprint)
    ensures Written(job, FailedOver(job, authority, facts)) && Genuine(job, FailedOver(job, authority, facts))
    ensures FailedOver(job, authority, facts).result == FailedRolledBack <==> Restored(facts.containers, job.plan.predecessorImages)
  {
    hide Restored, Receipts, ReceiptOf, IsFingerprint, OutputPath;
    var s := FailedOver(job, authority, facts);
    FirstFails(job, facts);
    assert Observable(job, false, 0, s.steps[0]);
    forall k | 0 <= k < 10
      ensures s.rollbacks[k].sequence == k + 1 && s.rollbacks[k].action == job.plan.rollbackActions[k]
      ensures k < 9 ==> s.rollbacks[k].returncode == 0
      ensures Observable(job, true, k, s.rollbacks[k])
    {
      ReceiptReports(job, true, k, facts);
      assert ReceiptOf(job, true, k, Returned(0, facts)) == Some(s.rollbacks[k]);
    }
    ReceiptReports(job, true, 9, facts);
  }

  /** Some failed history ends FAILED_ROLLED_BACK where the facts show every predecessor, and unverified where they do not. */
  lemma SomeHistoryRollsBack(job: Job, authority: Authority, facts: FactsView) returns (moves: seq<Move>)
    requires Shaped(job.plan) && IsFingerprint(facts.fingerprint)
    ensures var disk := Replay(job, moves).disk;
            && disk.Retained? && disk.state.authority == authority
            && disk.state.result == if Restored(facts.containers, job.plan.predecessorImages) then FailedRolledBack else FailedRollbackUnverified
  {
    hide Replay, Written, Genuine, Receipts, Restored;
    FailedIsWritten(job, authority, facts);
    moves := HistoryOf(job, FailedOver(job, authority, facts));
  }

  // ----- a launched host ---------------------------------------------------------------

  const NAMES: seq<string> := [
    "asklegal-acquisition-worker", "asklegal-control-plane", "asklegal-legal-processing-worker",
    "asklegal-promotion-worker", "asklegal-review-api",
    "asklegal-dts-general", "asklegal-dts-promotion", "asklegal-egress-model", "asklegal-egress-promotion",
    "asklegal-egress-source", "asklegal-otel-collector", "asklegal-sql-server",
    "asklegal-vault-primary", "asklegal-vault-recovery"]

  /** The containers of a launched host, the applications at these images. */
  function LaunchedRows(images: seq<(string, string)>): (r: seq<ContainerRow>)
    requires |images| == 5
    ensures |r| == 14
    ensures forall i | 0 <= i < 14 :: r[i] == ContainerRow(NAMES[i], if i < 5 then images[i].1 else "", "running", if i < 5 then "HEALTHY" else "NONE")
  {
    seq(14, i requires 0 <= i < 14 => ContainerRow(NAMES[i], if i < 5 then images[i].1 else "", "running", if i < 5 then "HEALTHY" else "NONE"))
  }

  const LENGTHS: seq<nat> := [27, 22, 32, 25, 19, 20, 22, 21, 25, 22, 23, 19, 22, 23]
  const INITIALS := "aclprddeeeosvv"

  /** No two names agree both in length and in their first letter of their own. */
  lemma NamesDiffer(i: int, j: int)
    requires 0 <= i < 14 && 0 <= j < 14 && NAMES[i] == NAMES[j]
    ensures i == j
  {
    NamesAreTold(i);
    NamesAreTold(j);
    assert LENGTHS[i] == LENGTHS[j] && INITIALS[i] == INITIALS[j];
  }

  lemma NamesAreTold(i: int)
    requires 0 <= i < 14
    ensures |NAMES[i]| == LENGTHS[i] && |INITIALS| == 14 && NAMES[i][9] == INITIALS[i]
  {
  }

  lemma EveryNameIsListed(name: string)
    ensures ContainerName(name) <==> name in NAMES
  {
  }

  lemma LaunchedRowsRun(images: seq<(string, string)>)
    requires |images| == 5 && forall k | 0 <= k < 5 :: images[k].0 == SERVICES[k]
    ensures Running(LaunchedRows(images), images)
  {
    hide ContainerName;
    var rows := LaunchedRows(images);
    forall i, j | 0 <= i < 14 && 0 <= j < 14 && rows[i].name == rows[j].name ensures i == j {
      NamesDiffer(i, j);
    }
    forall name: string ensures Named(rows, name) <==> ContainerName(name) {
      EveryNameIsListed(name);
      if name in NAMES {
        var i :| 0 <= i < 14 && NAMES[i] == name;
        assert rows[i].name == name;
      }
    }
    forall k | 0 <= k < 5 ensures RunsAt(rows, images[k].0, images[k].1) {
      ServiceIsNamed(k);
      assert rows[k].imageId == images[k].1;
    }
  }

  lemma ServiceIsNamed(k: nat)
    requires k < 5
    ensures "asklegal-" + SERVICES[k] == NAMES[k]
  {
    assert "asklegal-" + SERVICES[0] == NAMES[0];
    assert "asklegal-" + SERVICES[1] == NAMES[1];
    assert "asklegal-" + SERVICES[2] == NAMES[2];
    assert "asklegal-" + SERVICES[3] == NAMES[3];
    assert "asklegal-" + SERVICES[4] == NAMES[4];
  }

  /** The facts of a launched host. */
  function LaunchedFacts(digest: string, images: seq<(string, string)>): FactsView
    requires |images| == 5
  {
    FactsView(digest, Firewall("DROP", "DROP", "DROP"), LaunchedRows(images), true, Some(Manifest(images)), true)
  }

  // ----- restored predecessors ---------------------------------------------------------

  /** One row for each predecessor that stood. */
  function RestoredRows(predecessors: seq<Predecessor>): seq<ContainerRow> {
    if predecessors == [] then []
    else
      var p := predecessors[|predecessors| - 1];
      RestoredRows(predecessors[..|predecessors| - 1])
      + (if p.imageId.Some? && p.runtimeState.Some? then [ContainerRow("asklegal-" + p.service, p.imageId.value, p.runtimeState.value, "NONE")]
         else [])
  }

  predicate ServicesOnce(predecessors: seq<Predecessor>) {
    && (forall i, j | 0 <= i < j < |predecessors| :: predecessors[i].service != predecessors[j].service)
    && (forall i | 0 <= i < |predecessors| :: predecessors[i].imageId.Some? == predecessors[i].runtimeState.Some?)
  }

  lemma SameService(a: string, b: string)
    requires "asklegal-" + a == "asklegal-" + b
    ensures a == b
  {
    assert ("asklegal-" + a)[9..] == a && ("asklegal-" + b)[9..] == b;
  }

  lemma {:induction false} OnlyTheirRows(predecessors: seq<Predecessor>, service: string)
    requires forall i | 0 <= i < |predecessors| :: predecessors[i].service != service
    ensures !Named(RestoredRows(predecessors), "asklegal-" + service)
  {
    if predecessors != [] {
      var n := |predecessors| - 1;
      OnlyTheirRows(predecessors[..n], service);
      var front, rows := RestoredRows(predecessors[..n]), RestoredRows(predecessors);
      forall i | 0 <= i < |rows| ensures rows[i].name != "asklegal-" + service {
        if i < |front| {
          assert rows[i] == front[i];
        } else if rows[i].name == "asklegal-" + service {
          SameService(predecessors[n].service, service);
        }
      }
    }
  }

  /** A row of another service changes nothing for a predecessor that stands. */
  lemma BackStays(rows: seq<ContainerRow>, row: ContainerRow, p: Predecessor)
    requires Back(rows, p) && row.name != "asklegal-" + p.service
    ensures Back(rows + [row], p)
  {
    var more := rows + [row];
    if p.imageId == None {
      forall i | 0 <= i < |more| ensures more[i].name != "asklegal-" + p.service {
        assert i < |rows| ==> more[i] == rows[i];
      }
    } else {
      var k :| LastNamed(rows, k, "asklegal-" + p.service) && p.imageId == Some(rows[k].imageId) && p.runtimeState == Some(rows[k].runtimeState);
      assert LastNamed(more, k, "asklegal-" + p.service);
    }
  }

  lemma LastIsBack(rows: seq<ContainerRow>, p: Predecessor)
    requires p.imageId.Some? && p.runtimeState.Some?
    ensures Back(rows + [ContainerRow("asklegal-" + p.service, p.imageId.value, p.runtimeState.value, "NONE")], p)
  {
    var more := rows + [ContainerRow("asklegal-" + p.service, p.imageId.value, p.runtimeState.value, "NONE")];
    assert LastNamed(more, |rows|, "asklegal-" + p.service);
  }

  lemma {:induction false} RestoredRowsRestore(predecessors: seq<Predecessor>)
    requires ServicesOnce(predecessors)
    ensures Restored(RestoredRows(predecessors), predecessors)
  {
    hide Back, Named;
    if predecessors != [] {
      var n := |predecessors| - 1;
      var front, p := predecessors[..n], predecessors[n];
      RestoredRowsRestore(front);
      OnlyTheirRows(front, p.service);
      forall i | 0 <= i < |predecessors| ensures Back(RestoredRows(predecessors), predecessors[i]) {
        OneIsBack(predecessors, i);
      }
    }
  }

  lemma OneIsBack(predecessors: seq<Predecessor>, i: nat)
    requires i < |predecessors| && ServicesOnce(predecessors)
    requires Restored(RestoredRows(predecessors[..|predecessors| - 1]), predecessors[..|predecessors| - 1])
    requires !Named(RestoredRows(predecessors[..|predecessors| - 1]), "asklegal-" + predecessors[|predecessors| - 1].service)
    ensures Back(RestoredRows(predecessors), predecessors[i])
  {
    hide Named, LastNamed;
    var n := |predecessors| - 1;
    var front, p := RestoredRows(predecessors[..n]), predecessors[n];
    if i == n {
      if p.imageId.Some? {
        LastIsBack(front, p);
      } else {
        assert RestoredRows(predecessors) == front;
      }
    } else {
      assert Back(front, predecessors[..n][i]);
      if p.imageId.Some? {
        if "asklegal-" + p.service == "asklegal-" + predecessors[i].service {
          SameService(p.service, predecessors[i].service);
        }
        BackStays(front, ContainerRow("asklegal-" + p.service, p.imageId.value, p.runtimeState.value, "NONE"), predecessors[i]);
      } else {
        assert RestoredRows(predecessors) == front;
      }
    }
  }

  // ----- every accepted deployment -----------------------------------------------------

  /** An accepted deployment plan names the five applications in order, and so do its predecessors. */
  lemma AcceptedNames(file: PlanFile)
    requires ParsePlan(file).Success? && ParsePlan(file).value.Deployment?
    ensures var plan := ParsePlan(file).value;
            && |plan.expectedImages| == |plan.predecessorImages| == 5
            && (forall k | 0 <= k < 5 :: plan.expectedImages[k].0 == SERVICES[k] && plan.predecessorImages[k].service == SERVICES[k])
            && ServicesOnce(plan.predecessorImages)
  {
    hide Files.DeploymentFile, ParsePlanWith;
    Files.AcceptedDeploymentFiles(Short, file);
    DeploymentHasResults(FIXED, file);
    var images, predecessors :| Files.DeploymentFile(file, images, predecessors);
    FileNames(file, images, predecessors);
  }

  function Short(file: PlanFile): nat {
    0
  }

  lemma DeploymentHasResults(fixed: FixedRows, file: PlanFile)
    requires ParsePlanWith(fixed, file).Success? && ParsePlanWith(fixed, file).value.Deployment?
    ensures file.body.buildResults.Some?
  {
    hide ParseImageRows, ParsePreserveRows;
  }

  lemma FileNames(file: PlanFile, images: seq<(string, string)>, predecessors: seq<Predecessor>)
    requires Files.DeploymentFile(file, images, predecessors)
    ensures |images| == |predecessors| == 5
    ensures forall k | 0 <= k < 5 :: images[k].0 == SERVICES[k] && predecessors[k].service == SERVICES[k]
    ensures ServicesOnce(predecessors)
  {
    hide Files.Sealed, Files.ForwardRows, Files.BackwardRows, IsFingerprint;
    ForwardNames(file.body.actions, file.body.targets, images);
    BackwardNames(file.body.rollbackActions, predecessors);
  }

  lemma ForwardNames(actions: seq<string>, targets: seq<string>, images: seq<(string, string)>)
    requires Files.ForwardRows(actions, targets, images)
    ensures |images| == 5 && forall k | 0 <= k < 5 :: images[k].0 == SERVICES[k]
  {
    hide VerifyRow, EnableRow, IsFingerprint, Bar;
  }

  lemma BackwardNames(rows: seq<string>, predecessors: seq<Predecessor>)
    requires Files.BackwardRows(rows, predecessors)
    ensures |predecessors| == 5 && forall k | 0 <= k < 5 :: predecessors[k].service == SERVICES[k]
    ensures ServicesOnce(predecessors)
  {
    hide AbsenceRow, RestoreRow, IsFingerprint, IsLowerWord, Bar;
    forall k | 0 <= k < 5
      ensures predecessors[k].service == SERVICES[k] && predecessors[k].imageId.Some? == predecessors[k].runtimeState.Some?
    {
      assert Files.RestoringRow(4 - k, rows[4 - k], predecessors[4 - (4 - k)]);
    }
    ServiceLetters();
  }

  lemma ServiceLetters()
    ensures SERVICES[0][0] == 'a' && SERVICES[1][0] == 'c' && SERVICES[2][0] == 'l' && SERVICES[3][0] == 'p' && SERVICES[4][0] == 'r'
  {
  }

  /**
   No accepted deployment is without hope: some host completes it, and some host completes its rollback, wherever
   the repository and the state are.
   */
  lemma AcceptedDeploymentsCanEnd(job: Job, file: PlanFile, authority: Authority, digest: string)
    returns (launched: FactsView, completes: seq<Move>, restored: FactsView, rollsBack: seq<Move>)
    requires ParsePlan(file).Success? && ParsePlan(file).value.Deployment? && job.plan == ParsePlan(file).value
    requires IsFingerprint(digest)
    ensures Shaped(job.plan) && |job.plan.expectedImages| == 5
    ensures launched == LaunchedFacts(digest, job.plan.expectedImages)
    ensures Replay(job, completes).disk.Retained? && Replay(job, completes).disk.state.result == Complete
    ensures restored.containers == RestoredRows(job.plan.predecessorImages)
    ensures Replay(job, rollsBack).disk.Retained? && Replay(job, rollsBack).disk.state.result == FailedRolledBack
  {
    hide ParsePlanWith, Replay, Shaped, LaunchedRows, RestoredRows, Restored, Running, ServicesOnce;
    HostGrammarShape.ParsedDeploymentIsShaped(file);
    AcceptedNames(file);
    LaunchedRowsRun(job.plan.expectedImages);
    launched := LaunchedFacts(digest, job.plan.expectedImages);
    completes := SomeHistoryCompletes(job, authority, launched);
    RestoredRowsRestore(job.plan.predecessorImages);
    restored := launched.(containers := RestoredRows(job.plan.predecessorImages));
    rollsBack := SomeHistoryRollsBack(job, authority, restored);
  }

  // ----- where the facts are written ---------------------------------------------------

  /**
   In every history of an accepted deployment, each command but the two recollections is the helper with its own row,
   and each recollection writes to the path that its row names.
   */
  lemma CommandsCarryTheirRows(job: Job, file: PlanFile, moves: seq<Move>, i: nat)
    requires ParsePlan(file).Success? && ParsePlan(file).value.Deployment? && job.plan == ParsePlan(file).value
    requires Shaped(job.plan) && i < |Replay(job, moves).trace|
    ensures var a := Replay(job, moves).trace[i];
            && a.index < (if a.rollback then |file.body.rollbackActions| else |file.body.actions|)
            && Carries(job, if a.rollback then file.body.rollbackActions[a.index] else file.body.actions[a.index], a.argv)
  {
    hide ParsePlanWith, Replay, CommandFor, Carries, Shaped;
    EveryCommandIsItsRows(job, moves, i);
    var a := Replay(job, moves).trace[i];
    AcceptedRows(file);
    RowIsCarried(job, a.rollback, a.index);
  }

  /** The helper with this very row, or the collector writing to the output that the row names. */
  ghost predicate Carries(job: Job, row: string, argv: seq<string>) {
    || argv == Helper(job, row)
    || exists number, output :: row == Collects(number, output) && argv == Collector(job.repositoryRoot, output)
  }

  lemma RowIsCarried(job: Job, rollback: bool, k: nat)
    requires Shaped(job.plan) && k < (if rollback then 10 else 13)
    requires job.plan.actions[11] == RECOLLECT_FORWARD && job.plan.rollbackActions[9] == RECOLLECT_ROLLBACK
    ensures Carries(job, if rollback then job.plan.rollbackActions[k] else job.plan.actions[k], CommandFor(job, rollback, k))
  {
    hide CommandFor, Collects, Bar, Collector, Helper, IsRecollect;
    CommandOfRow(job, rollback, k);
    ForwardCollects();
    RollbackCollects();
  }

  /** A row that asks for the facts to be written to this output. */
  function Collects(number: string, output: string): string {
    Bar([number, "RECOLLECT_HOST_FACTS", "output=" + output, "required=all-11-fact-classes"])
  }

  lemma CollectsIs(number: string, output: string, field: string)
    requires field == "output=" + output
    ensures Collects(number, output) == Bar([number, "RECOLLECT_HOST_FACTS", field, "required=all-11-fact-classes"])
  {
  }

  lemma ForwardOutput()
    ensures "output=var/hk-v1/host/post-reconcile.json" == "output=" + "var/hk-v1/host/post-reconcile.json"
  {
  }

  lemma RollbackOutput()
    ensures "output=var/hk-v1/host/post-rollback.json" == "output=" + "var/hk-v1/host/post-rollback.json"
  {
  }

  lemma ForwardCollects()
    ensures RECOLLECT_FORWARD == Collects("012", "var/hk-v1/host/post-reconcile.json")
  {
    hide Bar, Collects;
    ForwardOutput();
    CollectsIs("012", "var/hk-v1/host/post-reconcile.json", "output=var/hk-v1/host/post-reconcile.json");
  }

  lemma RollbackCollects()
    ensures RECOLLECT_ROLLBACK == Collects("010", "var/hk-v1/host/post-rollback.json")
  {
    hide Bar, Collects;
    RollbackOutput();
    CollectsIs("010", "var/hk-v1/host/post-rollback.json", "output=var/hk-v1/host/post-rollback.json");
  }

  lemma CommandOfRow(job: Job, rollback: bool, k: nat)
    requires Shaped(job.plan) && k < (if rollback then 10 else 13)
    ensures CommandFor(job, rollback, k)
         == if rollback && k == 9 then Collector(job.repositoryRoot, "var/hk-v1/host/post-rollback.json")
            else if !rollback && k == 11 then Collector(job.repositoryRoot, "var/hk-v1/host/post-reconcile.json")
            else Helper(job, if rollback then job.plan.rollbackActions[k] else job.plan.actions[k])
  {
    hide Collector, Helper;
  }

  lemma AcceptedRows(file: PlanFile)
    requires ParsePlan(file).Success? && ParsePlan(file).value.Deployment?
    ensures var plan := ParsePlan(file).value;
            && plan.actions == file.body.actions && plan.rollbackActions == file.body.rollbackActions
            && |plan.actions| == 13 && |plan.rollbackActions| == 10
            && plan.actions[11] == RECOLLECT_FORWARD && plan.rollbackActions[9] == RECOLLECT_ROLLBACK
  {
    DeploymentHasResults(FIXED, file);
    DeploymentRowsOf(FIXED, file);
  }

  lemma DeploymentRowsOf(fixed: FixedRows, file: PlanFile)
    requires ParsePlanWith(fixed, file).Success? && file.body.buildResults.Some?
    ensures var plan := ParsePlanWith(fixed, file).value;
            && plan.Deployment?
            && plan.actions == file.body.actions && plan.rollbackActions == file.body.rollbackActions
            && |plan.actions| == 13 && |plan.rollbackActions| == 10
            && plan.actions[11] == fixed.recollect && plan.rollbackActions[9] == fixed.recollectBack
  {
    HostGrammarShape.ParsedDeploymentIs(fixed, file.body, Sha256(file.body));
  }
}
