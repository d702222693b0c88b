/**
 The journalled deployment transaction: thirteen forward actions, ten rollback actions, one
 receipt made durable after each (tools/hk_v1_host_apply.py:1291-1560).

 The specification is a machine over `World`s driven by `Move`s. A list of moves is one whole
 history of the host: any number of invocations, under any authorities, each of which may be
 cut short between any command and the write that would have recorded it. `Replay` gives the
 world that a history leads to, so a statement about `Replay(job, moves)` for all `moves` is a
 statement about every reachable world. Module HostExecutor shows that the executor's loops
 only ever make these moves.
 */
module HostDeployment {
  import opened Wrappers
  import opened Text
  import opened HostPlan
  import opened HostJournal

  // ----- what the host answers --------------------------------------------------------

  datatype ContainerRow = ContainerRow(name: string, imageId: string, runtimeState: string, health: string)

  datatype Firewall = Firewall(inputDefault: string, forwardDefault: string, egressDefault: string)

  /**
   One readback of the host. `unitsReady` stands for the systemd and application rows,
   `manifest` for the durable launch manifest when it is a root-owned 0400 regular file.
   */
  datatype FactsView = FactsView(
    fingerprint: string,
    firewall: Firewall,
    containers: seq<ContainerRow>,
    unitsReady: bool,
    manifest: Option<string>,
    bootstrapReady: bool)

  /** All that one action can observe: its command result, and the facts a recollection reads back. */
  datatype Observation = Observation(result: CommandResult, facts: FactsView)

  const CONTAINER_NAMES: set<string> := {
    "asklegal-acquisition-worker", "asklegal-control-plane", "asklegal-dts-general",
    "asklegal-dts-promotion", "asklegal-egress-model", "asklegal-egress-promotion",
    "asklegal-egress-source", "asklegal-legal-processing-worker", "asklegal-otel-collector",
    "asklegal-promotion-worker", "asklegal-review-api", "asklegal-sql-server",
    "asklegal-vault-primary", "asklegal-vault-recovery" }

  predicate FirewallReady(facts: FactsView) {
    facts.firewall == Firewall("DROP", "DROP", "DROP")
  }

  /** Exactly the expected containers, once each, all running and healthy, applications at their bound images. */
  predicate DeploymentReady(facts: FactsView, expected: seq<(string, string)>) {
    && (forall i, j | 0 <= i < j < |facts.containers| :: facts.containers[i].name != facts.containers[j].name)
    && (set row | row in facts.containers :: row.name) == CONTAINER_NAMES
    && (forall row | row in facts.containers :: row.runtimeState == "running" && row.health in {"HEALTHY", "NONE"})
    && (forall e | e in expected ::
          exists row | row in facts.containers :: row.name == "asklegal-" + e.0 && row.imageId == e.1)
    && facts.unitsReady
  }

  function ManifestText(expected: seq<(string, string)>): string {
    if expected == [] then "" else expected[0].0 + " " + expected[0].1 + "\n" + ManifestText(expected[1..])
  }

  predicate ManifestReady(facts: FactsView, expected: seq<(string, string)>) {
    facts.manifest == Some(ManifestText(expected))
  }

  /** The last row carrying a name, as a mapping built row by row keeps it. */
  function Observed(rows: seq<ContainerRow>, name: string): Option<(string, string)> {
    if rows == [] then None
    else if rows[|rows| - 1].name == name then Some((rows[|rows| - 1].imageId, rows[|rows| - 1].runtimeState))
    else Observed(rows[..|rows| - 1], name)
  }

  predicate RollbackReady(facts: FactsView, predecessors: seq<Predecessor>) {
    forall p | p in predecessors ::
      var seen := Observed(facts.containers, "asklegal-" + p.service);
      if p.imageId == None then seen == None
      else seen.Some? && p.imageId == Some(seen.value.0) && p.runtimeState == Some(seen.value.1)
  }

  // ----- one action -------------------------------------------------------------------

  /** `size` measures the state files that are written. */
  datatype Job = Job(plan: HostPlan, repositoryRoot: string, stateDirectory: string, size: StateSize)

  const RECOLLECT_VERB := "RECOLLECT_HOST_FACTS"
  const RECOLLECT := "|" + RECOLLECT_VERB + "|"

  predicate IsRecollect(raw: string) {
    Contains(raw, RECOLLECT)
  }

  /** What the executor relies on in a parsed deployment plan; proved of every parsed plan in HostGrammarShape. */
  predicate Shaped(plan: HostPlan) {
    && plan.Deployment?
    && |plan.actions| == 13
    && |plan.rollbackActions| == 10
    && (forall k | 0 <= k < 13 :: IsRecollect(plan.actions[k]) <==> k == 11)
    && (forall k | 0 <= k < 10 :: IsRecollect(plan.rollbackActions[k]) <==> k == 9)
  }

  function OutputPath(job: Job, rollback: bool): string {
    job.repositoryRoot + "/var/hk-v1/host/" + (if rollback then "post-rollback.json" else "post-reconcile.json")
  }

  function Argv(job: Job, raw: string, rollback: bool): seq<string> {
    if IsRecollect(raw) then
      [job.repositoryRoot + "/.venv/bin/python", "-m", "tools.v1_poc_collect_host_facts",
       "--acknowledge-read-only-host-inspection", "--output", OutputPath(job, rollback)]
    else
      ["/usr/bin/bash", job.repositoryRoot + "/infrastructure/poc/provisioning/90-host-apply.sh",
       raw, job.stateDirectory]
  }

  datatype Reading = Reading(
    result: CommandResult, readback: Readback, fingerprint: Option<string>, path: Option<string>)

  /** `_deployment_action_result` after its command has returned; `None` where it raises. */
  function Read(job: Job, raw: string, rollback: bool, seen: Observation): Option<Reading>
    requires job.plan.Deployment?
  {
    var facts := seen.facts;
    if !IsRecollect(raw) then
      Some(Reading(seen.result, ActionComplete(seen.result.returncode == 0), None, None))
    else if seen.result.returncode != 0 then
      Some(Reading(seen.result, FactsNotCollected, None, None))
    else if !IsFingerprint(facts.fingerprint) then
      None
    else if !rollback && !FirewallReady(facts) then
      Some(Reading(CommandResult(1, seen.result.stdout, "HOST_APPLY_FIREWALL_READBACK_INVALID"),
                   FirewallNotAdmitted, None, None))
    else if !rollback && (!DeploymentReady(facts, job.plan.expectedImages)
                          || !ManifestReady(facts, job.plan.expectedImages)
                          || !facts.bootstrapReady) then
      Some(Reading(CommandResult(1, seen.result.stdout, "HOST_APPLY_DEPLOYMENT_READBACK_INVALID"),
                   DeploymentNotAdmitted, None, None))
    else if rollback && !RollbackReady(facts, job.plan.predecessorImages) then
      Some(Reading(CommandResult(1, seen.result.stdout, "HOST_APPLY_ROLLBACK_READBACK_INVALID"),
                   RollbackNotAdmitted, None, None))
    else
      Some(Reading(seen.result, FactsFingerprint(facts.fingerprint),
                   Some(facts.fingerprint), Some(OutputPath(job, rollback))))
  }

  function Row(plan: HostPlan, rollback: bool, k: nat): string
    requires Shaped(plan) && k < (if rollback then 10 else 13)
  {
    if rollback then plan.rollbackActions[k] else plan.actions[k]
  }

  /** The receipt of the k-th action, given what was seen. */
  function ReceiptOf(job: Job, rollback: bool, k: nat, seen: Observation): Option<Receipt>
    requires Shaped(job.plan) && k < (if rollback then 10 else 13)
  {
    var raw := Row(job.plan, rollback, k);
    match Read(job, raw, rollback, seen)
    case None => None
    case Some(r) => Some(MakeReceipt(k + 1, raw, Argv(job, raw, rollback), r.result, r.readback))
  }

  // ----- the journal as a machine -----------------------------------------------------

  function Body(job: Job, authority: Authority, result: Outcome, steps: seq<Receipt>, rollbacks: seq<Receipt>,
                factsFingerprint: Option<string>, factsPath: Option<string>,
                rollbackComplete: bool, complete: bool): State
    requires job.plan.Deployment?
  {
    State(job.plan.fingerprint, authority, job.plan.admissionLimitations, result, steps, rollbacks,
          factsFingerprint, factsPath, Some(job.plan.buildResults), None, rollbackComplete, complete)
  }

  function Initial(job: Job, authority: Authority): State
    requires job.plan.Deployment?
  {
    Body(job, authority, InProgress, [], [], None, None, false, false)
  }

  /** A state with an action still to run. */
  predicate Resumable(plan: HostPlan, s: State) {
    && Shaped(plan)
    && ((s.result == InProgress && |s.steps| < 13) || (s.result == RollbackInProgress && |s.rollbacks| < 10))
  }

  /** The first action that has no receipt yet. */
  function NextIndex(s: State): nat {
    if s.result == RollbackInProgress then |s.rollbacks| else |s.steps|
  }

  function Rolling(s: State): bool {
    s.result == RollbackInProgress
  }

  /** The state to record once the next action has been observed; `None` where the executor raises. */
  function Next(job: Job, s: State, seen: Observation): Option<State>
    requires Resumable(job.plan, s)
  {
    var k := NextIndex(s);
    var raw := Row(job.plan, Rolling(s), k);
    match Read(job, raw, Rolling(s), seen)
    case None => None
    case Some(r) =>
      var receipt := MakeReceipt(k + 1, raw, Argv(job, raw, Rolling(s)), r.result, r.readback);
      Some(if Rolling(s) then AfterRollback(job, s, receipt, r) else AfterForward(job, s, receipt, r))
  }

  function AfterForward(job: Job, s: State, receipt: Receipt, r: Reading): State
    requires job.plan.Deployment?
  {
    var steps := s.steps + [receipt];
    var fingerprint := if r.fingerprint.Some? then r.fingerprint else s.factsFingerprint;
    var path := if r.fingerprint.Some? then r.path else s.factsPath;
    if r.result.returncode != 0 then
      Body(job, s.authority, RollbackInProgress, steps, [], None, None, false, false)
    else if |steps| < |job.plan.actions| then
      Body(job, s.authority, InProgress, steps, [], fingerprint, path, false, false)
    else
      Body(job, s.authority, Complete, steps, [], fingerprint, path, false, true)
  }

  function AfterRollback(job: Job, s: State, receipt: Receipt, r: Reading): State
    requires job.plan.Deployment?
  {
    var rollbacks := s.rollbacks + [receipt];
    if |rollbacks| < |job.plan.rollbackActions| then
      Body(job, s.authority, RollbackInProgress, s.steps, rollbacks, None, None, false, false)
    else
      var restored := AllSucceeded(rollbacks) && r.fingerprint.Some?;
      Body(job, s.authority, if restored then FailedRolledBack else FailedRollbackUnverified,
           s.steps, rollbacks, r.fingerprint, r.path, restored, false)
  }

  /** One command handed to the runner; `seen` is `None` when no result came back. */
  datatype Attempt = Attempt(rollback: bool, index: nat, argv: seq<string>, seen: Option<Observation>)

  /** The executor's memory: none, a journalled state with an action due, or a state due to be written. */
  datatype Process = Idle | At(state: State) | Writing(state: State)

  datatype World = World(disk: Disk, trace: seq<Attempt>, process: Process)

  datatype Move =
    | Begin(authority: Authority)
    | Run(seen: Option<Observation>)
    | Write
    | Crash

  function After(job: Job, w: World, move: Move): World
    requires Shaped(job.plan)
  {
    match move
    case Begin(authority) =>
      if !w.process.Idle? then w
      else (
        match Load(job.size, w.disk, job.plan, authority)
        case Failure(_) => w
        case Success(None) => w.(process := Writing(Initial(job, authority)))
        case Success(Some(s)) => if s.result.Terminal() then w else w.(process := At(s)))
    case Run(seen) =>
      if !w.process.At? || !Resumable(job.plan, w.process.state) then w
      else
        var s := w.process.state;
        var raw := Row(job.plan, Rolling(s), NextIndex(s));
        var trace := w.trace + [Attempt(Rolling(s), NextIndex(s), Argv(job, raw, Rolling(s)), seen)];
        var next := if seen.None? then None else Next(job, s, seen.value);
        World(w.disk, trace, if next.None? then Idle else Writing(next.value))
    case Write =>
      if !w.process.Writing? then w
      else World(Retained(w.process.state), w.trace,
                 if w.process.state.result.Terminal() then Idle else At(w.process.state))
    case Crash => w.(process := Idle)
  }

  /** The world that a history leads to, from whatever lies at the state path. */
  function ReplayFrom(job: Job, disk: Disk, moves: seq<Move>): World
    requires Shaped(job.plan)
  {
    if moves == [] then World(disk, [], Idle)
    else After(job, ReplayFrom(job, disk, moves[..|moves| - 1]), moves[|moves| - 1])
  }

  /** The world that a whole history leads to: one that began with nothing at the state path. */
  function Replay(job: Job, moves: seq<Move>): World
    requires Shaped(job.plan)
  {
    ReplayFrom(job, Absent, moves)
  }
}
