/**
 The retained apply state and the validator that decides which retained states may be
 resumed (tools/hk_v1_host_apply.py:654-945).
 */
module HostJournal {
  import opened Wrappers
  import opened Text
  import opened HostPlan

  datatype Authority = Authority(id: string, fingerprint: string)

  datatype CommandResult = CommandResult(returncode: int, stdout: string, stderr: string)

  /** SHA-256 of a text or of an argument vector; equal digests mean equal inputs. */
  datatype Digest = OfText(text: string) | OfArgv(argv: seq<string>)

  datatype Readback =
    | ActionComplete(done: bool)
    | FactsNotCollected
    | FirewallNotAdmitted
    | DeploymentNotAdmitted
    | RollbackNotAdmitted
    | FactsFingerprint(fingerprint: string)
    | ImageNotBuilt
    | ImageBuilt(imageId: string, installedTree: string)
    | PredecessorPreserved(matched: bool)

  datatype Receipt = Receipt(
    action: string,
    argv: Digest,
    readback: Readback,
    returncode: int,
    sequence: int,
    stderr: Digest,
    stdout: Digest)

  datatype Outcome =
    | InProgress
    | RollbackInProgress
    | Complete
    | PhaseCompleteReplanRequired
    | FailedRolledBack
    | FailedRollbackUnverified
  {
    predicate Terminal() {
      this in {Complete, PhaseCompleteReplanRequired, FailedRolledBack, FailedRollbackUnverified}
    }
  }

  datatype State = State(
    plan: PlanDigest,
    authority: Authority,
    limitations: seq<string>,
    result: Outcome,
    steps: seq<Receipt>,
    rollbacks: seq<Receipt>,
    factsFingerprint: Option<string>,
    factsPath: Option<string>,
    buildFingerprint: Option<string>,
    buildPath: Option<string>,
    rollbackComplete: bool,
    complete: bool)

  /** What lies at the state path: nothing, bytes that do not parse as a sealed state, or a state. */
  datatype Disk = Absent | Unreadable | Retained(state: State)

  datatype Error =
    | StateInvalid
    | RecollectReadbackInvalid
    | DeploymentReadbackInvalid
    | RollbackReadbackInvalid
    | BuildReadbackInvalid
    | HelperUnavailable
    | Interrupted

  function MakeReceipt(sequence: int, action: string, argv: seq<string>, result: CommandResult, readback: Readback): Receipt {
    Receipt(action, OfArgv(argv), readback, result.returncode, sequence, OfText(result.stderr), OfText(result.stdout))
  }

  predicate AllSucceeded(items: seq<Receipt>) {
    forall i | 0 <= i < |items| :: items[i].returncode == 0
  }

  /** Every receipt sits at its own place in the plan's ordered rows. */
  predicate InOrder(items: seq<Receipt>, rows: seq<string>) {
    && |items| <= |rows|
    && forall i | 0 <= i < |items| :: items[i].sequence == i + 1 && items[i].action == rows[i]
  }

  predicate IsFingerprintOption(value: Option<string>) {
    value.Some? && IsFingerprint(value.value)
  }

  predicate IsAbsolute(value: Option<string>) {
    value.Some? && |value.value| > 0 && value.value[0] == '/'
  }

  predicate AllowedResult(plan: HostPlan, result: Outcome) {
    if plan.Deployment? then
      result in {Complete, FailedRolledBack, FailedRollbackUnverified, InProgress, RollbackInProgress}
    else
      result in {FailedRolledBack, FailedRollbackUnverified, InProgress, PhaseCompleteReplanRequired}
  }

  /** `_validate_state_shape` */
  predicate Valid(plan: HostPlan, s: State) {
    && s.limitations == plan.Limitations()
    && AllowedResult(plan, s.result)
    && InOrder(s.steps, plan.actions)
    && InOrder(s.rollbacks, plan.RollbackRows())
    && if plan.Deployment? then ValidDeployment(plan, s) else ValidBuildPhase(s)
  }

  /** `_validate_deployment_state` */
  predicate ValidDeployment(plan: HostPlan, s: State)
    requires plan.Deployment?
  {
    && s.buildFingerprint == Some(plan.buildResults)
    && s.buildPath == None
    && (s.result == InProgress ==>
          var recollected := |s.steps| == |plan.actions| - 1;
          && |s.steps| <= |plan.actions| - 1
          && s.rollbacks == []
          && AllSucceeded(s.steps)
          && s.factsFingerprint.Some? == recollected
          && s.factsPath.Some? == recollected
          && (recollected ==> IsFingerprintOption(s.factsFingerprint))
          && !s.rollbackComplete
          && !s.complete)
    && (s.result == RollbackInProgress ==>
          && s.steps != []
          && |s.rollbacks| < |plan.rollbackActions|
          && s.factsFingerprint == None
          && s.factsPath == None
          && !s.rollbackComplete
          && !s.complete)
    && (s.result == Complete ==>
          && |s.steps| == |plan.actions|
          && s.rollbacks == []
          && AllSucceeded(s.steps)
          && IsFingerprintOption(s.factsFingerprint)
          && s.factsPath.Some?
          && !s.rollbackComplete
          && s.complete)
    && (s.result in {FailedRolledBack, FailedRollbackUnverified} ==>
          && s.steps != []
          && |s.rollbacks| == |plan.rollbackActions|
          && !s.complete
          && s.rollbackComplete == (s.result == FailedRolledBack))
  }

  /** The build-phase half of `_validate_state_shape`: five images and one recollection. */
  predicate ValidBuildPhase(s: State) {
    && !s.complete
    && (s.result == PhaseCompleteReplanRequired ==>
          && |s.steps| == 6
          && s.rollbacks == []
          && !s.rollbackComplete
          && IsFingerprintOption(s.factsFingerprint)
          && IsAbsolute(s.factsPath)
          && IsFingerprintOption(s.buildFingerprint)
          && IsAbsolute(s.buildPath))
    && (s.result == InProgress ==>
          && |s.steps| in {0, 5}
          && s.rollbacks == []
          && !s.rollbackComplete
          && s.factsFingerprint == None
          && s.factsPath == None)
    && (s.result in {FailedRolledBack, FailedRollbackUnverified} ==>
          && |s.steps| in {5, 6}
          && |s.rollbacks| == 5
          && s.factsFingerprint == None
          && s.factsPath == None
          && s.rollbackComplete == (s.result == FailedRolledBack))
  }

  /** The length in bytes of a state's canonical rendering. */
  type StateSize = State -> nat

  predicate Fits(size: StateSize, s: State) {
    size(s) <= MAX_BYTES
  }

  /** All that the loader asks of a state, apart from its length. */
  predicate Accepts(plan: HostPlan, authority: Authority, s: State) {
    s.plan == plan.fingerprint && s.authority == authority && Valid(plan, s)
  }

  /** `_load_state`: nothing retained, a state bound to this plan and authority, or a refusal. */
  function Load(size: StateSize, disk: Disk, plan: HostPlan, authority: Authority): Result<Option<State>, Error> {
    match disk
    case Absent => Success(None)
    case Unreadable => Failure(StateInvalid)
    case Retained(s) =>
      if Fits(size, s) && Accepts(plan, authority, s) then Success(Some(s)) else Failure(StateInvalid)
  }
}
