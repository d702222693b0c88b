/**
 Which retained apply states are gone on from: for each verdict, what its file must hold
 (tools/hk_v1_host_apply.py:720-945).
 */
module HostStates {
  import opened Wrappers
  import opened Text
  import opened HostPlan
  import opened HostJournal

  /** The k-th receipt is numbered k + 1 and names the k-th row; there are no more receipts than rows. */
  predicate Follows(receipts: seq<Receipt>, rows: seq<string>) {
    && |receipts| <= |rows|
    && forall k | 0 <= k < |receipts| :: receipts[k].sequence == k + 1 && receipts[k].action == rows[k]
  }

  predicate Succeeded(receipts: seq<Receipt>) {
    forall receipt | receipt in receipts :: receipt.returncode == 0
  }

  /** A digest of facts and the path that they were read from. */
  predicate HasFacts(s: State) {
    s.factsFingerprint.Some? && IsFingerprint(s.factsFingerprint.value) && s.factsPath.Some?
  }

  predicate HasNoFacts(s: State) {
    s.factsFingerprint == None && s.factsPath == None
  }

  predicate Absolute(path: Option<string>) {
    path.Some? && "/" <= path.value
  }

  /** A deployment's state, verdict by verdict. */
  predicate DeploymentState(plan: HostPlan, authority: Authority, s: State)
    requires plan.Deployment?
  {
    && s.plan == plan.fingerprint && s.authority == authority && s.limitations == plan.admissionLimitations
    && s.buildFingerprint == Some(plan.buildResults) && s.buildPath == None
    && Follows(s.steps, plan.actions) && Follows(s.rollbacks, plan.rollbackActions)
    && match s.result
       case InProgress =>
         && |s.steps| + 1 <= |plan.actions| && s.rollbacks == [] && Succeeded(s.steps) && !s.rollbackComplete && !s.complete
         && (if |s.steps| + 1 == |plan.actions| then HasFacts(s) else HasNoFacts(s))
       case RollbackInProgress =>
         s.steps != [] && |s.rollbacks| < |plan.rollbackActions| && HasNoFacts(s) && !s.rollbackComplete && !s.complete
       case Complete =>
         |s.steps| == |plan.actions| && s.rollbacks == [] && Succeeded(s.steps) && HasFacts(s) && !s.rollbackComplete && s.complete
       case FailedRolledBack =>
         s.steps != [] && |s.rollbacks| == |plan.rollbackActions| && s.rollbackComplete && !s.complete
       case FailedRollbackUnverified =>
         s.steps != [] && |s.rollbacks| == |plan.rollbackActions| && !s.rollbackComplete && !s.complete
       case PhaseCompleteReplanRequired => false
  }

  /** A build phase's state, verdict by verdict. */
  predicate BuildState(plan: HostPlan, authority: Authority, s: State)
    requires plan.BuildPhase?
  {
    && s.plan == plan.fingerprint && s.authority == authority && s.limitations == [] && !s.complete
    && Follows(s.steps, plan.actions)
    && |s.rollbacks| <= |plan.preserveActions|
    && (forall k | 0 <= k < |s.rollbacks| :: s.rollbacks[k].sequence == k + 1 && s.rollbacks[k].action == plan.preserveActions[k].raw)
    && match s.result
       case InProgress =>
         (|s.steps| == 0 || |s.steps| == 5) && s.rollbacks == [] && !s.rollbackComplete && HasNoFacts(s)
       case PhaseCompleteReplanRequired =>
         && |s.steps| == 6 && s.rollbacks == [] && !s.rollbackComplete
         && HasFacts(s) && Absolute(s.factsPath)
         && s.buildFingerprint.Some? && IsFingerprint(s.buildFingerprint.value) && Absolute(s.buildPath)
       case FailedRolledBack => (|s.steps| == 5 || |s.steps| == 6) && |s.rollbacks| == 5 && HasNoFacts(s) && s.rollbackComplete
       case FailedRollbackUnverified => (|s.steps| == 5 || |s.steps| == 6) && |s.rollbacks| == 5 && HasNoFacts(s) && !s.rollbackComplete
       case _ => false
  }

  lemma SucceededIs(receipts: seq<Receipt>)
    ensures AllSucceeded(receipts) <==> Succeeded(receipts)
  {
    assert forall k | 0 <= k < |receipts| :: receipts[k] in receipts;
  }

  lemma AbsoluteIs(path: Option<string>)
    ensures IsAbsolute(path) <==> Absolute(path)
  {
  }

  lemma DeploymentStateIs(plan: HostPlan, authority: Authority, s: State)
    requires plan.Deployment?
    ensures Accepts(plan, authority, s) <==> DeploymentState(plan, authority, s)
  {
    hide AllSucceeded, Succeeded, IsFingerprint;
    SucceededIs(s.steps);
  }

  lemma BuildStateIs(plan: HostPlan, authority: Authority, s: State)
    requires plan.BuildPhase?
    ensures Accepts(plan, authority, s) <==> BuildState(plan, authority, s)
  {
    hide IsAbsolute, IsFingerprint;
    AbsoluteIs(s.factsPath);
    AbsoluteIs(s.buildPath);
    var rows := plan.RollbackRows();
    assert |rows| == |plan.preserveActions| && forall k | 0 <= k < |rows| :: rows[k] == plan.preserveActions[k].raw;
    assert InOrder(s.rollbacks, rows)
      <==> |s.rollbacks| <= |rows| && forall k | 0 <= k < |s.rollbacks| :: s.rollbacks[k].sequence == k + 1 && s.rollbacks[k].action == rows[k];
  }

  /** A state file is loaded exactly if it fits and is a state of this plan and authority; no file is no state; any other is refused. */
  lemma StateLoads(size: StateSize, disk: Disk, plan: HostPlan, authority: Authority)
    ensures Load(size, disk, plan, authority)
         == match disk
            case Absent => Success(None)
            case Unreadable => Failure(StateInvalid)
            case Retained(s) =>
              if size(s) <= 5_000_000 && (if plan.Deployment? then DeploymentState(plan, authority, s) else BuildState(plan, authority, s))
              then Success(Some(s)) else Failure(StateInvalid)
  {
    hide Accepts, DeploymentState, BuildState;
    if disk.Retained? {
      if plan.Deployment? {
        DeploymentStateIs(plan, authority, disk.state);
      } else {
        BuildStateIs(plan, authority, disk.state);
      }
    }
  }
}
