/**
 Which plan files the executor accepts at all, whoever wrote them, and what it binds from each
 (tools/hk_v1_host_apply.py:325-577).
 */
module HostPlanFiles {
  import opened Wrappers
  import opened Text
  import opened Ordering
  import opened HostPlan
  import opened HostGrammar
  import opened HostGrammarShape
  import opened HostAgreement
  import opened HostBuildAgreement

  /** The file carries the digest of its own body, and the body claims nothing but a plan. */
  predicate Sealed(file: PlanFile) {
    var body := file.body;
    && file.fingerprint == Some(Sha256(body))
    && body.mode == "PLAN" && body.schemaVersion == 1 && !body.mutationAuthorized && body.mutationsPerformed == []
    && body.actions != []
    && (forall x | x in body.actions + body.blockers + body.targets :: x != "")
    && Ascending(body.targets)
  }

  /** A blocker that no incomplete inventory and no missing recovery report stands behind. */
  predicate Complete(b: string) {
    && b != "ACTIONABLE_HOST_INVENTORY_UNAVAILABLE" && b != "HOST_FACTS_INCOMPLETE"
    && b != "RECOVERY_PREFLIGHT_REPORT_INVALID" && b != "RECOVERY_PREFLIGHT_REPORT_REQUIRED"
  }

  /** A blocker that a deployment may run under. */
  predicate Bearable(b: string) {
    && b != "ACTIONABLE_HOST_INVENTORY_UNAVAILABLE" && b != "HOST_FACTS_INCOMPLETE"
    && b != "CREDENTIAL_ROTATION_EXECUTION_AUTHORITY_REQUIRED"
    && b != "CREDENTIAL_ROTATION_PLAN_INVALID" && b != "CREDENTIAL_ROTATION_PLAN_REQUIRED"
    && b != "CREDENTIAL_ROTATION_REPORT_INVALID" && b != "CREDENTIAL_ROTATION_REPORT_REQUIRED"
    && ("RECOVERY_" <= b ==> b == "RECOVERY_PREFLIGHT_NOT_READY")
  }

  // ----- the parts of a plan file ------------------------------------------------------

  lemma SealedIs(file: PlanFile)
    ensures Sealed(file) <==>
              var body := file.body;
              && AllNonempty(body.actions) && AllNonempty(body.blockers) && AllNonempty(body.targets)
              && body.mode == "PLAN" && body.schemaVersion == 1 && !body.mutationAuthorized && body.mutationsPerformed == []
              && file.fingerprint == Some(Sha256(body)) && SortedSet(body.targets) && body.actions != []
  {
    var body := file.body;
    AscendingIsSorted(body.targets);
    var all := body.actions + body.blockers + body.targets;
    assert forall x :: x in all <==> x in body.actions || x in body.blockers || x in body.targets;
  }

  lemma AscendingIsSorted(values: seq<string>)
    ensures SortedSet(values) <==> Ascending(values)
  {
    if Ascending(values) {
      AscendingIsUnique(values, Sorted(TextSet(values)));
    }
  }

  lemma CompleteIs(blockers: seq<string>)
    ensures TextSet(blockers) * INCOMPLETE_BLOCKERS == {} <==> forall b | b in blockers :: Complete(b)
  {
    if b :| b in blockers && !Complete(b) {
      assert b in TextSet(blockers) * INCOMPLETE_BLOCKERS;
    }
    assert forall b :: b in TextSet(blockers) <==> b in blockers;
  }

  lemma {:induction false} LimitationsAre(blockers: seq<string>)
    ensures forall b :: b in RecoveryLimitations(blockers) <==> b in blockers && RECOVERY_PREFIX <= b
  {
    if blockers != [] {
      LimitationsAre(blockers[1..]);
      assert forall b :: b in blockers <==> b == blockers[0] || b in blockers[1..];
    }
  }

  lemma BearableIs(blockers: seq<string>)
    ensures && TextSet(blockers) * INCOMPLETE_BLOCKERS == {} && TextSet(blockers) * DEPLOYMENT_CREDENTIAL_BLOCKERS == {}
            && Admitted(RecoveryLimitations(blockers))
       <==> forall b | b in blockers :: Bearable(b)
  {
    LimitationsAre(blockers);
    CompleteIs(blockers);
    assert forall b :: b in TextSet(blockers) <==> b in blockers;
    forall b | b in blockers
      ensures Bearable(b) <==> Complete(b) && b !in DEPLOYMENT_CREDENTIAL_BLOCKERS && (RECOVERY_PREFIX <= b ==> b == RECOVERY_NOT_READY)
    {
      OneBlocker(b);
    }
    assert TextSet(blockers) * DEPLOYMENT_CREDENTIAL_BLOCKERS == {} <==> forall b | b in blockers :: b !in DEPLOYMENT_CREDENTIAL_BLOCKERS by {
      if b :| b in blockers && b in DEPLOYMENT_CREDENTIAL_BLOCKERS {
        assert b in TextSet(blockers) * DEPLOYMENT_CREDENTIAL_BLOCKERS;
      }
    }
  }

  lemma OneBlocker(b: string)
    ensures Bearable(b) <==> Complete(b) && b !in DEPLOYMENT_CREDENTIAL_BLOCKERS && (RECOVERY_PREFIX <= b ==> b == RECOVERY_NOT_READY)
  {
    NotReadyIsComplete();
  }

  lemma NotReadyIsComplete()
    ensures "RECOVERY_" <= "RECOVERY_PREFLIGHT_REPORT_INVALID" && "RECOVERY_" <= "RECOVERY_PREFLIGHT_REPORT_REQUIRED"
    ensures RECOVERY_NOT_READY != "RECOVERY_PREFLIGHT_REPORT_INVALID" && RECOVERY_NOT_READY != "RECOVERY_PREFLIGHT_REPORT_REQUIRED"
  {
  }

  // ----- deployments -------------------------------------------------------------------

  /** The thirteen forward rows for these images. */
  predicate ForwardRows(actions: seq<string>, targets: seq<string>, images: seq<(string, string)>) {
    && |actions| == 13 && |images| == 5
    && actions[0] == PROVISION && actions[1] == STAGE && actions[2] == INSTALL && actions[3] == NETWORKS && actions[4] == FIREWALL
    && (forall k | 0 <= k < 5 ::
          && images[k].0 == SERVICES[k] && IsFingerprint(images[k].1)
          && "image-replacement:" + SERVICES[k] + ":" + images[k].1 in targets
          && actions[5 + k] == VerifyRow(VERIFY_NUMBERS[k], SERVICES[k], images[k].1))
    && actions[10] == EnableRow(images) && actions[11] == RECOLLECT_FORWARD && actions[12] == CONFIRM
  }

  /** A service's predecessor row: the image and state to restore, or an absence. */
  predicate RestoringRow(k: nat, row: string, p: Predecessor)
    requires k < 5
  {
    && p.service == SERVICES[4 - k]
    && (|| (p.imageId == None && p.runtimeState == None && row == AbsenceRow(FIRST_NUMBERS[k], SERVICES[4 - k]))
        || (p.imageId.Some? && p.runtimeState.Some? && IsFingerprint(p.imageId.value) && IsLowerWord(p.runtimeState.value)
            && row == RestoreRow(FIRST_NUMBERS[k], SERVICES[4 - k], p.runtimeState.value, p.imageId.value)))
  }

  /** The ten rollback rows for these predecessors, the services in reverse. */
  predicate BackwardRows(rows: seq<string>, predecessors: seq<Predecessor>) {
    && |rows| == 10 && |predecessors| == 5
    && (forall k | 0 <= k < 5 :: RestoringRow(k, rows[k], predecessors[4 - k]))
    && rows[5] == RESTORE_CONFIGURATION && rows[6] == RESTORE_NETWORKS && rows[7] == RESTORE_FIREWALL && rows[8] == RESTORE_UNITS
    && rows[9] == RECOLLECT_ROLLBACK
  }

  predicate DeploymentFile(file: PlanFile, images: seq<(string, string)>, predecessors: seq<Predecessor>) {
    var body := file.body;
    && Sealed(file)
    && (forall b | b in body.blockers :: Bearable(b))
    && body.buildResults.Some? && IsFingerprint(body.buildResults.value)
    && IsFingerprint(body.imageInputs)
    && body.credential.Some? && IsFingerprint(body.credential.value) && "credential-rotation-report:" + body.credential.value in body.targets
    && body.recovery.Some? && IsFingerprint(body.recovery.value)
    && ForwardRows(body.actions, body.targets, images)
    && body.rollbackState == "ORDERED_REVERSIBLE_PLAN" && BackwardRows(body.rollbackActions, predecessors)
  }

  lemma HeadIs(actions: seq<string>)
    requires |actions| >= 5
    ensures actions[..5] == FIXED.head
       <==> actions[0] == PROVISION && actions[1] == STAGE && actions[2] == INSTALL && actions[3] == NETWORKS && actions[4] == FIREWALL
  {
    hide Bar;
    var head := actions[..5];
    assert head[0] == actions[0] && head[1] == actions[1] && head[2] == actions[2] && head[3] == actions[3] && head[4] == actions[4];
  }

  lemma ForwardRowsAre(body: PlanBody, images: seq<(string, string)>)
    ensures ForwardRows(body.actions, body.targets, images) <==> ParseForwardRows(FIXED, body) == Success(images)
  {
    hide VerifyRow, IsFingerprint, EnableRow, Bar, ParseForwardRows;
    if ParseForwardRows(FIXED, body) == Success(images) {
      ForwardRowsHold(FIXED, body);
      HeadIs(body.actions);
    } else if ForwardRows(body.actions, body.targets, images) {
      ForwardRowsRead(body, images);
    }
  }

  lemma ForwardRowsHold(fixed: FixedRows, body: PlanBody)
    requires ParseForwardRows(fixed, body).Success?
    ensures var images := ParseForwardRows(fixed, body).value;
            && |body.actions| == 13 && |images| == 5 && body.actions[..5] == fixed.head
            && (forall k | 0 <= k < 5 ::
                  && images[k].0 == SERVICES[k] && IsFingerprint(images[k].1)
                  && ImageTarget(SERVICES[k], images[k].1) in body.targets
                  && body.actions[5 + k] == VerifyRow(VERIFY_NUMBERS[k], SERVICES[k], images[k].1))
            && body.actions[10] == EnableRow(images) && body.actions[11] == fixed.recollect && body.actions[12] == fixed.confirm
  {
    hide VerifyRow, IsFingerprint, EnableRow;
    assert forall k | 0 <= k < 5 :: body.actions[5..10][k] == body.actions[5 + k];
  }

  lemma VerifyRowsRead(rows: seq<string>, targets: seq<string>, images: seq<(string, string)>)
    requires |rows| == |images| == 5
    requires forall k | 0 <= k < 5 ::
               && images[k].0 == SERVICES[k] && IsFingerprint(images[k].1) && ImageTarget(SERVICES[k], images[k].1) in targets
               && rows[k] == VerifyRow(VERIFY_NUMBERS[k], SERVICES[k], images[k].1)
    ensures ParseVerifyRows(VERIFY_NUMBERS, SERVICES, rows, targets) == Some(images)
  {
    hide VerifyRow, IsFingerprint, VerifyWith, UnitName, ParseVerifyRows;
    var units := seq(5, k requires 0 <= k < 5 => UnitName(SERVICES[k]));
    forall k | 0 <= k < 5 ensures rows[k] == VerifyWith(VERIFY_NUMBERS[k], SERVICES[k], units[k], images[k].1) {
      VerifyRowIsWith(VERIFY_NUMBERS[k], SERVICES[k], images[k].1);
    }
    VerifyRowsAgree(VERIFY_NUMBERS, SERVICES, rows, targets, units, images);
  }

  lemma ForwardRowsRead(body: PlanBody, images: seq<(string, string)>)
    requires ForwardRows(body.actions, body.targets, images)
    ensures ParseForwardRows(FIXED, body) == Success(images)
  {
    hide VerifyRow, IsFingerprint, EnableRow, Bar, ParseVerifyRows;
    assert forall k | 0 <= k < 5 :: body.actions[5..10][k] == body.actions[5 + k];
    VerifyRowsRead(body.actions[5..10], body.targets, images);
    assert body.actions[..5] == FIXED.head;
  }

  function StandingBy(p: Predecessor): Standing {
    if p.imageId.Some? && p.runtimeState.Some? then Some((p.imageId.value, p.runtimeState.value)) else None
  }

  lemma RestoringRowIs(k: nat, row: string, p: Predecessor)
    requires k < 5
    ensures RestoringRow(k, row, p) <==> ParseRestore(FIRST_NUMBERS[k], SERVICES[4 - k], row) == Some(p)
  {
    hide IsFingerprint, IsLowerWord, RestoreRow, AbsenceRow;
    if RestoringRow(k, row, p) {
      StandingAgrees(FIRST_NUMBERS[k], SERVICES[4 - k], StandingBy(p));
    }
  }

  lemma {:induction false} RestoreRowsRead(numbers: seq<string>, services: seq<string>, rows: seq<string>, back: seq<Predecessor>)
    requires |numbers| == |services| == |rows|
    ensures ParseRestoreRows(numbers, services, rows) == Some(back)
       <==> |back| == |rows| && forall i | 0 <= i < |rows| :: ParseRestore(numbers[i], services[i], rows[i]) == Some(back[i])
  {
    hide ParseRestore;
    if rows != [] && back != [] {
      RestoreRowsRead(numbers[1..], services[1..], rows[1..], back[1..]);
      assert back == [back[0]] + back[1..];
      if |back| == |rows| && forall i | 0 <= i < |rows| :: ParseRestore(numbers[i], services[i], rows[i]) == Some(back[i]) {
        forall i | 0 <= i < |rows[1..]| ensures ParseRestore(numbers[1..][i], services[1..][i], rows[1..][i]) == Some(back[1..][i]) {
          assert rows[1..][i] == rows[i + 1];
        }
      }
    }
  }

  /** The rows of a rollback in the terms of its parser. */
  lemma RollbackRowsRead(fixed: FixedRows, body: PlanBody, predecessors: seq<Predecessor>)
    requires fixed.recollectBack != "" && forall row | row in fixed.restores :: row != ""
    ensures ParseRollbackRows(fixed, body) == Success(predecessors)
       <==> && body.rollbackState == "ORDERED_REVERSIBLE_PLAN" && |body.rollbackActions| == 10 && |predecessors| == 5
            && body.rollbackActions[5..9] == fixed.restores && body.rollbackActions[9] == fixed.recollectBack
            && ParseRestoreRows(FIRST_NUMBERS, Reversed(SERVICES), body.rollbackActions[..5]) == Some(ReversedPredecessors(predecessors))
  {
    hide ParseRestore, ParseRestoreRows;
    var rows := body.rollbackActions;
    if |rows| == 10 {
      var parsed := ParseRestoreRows(FIRST_NUMBERS, Reversed(SERVICES), rows[..5]);
      if parsed.Some? {
        assert ReversedPredecessors(ReversedPredecessors(parsed.value)) == parsed.value;
        assert ReversedPredecessors(ReversedPredecessors(predecessors)) == predecessors;
        if rows[5..9] == fixed.restores && rows[9] == fixed.recollectBack {
          RollbackRowsAreTexts(fixed, rows);
        }
      }
    }
  }

  lemma RollbackRowsAreTexts(fixed: FixedRows, rows: seq<string>)
    requires fixed.recollectBack != "" && forall row | row in fixed.restores :: row != ""
    requires |rows| == 10 && rows[5..9] == fixed.restores && rows[9] == fixed.recollectBack
    requires ParseRestoreRows(FIRST_NUMBERS, Reversed(SERVICES), rows[..5]).Some?
    ensures AllNonempty(rows)
  {
    hide ParseRestore, ParseRestoreRows;
    RestoredRowsAreTexts(rows[..5]);
    assert rows == rows[..5] + rows[5..9] + [rows[9]];
    forall x | x in rows ensures x != "" {
      assert x in rows[..5] || x in fixed.restores || x == rows[9];
    }
  }

  lemma RestoredRowsAreTexts(rows: seq<string>)
    requires |rows| == 5 && ParseRestoreRows(FIRST_NUMBERS, Reversed(SERVICES), rows).Some?
    ensures forall k | 0 <= k < 5 :: rows[k] != ""
  {
    hide ParseRestore, ParseRestoreRows;
    var parsed := ParseRestoreRows(FIRST_NUMBERS, Reversed(SERVICES), rows).value;
    forall k | 0 <= k < 5 ensures rows[k] != "" {
      assert Some(parsed[k]) == ParseRestore(FIRST_NUMBERS[k], Reversed(SERVICES)[k], rows[k]);
      RestoredRowIsText(FIRST_NUMBERS[k], Reversed(SERVICES)[k], rows[k]);
    }
  }

  lemma RestoredRowIsText(sequence: string, service: string, row: string)
    requires ParseRestore(sequence, service, row).Some? && sequence != ""
    ensures row != ""
  {
    var p := ParseRestore(sequence, service, row).value;
    if p.imageId.Some? {
      RestoreRowSplits(sequence, service, p.runtimeState.value, p.imageId.value);
    }
  }

  lemma FixedRowsAreTexts()
    ensures FIXED.recollectBack != "" && forall row | row in FIXED.restores :: row != ""
  {
  }

  lemma BackwardRowsAre(body: PlanBody, predecessors: seq<Predecessor>)
    ensures body.rollbackState == "ORDERED_REVERSIBLE_PLAN" && BackwardRows(body.rollbackActions, predecessors)
       <==> ParseRollbackRows(FIXED, body) == Success(predecessors)
  {
    hide ParseRestore, RestoringRow, ParseRestoreRows, ParseRollbackRows, Bar;
    FixedRowsAreTexts();
    RollbackRowsRead(FIXED, body, predecessors);
    if |body.rollbackActions| == 10 && |predecessors| == 5 {
      RestoringRowsAre(body.rollbackActions[..5], predecessors);
      RestoreTail(body.rollbackActions);
      assert forall k | 0 <= k < 5 :: body.rollbackActions[..5][k] == body.rollbackActions[k];
    }
  }

  lemma RestoreTail(rows: seq<string>)
    requires |rows| == 10
    ensures rows[5..9] == FIXED.restores
       <==> rows[5] == RESTORE_CONFIGURATION && rows[6] == RESTORE_NETWORKS && rows[7] == RESTORE_FIREWALL && rows[8] == RESTORE_UNITS
  {
    hide Bar;
    var tail := rows[5..9];
    assert tail[0] == rows[5] && tail[1] == rows[6] && tail[2] == rows[7] && tail[3] == rows[8];
  }

  lemma RestoringRowsAre(rows: seq<string>, predecessors: seq<Predecessor>)
    requires |rows| == |predecessors| == 5
    ensures (forall k | 0 <= k < 5 :: RestoringRow(k, rows[k], predecessors[4 - k]))
       <==> ParseRestoreRows(FIRST_NUMBERS, Reversed(SERVICES), rows) == Some(ReversedPredecessors(predecessors))
  {
    hide ParseRestore, RestoringRow, ParseRestoreRows;
    var back := ReversedPredecessors(predecessors);
    RestoreRowsRead(FIRST_NUMBERS, Reversed(SERVICES), rows, back);
    forall k | 0 <= k < 5
      ensures RestoringRow(k, rows[k], predecessors[4 - k])
         <==> ParseRestore(FIRST_NUMBERS[k], Reversed(SERVICES)[k], rows[k]) == Some(back[k])
    {
      RestoringRowIs(k, rows[k], predecessors[4 - k]);
      assert Reversed(SERVICES)[k] == SERVICES[4 - k] && back[k] == predecessors[4 - k];
    }
  }

  // ----- the files ---------------------------------------------------------------------

  lemma DeploymentIsRead(fixed: FixedRows, body: PlanBody, images: seq<(string, string)>, predecessors: seq<Predecessor>)
    requires body.buildResults.Some?
    ensures ParseDeployment(fixed, body, Sha256(body)).Success?
            && ParseForwardRows(fixed, body) == Success(images) && ParseRollbackRows(fixed, body) == Success(predecessors)
       <==> && body.credential.Some? && IsFingerprint(body.credential.value) && ReportTarget(body.credential.value) in body.targets
            && TextSet(body.blockers) * DEPLOYMENT_CREDENTIAL_BLOCKERS == {}
            && ParseForwardRows(fixed, body) == Success(images) && ParseRollbackRows(fixed, body) == Success(predecessors)
            && IsFingerprint(body.imageInputs) && body.recovery.Some? && IsFingerprint(body.recovery.value)
            && Admitted(RecoveryLimitations(body.blockers))
  {
    hide ParseForwardRows, ParseRollbackRows, RecoveryLimitations, Admitted, IsFingerprint, TextSet, ReportTarget;
  }

  /** A file that parses as a deployment is one written for its images and predecessors, and no other file is. */
  lemma DeploymentFileIs(file: PlanFile, images: seq<(string, string)>, predecessors: seq<Predecessor>)
    ensures DeploymentFile(file, images, predecessors)
       <==> && ParsePlan(file).Success? && file.body.buildResults.Some?
            && ParseForwardRows(FIXED, file.body) == Success(images) && ParseRollbackRows(FIXED, file.body) == Success(predecessors)
  {
    hide Sealed, Bearable, ForwardRows, BackwardRows, ParseForwardRows, ParseRollbackRows, IsFingerprint, ParseDeployment, ParseBuildPhase,
      AllNonempty, SortedSet, TextSet, RecoveryLimitations, Admitted, ReportTarget;
    var body := file.body;
    SealedIs(file);
    BearableIs(body.blockers);
    ForwardRowsAre(body, images);
    BackwardRowsAre(body, predecessors);
    if body.buildResults.Some? {
      DeploymentIsRead(FIXED, body, images, predecessors);
      ReportTargetIs(body);
    }
  }

  lemma ReportTargetIs(body: PlanBody)
    requires body.buildResults.Some?
    ensures body.credential.Some? ==> ReportTarget(body.credential.value) == "credential-rotation-report:" + body.credential.value
  {
  }

  /**
   Which deployment plan files are accepted, and what is bound: a file whose seal is its own body's digest, whose
   blockers can be borne, and whose every row is the one printed for these images and predecessors.
   */
  lemma AcceptedDeploymentFiles(size: PlanSize, file: PlanFile)
    ensures ReadPlan(size, file).Success? && file.body.buildResults.Some?
       <==> size(file) <= 5_000_000 && exists images, predecessors :: DeploymentFile(file, images, predecessors)
    ensures forall images, predecessors | size(file) <= 5_000_000 && DeploymentFile(file, images, predecessors) ::
              && ReadPlan(size, file).Success?
              && ReadPlan(size, file).value
                 == Deployment(Sha256(file.body), file.body.actions, file.body.targets, RECOLLECT_FORWARD,
                               "var/hk-v1/host/post-reconcile.json", file.body.rollbackActions, file.body.buildResults.value,
                               file.body.imageInputs, images, predecessors, RecoveryLimitations(file.body.blockers))
  {
    hide DeploymentFile, ParseForwardRows, ParseRollbackRows, ParsePlanWith, RecoveryLimitations, Bar;
    forall images, predecessors | DeploymentFile(file, images, predecessors)
      ensures ParsePlan(file).Success? && file.body.buildResults.Some?
              && ParsePlan(file).value
                 == Deployment(Sha256(file.body), file.body.actions, file.body.targets, RECOLLECT_FORWARD,
                               "var/hk-v1/host/post-reconcile.json", file.body.rollbackActions, file.body.buildResults.value,
                               file.body.imageInputs, images, predecessors, RecoveryLimitations(file.body.blockers))
    {
      DeploymentFileIs(file, images, predecessors);
      DeploymentIsBound(FIXED, file);
      RecollectsForward(file, images, predecessors);
    }
    if ParsePlan(file).Success? && file.body.buildResults.Some? {
      DeploymentIsBound(FIXED, file);
      DeploymentFileIs(file, ParseForwardRows(FIXED, file.body).value, ParseRollbackRows(FIXED, file.body).value);
    }
  }

  lemma RecollectsForward(file: PlanFile, images: seq<(string, string)>, predecessors: seq<Predecessor>)
    requires DeploymentFile(file, images, predecessors)
    ensures |file.body.actions| == 13 && file.body.actions[11] == RECOLLECT_FORWARD
  {
  }

  lemma DeploymentIsBound(fixed: FixedRows, file: PlanFile)
    requires ParsePlanWith(fixed, file).Success? && file.body.buildResults.Some?
    ensures ParseForwardRows(fixed, file.body).Success? && ParseRollbackRows(fixed, file.body).Success? && |file.body.actions| == 13
    ensures ParsePlanWith(fixed, file).value
         == Deployment(Sha256(file.body), file.body.actions, file.body.targets, file.body.actions[11],
                       "var/hk-v1/host/post-reconcile.json", file.body.rollbackActions, file.body.buildResults.value,
                       file.body.imageInputs, ParseForwardRows(fixed, file.body).value, ParseRollbackRows(fixed, file.body).value,
                       RecoveryLimitations(file.body.blockers))
  {
    hide ParseRollbackRows, RecoveryLimitations, Admitted, IsFingerprint, TextSet, ReportTarget, ParseVerifyRows, EnableRow;
  }

  // ----- build phases ------------------------------------------------------------------

  /** A service's preserve row: the image its container runs, or its absence. */
  predicate PreservingRow(k: nat, row: string, image: Option<string>)
    requires k < 5
  {
    || (image == None && row == PreserveServiceRow(FIRST_NUMBERS[k], SERVICES[4 - k]))
    || (image.Some? && IsFingerprint(image.value) && row == PreserveImageRow(FIRST_NUMBERS[k], SERVICES[4 - k], image.value))
  }

  predicate BuildFile(file: PlanFile, preserved: seq<Option<string>>) {
    var body := file.body;
    && Sealed(file)
    && (forall b | b in body.blockers :: Complete(b))
    && body.buildResults.None? && IsFingerprint(body.imageInputs)
    && |body.actions| == 6
    && (forall k | 0 <= k < 5 :: body.actions[k] == ImageRow(FIRST_NUMBERS[k], SERVICES[k], body.imageInputs))
    && body.actions[5] == RECOLLECT_BUILD
    && body.rollbackState == "CANDIDATE_IMAGES_NOT_ACTIVATED" && |body.rollbackActions| == |preserved| == 5
    && (forall k | 0 <= k < 5 :: PreservingRow(k, body.rollbackActions[k], preserved[k]))
  }

  /** The actions that the rows of such a file spell out. */
  predicate Spells(file: PlanFile, preserved: seq<Option<string>>, plan: HostPlan) {
    var body := file.body;
    && plan.BuildPhase? && |body.actions| == 6 && |body.rollbackActions| == |preserved| == 5
    && plan == BuildPhase(Sha256(body), body.actions, body.targets, plan.imageActions, RECOLLECT_BUILD,
                          "var/hk-v1/host/post-image-build.json", plan.preserveActions, body.imageInputs)
    && |plan.imageActions| == |plan.preserveActions| == 5
    && forall k | 0 <= k < 5 ::
         && plan.imageActions[k] == ImageAction(k + 1, SERVICES[k], "apps/" + SERVICES[k],
                                                "asklegal/" + SERVICES[k] + ":hk-v1-candidate", body.imageInputs, body.actions[k])
         && plan.preserveActions[k] == PreserveAction(k + 1, SERVICES[4 - k], preserved[k], body.rollbackActions[k])
  }

  predicate ImagesAt(numbers: seq<string>, services: seq<string>, rows: seq<string>, k: nat, images: seq<ImageAction>)
    requires |numbers| == |services| == |rows| == |images|
  {
    forall i | 0 <= i < |rows| :: ParseImage(numbers[i], k + i, services[i], rows[i]) == Some(images[i])
  }

  lemma ImagesAtSplit(numbers: seq<string>, services: seq<string>, rows: seq<string>, k: nat, images: seq<ImageAction>)
    requires |numbers| == |services| == |rows| == |images| > 0
    ensures ImagesAt(numbers, services, rows, k, images)
       <==> ParseImage(numbers[0], k, services[0], rows[0]) == Some(images[0]) && ImagesAt(numbers[1..], services[1..], rows[1..], k + 1, images[1..])
  {
    hide ParseImage;
    if ImagesAt(numbers, services, rows, k, images) {
      forall i | 0 <= i < |rows| - 1 ensures ParseImage(numbers[1..][i], k + 1 + i, services[1..][i], rows[1..][i]) == Some(images[1..][i]) {
        assert ParseImage(numbers[i + 1], k + (i + 1), services[i + 1], rows[i + 1]) == Some(images[i + 1]);
      }
    }
    if ParseImage(numbers[0], k, services[0], rows[0]) == Some(images[0]) && ImagesAt(numbers[1..], services[1..], rows[1..], k + 1, images[1..]) {
      forall i | 0 <= i < |rows| ensures ParseImage(numbers[i], k + i, services[i], rows[i]) == Some(images[i]) {
        if i > 0 {
          assert ParseImage(numbers[1..][i - 1], k + 1 + (i - 1), services[1..][i - 1], rows[1..][i - 1]) == Some(images[1..][i - 1]);
        }
      }
    }
  }

  lemma {:induction false} ImageRowsRead(numbers: seq<string>, services: seq<string>, rows: seq<string>, k: nat, images: seq<ImageAction>)
    requires |numbers| == |services| == |rows|
    ensures ParseImageRows(numbers, services, rows, k) == Some(images) <==> |images| == |rows| && ImagesAt(numbers, services, rows, k, images)
  {
    hide ParseImage, ImagesAt;
    if |images| == |rows| == 0 {
      NoneToImagesAt(numbers, services, rows, k, images);
    } else if rows != [] && images != [] {
      ImageRowsRead(numbers[1..], services[1..], rows[1..], k + 1, images[1..]);
      assert images == [images[0]] + images[1..];
      if |images| == |rows| {
        ImagesAtSplit(numbers, services, rows, k, images);
      }
    }
  }

  lemma NoneToImagesAt(numbers: seq<string>, services: seq<string>, rows: seq<string>, k: nat, images: seq<ImageAction>)
    requires |numbers| == |services| == |rows| == |images| == 0
    ensures ImagesAt(numbers, services, rows, k, images)
  {
  }

  predicate PreservesAt(numbers: seq<string>, services: seq<string>, rows: seq<string>, k: nat, preserves: seq<PreserveAction>)
    requires |numbers| == |services| == |rows| == |preserves|
  {
    forall i | 0 <= i < |rows| :: ParsePreserve(numbers[i], k + i, services[i], rows[i]) == Some(preserves[i])
  }

  lemma PreservesAtSplit(numbers: seq<string>, services: seq<string>, rows: seq<string>, k: nat, preserves: seq<PreserveAction>)
    requires |numbers| == |services| == |rows| == |preserves| > 0
    ensures PreservesAt(numbers, services, rows, k, preserves)
       <==> ParsePreserve(numbers[0], k, services[0], rows[0]) == Some(preserves[0]) && PreservesAt(numbers[1..], services[1..], rows[1..], k + 1, preserves[1..])
  {
    hide ParsePreserve;
    if PreservesAt(numbers, services, rows, k, preserves) {
      forall i | 0 <= i < |rows| - 1 ensures ParsePreserve(numbers[1..][i], k + 1 + i, services[1..][i], rows[1..][i]) == Some(preserves[1..][i]) {
        assert ParsePreserve(numbers[i + 1], k + (i + 1), services[i + 1], rows[i + 1]) == Some(preserves[i + 1]);
      }
    }
    if ParsePreserve(numbers[0], k, services[0], rows[0]) == Some(preserves[0]) && PreservesAt(numbers[1..], services[1..], rows[1..], k + 1, preserves[1..]) {
      forall i | 0 <= i < |rows| ensures ParsePreserve(numbers[i], k + i, services[i], rows[i]) == Some(preserves[i]) {
        if i > 0 {
          assert ParsePreserve(numbers[1..][i - 1], k + 1 + (i - 1), services[1..][i - 1], rows[1..][i - 1]) == Some(preserves[1..][i - 1]);
        }
      }
    }
  }

  lemma {:induction false} PreserveRowsRead(numbers: seq<string>, services: seq<string>, rows: seq<string>, k: nat, preserves: seq<PreserveAction>)
    requires |numbers| == |services| == |rows|
    ensures ParsePreserveRows(numbers, services, rows, k) == Some(preserves) <==> |preserves| == |rows| && PreservesAt(numbers, services, rows, k, preserves)
  {
    hide ParsePreserve, PreservesAt;
    if |preserves| == |rows| == 0 {
      NoneToPreservesAt(numbers, services, rows, k, preserves);
    } else if rows != [] && preserves != [] {
      PreserveRowsRead(numbers[1..], services[1..], rows[1..], k + 1, preserves[1..]);
      assert preserves == [preserves[0]] + preserves[1..];
      if |preserves| == |rows| {
        PreservesAtSplit(numbers, services, rows, k, preserves);
      }
    }
  }

  lemma NoneToPreservesAt(numbers: seq<string>, services: seq<string>, rows: seq<string>, k: nat, preserves: seq<PreserveAction>)
    requires |numbers| == |services| == |rows| == |preserves| == 0
    ensures PreservesAt(numbers, services, rows, k, preserves)
  {
  }

  function ImageBy(k: nat, inputs: string, row: string): ImageAction
    requires k < 5
  {
    ImageAction(k + 1, SERVICES[k], "apps/" + SERVICES[k], "asklegal/" + SERVICES[k] + ":hk-v1-candidate", inputs, row)
  }

  lemma ImageRowIs(k: nat, inputs: string, row: string)
    requires k < 5
    ensures ParseImage(FIRST_NUMBERS[k], 1 + k, SERVICES[k], row) == Some(ImageBy(k, inputs, row))
       <==> IsFingerprint(inputs) && row == ImageRow(FIRST_NUMBERS[k], SERVICES[k], inputs)
    ensures forall a | ParseImage(FIRST_NUMBERS[k], 1 + k, SERVICES[k], row) == Some(a) :: a == ImageBy(k, a.inputs, row)
  {
    hide IsFingerprint, ImageRow, ImageFields;
    if IsFingerprint(inputs) && row == ImageRow(FIRST_NUMBERS[k], SERVICES[k], inputs) {
      NumbersHaveNoBar(k);
      ImageRowIsWith(FIRST_NUMBERS[k], SERVICES[k], inputs);
      ImageAgrees(FIRST_NUMBERS[k], 1 + k, SERVICES[k], SERVICES[k], "apps/" + SERVICES[k], inputs);
    }
  }

  function PreserveBy(k: nat, image: Option<string>, row: string): PreserveAction
    requires k < 5
  {
    PreserveAction(k + 1, SERVICES[4 - k], image, row)
  }

  lemma PreservingRowIs(k: nat, image: Option<string>, row: string)
    requires k < 5
    ensures ParsePreserve(FIRST_NUMBERS[k], 1 + k, SERVICES[4 - k], row) == Some(PreserveBy(k, image, row)) <==> PreservingRow(k, row, image)
    ensures forall a | ParsePreserve(FIRST_NUMBERS[k], 1 + k, SERVICES[4 - k], row) == Some(a) :: a == PreserveBy(k, a.imageId, row)
  {
    hide IsFingerprint, PreserveImageRow, PreserveServiceRow;
    if PreservingRow(k, row, image) {
      PreserveAgrees(FIRST_NUMBERS[k], 1 + k, SERVICES[4 - k], image);
    }
  }

  /** The parts of a build phase in the terms of its parser. */
  lemma BuildPartsAre(fixed: FixedRows, body: PlanBody, plan: HostPlan)
    requires fixed.recollectBuild == RECOLLECT_BUILD
    ensures ParseBuildPhase(fixed, body, Sha256(body)) == Success(plan)
       <==> && |body.actions| == 6 && |body.rollbackActions| == 5 && plan.BuildPhase?
            && ParseImageRows(FIRST_NUMBERS, SERVICES, body.actions[..5], 1) == Some(plan.imageActions)
            && ParsePreserveRows(FIRST_NUMBERS, Reversed(SERVICES), body.rollbackActions, 1) == Some(plan.preserveActions)
            && IsFingerprint(body.imageInputs) && (forall a | a in plan.imageActions :: a.inputs == body.imageInputs)
            && body.actions[5] == RECOLLECT_BUILD
            && AllNonempty(body.rollbackActions) && body.rollbackState == "CANDIDATE_IMAGES_NOT_ACTIVATED"
            && plan == BuildPhase(Sha256(body), body.actions, body.targets, plan.imageActions, RECOLLECT_BUILD,
                                  "var/hk-v1/host/post-image-build.json", plan.preserveActions, body.imageInputs)
  {
    hide ParseImageRows, ParsePreserveRows, IsFingerprint, Bar;
  }

  lemma PreservingRowIsText(k: nat, row: string, image: Option<string>)
    requires k < 5 && PreservingRow(k, row, image)
    ensures row != ""
  {
    if image.Some? {
      PreserveImageRowEnds(FIRST_NUMBERS[k], SERVICES[4 - k], image.value);
    }
  }

  /** A build phase whose rows are those of these images parses as what they spell. */
  lemma BuildRowsRead(body: PlanBody, preserved: seq<Option<string>>)
    requires IsFingerprint(body.imageInputs) && |body.actions| == 6 && |body.rollbackActions| == |preserved| == 5
    requires forall k | 0 <= k < 5 :: body.actions[k] == ImageRow(FIRST_NUMBERS[k], SERVICES[k], body.imageInputs)
    requires forall k | 0 <= k < 5 :: PreservingRow(k, body.rollbackActions[k], preserved[k])
    ensures ParseImageRows(FIRST_NUMBERS, SERVICES, body.actions[..5], 1)
         == Some(seq(5, k requires 0 <= k < 5 => ImageBy(k, body.imageInputs, body.actions[k])))
    ensures ParsePreserveRows(FIRST_NUMBERS, Reversed(SERVICES), body.rollbackActions, 1)
         == Some(seq(5, k requires 0 <= k < 5 => PreserveBy(k, preserved[k], body.rollbackActions[k])))
    ensures AllNonempty(body.rollbackActions)
  {
    hide ParseImage, ParsePreserve, PreservingRow, ImageRow, IsFingerprint, ImageBy, PreserveBy, ParseImageRows, ParsePreserveRows;
    forall k | 0 <= k < 5
      ensures ParseImage(FIRST_NUMBERS[k], 1 + k, SERVICES[k], body.actions[..5][k]) == Some(ImageBy(k, body.imageInputs, body.actions[k]))
      ensures ParsePreserve(FIRST_NUMBERS[k], 1 + k, Reversed(SERVICES)[k], body.rollbackActions[k])
           == Some(PreserveBy(k, preserved[k], body.rollbackActions[k]))
      ensures body.rollbackActions[k] != ""
    {
      assert body.actions[..5][k] == body.actions[k] && Reversed(SERVICES)[k] == SERVICES[4 - k];
      ImageRowIs(k, body.imageInputs, body.actions[k]);
      PreservingRowIs(k, preserved[k], body.rollbackActions[k]);
      PreservingRowIsText(k, body.rollbackActions[k], preserved[k]);
    }
    ImageRowsRead(FIRST_NUMBERS, SERVICES, body.actions[..5], 1, seq(5, k requires 0 <= k < 5 => ImageBy(k, body.imageInputs, body.actions[k])));
    PreserveRowsRead(FIRST_NUMBERS, Reversed(SERVICES), body.rollbackActions, 1,
                     seq(5, k requires 0 <= k < 5 => PreserveBy(k, preserved[k], body.rollbackActions[k])));
  }

  /** And whatever parses as a build phase has such rows. */
  lemma BuildRowsHold(body: PlanBody, images: seq<ImageAction>, preserves: seq<PreserveAction>)
    requires |body.actions| == 6 && |body.rollbackActions| == 5
    requires ParseImageRows(FIRST_NUMBERS, SERVICES, body.actions[..5], 1) == Some(images)
    requires ParsePreserveRows(FIRST_NUMBERS, Reversed(SERVICES), body.rollbackActions, 1) == Some(preserves)
    requires forall a | a in images :: a.inputs == body.imageInputs
    ensures |images| == |preserves| == 5
    ensures forall k | 0 <= k < 5 :: body.actions[k] == ImageRow(FIRST_NUMBERS[k], SERVICES[k], body.imageInputs)
    ensures forall k | 0 <= k < 5 :: PreservingRow(k, body.rollbackActions[k], preserves[k].imageId)
  {
    hide ParseImage, ParsePreserve, PreservingRow, ImageRow, IsFingerprint, ParseImageRows, ParsePreserveRows;
    ImageRowsRead(FIRST_NUMBERS, SERVICES, body.actions[..5], 1, images);
    PreserveRowsRead(FIRST_NUMBERS, Reversed(SERVICES), body.rollbackActions, 1, preserves);
    forall k | 0 <= k < 5
      ensures body.actions[k] == ImageRow(FIRST_NUMBERS[k], SERVICES[k], body.imageInputs)
      ensures PreservingRow(k, body.rollbackActions[k], preserves[k].imageId)
    {
      assert body.actions[..5][k] == body.actions[k] && Reversed(SERVICES)[k] == SERVICES[4 - k];
      assert images[k] in images;
      ImageRowIs(k, body.imageInputs, body.actions[k]);
      PreservingRowIs(k, preserves[k].imageId, body.rollbackActions[k]);
    }
  }

  lemma BuildFileReads(file: PlanFile, preserved: seq<Option<string>>)
    requires BuildFile(file, preserved)
    ensures ParsePlan(file).Success? && Spells(file, preserved, ParsePlan(file).value)
  {
    hide Sealed, Complete, PreservingRow, ImageRow, IsFingerprint, ParseBuildPhase, ParseDeployment, AllNonempty, SortedSet, TextSet, Bar,
      ParseImageRows, ParsePreserveRows;
    var body := file.body;
    SealedIs(file);
    CompleteIs(body.blockers);
    BuildRowsRead(body, preserved);
    var plan := BuildPhase(Sha256(body), body.actions, body.targets,
                           seq(5, k requires 0 <= k < 5 => ImageBy(k, body.imageInputs, body.actions[k])), RECOLLECT_BUILD,
                           "var/hk-v1/host/post-image-build.json",
                           seq(5, k requires 0 <= k < 5 => PreserveBy(k, preserved[k], body.rollbackActions[k])), body.imageInputs);
    BuildPartsAre(FIXED, body, plan);
  }

  lemma BuildFileHolds(file: PlanFile)
    requires ParsePlan(file).Success? && file.body.buildResults.None?
    ensures exists preserved :: BuildFile(file, preserved)
  {
    hide Sealed, Complete, PreservingRow, ImageRow, IsFingerprint, ParseBuildPhase, AllNonempty, SortedSet, TextSet, Bar,
      ParseImageRows, ParsePreserveRows;
    var body, plan := file.body, ParsePlan(file).value;
    SealedIs(file);
    CompleteIs(body.blockers);
    BuildPartsAre(FIXED, body, plan);
    BuildRowsHold(body, plan.imageActions, plan.preserveActions);
    assert BuildFile(file, seq(5, k requires 0 <= k < 5 => plan.preserveActions[k].imageId));
  }

  /**
   Which build plan files are accepted, and what is bound: a sealed file over a complete inventory whose every row is
   the one printed for its image inputs and the images it preserves.
   */
  lemma AcceptedBuildFiles(size: PlanSize, file: PlanFile)
    ensures ReadPlan(size, file).Success? && file.body.buildResults.None?
       <==> size(file) <= 5_000_000 && exists preserved :: BuildFile(file, preserved)
    ensures forall preserved | size(file) <= 5_000_000 && BuildFile(file, preserved) ::
              ReadPlan(size, file).Success? && Spells(file, preserved, ReadPlan(size, file).value)
  {
    hide BuildFile, ParsePlan, Spells;
    forall preserved | BuildFile(file, preserved)
      ensures ParsePlan(file).Success? && Spells(file, preserved, ParsePlan(file).value) && file.body.buildResults.None?
    {
      BuildFileReads(file, preserved);
      BuildFileHasNoResults(file, preserved);
    }
    if ParsePlan(file).Success? && file.body.buildResults.None? {
      BuildFileHolds(file);
    }
  }

  lemma BuildFileHasNoResults(file: PlanFile, preserved: seq<Option<string>>)
    requires BuildFile(file, preserved)
    ensures file.body.buildResults.None?
  {
  }
}
