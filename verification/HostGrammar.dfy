/**
 The executor's reading of a plan file: strict row grammars and cross-bindings
 (tools/hk_v1_host_apply.py:325-577).
 */
module HostGrammar {
  import opened Wrappers
  import opened Text
  import opened Ordering
  import opened HostPlan

  datatype PlanError = PlanInvalid | NotActionable | ActionSetUnsupported | ActionInvalid | RollbackInvalid

  const INCOMPLETE_BLOCKERS: set<string> := {
    "ACTIONABLE_HOST_INVENTORY_UNAVAILABLE", "HOST_FACTS_INCOMPLETE",
    "RECOVERY_PREFLIGHT_REPORT_INVALID", "RECOVERY_PREFLIGHT_REPORT_REQUIRED"}

  const DEPLOYMENT_CREDENTIAL_BLOCKERS: set<string> := {
    CREDENTIAL_AUTHORITY_REQUIRED, "CREDENTIAL_ROTATION_PLAN_INVALID",
    "CREDENTIAL_ROTATION_PLAN_REQUIRED", "CREDENTIAL_ROTATION_REPORT_INVALID",
    "CREDENTIAL_ROTATION_REPORT_REQUIRED"}

  const RECOVERY_PREFIX := "RECOVERY_"
  const RECOVERY_NOT_READY := "RECOVERY_PREFLIGHT_NOT_READY"

  // ----- row grammars ------------------------------------------------------------------

  function VerifyFront(sequence: string, service: string): seq<string> {
    [sequence, "VERIFY_DIGEST_PINNED_CANDIDATE", "service=" + service, "unit=asklegal-" + service + ".service",
     "candidate_tag=asklegal/" + service + ":hk-v1-candidate"]
  }

  function VerifyRow(sequence: string, service: string, imageId: string): string {
    Bar(VerifyFront(sequence, service) + ["image_id=" + imageId])
  }

  /** The image identity that a verify row pins, if the row is exactly one for this place and service. */
  function ParseVerify(sequence: string, service: string, raw: string): (r: Option<string>)
    ensures r.Some? ==> IsFingerprint(r.value) && raw == VerifyRow(sequence, service, r.value)
    ensures r.None? ==> forall id | IsFingerprint(id) :: raw != VerifyRow(sequence, service, id)
  {
    var prefix := VerifyRow(sequence, service, "");
    assert forall id :: VerifyRow(sequence, service, id) == prefix + id by {
      forall id ensures VerifyRow(sequence, service, id) == prefix + id {
        VerifyRowEnds(sequence, service, id);
      }
    }
    if prefix <= raw && IsFingerprint(raw[|prefix|..]) then Some(raw[|prefix|..]) else None
  }

  lemma VerifyRowEnds(sequence: string, service: string, id: string)
    ensures VerifyRow(sequence, service, id) == VerifyRow(sequence, service, "") + id
  {
    BarLast(VerifyFront(sequence, service), "image_id=", id);
    BarLast(VerifyFront(sequence, service), "image_id=", "");
  }

  function AbsenceRow(sequence: string, service: string): string {
    Bar([sequence, "RESTORE_PREDECESSOR_SERVICE_ABSENCE", "service=" + service])
  }

  function RestoreFront(sequence: string, service: string): seq<string> {
    [sequence, "RESTORE_PREDECESSOR_SERVICE_IMAGE", "service=" + service]
  }

  function RestoreRow(sequence: string, service: string, runtimeState: string, imageId: string): string {
    Bar(RestoreFront(sequence, service) + ["runtime_state=" + runtimeState] + ["image_id=" + imageId])
  }

  function RestorePrefix(sequence: string, service: string): string {
    Bar(RestoreFront(sequence, service) + ["runtime_state="])
  }

  lemma RestoreRowSplits(sequence: string, service: string, runtimeState: string, imageId: string)
    ensures RestoreRow(sequence, service, runtimeState, imageId)
         == RestorePrefix(sequence, service) + runtimeState + "|image_id=" + imageId
  {
    var front := RestoreFront(sequence, service);
    BarLast(front + ["runtime_state=" + runtimeState], "image_id=", imageId);
    BarTwo(front, "runtime_state=" + runtimeState, "image_id=");
    BarLast(front, "runtime_state=", runtimeState);
  }

  lemma {:induction false} BarTwo(front: seq<string>, last: string, more: string)
    ensures Bar(front + [last] + [more]) == Bar(front + [last]) + "|" + more
  {
    if front == [] {
      assert front + [last] + [more] == [last, more] && front + [last] == [last];
    } else {
      BarTwo(front[1..], last, more);
      assert (front + [last] + [more])[1..] == front[1..] + [last] + [more];
      assert (front + [last])[1..] == front[1..] + [last];
    }
  }

  /** What a rollback row restores: an image in a runtime state, or an absence. */
  function ParseRestore(sequence: string, service: string, raw: string): (r: Option<Predecessor>)
    ensures r.Some? ==> r.value.service == service
    ensures r.Some? && r.value.imageId.Some? ==>
              && r.value.runtimeState.Some? && IsFingerprint(r.value.imageId.value) && IsLowerWord(r.value.runtimeState.value)
              && raw == RestoreRow(sequence, service, r.value.runtimeState.value, r.value.imageId.value)
    ensures r.Some? && r.value.imageId.None? ==> r.value.runtimeState.None? && raw == AbsenceRow(sequence, service)
  {
    var prefix := RestorePrefix(sequence, service);
    var rest := if prefix <= raw then raw[|prefix|..] else "";
    if |rest| >= 81 && IsLowerWord(rest[..|rest| - 81]) && rest[|rest| - 81..|rest| - 71] == "|image_id="
       && IsFingerprint(rest[|rest| - 71..]) then
      RestoreRowSplits(sequence, service, rest[..|rest| - 81], rest[|rest| - 71..]);
      assert rest == rest[..|rest| - 81] + rest[|rest| - 81..|rest| - 71] + rest[|rest| - 71..];
      Some(Predecessor(service, Some(rest[|rest| - 71..]), Some(rest[..|rest| - 81])))
    else if raw == AbsenceRow(sequence, service) then Some(Predecessor(service, None, None))
    else None
  }

  lemma ParseRestoreReadsImage(sequence: string, service: string, runtimeState: string, imageId: string)
    requires IsLowerWord(runtimeState) && IsFingerprint(imageId)
    ensures ParseRestore(sequence, service, RestoreRow(sequence, service, runtimeState, imageId))
         == Some(Predecessor(service, Some(imageId), Some(runtimeState)))
  {
    RestoreRowSplits(sequence, service, runtimeState, imageId);
    var raw := RestoreRow(sequence, service, runtimeState, imageId);
    var prefix := RestorePrefix(sequence, service);
    var rest := raw[|prefix|..];
    assert rest == runtimeState + "|image_id=" + imageId;
    assert rest[..|rest| - 81] == runtimeState;
    assert rest[|rest| - 81..|rest| - 71] == "|image_id=";
    assert rest[|rest| - 71..] == imageId;
  }

  function ImageFront(sequence: string, service: string): seq<string> {
    [sequence, "BUILD_APPLICATION_IMAGE", "service=" + service, "context=apps/" + service,
     "tag=asklegal/" + service + ":hk-v1-candidate"]
  }

  function ImageRow(sequence: string, service: string, inputs: string): string {
    Bar(ImageFront(sequence, service) + ["inputs=" + inputs])
  }

  function ParseImage(sequence: string, k: nat, service: string, raw: string): (r: Option<ImageAction>)
    ensures r.Some? ==> IsFingerprint(r.value.inputs) && raw == ImageRow(sequence, service, r.value.inputs)
    ensures r.Some? ==> r.value.sequence == k && r.value.service == service && r.value.raw == raw
  {
    var prefix := ImageRow(sequence, service, "");
    if prefix <= raw && IsFingerprint(raw[|prefix|..]) then
      ImageRowEnds(sequence, service, raw[|prefix|..]);
      Some(ImageAction(k, service, "apps/" + service, "asklegal/" + service + ":hk-v1-candidate", raw[|prefix|..], raw))
    else None
  }

  lemma ImageRowEnds(sequence: string, service: string, inputs: string)
    ensures ImageRow(sequence, service, inputs) == ImageRow(sequence, service, "") + inputs
  {
    BarLast(ImageFront(sequence, service), "inputs=", inputs);
    BarLast(ImageFront(sequence, service), "inputs=", "");
  }

  function PreserveFront(sequence: string, service: string): seq<string> {
    [sequence, "PRESERVE_RUNNING_IMAGE", "service=" + service]
  }

  function PreserveImageRow(sequence: string, service: string, imageId: string): string {
    Bar(PreserveFront(sequence, service) + ["image_id=" + imageId])
  }

  function PreserveServiceRow(sequence: string, service: string): string {
    Bar([sequence, "PRESERVE_RUNNING_SERVICE", "service=" + service, "state=ABSENT_IN_RETAINED_INVENTORY"])
  }

  lemma PreserveImageRowEnds(sequence: string, service: string, imageId: string)
    ensures PreserveImageRow(sequence, service, imageId) == PreserveImageRow(sequence, service, "") + imageId
  {
    BarLast(PreserveFront(sequence, service), "image_id=", imageId);
    BarLast(PreserveFront(sequence, service), "image_id=", "");
  }

  function ParsePreserve(sequence: string, k: nat, service: string, raw: string): (r: Option<PreserveAction>)
    ensures r.Some? ==>
              && r.value.raw == raw && r.value.sequence == k && r.value.service == service
              && raw == if r.value.imageId.Some? then PreserveImageRow(sequence, service, r.value.imageId.value)
                        else PreserveServiceRow(sequence, service)
  {
    var prefix := PreserveImageRow(sequence, service, "");
    if prefix <= raw && IsFingerprint(raw[|prefix|..]) then
      PreserveImageRowEnds(sequence, service, raw[|prefix|..]);
      Some(PreserveAction(k, service, Some(raw[|prefix|..]), raw))
    else if raw == PreserveServiceRow(sequence, service) then Some(PreserveAction(k, service, None, raw))
    else None
  }

  // ----- fixed rows --------------------------------------------------------------------

  /** The rows whose every character is fixed. */
  datatype FixedRows = FixedRows(
    head: seq<string>, recollect: string, confirm: string,
    restores: seq<string>, recollectBack: string, recollectBuild: string)

  const PROVISION := Bar(["001", "PROVISION_RUNTIME_PATHS", "source=" + POC + "provisioning/30-identities.sh"])
  const STAGE := Bar(["002", "STAGE_RUNTIME_CONFIGURATION", "unit_source=" + POC + "units",
                      "config_destination=/etc/asklegal", "helper_source=" + POC + "libexec",
                      "helper_destination=/usr/local/libexec",
                      MIGRATION_SOURCE,
                      MIGRATION_DESTINATION])
  const INSTALL := Bar(["003", "INSTALL_SYSTEMD_UNITS", "source=" + POC + "units", "destination=/etc/systemd/system"])
  const NETWORKS := Bar(["004", "RECONCILE_NETWORKS", "unit=asklegal-networks.service",
                         "source=" + POC + "systemd_unit_inputs.json"])
  const FIREWALL := Bar(["005", "APPLY_HOST_FIREWALL", "source=" + POC + "provisioning/60-firewall.sh",
                         "deadman_seconds=900"])
  const RECOLLECT_FORWARD := Bar(["012", "RECOLLECT_HOST_FACTS", "output=var/hk-v1/host/post-reconcile.json",
                                  "required=all-11-fact-classes"])
  const CONFIRM := Bar(["013", "CONFIRM_HOST_FIREWALL", "source=post-reconcile-host-facts",
                        "marker=/run/asklegal-firewall-confirmed"])
  const RESTORE_CONFIGURATION := Bar(["006", "RESTORE_RUNTIME_CONFIGURATION", "source=state-owned-predecessor-snapshot"])
  const RESTORE_NETWORKS := Bar(["007", "RESTORE_NETWORK_SET", "source=retained-host-facts"])
  const RESTORE_FIREWALL := Bar(["008", "RESTORE_HOST_FIREWALL", "source=state-owned-predecessor-snapshot"])
  const RESTORE_UNITS := Bar(["009", "RESTORE_SYSTEMD_UNIT_BYTES", "source=state-owned-predecessor-snapshot"])
  const RECOLLECT_ROLLBACK := Bar(["010", "RECOLLECT_HOST_FACTS", "output=var/hk-v1/host/post-rollback.json",
                                   "required=all-11-fact-classes"])
  const RECOLLECT_BUILD := Bar(["006", "RECOLLECT_HOST_FACTS", "output=var/hk-v1/host/post-image-build.json",
                                "required=immutable-image-digests"])

  const FIXED := FixedRows(
    [PROVISION, STAGE, INSTALL, NETWORKS, FIREWALL], RECOLLECT_FORWARD, CONFIRM,
    [RESTORE_CONFIGURATION, RESTORE_NETWORKS, RESTORE_FIREWALL, RESTORE_UNITS], RECOLLECT_ROLLBACK, RECOLLECT_BUILD)

  const VERIFY_NUMBERS: seq<string> := ["006", "007", "008", "009", "010"]
  const FIRST_NUMBERS: seq<string> := ["001", "002", "003", "004", "005"]

  function Reversed(services: seq<string>): seq<string> {
    seq(|services|, i requires 0 <= i < |services| => services[|services| - 1 - i])
  }

  /** `",".join(f"{service}@{image_id}" ...)` */
  function Bindings(images: seq<(string, string)>): string {
    if images == [] then ""
    else images[0].0 + "@" + images[0].1 + (if |images| == 1 then "" else "," + Bindings(images[1..]))
  }

  function EnableRow(images: seq<(string, string)>): string {
    Bar(["011", "ENABLE_START_TARGET_AND_TIMERS", "target=asklegal.target",
         "source=" + POC + "systemd_unit_inputs.json", "bindings=" + Bindings(images)])
  }

  function ImageTarget(service: string, imageId: string): string {
    "image-replacement:" + service + ":" + imageId
  }

  function ReportTarget(fingerprint: string): string {
    "credential-rotation-report:" + fingerprint
  }

  // ----- the parser --------------------------------------------------------------------

  predicate AllNonempty(s: seq<string>) {
    forall x | x in s :: x != ""
  }

  /** The verify rows of a deployment plan, one a service, each bound to a replacement target. */
  function ParseVerifyRows(numbers: seq<string>, services: seq<string>, rows: seq<string>, targets: seq<string>)
    : (r: Option<seq<(string, string)>>)
    requires |numbers| == |services| == |rows|
    ensures r.Some? ==> |r.value| == |rows|
    ensures r.Some? ==> forall i | 0 <= i < |rows| ::
                          && r.value[i].0 == services[i] && IsFingerprint(r.value[i].1)
                          && rows[i] == VerifyRow(numbers[i], services[i], r.value[i].1)
                          && ImageTarget(services[i], r.value[i].1) in targets
  {
    if rows == [] then Some([])
    else
      var id := ParseVerify(numbers[0], services[0], rows[0]);
      if id.None? || ImageTarget(services[0], id.value) !in targets then None
      else
        var rest := ParseVerifyRows(numbers[1..], services[1..], rows[1..], targets);
        if rest.None? then None else Some([(services[0], id.value)] + rest.value)
  }

  /** The rollback rows that restore the services, in the order given. */
  function ParseRestoreRows(numbers: seq<string>, services: seq<string>, rows: seq<string>): (r: Option<seq<Predecessor>>)
    requires |numbers| == |services| == |rows|
    ensures r.Some? ==> |r.value| == |rows|
    ensures r.Some? ==> forall i | 0 <= i < |rows| :: Some(r.value[i]) == ParseRestore(numbers[i], services[i], rows[i])
  {
    if rows == [] then Some([])
    else
      var first := ParseRestore(numbers[0], services[0], rows[0]);
      var rest := ParseRestoreRows(numbers[1..], services[1..], rows[1..]);
      if first.None? || rest.None? then None else Some([first.value] + rest.value)
  }

  function ReversedPredecessors(ps: seq<Predecessor>): seq<Predecessor> {
    seq(|ps|, i requires 0 <= i < |ps| => ps[|ps| - 1 - i])
  }

  predicate OfRecovery(blocker: string) {
    RECOVERY_PREFIX <= blocker
  }

  function RecoveryLimitations(blockers: seq<string>): seq<string> {
    if blockers == [] then []
    else (if OfRecovery(blockers[0]) then [blockers[0]] else []) + RecoveryLimitations(blockers[1..])
  }

  predicate Admitted(limitations: seq<string>) {
    forall b | b in limitations :: b == RECOVERY_NOT_READY
  }

  /** The thirteen forward rows: the image bindings they pin. */
  function ParseForwardRows(fixed: FixedRows, body: PlanBody): Result<seq<(string, string)>, PlanError> {
    if |body.actions| != 13 then Failure(ActionSetUnsupported)
    else if body.actions[..5] != fixed.head then Failure(ActionInvalid)
    else
      var images := ParseVerifyRows(VERIFY_NUMBERS, SERVICES, body.actions[5..10], body.targets);
      if images.None? then Failure(ActionInvalid)
      else if body.actions[10] != EnableRow(images.value) || body.actions[11] != fixed.recollect
              || body.actions[12] != fixed.confirm then Failure(ActionInvalid)
      else Success(images.value)
  }

  /** The ten rollback rows: the predecessors they restore, in service order. */
  function ParseRollbackRows(fixed: FixedRows, body: PlanBody): Result<seq<Predecessor>, PlanError> {
    if !AllNonempty(body.rollbackActions) || body.rollbackState != "ORDERED_REVERSIBLE_PLAN"
       || |body.rollbackActions| != 10 then Failure(RollbackInvalid)
    else if body.rollbackActions[5..9] != fixed.restores || body.rollbackActions[9] != fixed.recollectBack then Failure(RollbackInvalid)
    else
      var predecessors := ParseRestoreRows(FIRST_NUMBERS, Reversed(SERVICES), body.rollbackActions[..5]);
      if predecessors.None? then Failure(RollbackInvalid) else Success(ReversedPredecessors(predecessors.value))
  }

  /** `_parse_deployment_plan` */
  function ParseDeployment(fixed: FixedRows, body: PlanBody, seal: PlanDigest): Result<HostPlan, PlanError>
    requires body.buildResults.Some?
  {
    if body.credential.None? || !IsFingerprint(body.credential.value)
       || ReportTarget(body.credential.value) !in body.targets
       || TextSet(body.blockers) * DEPLOYMENT_CREDENTIAL_BLOCKERS != {} then Failure(NotActionable)
    else
      var images :- ParseForwardRows(fixed, body);
      var predecessors :- ParseRollbackRows(fixed, body);
      if !IsFingerprint(body.imageInputs) then Failure(PlanInvalid)
      else if body.recovery.None? || !IsFingerprint(body.recovery.value) then Failure(PlanInvalid)
      else if !Admitted(RecoveryLimitations(body.blockers)) then Failure(NotActionable)
      else
        Success(Deployment(
                  seal, body.actions, body.targets, body.actions[11], "var/hk-v1/host/post-reconcile.json",
                  body.rollbackActions, body.buildResults.value, body.imageInputs, images,
                  predecessors, RecoveryLimitations(body.blockers)))
  }

  function ParseImageRows(numbers: seq<string>, services: seq<string>, rows: seq<string>, k: nat): (r: Option<seq<ImageAction>>)
    requires |numbers| == |services| == |rows|
    ensures r.Some? ==> |r.value| == |rows|
    ensures r.Some? ==> forall i | 0 <= i < |rows| ::
                          && IsFingerprint(r.value[i].inputs)
                          && rows[i] == ImageRow(numbers[i], services[i], r.value[i].inputs)
                          && r.value[i].sequence == k + i && r.value[i].service == services[i] && r.value[i].raw == rows[i]
  {
    if rows == [] then Some([])
    else
      var first := ParseImage(numbers[0], k, services[0], rows[0]);
      var rest := ParseImageRows(numbers[1..], services[1..], rows[1..], k + 1);
      if first.None? || rest.None? then None else Some([first.value] + rest.value)
  }

  function ParsePreserveRows(numbers: seq<string>, services: seq<string>, rows: seq<string>, k: nat): (r: Option<seq<PreserveAction>>)
    requires |numbers| == |services| == |rows|
    ensures r.Some? ==> |r.value| == |rows|
    ensures r.Some? ==> forall i | 0 <= i < |rows| ::
                          r.value[i].sequence == k + i && r.value[i].service == services[i] && r.value[i].raw == rows[i]
  {
    if rows == [] then Some([])
    else
      var first := ParsePreserve(numbers[0], k, services[0], rows[0]);
      var rest := ParsePreserveRows(numbers[1..], services[1..], rows[1..], k + 1);
      if first.None? || rest.None? then None else Some([first.value] + rest.value)
  }

  /** The build-phase half of `_parse_plan`. */
  function ParseBuildPhase(fixed: FixedRows, body: PlanBody, seal: PlanDigest): Result<HostPlan, PlanError> {
    if |body.actions| != 6 then Failure(ActionSetUnsupported)
    else
      var images := ParseImageRows(FIRST_NUMBERS, SERVICES, body.actions[..5], 1);
      if images.None? then Failure(ActionInvalid)
      else if !IsFingerprint(body.imageInputs) || exists a | a in images.value :: a.inputs != body.imageInputs then
        Failure(ActionInvalid)
      else if body.actions[5] != fixed.recollectBuild then Failure(ActionInvalid)
      else if !AllNonempty(body.rollbackActions) || body.rollbackState != "CANDIDATE_IMAGES_NOT_ACTIVATED"
              || |body.rollbackActions| != 5 then Failure(RollbackInvalid)
      else
        var preserves := ParsePreserveRows(FIRST_NUMBERS, Reversed(SERVICES), body.rollbackActions, 1);
        if preserves.None? then Failure(RollbackInvalid)
        else
          Success(BuildPhase(seal, body.actions, body.targets, images.value, body.actions[5],
                             "var/hk-v1/host/post-image-build.json", preserves.value, body.imageInputs))
  }

  /** The length in bytes of a plan's canonical rendering and the newline after it. */
  type PlanSize = PlanFile -> nat

  predicate PlanFits(size: PlanSize, file: PlanFile) {
    size(file) <= MAX_BYTES
  }

  /** `_parse_plan` on a plan file as it is found, long or short. */
  function ReadPlan(size: PlanSize, file: PlanFile): Result<HostPlan, PlanError> {
    if !PlanFits(size, file) then Failure(PlanInvalid) else ParsePlan(file)
  }

  /** `_parse_plan`, once the document has been read. */
  function ParsePlan(file: PlanFile): Result<HostPlan, PlanError> {
    ParsePlanWith(FIXED, file)
  }

  function ParsePlanWith(fixed: FixedRows, file: PlanFile): Result<HostPlan, PlanError> {
    var body := file.body;
    if !AllNonempty(body.actions) || !AllNonempty(body.blockers) || !AllNonempty(body.targets) then Failure(PlanInvalid)
    else if body.mode != "PLAN" || body.schemaVersion != 1 || body.mutationAuthorized || body.mutationsPerformed != []
            || file.fingerprint != Some(Sha256(body))
            || !SortedSet(body.targets) then Failure(PlanInvalid)
    else if body.actions == [] || TextSet(body.blockers) * INCOMPLETE_BLOCKERS != {} then Failure(NotActionable)
    else if body.buildResults.Some? then
      if !IsFingerprint(body.buildResults.value) then Failure(PlanInvalid)
      else ParseDeployment(fixed, body, Sha256(body))
    else ParseBuildPhase(fixed, body, Sha256(body))
  }
}
