/**
 The planner: it freezes one plan from retained host facts and printed rows, and performs
 nothing (tools/hk_v1_host_reconcile.py:462-527, 595-951).
 */
module HostReconcile {
  import opened Wrappers
  import opened Text
  import opened Ordering
  import opened HostPlan

  datatype Container = Container(name: string, imageId: string, runtimeState: string)

  datatype RuntimeService = RuntimeService(serviceId: string, unitName: string, image: string, pinned: bool)

  datatype BuildRow = BuildRow(tag: string, imageId: string, installedTree: string)

  datatype BuildResults = BuildResults(fingerprint: string, rows: map<string, BuildRow>)

  /** An optional input file: not named, unreadable or refused by its owner's parser, or read. */
  datatype Supplied<T> = Missing | Invalid | Valid(value: T)

  datatype Recovery = Recovery(fingerprint: string, ready: bool)

  /**
   The operational inputs. `batch` is the owner's verdict on the batch plan and report
   together, used only when both are named.
   */
  datatype Evidence = Evidence(
    credentialPlan: Supplied<string>,
    batchPlan: bool,
    batchReport: bool,
    batch: Option<string>,
    recovery: Supplied<Recovery>)

  datatype Inputs = Inputs(
    factsComplete: bool,
    containers: seq<Container>,
    services: seq<RuntimeService>,
    contexts: map<string, string>,
    imageInputs: string,
    buildResults: Option<BuildResults>,
    evidence: Evidence,
    otherTargets: set<string>,
    nonconforming: bool,
    pinsRequired: bool,
    inventoryMismatch: bool)

  /** What the owning loaders guarantee of an input they did not refuse. */
  ghost predicate Loaded(inputs: Inputs) {
    && IsFingerprint(inputs.imageInputs)
    && (inputs.evidence.credentialPlan.Valid? ==> IsFingerprint(inputs.evidence.credentialPlan.value))
    && (inputs.evidence.batch.Some? ==> IsFingerprint(inputs.evidence.batch.value))
    && (inputs.evidence.recovery.Valid? ==> IsFingerprint(inputs.evidence.recovery.value.fingerprint))
    && (inputs.buildResults.Some? ==> LoadedResults(inputs.buildResults.value))
    && "" !in inputs.otherTargets
  }

  /** `_build_results_input`: all five services, each at its candidate tag with an image identity. */
  ghost predicate LoadedResults(results: BuildResults) {
    && IsFingerprint(results.fingerprint)
    && (forall s :: s in results.rows <==> s in SERVICES)
    && forall s | s in results.rows ::
         results.rows[s].tag == "asklegal/" + s + ":hk-v1-candidate" && IsFingerprint(results.rows[s].imageId)
  }

  // ----- blockers ----------------------------------------------------------------------

  datatype Contract = Contract(blockers: set<string>, credential: Option<string>, terminal: bool, recovery: Option<string>)

  function CredentialContract(e: Evidence): (set<string>, Option<string>, bool) {
    if e.credentialPlan != Missing && (e.batchPlan || e.batchReport) then
      ({"CREDENTIAL_ROTATION_PLAN_INVALID"}, None, false)
    else if e.batchPlan || e.batchReport then
      if !e.batchPlan then ({"CREDENTIAL_ROTATION_PLAN_REQUIRED"}, None, false)
      else if !e.batchReport then ({"CREDENTIAL_ROTATION_REPORT_REQUIRED"}, None, false)
      else if e.batch.Some? then ({}, e.batch, true)
      else ({"CREDENTIAL_ROTATION_REPORT_INVALID"}, None, false)
    else
      match e.credentialPlan
      case Missing => ({"CREDENTIAL_ROTATION_PLAN_REQUIRED"}, None, false)
      case Invalid => ({"CREDENTIAL_ROTATION_PLAN_INVALID"}, None, false)
      case Valid(fingerprint) => ({CREDENTIAL_AUTHORITY_REQUIRED}, Some(fingerprint), false)
  }

  function RecoveryContract(e: Evidence): (set<string>, Option<string>) {
    match e.recovery
    case Missing => ({"RECOVERY_PREFLIGHT_REPORT_REQUIRED"}, None)
    case Invalid => ({"RECOVERY_PREFLIGHT_REPORT_INVALID"}, None)
    case Valid(r) =>
      (if r.ready then {"RECOVERY_EXECUTION_AUTHORITY_REQUIRED"} else {"RECOVERY_PREFLIGHT_NOT_READY"}, Some(r.fingerprint))
  }

  /** `_operational_contract_inputs` */
  function ContractOf(e: Evidence): Contract {
    var (credentialBlockers, credential, terminal) := CredentialContract(e);
    var (recoveryBlockers, recovery) := RecoveryContract(e);
    Contract(credentialBlockers + recoveryBlockers, credential, terminal, recovery)
  }

  function HostBlockers(inputs: Inputs): set<string> {
    {"HOST_MUTATION_NOT_AUTHORIZED"}
    + (if inputs.factsComplete then {} else {"HOST_FACTS_INCOMPLETE"})
    + (if inputs.nonconforming then {"HOST_FACTS_NONCONFORMING"} else {})
    + (if inputs.buildResults.None? && inputs.pinsRequired then {"APPLICATION_IMAGE_PINS_REQUIRED"} else {})
    + (if inputs.inventoryMismatch then {"DESIRED_SERVICE_INVENTORY_MISMATCH"} else {})
  }

  // ----- targets -----------------------------------------------------------------------

  /** `_image_targets`; `None` where an unpinned service has no build context. */
  function ImageTargets(inputs: Inputs, services: seq<RuntimeService>): Option<set<string>> {
    if services == [] then Some({})
    else
      var s := services[0];
      var rest := ImageTargets(inputs, services[1..]);
      var target :=
        if inputs.buildResults.Some? && s.serviceId in inputs.buildResults.value.rows then
          Some("image-replacement:" + s.serviceId + ":" + inputs.buildResults.value.rows[s.serviceId].imageId)
        else if s.pinned then Some("image-replacement:" + s.serviceId + ":" + s.image)
        else if s.serviceId !in inputs.contexts then None
        else Some("image-build:" + s.serviceId + ":asklegal/" + s.serviceId + ":hk-v1-candidate:" + inputs.contexts[s.serviceId]);
      if target.None? || rest.None? then None else Some({target.value} + rest.value)
  }

  /** `_targets`, with the topology, unit and path targets taken as given. */
  function Targets(inputs: Inputs): Option<set<string>> {
    var images := ImageTargets(inputs, inputs.services);
    var contract := ContractOf(inputs.evidence);
    if images.None? || exists s | s in inputs.services :: s.serviceId == "" || s.unitName == "" || s.image == "" then None
    else
      Some(inputs.otherTargets + images.value
           + (if contract.credential.None? then {}
              else {(if contract.terminal then "credential-rotation-report:" else "credential-rotation-plan:") + contract.credential.value})
           + (if contract.recovery.None? then {} else {"recovery-preflight-report:" + contract.recovery.value}))
  }

  // ----- rows --------------------------------------------------------------------------

  function Numbered(k: nat, value: string): string {
    Padded(k, 3) + "|" + value
  }

  function NumberedFrom(k: nat, values: seq<string>): (r: seq<string>)
    ensures |r| == |values| && forall i | 0 <= i < |values| :: r[i] == Numbered(k + i, values[i])
  {
    seq(|values|, i requires 0 <= i < |values| => Numbered(k + i, values[i]))
  }

  /** `next(item["unit_name"] for item in services if ...)`; `None` where it is exhausted. */
  function UnitOf(services: seq<RuntimeService>, serviceId: string): Option<string> {
    if services == [] then None
    else if services[0].serviceId == serviceId then Some(services[0].unitName)
    else UnitOf(services[1..], serviceId)
  }

  /** `{name: (image_id, runtime_state)}`, the last container of a name winning. */
  function StatesOf(containers: seq<Container>): map<string, (string, string)> {
    if containers == [] then map[]
    else
      var last := containers[|containers| - 1];
      StatesOf(containers[..|containers| - 1])[last.name := (last.imageId, last.runtimeState)]
  }

  /** The printed values whose every character is fixed. */
  datatype FixedValues = FixedValues(
    head: seq<string>, recollect: string, confirm: string, back: seq<string>, recollectBuild: string)

  const VALUES := FixedValues(
    [ Bar(["PROVISION_RUNTIME_PATHS", "source=" + POC + "provisioning/30-identities.sh"]),
      Bar(["STAGE_RUNTIME_CONFIGURATION", "unit_source=" + POC + "units",
           "config_destination=/etc/asklegal", "helper_source=" + POC + "libexec",
           "helper_destination=/usr/local/libexec",
           MIGRATION_SOURCE,
           MIGRATION_DESTINATION]),
      Bar(["INSTALL_SYSTEMD_UNITS", "source=" + POC + "units", "destination=/etc/systemd/system"]),
      Bar(["RECONCILE_NETWORKS", "unit=asklegal-networks.service", "source=" + POC + "systemd_unit_inputs.json"]),
      Bar(["APPLY_HOST_FIREWALL", "source=" + POC + "provisioning/60-firewall.sh", "deadman_seconds=900"]) ],
    Bar(["RECOLLECT_HOST_FACTS", "output=var/hk-v1/host/post-reconcile.json", "required=all-11-fact-classes"]),
    Bar(["CONFIRM_HOST_FIREWALL", "source=post-reconcile-host-facts", "marker=/run/asklegal-firewall-confirmed"]),
    [ Bar(["RESTORE_RUNTIME_CONFIGURATION", "source=state-owned-predecessor-snapshot"]),
      Bar(["RESTORE_NETWORK_SET", "source=retained-host-facts"]),
      Bar(["RESTORE_HOST_FIREWALL", "source=state-owned-predecessor-snapshot"]),
      Bar(["RESTORE_SYSTEMD_UNIT_BYTES", "source=state-owned-predecessor-snapshot"]),
      Bar(["RECOLLECT_HOST_FACTS", "output=var/hk-v1/host/post-rollback.json", "required=all-11-fact-classes"]) ],
    Bar(["RECOLLECT_HOST_FACTS", "output=var/hk-v1/host/post-image-build.json", "required=immutable-image-digests"]))

  function VerifyValue(service: string, unit: string, row: BuildRow): string {
    Bar(["VERIFY_DIGEST_PINNED_CANDIDATE", "service=" + service, "unit=" + unit, "candidate_tag=" + row.tag]
        + ["image_id=" + row.imageId])
  }

  /** One verify row for each named service, in order. */
  function VerifyValues(services: seq<RuntimeService>, rows: map<string, BuildRow>, names: seq<string>): (r: Option<seq<string>>)
    requires forall s | s in names :: s in rows
    ensures r.Some? ==> |r.value| == |names|
    ensures r.Some? ==> forall i | 0 <= i < |names| ::
                          && UnitOf(services, names[i]).Some?
                          && r.value[i] == VerifyValue(names[i], UnitOf(services, names[i]).value, rows[names[i]])
  {
    if names == [] then Some([])
    else
      var unit := UnitOf(services, names[0]);
      var rest := VerifyValues(services, rows, names[1..]);
      if unit.None? || rest.None? then None else Some([VerifyValue(names[0], unit.value, rows[names[0]])] + rest.value)
  }

  /** `",".join(...)` of the named services with their image identities. */
  function BindingsText(rows: map<string, BuildRow>, names: seq<string>): string
    requires forall s | s in names :: s in rows
  {
    if names == [] then ""
    else names[0] + "@" + rows[names[0]].imageId + (if |names| == 1 then "" else "," + BindingsText(rows, names[1..]))
  }

  function EnableValue(bindings: string): string {
    Bar(["ENABLE_START_TARGET_AND_TIMERS", "target=asklegal.target",
         "source=" + POC + "systemd_unit_inputs.json", "bindings=" + bindings])
  }

  function RestoreValue(states: map<string, (string, string)>, service: string): string {
    if "asklegal-" + service !in states then Bar(["RESTORE_PREDECESSOR_SERVICE_ABSENCE", "service=" + service])
    else
      var (imageId, runtimeState) := states["asklegal-" + service];
      Bar(["RESTORE_PREDECESSOR_SERVICE_IMAGE", "service=" + service] + ["runtime_state=" + runtimeState] + ["image_id=" + imageId])
  }

  function RestoreValues(states: map<string, (string, string)>): (r: seq<string>)
    ensures |r| == 5 && forall k | 0 <= k < 5 :: r[k] == RestoreValue(states, SERVICES[4 - k])
  {
    seq(5, k requires 0 <= k < 5 => RestoreValue(states, SERVICES[4 - k]))
  }

  datatype Rows = Rows(actions: seq<string>, rollbackState: string, rollback: seq<string>)

  function ForwardValues(values: FixedValues, verifies: seq<string>, bindings: string): seq<string> {
    values.head + verifies + [EnableValue(bindings), values.recollect, values.confirm]
  }

  /** The deployment half of `_plan_actions`. */
  function DeploymentRows(values: FixedValues, inputs: Inputs, results: BuildResults): Option<Rows>
    requires forall s | s in SERVICES :: s in results.rows
  {
    var verifies := VerifyValues(inputs.services, results.rows, SERVICES);
    if verifies.None? || exists c | c in inputs.containers :: c.name == "" || c.imageId == "" || c.runtimeState == "" then None
    else
      Some(Rows(NumberedFrom(1, ForwardValues(values, verifies.value, BindingsText(results.rows, SERVICES))),
                "ORDERED_REVERSIBLE_PLAN",
                NumberedFrom(1, RestoreValues(StatesOf(inputs.containers)) + values.back)))
  }

  /** The unpinned services in service order. */
  function InsertService(s: RuntimeService, rest: seq<RuntimeService>): seq<RuntimeService> {
    if rest == [] || Before(s.serviceId, rest[0].serviceId)
       || (s.serviceId == rest[0].serviceId && !Before(rest[0].unitName, s.unitName)) then [s] + rest
    else [rest[0]] + InsertService(s, rest[1..])
  }

  function Unpinned(services: seq<RuntimeService>): seq<RuntimeService> {
    if services == [] then []
    else if services[0].pinned then Unpinned(services[1..])
    else InsertService(services[0], Unpinned(services[1..]))
  }

  function ImageValue(inputs: Inputs, s: RuntimeService): string
    requires s.serviceId in inputs.contexts
  {
    Bar(["BUILD_APPLICATION_IMAGE", "service=" + s.serviceId, "context=" + inputs.contexts[s.serviceId],
         "tag=asklegal/" + s.serviceId + ":hk-v1-candidate"] + ["inputs=" + inputs.imageInputs])
  }

  function PreserveValue(states: map<string, (string, string)>, service: string): string {
    if "asklegal-" + service !in states then
      Bar(["PRESERVE_RUNNING_SERVICE", "service=" + service, "state=ABSENT_IN_RETAINED_INVENTORY"])
    else Bar(["PRESERVE_RUNNING_IMAGE", "service=" + service] + ["image_id=" + states["asklegal-" + service].0])
  }

  function ImageValues(inputs: Inputs, services: seq<RuntimeService>): seq<string>
    requires forall s | s in services :: s.serviceId in inputs.contexts
  {
    seq(|services|, i requires 0 <= i < |services| => ImageValue(inputs, services[i]))
  }

  function PreserveValues(states: map<string, (string, string)>, services: seq<RuntimeService>): seq<string> {
    seq(|services|, i requires 0 <= i < |services| => PreserveValue(states, services[|services| - 1 - i].serviceId))
  }

  /** The build half of `_plan_actions`. */
  function BuildRows(values: FixedValues, inputs: Inputs): Option<Rows> {
    var unpinned := Unpinned(inputs.services);
    if (exists s | s in unpinned :: s.serviceId !in inputs.contexts)
       || exists c | c in inputs.containers :: c.name == "" || c.imageId == "" then None
    else
      Some(Rows(NumberedFrom(1, ImageValues(inputs, unpinned) + [values.recollectBuild]),
                "CANDIDATE_IMAGES_NOT_ACTIVATED",
                NumberedFrom(1, PreserveValues(StatesOf(inputs.containers), unpinned))))
  }

  /** `_plan_actions`; `None` where it raises. */
  function PlanRows(values: FixedValues, inputs: Inputs): Option<Rows>
    requires Loaded(inputs)
  {
    if !inputs.factsComplete then Some(Rows([], "NOT_READY_INCOMPLETE_HOST_FACTS", []))
    else if inputs.buildResults.None? then (if Unpinned(inputs.services) == [] then None else BuildRows(values, inputs))
    else DeploymentRows(values, inputs, inputs.buildResults.value)
  }

  function Freeze(inputs: Inputs, rows: Rows, targets: set<string>, contract: Contract): PlanBody {
    PlanBody(
      rows.actions,
      if inputs.buildResults.None? then None else Some(inputs.buildResults.value.fingerprint),
      inputs.imageInputs,
      Sorted(HostBlockers(inputs) + contract.blockers),
      contract.credential,
      contract.recovery,
      "PLAN", 1, false, [],
      rows.rollbackState,
      rows.rollback,
      Sorted(targets))
  }

  /** `build_host_reconcile_plan` and the document it renders; `None` where it raises. */
  function BuildPlan(inputs: Inputs): Option<PlanFile>
    requires Loaded(inputs)
  {
    BuildPlanWith(VALUES, inputs)
  }

  function BuildPlanWith(values: FixedValues, inputs: Inputs): Option<PlanFile>
    requires Loaded(inputs)
  {
    var targets := Targets(inputs);
    var rows := PlanRows(values, inputs);
    if targets.None? || rows.None? then None
    else
      var body := Freeze(inputs, rows.value, targets.value, ContractOf(inputs.evidence));
      Some(PlanFile(body, Some(Sha256(body))))
  }
}
