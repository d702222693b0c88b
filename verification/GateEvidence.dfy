/**
 The Gate F and Gate G composites: built from their owners' artifacts, and read again with
 every embedded artifact rederived (tools/hk_v1_admission_operational_evidence.py:912-1633).
 What reads the owners' own formats elsewhere is a parameter here.
 */
module GateEvidence {
  import opened Wrappers
  import opened Text
  import opened GateDocuments

  /** A readback of one host reboot: its operation and the boots before and after it. */
  datatype Restart = Restart(operationId: string, preBoot: string, postBoot: string)

  /** `datetime.fromisoformat`; an aware and a naive time do not compare. */
  datatype Moment = Aware(instant: int) | Naive(local: int)

  predicate Earlier(a: Moment, b: Moment) {
    (a.Aware? && b.Aware? && a.instant < b.instant) || (a.Naive? && b.Naive? && a.local < b.local)
  }

  /** What the due-cycle owners derive from a schedule state, host facts, one operation and its output. */
  datatype CycleParts = CycleParts(
    scheduleKind: string, attemptId: Json, boot: string, cycleId: Json, scheduledAt: Json,
    terminalRoots: seq<Json>, acceptance: Fields)

  /**
   The owners: what each reads from bytes that are not empty, or its refusal; a document's size; an
   ISO 8601 time. Each owner's reader begins by refusing empty bytes, and the calls below do so.
   */
  datatype Owners = Owners(
    size: Bytes -> nat,
    time: Json -> Option<Moment>,
    schedule: Bytes -> bool,
    host: Bytes -> Option<string>,
    status: Bytes -> bool,
    supervision: (Bytes, Bytes) -> bool,
    recovery: Bytes -> bool,
    restart: (Bytes, Bytes) -> Option<Restart>,
    cycleParts: (Bytes, Bytes, Json, Bytes) -> Option<CycleParts>)

  /** `_schedule`, `_operational_status` or `_recovery`, by its verdict. */
  predicate Accepts(verdict: Bytes -> bool, raw: Bytes) {
    raw != EMPTY && verdict(raw)
  }

  /** `_supervision` */
  predicate Supervised(owners: Owners, raw: Bytes, host: Bytes) {
    raw != EMPTY && owners.supervision(raw, host)
  }

  /** `_host` */
  function BootOf(owners: Owners, raw: Bytes): Option<string> {
    if raw == EMPTY then None else owners.host(raw)
  }

  /** `_restart` */
  function RestartOf(owners: Owners, raw: Bytes, host: Bytes): Option<Restart> {
    if raw == EMPTY then None else owners.restart(raw, host)
  }

  /** `_scheduled_cycle_parts`; a retained command's operation is a text that is not empty. */
  function PartsOf(owners: Owners, state: Bytes, host: Bytes, root: Json, output: Bytes): Option<CycleParts> {
    if state == EMPTY || host == EMPTY || output == EMPTY || !IsText(root) then None
    else owners.cycleParts(state, host, root, output)
  }

  // ----- the serving state -------------------------------------------------------------

  datatype Serving = Serving(stateId: Json, fingerprint: Json)

  const CANDIDATE_FIELDS: set<Field> := {
    ApprovalId, CandidateServingStateId, CandidateServingStateFingerprint, CoverageFingerprint, DesiredInventoryFingerprint,
    EmbeddingProfileFingerprint, EmbeddingProfileId, ExecutionLineageId, PredecessorStateId, TargetName}

  predicate ValidCandidate(candidate: Fields, active: Json) {
    && candidate.Keys == CANDIDATE_FIELDS
    && IsIdentity(active, "srv_")
    && Get(candidate, CandidateServingStateId) == active
    && IsIdentity(Get(candidate, PredecessorStateId), "srv_") && Get(candidate, PredecessorStateId) != active
    && IsDigest(Get(candidate, CandidateServingStateFingerprint)) && IsDigest(Get(candidate, CoverageFingerprint))
    && IsDigest(Get(candidate, DesiredInventoryFingerprint)) && IsDigest(Get(candidate, EmbeddingProfileFingerprint))
    && IsText(Get(candidate, ApprovalId)) && IsText(Get(candidate, EmbeddingProfileId))
    && IsText(Get(candidate, ExecutionLineageId)) && IsText(Get(candidate, TargetName))
  }

  predicate IsEntry(entry: Json) {
    entry.Object? && entry.fields.Keys == {Candidate, ReceiptId} && IsIdentity(Get(entry.fields, ReceiptId), "ssr_")
  }

  /** `_serving_state_binding` */
  function ServingBinding(owners: Owners, raw: Bytes): Result<Serving, GateError> {
    var document := Document(owners.size, raw);
    if document.None? || document.value.Keys != {Activation, ActiveStateId, Rollback, SchemaId}
       || document.value[SchemaId] != Json.Text("asklegal.local-serving-state/v1") then Failure(ServingStateInvalid)
    else
      var activation := document.value[Activation];
      if !IsEntry(activation) || !Get(activation.fields, Candidate).Object? then Failure(ServingStateInvalid)
      else
        var candidate := Get(activation.fields, Candidate).fields;
        var rollback := document.value[Rollback];
        if !ValidCandidate(candidate, document.value[ActiveStateId]) then Failure(ServingStateInvalid)
        else if rollback != Null && !(IsEntry(rollback) && Get(rollback.fields, Candidate) == Object(candidate)) then Failure(ServingStateInvalid)
        else Success(Serving(document.value[ActiveStateId], Get(candidate, CandidateServingStateFingerprint)))
  }

  // ----- Gate F ------------------------------------------------------------------------

  datatype FSources = FSources(
    schedule: Bytes, host: Bytes, status: Bytes, supervision: Bytes, recovery: Bytes, restart: Bytes, serving: Bytes)

  const F_SCHEMA := Json.Text("asklegal.hk-v1-gate-f-operational-evidence/v1")

  const F_SLOTS: seq<Slot> := [
    Slot("HOST", "HOST_COLLECTOR"), Slot("OBSERVABILITY", "OBSERVABILITY"), Slot("RECOVERY", "RECOVERY_TOOL"),
    Slot("RESTART", "HOST_OPERATOR"), Slot("SCHEDULE", "CONTROL_PLANE"), Slot("SUPERVISION", "HOST_OPERATOR")]

  const F_FIELDS: set<Field> := {
    SchemaId, SchemaVersion, Outcome, ServingStateId, ServingStateFingerprint, ServingStateHex,
    ServingStateContentFingerprint, BootIdFingerprint, Artifacts}

  function FContents(s: FSources): seq<Bytes> {
    [s.host, s.status, s.recovery, s.restart, s.schedule, s.supervision]
  }

  /** What the owners derive together from the sources of a Gate F composite. */
  datatype FDerived = FDerived(boot: string, restart: Restart, serving: Serving)

  /** `_validate_f_sources`, with the serving state's binding. */
  function ValidateF(owners: Owners, s: FSources): Result<FDerived, GateError> {
    var boot := BootOf(owners, s.host);
    if !Accepts(owners.schedule, s.schedule) || boot.None? || !Accepts(owners.status, s.status) then Failure(SourceInvalid)
    else if !Supervised(owners, s.supervision, s.host) then Failure(SupervisionInvalid)
    else if !Accepts(owners.recovery, s.recovery) then Failure(SourceInvalid)
    else
      var restart := RestartOf(owners, s.restart, s.host);
      if restart.None? then Failure(RestartInvalid)
      else
        var serving :- ServingBinding(owners, s.serving);
        if restart.value.postBoot != boot.value then Failure(RestartInvalid)
        else Success(FDerived(boot.value, restart.value, serving))
  }

  function FBody(s: FSources, derived: FDerived): Fields {
    map[SchemaId := F_SCHEMA, SchemaVersion := VERSION, Outcome := COMPLETE,
        ServingStateId := derived.serving.stateId, ServingStateFingerprint := derived.serving.fingerprint,
        ServingStateHex := Hex(s.serving, 0), ServingStateContentFingerprint := Json.Sha256(s.serving),
        BootIdFingerprint := Json.Text(derived.boot),
        Artifacts := Array(ArtifactsOf(F_SLOTS, FContents(s)))]
  }

  /** `build_gate_f_operational_evidence` */
  function BuildF(owners: Owners, s: FSources): Result<Bytes, GateError> {
    var derived :- ValidateF(owners, s);
    Success(Seal(FBody(s, derived)))
  }

  datatype FEvidence = FEvidence(
    servingStateId: Json, servingStateFingerprint: Json, boot: string, restartOperationId: string,
    restartPreBoot: string, fingerprint: Json)

  /** The first half of `parse_gate_f_operational_evidence`: the document and the artifacts in its slots. */
  function OpenF(owners: Owners, content: Bytes): Result<(Fields, FSources), GateError> {
    var document := Document(owners.size, content);
    if document.None? || document.value.Keys != F_FIELDS + {Fingerprint} then Failure(CompositeInvalid)
    else
      var fields := document.value;
      var artifacts := fields[Artifacts];
      if fields[SchemaId] != F_SCHEMA || fields[SchemaVersion] != VERSION || fields[Outcome] != COMPLETE
         || !IsSealed(fields) || !artifacts.Array? || |artifacts.items| != |F_SLOTS| then Failure(CompositeInvalid)
      else
        var contents := OpenArtifacts(F_SLOTS, artifacts.items);
        var serving := HexArtifact(fields, ServingStateHex, ServingStateContentFingerprint);
        if contents.None? || serving.None? then Failure(CompositeInvalid)
        else
          var c := contents.value;
          Success((fields, FSources(c[4], c[0], c[1], c[5], c[2], c[3], serving.value)))
  }

  /** `parse_gate_f_operational_evidence` */
  function ParseF(owners: Owners, content: Bytes): Result<FEvidence, GateError> {
    var (fields, s) :- OpenF(owners, content);
    var derived :- ValidateF(owners, s);
    if Get(fields, BootIdFingerprint) != Json.Text(derived.boot) then Failure(RestartInvalid)
    else if Get(fields, ServingStateId) != derived.serving.stateId
            || Get(fields, ServingStateFingerprint) != derived.serving.fingerprint then Failure(ServingStateInvalid)
    else
      Success(FEvidence(derived.serving.stateId, derived.serving.fingerprint, derived.boot,
                        derived.restart.operationId, derived.restart.preBoot, Get(fields, Fingerprint)))
  }

  // ----- Gate G's sources --------------------------------------------------------------

  const CYCLE_FIELDS: set<Field> := {
    SchemaId, SchemaVersion, Kind, OperationId, CommandFingerprint, ObservationCutoff, Families, ScopeIds, Outcome,
    BlockerCodes, ProposalReference}

  /** `_cycle` */
  function ReadCycle(owners: Owners, raw: Bytes, kind: string, outcome: string): Result<Fields, GateError> {
    var document := Document(owners.size, raw);
    if document.None? || document.value.Keys != CYCLE_FIELDS then Failure(CycleInvalid)
    else
      var fields := document.value;
      if fields[SchemaId] != Json.Text("asklegal.hk-v1.acceptance-cycle-result") || fields[SchemaVersion] != VERSION
         || fields[Kind] != Json.Text(kind) || fields[Outcome] != Json.Text(outcome) || fields[BlockerCodes] != Array([])
         || fields[Families] != Array([Json.Text("CASES"), Json.Text("LEGISLATION")]) || !fields[ScopeIds].Array?
         || !IsDigest(fields[CommandFingerprint]) || owners.time(fields[ObservationCutoff]).None? then Failure(CycleInvalid)
      else if outcome == "PROPOSAL_READY" then
        if IsProposal(fields[ProposalReference]) then Success(fields) else Failure(CycleInvalid)
      else if fields[ProposalReference] != Null then Failure(CycleInvalid)
      else Success(fields)
  }

  predicate IsProposal(reference: Json) {
    && reference.Object?
    && reference.fields.Keys == {Vault, LogicalKey, VersionId, Fingerprint, ByteLength}
    && Get(reference.fields, Vault) == Json.Text("PRIMARY")
    && IsDigest(Get(reference.fields, Fingerprint))
    && Get(reference.fields, ByteLength).Number? && Get(reference.fields, ByteLength).number >= 1
  }

  /** `_proposal_fingerprint`; `None` where it raises. */
  function ProposalOf(cycle: Fields): Option<Json> {
    var reference := Get(cycle, ProposalReference);
    if reference.Object? then Some(Get(reference.fields, Fingerprint)) else None
  }

  const PROMOTION_FIELDS: set<Field> := {
    Operation, ProposalFingerprint, ApprovalFingerprint, PredecessorServingStateId, PredecessorServingStateFingerprint,
    PredecessorTargetName, PredecessorTargetFingerprint, ServingStateId, ServingStateFingerprint, TargetName,
    TargetFingerprint, BackupFingerprint, ReadbackFingerprint, Outcome}

  datatype Promotion = Promotion(
    proposal: Json, approval: Json,
    fromState: Json, fromFingerprint: Json, fromTarget: Json, fromTargetFingerprint: Json,
    stateId: Json, stateFingerprint: Json, target: Json, targetFingerprint: Json,
    backup: Json, readback: Json, seal: Json)

  function PromotionOf(fields: Fields): Promotion {
    Promotion(
      Get(fields, ProposalFingerprint), Get(fields, ApprovalFingerprint),
      Get(fields, PredecessorServingStateId), Get(fields, PredecessorServingStateFingerprint),
      Get(fields, PredecessorTargetName), Get(fields, PredecessorTargetFingerprint),
      Get(fields, ServingStateId), Get(fields, ServingStateFingerprint), Get(fields, TargetName), Get(fields, TargetFingerprint),
      Get(fields, BackupFingerprint), Get(fields, ReadbackFingerprint), Get(fields, Fingerprint))
  }

  /** `_promotion` */
  function ReadPromotion(owners: Owners, raw: Bytes, operation: string): Result<Promotion, GateError> {
    var document := OpenSealed(owners.size, raw, "asklegal.hk-v1-promotion-readback/v1", PROMOTION_FIELDS);
    if document.None? then Failure(PromotionInvalid)
    else
      var p := PromotionOf(document.value);
      if Get(document.value, Operation) != Json.Text(operation) || Get(document.value, Outcome) != COMPLETE
         || !IsIdentity(p.fromState, "srv_") || !IsIdentity(p.stateId, "srv_") || !IsText(p.target)
         || !IsDigest(p.proposal) || !IsDigest(p.approval) || !IsDigest(p.stateFingerprint) || !IsDigest(p.targetFingerprint)
         || !IsDigest(p.backup) || !IsDigest(p.readback) then Failure(PromotionInvalid)
      else if operation == "PROMOTION" then
        if p.fromFingerprint == Null && p.fromTarget == Null && p.fromTargetFingerprint == Null then Success(p)
        else Failure(PromotionInvalid)
      else if !IsText(p.fromFingerprint) || !IsText(p.fromTarget) || !IsText(p.fromTargetFingerprint)
              || p.fromState == p.stateId || p.fromTarget == p.target || p.fromTargetFingerprint == p.targetFingerprint then
        Failure(PromotionInvalid)
      else Success(p)
  }

  // ----- scheduled cycles --------------------------------------------------------------

  const SCHEDULED_SCHEMA := "asklegal.hk-v1-scheduled-cycle-readback/v1"

  const SCHEDULED_FIELDS: set<Field> := {
    ScheduleKind, RootOperationId, AttemptOperationId, BootIdFingerprint, AcceptanceResult, ScheduleStateHex,
    ScheduleStateFingerprint, HostFactsHex, HostFactsFingerprint, SchedulerOutputHex, SchedulerOutputFingerprint}

  datatype Scheduled = Scheduled(parts: CycleParts, root: Json, scheduleState: Json, output: Json, fingerprint: Json)

  function ScheduledBody(state: Bytes, host: Bytes, root: Json, output: Bytes, parts: CycleParts): Fields {
    map[SchemaId := Json.Text(SCHEDULED_SCHEMA), SchemaVersion := VERSION,
        ScheduleKind := Json.Text(parts.scheduleKind), RootOperationId := root, AttemptOperationId := parts.attemptId,
        BootIdFingerprint := Json.Text(parts.boot), AcceptanceResult := Object(parts.acceptance),
        ScheduleStateHex := Hex(state, 0), ScheduleStateFingerprint := Json.Sha256(state),
        HostFactsHex := Hex(host, 0), HostFactsFingerprint := Json.Sha256(host),
        SchedulerOutputHex := Hex(output, 0), SchedulerOutputFingerprint := Json.Sha256(output)]
  }

  /** `build_scheduled_cycle_readback` */
  function BuildScheduled(owners: Owners, state: Bytes, host: Bytes, root: Json, output: Bytes): Result<Bytes, GateError> {
    var parts := PartsOf(owners, state, host, root, output);
    if parts.None? then Failure(ScheduledCycleInvalid) else Success(Seal(ScheduledBody(state, host, root, output, parts.value)))
  }

  /** `parse_scheduled_cycle_readback` */
  function ParseScheduled(owners: Owners, content: Bytes): Result<Scheduled, GateError> {
    var document := OpenSealed(owners.size, content, SCHEDULED_SCHEMA, SCHEDULED_FIELDS);
    if document.None? then Failure(ScheduledCycleInvalid)
    else
      var fields := document.value;
      var state := HexArtifact(fields, ScheduleStateHex, ScheduleStateFingerprint);
      var host := HexArtifact(fields, HostFactsHex, HostFactsFingerprint);
      var output := HexArtifact(fields, SchedulerOutputHex, SchedulerOutputFingerprint);
      var root := Get(fields, RootOperationId);
      if state.None? || host.None? || output.None? || !IsText(root) then Failure(ScheduledCycleInvalid)
      else
        var parts := PartsOf(owners, state.value, host.value, root, output.value);
        if parts.None? || Get(fields, ScheduleKind) != Json.Text(parts.value.scheduleKind)
           || Get(fields, AttemptOperationId) != parts.value.attemptId
           || Get(fields, BootIdFingerprint) != Json.Text(parts.value.boot)
           || Get(fields, AcceptanceResult) != Object(parts.value.acceptance) then Failure(ScheduledCycleInvalid)
        else
          Success(Scheduled(parts.value, root, Get(fields, ScheduleStateFingerprint), Get(fields, SchedulerOutputFingerprint),
                            Get(fields, Fingerprint)))
  }

  // ----- Gate G ------------------------------------------------------------------------

  datatype GSources = GSources(
    baselineCycle: Bytes, baselinePromotion: Bytes, changedCycle: Bytes, changedPromotion: Bytes, noChangeCycle: Bytes,
    preReboot: Bytes, postReboot: Bytes, rollback: Bytes, restoration: Bytes,
    postRebootNoChangeCycle: Bytes, postRebootChangedCycle: Bytes, nextHealth: Bytes)

  const G_SCHEMA := Json.Text("asklegal.hk-v1-gate-g-live-lineage/v1")

  const G_SLOTS: seq<Slot> := [
    Slot("BASELINE_CYCLE", "CONTROL_PLANE"), Slot("BASELINE_PROMOTION", "PROMOTION_WORKER"),
    Slot("CHANGED_CYCLE", "CONTROL_PLANE"), Slot("CHANGED_PROMOTION", "PROMOTION_WORKER"),
    Slot("NO_CHANGE_CYCLE", "CONTROL_PLANE"), Slot("PRE_REBOOT", "CONTROL_PLANE"), Slot("POST_REBOOT", "CONTROL_PLANE"),
    Slot("ROLLBACK", "PROMOTION_WORKER"), Slot("RESTORATION", "PROMOTION_WORKER"),
    Slot("POST_REBOOT_NO_CHANGE_CYCLE", "CONTROL_PLANE"), Slot("POST_REBOOT_CHANGED_CYCLE", "CONTROL_PLANE"),
    Slot("NEXT_HEALTH", "CONTROL_PLANE")]

  const G_FIELDS: set<Field> := {SchemaId, SchemaVersion, Outcome, BaselineServingStateId, CurrentServingStateId, Artifacts}

  function GContents(s: GSources): seq<Bytes> {
    [s.baselineCycle, s.baselinePromotion, s.changedCycle, s.changedPromotion, s.noChangeCycle, s.preReboot, s.postReboot,
     s.rollback, s.restoration, s.postRebootNoChangeCycle, s.postRebootChangedCycle, s.nextHealth]
  }

  /** Every source of a Gate G bundle, read by its owner. */
  datatype Bundle = Bundle(
    baselineCycle: Fields, baseline: Promotion, changedCycle: Fields, changed: Promotion, noChange: Fields,
    pre: FEvidence, post: FEvidence, rollback: Promotion, restoration: Promotion,
    postNoChange: Scheduled, postChanged: Scheduled, health: FEvidence)

  function ReadBundle(owners: Owners, s: GSources): Result<Bundle, GateError> {
    var baselineCycle :- ReadCycle(owners, s.baselineCycle, "BASELINE", "PROPOSAL_READY");
    var baseline :- ReadPromotion(owners, s.baselinePromotion, "PROMOTION");
    var changedCycle :- ReadCycle(owners, s.changedCycle, "UPDATE", "PROPOSAL_READY");
    var changed :- ReadPromotion(owners, s.changedPromotion, "PROMOTION");
    var noChange :- ReadCycle(owners, s.noChangeCycle, "UPDATE", "NO_CHANGE");
    var pre :- ParseF(owners, s.preReboot);
    var post :- ParseF(owners, s.postReboot);
    var rollback :- ReadPromotion(owners, s.rollback, "ROLLBACK");
    var restoration :- ReadPromotion(owners, s.restoration, "RESTORATION");
    var postNoChange :- ParseScheduled(owners, s.postRebootNoChangeCycle);
    var postChanged :- ParseScheduled(owners, s.postRebootChangedCycle);
    var health :- ParseF(owners, s.nextHealth);
    Success(Bundle(baselineCycle, baseline, changedCycle, changed, noChange, pre, post, rollback, restoration,
                   postNoChange, postChanged, health))
  }

  function CutoffOf(owners: Owners, cycle: Fields): Option<Moment> {
    owners.time(Get(cycle, ObservationCutoff))
  }

  predicate InTurn(a: Option<Moment>, b: Option<Moment>) {
    a.Some? && b.Some? && Earlier(a.value, b.value)
  }

  /** The conditions on the two promotions and on the cycles that proposed them. */
  predicate PromotionsHold(g: Bundle) {
    && g.baseline.stateId != g.changed.stateId
    && g.baseline.stateFingerprint != g.changed.stateFingerprint
    && g.baseline.target != g.changed.target
    && g.baseline.targetFingerprint != g.changed.targetFingerprint
    && g.baseline.proposal != g.changed.proposal
    && g.baseline.approval != g.changed.approval
    && g.baseline.readback != g.changed.readback
    && g.baseline.seal != g.changed.seal
    && Some(g.baseline.proposal) == ProposalOf(g.baselineCycle)
    && Some(g.changed.proposal) == ProposalOf(g.changedCycle)
    && g.changed.fromState == g.baseline.stateId
  }

  predicate Names(f: FEvidence, p: Promotion) {
    f.servingStateId == p.stateId && f.servingStateFingerprint == p.stateFingerprint
  }

  /** The conditions on the three Gate F readbacks. */
  predicate ReadbacksHold(g: Bundle) {
    && Names(g.pre, g.changed) && Names(g.post, g.changed) && Names(g.health, g.changed)
    && g.pre.boot != g.post.boot
    && g.post.restartPreBoot == g.pre.boot
    && g.post.restartOperationId != g.pre.restartOperationId
    && g.health.restartOperationId == g.post.restartOperationId
    && g.health.restartPreBoot == g.pre.boot
    && g.post.boot == g.health.boot
    && g.postNoChange.parts.boot == g.post.boot
    && g.postChanged.parts.boot == g.post.boot
  }

  /** The conditions on the two scheduled cycles after the reboot. */
  predicate ScheduledHold(owners: Owners, g: Bundle) {
    var first, second := g.postNoChange.parts, g.postChanged.parts;
    var firstAt, secondAt := owners.time(first.scheduledAt), owners.time(second.scheduledAt);
    && first.scheduleKind == "OBSERVATION" && second.scheduleKind in {"OBSERVATION", "RECONCILIATION"}
    && g.postNoChange.root != g.postChanged.root
    && first.attemptId != second.attemptId
    && first.cycleId != second.cycleId
    && g.postNoChange.scheduleState != g.postChanged.scheduleState
    && g.postNoChange.output != g.postChanged.output
    && g.postNoChange.root in second.terminalRoots
    && g.postChanged.root !in first.terminalRoots
    && (forall r | r in first.terminalRoots :: r in second.terminalRoots)
    && firstAt.Some? && secondAt.Some? && firstAt.value.Aware? && secondAt.value.Aware? && Earlier(firstAt.value, secondAt.value)
    && Get(first.acceptance, Outcome) == Json.Text("NO_CHANGE") && Get(first.acceptance, ProposalReference) == Null
    && Get(second.acceptance, Outcome) == Json.Text("PROPOSAL_READY")
    && ProposalOf(second.acceptance).Some?
    && ProposalOf(second.acceptance).value != g.baseline.proposal && ProposalOf(second.acceptance).value != g.changed.proposal
  }

  /** The five observation cutoffs follow one another. */
  predicate CutoffsHold(owners: Owners, g: Bundle) {
    && InTurn(CutoffOf(owners, g.baselineCycle), CutoffOf(owners, g.changedCycle))
    && InTurn(CutoffOf(owners, g.changedCycle), CutoffOf(owners, g.noChange))
    && InTurn(CutoffOf(owners, g.noChange), CutoffOf(owners, g.postNoChange.parts.acceptance))
    && InTurn(CutoffOf(owners, g.postNoChange.parts.acceptance), CutoffOf(owners, g.postChanged.parts.acceptance))
  }

  /** A promotion from one serving state back to another: every predecessor and every result is named. */
  predicate Returns(op: Promotion, before: Promotion, after: Promotion) {
    && op.fromState == before.stateId && op.fromFingerprint == before.stateFingerprint
    && op.fromTarget == before.target && op.fromTargetFingerprint == before.targetFingerprint
    && op.stateId == after.stateId && op.stateFingerprint == after.stateFingerprint
    && op.target == after.target && op.targetFingerprint == after.targetFingerprint
    && op.backup == after.backup && op.readback == after.readback
  }

  predicate ReturnsHold(g: Bundle) {
    && Returns(g.rollback, g.changed, g.baseline)
    && g.rollback.proposal == g.changed.proposal && g.rollback.approval == g.changed.approval
    && Returns(g.restoration, g.baseline, g.changed)
    && g.restoration.proposal == g.changed.proposal && g.restoration.approval == g.changed.approval
  }

  /** `_validate_g_sources` */
  function ValidateG(owners: Owners, s: GSources): Result<Bundle, GateError> {
    var g :- ReadBundle(owners, s);
    if CutoffsHold(owners, g) && PromotionsHold(g) && ReadbacksHold(g) && ScheduledHold(owners, g) && ReturnsHold(g) then Success(g)
    else Failure(LineageInvalid)
  }

  function GBody(s: GSources, g: Bundle): Fields {
    map[SchemaId := G_SCHEMA, SchemaVersion := VERSION, Outcome := COMPLETE,
        BaselineServingStateId := g.baseline.stateId, CurrentServingStateId := g.changed.stateId,
        Artifacts := Array(ArtifactsOf(G_SLOTS, GContents(s)))]
  }

  /** `build_gate_g_live_lineage` */
  function BuildG(owners: Owners, s: GSources): Result<Bytes, GateError> {
    var g :- ValidateG(owners, s);
    Success(Seal(GBody(s, g)))
  }

  datatype GLineage = GLineage(
    baselineStateId: Json, currentStateId: Json, proposal: Json, approval: Json, target: Json, targetFingerprint: Json,
    stateFingerprint: Json, fingerprint: Json)

  /** The first half of `parse_gate_g_live_lineage`. */
  function OpenG(owners: Owners, content: Bytes): Result<(Fields, GSources), GateError> {
    var document := Document(owners.size, content);
    if document.None? || document.value.Keys != G_FIELDS + {Fingerprint} then Failure(CompositeInvalid)
    else
      var fields := document.value;
      var artifacts := fields[Artifacts];
      if fields[SchemaId] != G_SCHEMA || fields[SchemaVersion] != VERSION || fields[Outcome] != COMPLETE
         || !IsSealed(fields) || !artifacts.Array? || |artifacts.items| != |G_SLOTS| then Failure(CompositeInvalid)
      else
        var contents := OpenArtifacts(G_SLOTS, artifacts.items);
        if contents.None? then Failure(CompositeInvalid)
        else
          var c := contents.value;
          Success((fields, GSources(c[0], c[1], c[2], c[3], c[4], c[5], c[6], c[7], c[8], c[9], c[10], c[11])))
  }

  /** `parse_gate_g_live_lineage` */
  function ParseG(owners: Owners, content: Bytes): Result<GLineage, GateError> {
    var (fields, s) :- OpenG(owners, content);
    var g :- ValidateG(owners, s);
    if Get(fields, BaselineServingStateId) != g.baseline.stateId || Get(fields, CurrentServingStateId) != g.changed.stateId then
      Failure(LineageInvalid)
    else
      Success(GLineage(g.baseline.stateId, g.changed.stateId, g.changed.proposal, g.changed.approval, g.changed.target,
                       g.changed.targetFingerprint, g.changed.stateFingerprint, Get(fields, Fingerprint)))
  }
}
