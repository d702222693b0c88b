/**
 What the readers of the gates accept, told from the other side: each document as its producer
 writes it, and the proof that a reader accepts exactly the documents so written
 (tools/hk_v1_admission_operational_evidence.py:912-984, 1129-1240).
 */
module GateRecords {
  import opened Wrappers
  import opened Text
  import opened GateDocuments
  import opened GateEvidence

  /** A document of these fields, within the size bound. */
  predicate Delivered(owners: Owners, raw: Bytes, fields: Fields) {
    raw == Canonical(Object(fields)) && owners.size(raw) <= 10_000_000
  }

  predicate IsState(value: Json) {
    value.Text? && |value.text| == 52 && value.text[..4] == "srv_" && forall i | 4 <= i < 52 :: IsHex(value.text[i])
  }

  predicate IsReceipt(value: Json) {
    value.Text? && |value.text| == 52 && value.text[..4] == "ssr_" && forall i | 4 <= i < 52 :: IsHex(value.text[i])
  }

  /** A digest, or a text that is spelt as one. */
  predicate IsFingerprinted(value: Json) {
    match value
    case Sha256(_) => true
    case Text(text) => |text| == 71 && text[..7] == "sha256:" && forall i | 7 <= i < 71 :: IsHex(text[i])
    case _ => false
  }

  lemma IdentitiesAre(value: Json)
    ensures IsIdentity(value, "srv_") <==> IsState(value)
    ensures IsIdentity(value, "ssr_") <==> IsReceipt(value)
    ensures IsDigest(value) <==> IsFingerprinted(value)
  {
  }

  /** A string with something in it. */
  predicate Says(value: Json) {
    match value
    case Text(text) => |text| > 0
    case Hex(content, _) => content != Raw("")
    case Sha256(_) => true
    case _ => false
  }

  // ----- the serving state -------------------------------------------------------------

  datatype Candidacy = Candidacy(
    approval: Json, state: Json, fingerprint: Json, coverage: Json, inventory: Json,
    profileFingerprint: Json, profile: Json, lineage: Json, predecessor: Json, targetName: Json)
  {
    function Written(): Fields {
      map[ApprovalId := approval, CandidateServingStateId := state, CandidateServingStateFingerprint := fingerprint,
          CoverageFingerprint := coverage, DesiredInventoryFingerprint := inventory,
          EmbeddingProfileFingerprint := profileFingerprint, EmbeddingProfileId := profile,
          ExecutionLineageId := lineage, PredecessorStateId := predecessor, TargetName := targetName]
    }

    predicate Fit() {
      && IsState(state) && IsState(predecessor) && predecessor != state
      && IsFingerprinted(fingerprint) && IsFingerprinted(coverage)
      && IsFingerprinted(inventory) && IsFingerprinted(profileFingerprint)
      && Says(approval) && Says(profile) && Says(lineage) && Says(targetName)
    }
  }

  /** One activation, and perhaps the entry that a rollback would take up again. */
  datatype ServingRecord = ServingRecord(candidacy: Candidacy, receipt: Json, again: Option<Json>)
  {
    function Entry(id: Json): Json {
      Object(map[Candidate := Object(candidacy.Written()), ReceiptId := id])
    }

    function Written(): Fields {
      map[SchemaId := Json.Text("asklegal.local-serving-state/v1"), ActiveStateId := candidacy.state,
          Activation := Entry(receipt), Rollback := if again.None? then Null else Entry(again.value)]
    }

    predicate Fit() {
      candidacy.Fit() && IsReceipt(receipt) && (again.Some? ==> IsReceipt(again.value))
    }
  }

  function CandidacyOf(fields: Fields): Candidacy {
    Candidacy(Get(fields, ApprovalId), Get(fields, CandidateServingStateId), Get(fields, CandidateServingStateFingerprint),
              Get(fields, CoverageFingerprint), Get(fields, DesiredInventoryFingerprint),
              Get(fields, EmbeddingProfileFingerprint), Get(fields, EmbeddingProfileId),
              Get(fields, ExecutionLineageId), Get(fields, PredecessorStateId), Get(fields, TargetName))
  }

  function ServingRecordOf(fields: Fields): ServingRecord {
    var activation, rollback := Get(fields, Activation), Get(fields, Rollback);
    var entry := if activation.Object? then activation.fields else map[];
    var candidate := Get(entry, Candidate);
    ServingRecord(CandidacyOf(if candidate.Object? then candidate.fields else map[]), Get(entry, ReceiptId),
                  if rollback.Object? then Some(Get(rollback.fields, ReceiptId)) else None)
  }

  lemma CandidateReads(fields: Fields, active: Json)
    ensures ValidCandidate(fields, active) <==>
              CandidacyOf(fields).Fit() && CandidacyOf(fields).state == active && fields == CandidacyOf(fields).Written()
  {
    hide IsIdentity, IsDigest, IsState, IsFingerprinted;
    IdentitiesAre(active);
    IdentitiesAre(Get(fields, CandidateServingStateId));
    IdentitiesAre(Get(fields, PredecessorStateId));
    IdentitiesAre(Get(fields, CandidateServingStateFingerprint));
    IdentitiesAre(Get(fields, CoverageFingerprint));
    IdentitiesAre(Get(fields, DesiredInventoryFingerprint));
    IdentitiesAre(Get(fields, EmbeddingProfileFingerprint));
  }

  lemma WrittenCandidacyIs(c: Candidacy)
    ensures CandidacyOf(c.Written()) == c
  {
  }

  lemma EntryReads(entry: Json)
    ensures IsEntry(entry) <==>
              entry.Object? && entry.fields.Keys == {Candidate, ReceiptId} && IsReceipt(Get(entry.fields, ReceiptId))
  {
    if entry.Object? {
      IdentitiesAre(Get(entry.fields, ReceiptId));
    }
  }

  lemma WrittenServingSays(r: ServingRecord)
    ensures var w := r.Written();
            && w.Keys == {Activation, ActiveStateId, Rollback, SchemaId}
            && w[SchemaId] == Json.Text("asklegal.local-serving-state/v1") && w[ActiveStateId] == r.candidacy.state
            && w[Activation] == r.Entry(r.receipt)
            && w[Rollback] == if r.again.None? then Null else r.Entry(r.again.value)
  {
  }

  lemma EntrySays(r: ServingRecord, id: Json)
    ensures var e := r.Entry(id);
            && e.Object? && e.fields.Keys == {Candidate, ReceiptId}
            && e.fields[Candidate] == Object(r.candidacy.Written()) && e.fields[ReceiptId] == id
  {
  }

  lemma SameEntry(a: Json, b: Json)
    requires a.Object? && b.Object? && a.fields.Keys == b.fields.Keys == {Candidate, ReceiptId}
    requires a.fields[Candidate] == b.fields[Candidate] && a.fields[ReceiptId] == b.fields[ReceiptId]
    ensures a == b
  {
    assert a.fields == b.fields;
  }

  lemma SameServingFields(a: Fields, b: Fields)
    requires a.Keys == b.Keys == {Activation, ActiveStateId, Rollback, SchemaId}
    requires a[SchemaId] == b[SchemaId] && a[ActiveStateId] == b[ActiveStateId] && a[Activation] == b[Activation] && a[Rollback] == b[Rollback]
    ensures a == b
  {
  }

  lemma ServingRecordSays(fields: Fields)
    ensures var r := ServingRecordOf(fields);
            && (Get(fields, Activation).Object? ==> r.receipt == Get(Get(fields, Activation).fields, ReceiptId))
            && (Get(fields, Activation).Object? && Get(Get(fields, Activation).fields, Candidate).Object? ==>
                  r.candidacy == CandidacyOf(Get(Get(fields, Activation).fields, Candidate).fields))
            && r.again == if Get(fields, Rollback).Object? then Some(Get(Get(fields, Rollback).fields, ReceiptId)) else None
  {
  }

  lemma ServingReadMeansWritten(owners: Owners, raw: Bytes)
    requires ServingBinding(owners, raw).Success?
    ensures raw.Canonical? && raw.json.Object?
    ensures ServingRecordOf(raw.json.fields).Fit() && Delivered(owners, raw, ServingRecordOf(raw.json.fields).Written())
    ensures var c := ServingRecordOf(raw.json.fields).candidacy;
            ServingBinding(owners, raw) == Success(Serving(c.state, c.fingerprint))
  {
    hide IsEntry, ValidCandidate, IsReceipt, Candidacy.Written, CandidacyOf, ServingRecord.Written, ServingRecord.Entry,
      ServingRecordOf, IsState, IsFingerprinted, Says;
    var fields := raw.json.fields;
    var r := ServingRecordOf(fields);
    EntryReads(Get(fields, Activation));
    EntryReads(Get(fields, Rollback));
    ServingRecordSays(fields);
    WrittenServingSays(r);
    var candidate := Get(Get(fields, Activation).fields, Candidate).fields;
    CandidateReads(candidate, fields[ActiveStateId]);
    CandidacySays(candidate);
    EntrySays(r, r.receipt);
    SameEntry(fields[Activation], r.Entry(r.receipt));
    if r.again.Some? {
      EntrySays(r, r.again.value);
      SameEntry(fields[Rollback], r.Entry(r.again.value));
    }
    SameServingFields(fields, r.Written());
  }

  lemma CandidacySays(fields: Fields)
    ensures CandidacyOf(fields).state == Get(fields, CandidateServingStateId)
    ensures CandidacyOf(fields).fingerprint == Get(fields, CandidateServingStateFingerprint)
  {
  }

  lemma ServingWrites(owners: Owners, r: ServingRecord)
    requires r.Fit() && owners.size(Canonical(Object(r.Written()))) <= 10_000_000
    ensures ServingBinding(owners, Canonical(Object(r.Written()))) == Success(Serving(r.candidacy.state, r.candidacy.fingerprint))
  {
    hide IsEntry, ValidCandidate, IsReceipt, Candidacy.Written, Candidacy.Fit, CandidacyOf, ServingRecord.Written, ServingRecord.Entry,
      IsState, IsFingerprinted, Says;
    WrittenServingSays(r);
    EntrySays(r, r.receipt);
    EntryReads(r.Entry(r.receipt));
    WrittenCandidacyIs(r.candidacy);
    CandidacySays(r.candidacy.Written());
    CandidateReads(r.candidacy.Written(), r.candidacy.state);
    if r.again.Some? {
      EntrySays(r, r.again.value);
      EntryReads(r.Entry(r.again.value));
    }
  }

  /**
   The serving state that is read is one whose producer wrote it so, and no other; its identity is that
   of the activated candidate, and its fingerprint the candidate's own.
   */
  lemma ServingReads(owners: Owners, raw: Bytes)
    ensures ServingBinding(owners, raw).Success? <==> exists r: ServingRecord :: r.Fit() && Delivered(owners, raw, r.Written())
    ensures forall r: ServingRecord | r.Fit() && Delivered(owners, raw, r.Written()) ::
              ServingBinding(owners, raw) == Success(Serving(r.candidacy.state, r.candidacy.fingerprint))
  {
    hide ServingBinding, ServingRecordOf, ServingRecord.Fit, ServingRecord.Written;
    if ServingBinding(owners, raw).Success? {
      ServingReadMeansWritten(owners, raw);
    }
    forall r: ServingRecord | r.Fit() && Delivered(owners, raw, r.Written())
      ensures ServingBinding(owners, raw) == Success(Serving(r.candidacy.state, r.candidacy.fingerprint))
    {
      ServingWrites(owners, r);
    }
  }

  // ----- cycles ------------------------------------------------------------------------

  /** Where a cycle's proposal lies in the vault. */
  datatype Stored = Stored(logicalKey: Json, versionId: Json, fingerprint: Json, byteLength: int)

  datatype CycleRecord = CycleRecord(operationId: Json, command: Json, cutoff: Json, scopes: seq<Json>, proposal: Option<Stored>)
  {
    function Reference(): Json {
      match proposal
      case None => Null
      case Some(p) =>
        Object(map[Vault := Json.Text("PRIMARY"), LogicalKey := p.logicalKey, VersionId := p.versionId,
                   Fingerprint := p.fingerprint, ByteLength := Number(p.byteLength)])
    }

    function Written(kind: string, outcome: string): Fields {
      map[SchemaId := Json.Text("asklegal.hk-v1.acceptance-cycle-result"), SchemaVersion := Json.Text("1.0.0"),
          Kind := Json.Text(kind), OperationId := operationId, CommandFingerprint := command,
          ObservationCutoff := cutoff, Families := Array([Json.Text("CASES"), Json.Text("LEGISLATION")]),
          ScopeIds := Array(scopes), Outcome := Json.Text(outcome), BlockerCodes := Array([]), ProposalReference := Reference()]
    }

    predicate Fit(owners: Owners, outcome: string) {
      && IsFingerprinted(command) && owners.time(cutoff).Some?
      && (proposal.Some? <==> outcome == "PROPOSAL_READY")
      && (proposal.Some? ==> IsFingerprinted(proposal.value.fingerprint) && proposal.value.byteLength > 0)
    }
  }

  function StoredOf(reference: Json): Option<Stored> {
    if !reference.Object? then None
    else
      var length := Get(reference.fields, ByteLength);
      Some(Stored(Get(reference.fields, LogicalKey), Get(reference.fields, VersionId), Get(reference.fields, Fingerprint),
                  if length.Number? then length.number else 0))
  }

  function CycleRecordOf(fields: Fields): CycleRecord {
    var scopes := Get(fields, ScopeIds);
    CycleRecord(Get(fields, OperationId), Get(fields, CommandFingerprint), Get(fields, ObservationCutoff),
                if scopes.Array? then scopes.items else [], StoredOf(Get(fields, ProposalReference)))
  }

  lemma WrittenCycleIs(r: CycleRecord, kind: string, outcome: string)
    ensures CycleRecordOf(r.Written(kind, outcome)) == r
  {
  }

  lemma ReferenceReads(reference: Json)
    ensures IsProposal(reference) <==>
              var stored := StoredOf(reference);
              && stored.Some? && IsFingerprinted(stored.value.fingerprint) && stored.value.byteLength > 0
              && reference == CycleRecord(Null, Null, Null, [], stored).Reference()
  {
    hide IsDigest, IsFingerprinted;
    if reference.Object? {
      IdentitiesAre(Get(reference.fields, Fingerprint));
      if IsProposal(reference) {
        var again := CycleRecord(Null, Null, Null, [], StoredOf(reference)).Reference();
        assert reference.fields == again.fields;
      }
    }
  }

  lemma WrittenCycleSays(r: CycleRecord, kind: string, outcome: string)
    ensures var w := r.Written(kind, outcome);
            && w.Keys == CYCLE_FIELDS
            && w[SchemaId] == Json.Text("asklegal.hk-v1.acceptance-cycle-result") && w[SchemaVersion] == VERSION
            && w[Kind] == Json.Text(kind) && w[OperationId] == r.operationId && w[CommandFingerprint] == r.command
            && w[ObservationCutoff] == r.cutoff && w[Families] == Array([Json.Text("CASES"), Json.Text("LEGISLATION")])
            && w[ScopeIds] == Array(r.scopes) && w[Outcome] == Json.Text(outcome) && w[BlockerCodes] == Array([])
            && w[ProposalReference] == r.Reference()
  {
  }

  lemma SameCycleFields(a: Fields, b: Fields)
    requires a.Keys == b.Keys == CYCLE_FIELDS
    requires a[SchemaId] == b[SchemaId] && a[SchemaVersion] == b[SchemaVersion] && a[Kind] == b[Kind]
    requires a[OperationId] == b[OperationId] && a[CommandFingerprint] == b[CommandFingerprint]
    requires a[ObservationCutoff] == b[ObservationCutoff] && a[Families] == b[Families] && a[ScopeIds] == b[ScopeIds]
    requires a[Outcome] == b[Outcome] && a[BlockerCodes] == b[BlockerCodes] && a[ProposalReference] == b[ProposalReference]
    ensures a == b
  {
  }

  /** A cycle of the given kind and outcome is read exactly if it was written as one. */
  lemma CycleReads(owners: Owners, raw: Bytes, kind: string, outcome: string)
    ensures ReadCycle(owners, raw, kind, outcome).Success? <==>
              && raw.Canonical? && raw.json.Object?
              && CycleRecordOf(raw.json.fields).Fit(owners, outcome)
              && Delivered(owners, raw, CycleRecordOf(raw.json.fields).Written(kind, outcome))
    ensures ReadCycle(owners, raw, kind, outcome).Success? ==> ReadCycle(owners, raw, kind, outcome) == Success(raw.json.fields)
  {
    hide IsProposal, IsFingerprinted, IsDigest, CycleRecord.Reference, CycleRecord.Written, StoredOf;
    if raw.Canonical? && raw.json.Object? {
      var fields := raw.json.fields;
      var r := CycleRecordOf(fields);
      ReferenceReads(Get(fields, ProposalReference));
      ReferenceIs(r);
      IdentitiesAre(Get(fields, CommandFingerprint));
      WrittenCycleSays(r, kind, outcome);
      NoReference(Get(fields, ProposalReference));
      if ReadCycle(owners, raw, kind, outcome).Success? {
        SameCycleFields(fields, r.Written(kind, outcome));
      }
    }
  }

  lemma NoReference(reference: Json)
    ensures reference == Null ==> StoredOf(reference) == None
  {
  }

  lemma ReferenceIs(r: CycleRecord)
    ensures r.Reference() == CycleRecord(Null, Null, Null, [], r.proposal).Reference()
    ensures r.proposal.None? ==> r.Reference() == Null
  {
  }

  // ----- promotions --------------------------------------------------------------------

  function PromotionWritten(operation: string, p: Promotion): Fields {
    map[SchemaId := Json.Text("asklegal.hk-v1-promotion-readback/v1"), SchemaVersion := Json.Text("1.0.0"),
        Operation := Json.Text(operation), Outcome := Json.Text("COMPLETE"),
        ProposalFingerprint := p.proposal, ApprovalFingerprint := p.approval,
        PredecessorServingStateId := p.fromState, PredecessorServingStateFingerprint := p.fromFingerprint,
        PredecessorTargetName := p.fromTarget, PredecessorTargetFingerprint := p.fromTargetFingerprint,
        ServingStateId := p.stateId, ServingStateFingerprint := p.stateFingerprint,
        TargetName := p.target, TargetFingerprint := p.targetFingerprint,
        BackupFingerprint := p.backup, ReadbackFingerprint := p.readback]
  }

  /** A first promotion names no more of its predecessor than the state; any other operation all of it, and leaves it. */
  predicate PromotionFit(operation: string, p: Promotion) {
    && IsState(p.fromState) && IsState(p.stateId) && Says(p.target)
    && IsFingerprinted(p.proposal) && IsFingerprinted(p.approval) && IsFingerprinted(p.stateFingerprint)
    && IsFingerprinted(p.targetFingerprint) && IsFingerprinted(p.backup) && IsFingerprinted(p.readback)
    && (if operation == "PROMOTION" then p.fromFingerprint == p.fromTarget == p.fromTargetFingerprint == Null
        else
          && Says(p.fromFingerprint) && Says(p.fromTarget) && Says(p.fromTargetFingerprint)
          && p.fromState != p.stateId && p.fromTarget != p.target && p.fromTargetFingerprint != p.targetFingerprint)
    && p.seal == Json.Sha256(Canonical(Object(PromotionWritten(operation, p))))
  }

  /** The readback as it is delivered: its body, and the body's digest beside it. */
  predicate PromotionDelivered(owners: Owners, raw: Bytes, operation: string, p: Promotion) {
    PromotionFit(operation, p) && Delivered(owners, raw, PromotionWritten(operation, p)[Fingerprint := p.seal])
  }

  lemma PromotionWrittenKeys(operation: string, p: Promotion)
    ensures PromotionWritten(operation, p).Keys == PROMOTION_FIELDS + {SchemaId, SchemaVersion} && Fingerprint !in PROMOTION_FIELDS
  {
  }

  lemma PromotionWrittenFrom(operation: string, p: Promotion)
    requires PromotionWritten(operation, p).Keys == PROMOTION_FIELDS + {SchemaId, SchemaVersion}
    ensures var w := PromotionWritten(operation, p);
            && w[SchemaId] == Json.Text("asklegal.hk-v1-promotion-readback/v1") && w[SchemaVersion] == VERSION
            && w[Operation] == Json.Text(operation) && w[Outcome] == COMPLETE
            && w[PredecessorServingStateId] == p.fromState && w[PredecessorServingStateFingerprint] == p.fromFingerprint
            && w[PredecessorTargetName] == p.fromTarget && w[PredecessorTargetFingerprint] == p.fromTargetFingerprint
  {
    hide IsText;
  }

  lemma PromotionWrittenTo(operation: string, p: Promotion)
    requires PromotionWritten(operation, p).Keys == PROMOTION_FIELDS + {SchemaId, SchemaVersion}
    ensures var w := PromotionWritten(operation, p);
            && w[ProposalFingerprint] == p.proposal && w[ApprovalFingerprint] == p.approval
            && w[ServingStateId] == p.stateId && w[ServingStateFingerprint] == p.stateFingerprint
            && w[TargetName] == p.target && w[TargetFingerprint] == p.targetFingerprint
            && w[BackupFingerprint] == p.backup && w[ReadbackFingerprint] == p.readback
  {
  }

  lemma PromotionWrittenSays(operation: string, p: Promotion)
    ensures var w := PromotionWritten(operation, p);
            && w.Keys == PROMOTION_FIELDS + {SchemaId, SchemaVersion} && Fingerprint !in PROMOTION_FIELDS
            && w[SchemaId] == Json.Text("asklegal.hk-v1-promotion-readback/v1") && w[SchemaVersion] == VERSION
            && w[Operation] == Json.Text(operation) && w[Outcome] == COMPLETE
            && w[ProposalFingerprint] == p.proposal && w[ApprovalFingerprint] == p.approval
            && w[PredecessorServingStateId] == p.fromState && w[PredecessorServingStateFingerprint] == p.fromFingerprint
            && w[PredecessorTargetName] == p.fromTarget && w[PredecessorTargetFingerprint] == p.fromTargetFingerprint
            && w[ServingStateId] == p.stateId && w[ServingStateFingerprint] == p.stateFingerprint
            && w[TargetName] == p.target && w[TargetFingerprint] == p.targetFingerprint
            && w[BackupFingerprint] == p.backup && w[ReadbackFingerprint] == p.readback
  {
    hide PromotionWritten;
    PromotionWrittenKeys(operation, p);
    PromotionWrittenFrom(operation, p);
    PromotionWrittenTo(operation, p);
  }

  lemma SamePromotionFields(a: Fields, b: Fields)
    requires a.Keys == b.Keys == PROMOTION_FIELDS + {SchemaId, SchemaVersion}
    requires a[SchemaId] == b[SchemaId] && a[SchemaVersion] == b[SchemaVersion] && a[Operation] == b[Operation] && a[Outcome] == b[Outcome]
    requires a[ProposalFingerprint] == b[ProposalFingerprint] && a[ApprovalFingerprint] == b[ApprovalFingerprint]
    requires a[PredecessorServingStateId] == b[PredecessorServingStateId]
    requires a[PredecessorServingStateFingerprint] == b[PredecessorServingStateFingerprint]
    requires a[PredecessorTargetName] == b[PredecessorTargetName]
    requires a[PredecessorTargetFingerprint] == b[PredecessorTargetFingerprint]
    requires a[ServingStateId] == b[ServingStateId] && a[ServingStateFingerprint] == b[ServingStateFingerprint]
    requires a[TargetName] == b[TargetName] && a[TargetFingerprint] == b[TargetFingerprint]
    requires a[BackupFingerprint] == b[BackupFingerprint] && a[ReadbackFingerprint] == b[ReadbackFingerprint]
    ensures a == b
  {
  }

  lemma SaysIs(value: Json)
    ensures IsText(value) <==> Says(value)
  {
  }

  lemma PromotionValuesAre(p: Promotion)
    ensures IsIdentity(p.fromState, "srv_") == IsState(p.fromState) && IsIdentity(p.stateId, "srv_") == IsState(p.stateId)
    ensures IsText(p.target) == Says(p.target)
    ensures IsDigest(p.proposal) == IsFingerprinted(p.proposal) && IsDigest(p.approval) == IsFingerprinted(p.approval)
    ensures IsDigest(p.stateFingerprint) == IsFingerprinted(p.stateFingerprint)
    ensures IsDigest(p.targetFingerprint) == IsFingerprinted(p.targetFingerprint)
    ensures IsDigest(p.backup) == IsFingerprinted(p.backup) && IsDigest(p.readback) == IsFingerprinted(p.readback)
    ensures IsText(p.fromFingerprint) == Says(p.fromFingerprint) && IsText(p.fromTarget) == Says(p.fromTarget)
    ensures IsText(p.fromTargetFingerprint) == Says(p.fromTargetFingerprint)
  {
    hide IsIdentity, IsDigest, IsText, IsState, IsFingerprinted, Says;
    IdentitiesAre(p.fromState);
    IdentitiesAre(p.stateId);
    IdentitiesAre(p.proposal);
    IdentitiesAre(p.approval);
    IdentitiesAre(p.stateFingerprint);
    IdentitiesAre(p.targetFingerprint);
    IdentitiesAre(p.backup);
    IdentitiesAre(p.readback);
    SaysIs(p.target);
    SaysIs(p.fromFingerprint);
    SaysIs(p.fromTarget);
    SaysIs(p.fromTargetFingerprint);
  }

  lemma PromotionReadMeansWritten(owners: Owners, raw: Bytes, operation: string)
    requires ReadPromotion(owners, raw, operation).Success?
    ensures PromotionDelivered(owners, raw, operation, ReadPromotion(owners, raw, operation).value)
  {
    hide IsIdentity, IsDigest, IsText, IsState, IsFingerprinted, Says, PromotionWritten;
    var p := ReadPromotion(owners, raw, operation).value;
    PromotionValuesAre(p);
    PromotionWrittenSays(operation, p);
    SealedIsSeal(raw);
    var body := raw.json.fields - {Fingerprint};
    SamePromotionFields(body, PromotionWritten(operation, p));
  }

  lemma PromotionWrites(owners: Owners, raw: Bytes, operation: string, p: Promotion)
    requires PromotionDelivered(owners, raw, operation, p)
    ensures ReadPromotion(owners, raw, operation) == Success(p)
  {
    hide IsIdentity, IsDigest, IsText, IsState, IsFingerprinted, Says, PromotionWritten;
    PromotionValuesAre(p);
    PromotionWrittenSays(operation, p);
    var body := PromotionWritten(operation, p);
    SealedOpens(owners.size, body, "asklegal.hk-v1-promotion-readback/v1", PROMOTION_FIELDS);
    assert PromotionOf(body[Fingerprint := p.seal]) == p;
  }

  /** A promotion readback is read exactly if it was written as one, sealed, and every value comes back in its own place. */
  lemma PromotionReads(owners: Owners, raw: Bytes, operation: string)
    ensures ReadPromotion(owners, raw, operation).Success? <==> exists p :: PromotionDelivered(owners, raw, operation, p)
    ensures forall p | PromotionDelivered(owners, raw, operation, p) :: ReadPromotion(owners, raw, operation) == Success(p)
  {
    hide ReadPromotion, PromotionDelivered;
    if ReadPromotion(owners, raw, operation).Success? {
      PromotionReadMeansWritten(owners, raw, operation);
    }
    forall p | PromotionDelivered(owners, raw, operation, p) ensures ReadPromotion(owners, raw, operation) == Success(p) {
      PromotionWrites(owners, raw, operation, p);
    }
  }

  // ----- scheduled cycles --------------------------------------------------------------

  /** A scheduled cycle with the three artifacts it was derived from, in whatever spelling of their digits. */
  datatype ScheduledRecord = ScheduledRecord(
    parts: CycleParts, root: Json, state: Bytes, host: Bytes, output: Bytes, spelling: (nat, nat, nat))
  {
    function Written(): Fields {
      map[SchemaId := Json.Text("asklegal.hk-v1-scheduled-cycle-readback/v1"), SchemaVersion := Json.Text("1.0.0"),
          ScheduleKind := Json.Text(parts.scheduleKind), RootOperationId := root, AttemptOperationId := parts.attemptId,
          BootIdFingerprint := Json.Text(parts.boot), AcceptanceResult := Object(parts.acceptance),
          ScheduleStateHex := Hex(state, spelling.0), ScheduleStateFingerprint := Json.Sha256(state),
          HostFactsHex := Hex(host, spelling.1), HostFactsFingerprint := Json.Sha256(host),
          SchedulerOutputHex := Hex(output, spelling.2), SchedulerOutputFingerprint := Json.Sha256(output)]
    }

    function SealOf(): Json {
      Json.Sha256(Canonical(Object(Written())))
    }

    predicate Fit(owners: Owners) {
      && Says(root) && Raw("") !in {state, host, output}
      && owners.cycleParts(state, host, root, output) == Some(parts)
    }

    predicate In(owners: Owners, raw: Bytes) {
      Fit(owners) && Delivered(owners, raw, Written()[Fingerprint := SealOf()])
    }

    function Value(): Scheduled {
      Scheduled(parts, root, Json.Sha256(state), Json.Sha256(output), SealOf())
    }
  }

  lemma ScheduledWrittenSays(r: ScheduledRecord)
    ensures var w := r.Written();
            && w.Keys == SCHEDULED_FIELDS + {SchemaId, SchemaVersion} && Fingerprint !in SCHEDULED_FIELDS
            && w[SchemaId] == Json.Text(SCHEDULED_SCHEMA) && w[SchemaVersion] == VERSION
            && w[ScheduleKind] == Json.Text(r.parts.scheduleKind) && w[RootOperationId] == r.root
            && w[AttemptOperationId] == r.parts.attemptId && w[BootIdFingerprint] == Json.Text(r.parts.boot)
            && w[AcceptanceResult] == Object(r.parts.acceptance)
            && w[ScheduleStateHex] == Hex(r.state, r.spelling.0) && w[ScheduleStateFingerprint] == Json.Sha256(r.state)
            && w[HostFactsHex] == Hex(r.host, r.spelling.1) && w[HostFactsFingerprint] == Json.Sha256(r.host)
            && w[SchedulerOutputHex] == Hex(r.output, r.spelling.2) && w[SchedulerOutputFingerprint] == Json.Sha256(r.output)
  {
    hide ScheduledRecord.Written;
    ScheduledWrittenKeys(r);
    ScheduledWrittenParts(r);
    ScheduledWrittenArtifacts(r);
  }

  lemma ScheduledWrittenKeys(r: ScheduledRecord)
    ensures r.Written().Keys == SCHEDULED_FIELDS + {SchemaId, SchemaVersion} && Fingerprint !in SCHEDULED_FIELDS
  {
  }

  lemma ScheduledWrittenParts(r: ScheduledRecord)
    requires r.Written().Keys == SCHEDULED_FIELDS + {SchemaId, SchemaVersion}
    ensures var w := r.Written();
            && w[SchemaId] == Json.Text(SCHEDULED_SCHEMA) && w[SchemaVersion] == VERSION
            && w[ScheduleKind] == Json.Text(r.parts.scheduleKind) && w[RootOperationId] == r.root
            && w[AttemptOperationId] == r.parts.attemptId && w[BootIdFingerprint] == Json.Text(r.parts.boot)
            && w[AcceptanceResult] == Object(r.parts.acceptance)
  {
  }

  lemma ScheduledWrittenArtifacts(r: ScheduledRecord)
    requires r.Written().Keys == SCHEDULED_FIELDS + {SchemaId, SchemaVersion}
    ensures var w := r.Written();
            && w[ScheduleStateHex] == Hex(r.state, r.spelling.0) && w[ScheduleStateFingerprint] == Json.Sha256(r.state)
            && w[HostFactsHex] == Hex(r.host, r.spelling.1) && w[HostFactsFingerprint] == Json.Sha256(r.host)
            && w[SchedulerOutputHex] == Hex(r.output, r.spelling.2) && w[SchedulerOutputFingerprint] == Json.Sha256(r.output)
  {
  }

  lemma SameScheduledFields(a: Fields, b: Fields)
    requires a.Keys == b.Keys == SCHEDULED_FIELDS + {SchemaId, SchemaVersion}
    requires a[SchemaId] == b[SchemaId] && a[SchemaVersion] == b[SchemaVersion] && a[ScheduleKind] == b[ScheduleKind]
    requires a[RootOperationId] == b[RootOperationId] && a[AttemptOperationId] == b[AttemptOperationId]
    requires a[BootIdFingerprint] == b[BootIdFingerprint] && a[AcceptanceResult] == b[AcceptanceResult]
    requires a[ScheduleStateHex] == b[ScheduleStateHex] && a[ScheduleStateFingerprint] == b[ScheduleStateFingerprint]
    requires a[HostFactsHex] == b[HostFactsHex] && a[HostFactsFingerprint] == b[HostFactsFingerprint]
    requires a[SchedulerOutputHex] == b[SchedulerOutputHex] && a[SchedulerOutputFingerprint] == b[SchedulerOutputFingerprint]
    ensures a == b
  {
  }

  /** The record behind a readback's fields, where its three artifacts are there to be read. */
  function ScheduledRecordOf(owners: Owners, fields: Fields): (r: Option<ScheduledRecord>)
  {
    var state, host, output := Get(fields, ScheduleStateHex), Get(fields, HostFactsHex), Get(fields, SchedulerOutputHex);
    if !state.Hex? || !host.Hex? || !output.Hex? then None
    else
      var root := Get(fields, RootOperationId);
      match owners.cycleParts(state.content, host.content, root, output.content)
      case None => None
      case Some(parts) =>
        Some(ScheduledRecord(parts, root, state.content, host.content, output.content,
                             (state.spelling, host.spelling, output.spelling)))
  }

  lemma ScheduledParsedMeansWritten(owners: Owners, raw: Bytes)
    requires ParseScheduled(owners, raw).Success?
    ensures raw.Canonical? && raw.json.Object? && ScheduledRecordOf(owners, raw.json.fields).Some?
    ensures var r := ScheduledRecordOf(owners, raw.json.fields).value;
            r.In(owners, raw) && ParseScheduled(owners, raw) == Success(r.Value())
  {
    hide IsText, Says, ScheduledRecord.Written, IsSealed;
    var fields := raw.json.fields;
    SaysIs(Get(fields, RootOperationId));
    var r := ScheduledRecordOf(owners, fields).value;
    ScheduledWrittenSays(r);
    SealedIsSeal(raw);
    SameScheduledFields(fields - {Fingerprint}, r.Written());
  }

  lemma ScheduledWrites(owners: Owners, raw: Bytes, r: ScheduledRecord)
    requires r.In(owners, raw)
    ensures ParseScheduled(owners, raw) == Success(r.Value())
  {
    hide IsText, Says, ScheduledRecord.Written, IsSealed;
    SaysIs(r.root);
    ScheduledWrittenSays(r);
    SealedOpens(owners.size, r.Written(), SCHEDULED_SCHEMA, SCHEDULED_FIELDS);
  }

  /** A scheduled-cycle readback is read exactly if it was written as one, from artifacts that its owners derive it from. */
  lemma ScheduledReads(owners: Owners, raw: Bytes)
    ensures ParseScheduled(owners, raw).Success? <==> exists r: ScheduledRecord :: r.In(owners, raw)
    ensures forall r: ScheduledRecord | r.In(owners, raw) :: ParseScheduled(owners, raw) == Success(r.Value())
  {
    hide ParseScheduled, ScheduledRecord.In, ScheduledRecord.Value, ScheduledRecordOf;
    if ParseScheduled(owners, raw).Success? {
      ScheduledParsedMeansWritten(owners, raw);
    }
    forall r: ScheduledRecord | r.In(owners, raw) ensures ParseScheduled(owners, raw) == Success(r.Value()) {
      ScheduledWrites(owners, raw, r);
    }
  }

  /** What the builder freezes is such a record, with its digits plainly spelt. */
  lemma ScheduledBuilds(owners: Owners, parts: CycleParts, root: Json, state: Bytes, host: Bytes, output: Bytes)
    ensures var r := ScheduledRecord(parts, root, state, host, output, (0, 0, 0));
            r.Fit(owners) ==> BuildScheduled(owners, state, host, root, output)
                              == Success(Canonical(Object(r.Written()[Fingerprint := r.SealOf()])))
    ensures BuildScheduled(owners, state, host, root, output).Success? ==>
              exists p :: ScheduledRecord(p, root, state, host, output, (0, 0, 0)).Fit(owners)
  {
    hide IsText, Says;
    SaysIs(root);
    var r := ScheduledRecord(parts, root, state, host, output, (0, 0, 0));
    assert r.Written() == ScheduledBody(state, host, root, output, parts);
    if BuildScheduled(owners, state, host, root, output).Success? {
      var p := owners.cycleParts(state, host, root, output).value;
      assert ScheduledRecord(p, root, state, host, output, (0, 0, 0)).Fit(owners);
    }
  }

  // ----- Gate F ------------------------------------------------------------------------

  /** What each owner says of its own source, and that the host and the restart agree on the boot. */
  predicate Vouched(owners: Owners, s: FSources, boot: string, restart: Restart) {
    && Raw("") !in {s.schedule, s.host, s.status, s.supervision, s.recovery, s.restart}
    && owners.schedule(s.schedule) && owners.status(s.status) && owners.recovery(s.recovery)
    && owners.supervision(s.supervision, s.host)
    && owners.host(s.host) == Some(boot) && owners.restart(s.restart, s.host) == Some(restart)
    && restart.postBoot == boot
  }

  /** Gate F is built exactly from sources that all their owners vouch for and a serving state that reads. */
  lemma FSourcesAreVouched(owners: Owners, s: FSources)
    ensures ValidateF(owners, s).Success? <==>
              && ServingBinding(owners, s.serving).Success?
              && exists boot, restart :: Vouched(owners, s, boot, restart)
    ensures forall boot, restart | Vouched(owners, s, boot, restart) && ServingBinding(owners, s.serving).Success? ::
              ValidateF(owners, s) == Success(FDerived(boot, restart, ServingBinding(owners, s.serving).value))
  {
    hide ServingBinding;
    if ValidateF(owners, s).Success? {
      var d := ValidateF(owners, s).value;
      assert Vouched(owners, s, d.boot, d.restart);
    }
  }

  function Embedded(kind: string, owner: string, content: Bytes): Json {
    Object(map[Kind := Json.Text(kind), Owner := Json.Text(owner), ContentHex := Hex(content, 0), Fingerprint := Json.Sha256(content)])
  }

  function FWritten(s: FSources, boot: string, serving: Serving): Fields {
    map[SchemaId := Json.Text("asklegal.hk-v1-gate-f-operational-evidence/v1"), SchemaVersion := Json.Text("1.0.0"),
        Outcome := Json.Text("COMPLETE"),
        ServingStateId := serving.stateId, ServingStateFingerprint := serving.fingerprint,
        ServingStateHex := Hex(s.serving, 0), ServingStateContentFingerprint := Json.Sha256(s.serving),
        BootIdFingerprint := Json.Text(boot),
        Artifacts := Array([Embedded("HOST", "HOST_COLLECTOR", s.host),
                            Embedded("OBSERVABILITY", "OBSERVABILITY", s.status),
                            Embedded("RECOVERY", "RECOVERY_TOOL", s.recovery),
                            Embedded("RESTART", "HOST_OPERATOR", s.restart),
                            Embedded("SCHEDULE", "CONTROL_PLANE", s.schedule),
                            Embedded("SUPERVISION", "HOST_OPERATOR", s.supervision)])]
  }

  /** The composite, written out: each source under its own kind and owner. */
  lemma FBuilds(owners: Owners, s: FSources)
    requires BuildF(owners, s).Success?
    ensures var d, w := ValidateF(owners, s).value, FWritten(s, ValidateF(owners, s).value.boot, ValidateF(owners, s).value.serving);
            BuildF(owners, s).value == Canonical(Object(w[Fingerprint := Json.Sha256(Canonical(Object(w)))]))
  {
    hide ValidateF;
    var d := ValidateF(owners, s).value;
    FBodyIsWritten(s, d);
  }

  lemma FBodyIsWritten(s: FSources, d: FDerived)
    ensures FBody(s, d) == FWritten(s, d.boot, d.serving)
  {
    FArtifactsAre(s);
  }

  lemma FArtifactsAre(s: FSources)
    ensures ArtifactsOf(F_SLOTS, FContents(s)) ==
            [Embedded("HOST", "HOST_COLLECTOR", s.host), Embedded("OBSERVABILITY", "OBSERVABILITY", s.status),
             Embedded("RECOVERY", "RECOVERY_TOOL", s.recovery), Embedded("RESTART", "HOST_OPERATOR", s.restart),
             Embedded("SCHEDULE", "CONTROL_PLANE", s.schedule), Embedded("SUPERVISION", "HOST_OPERATOR", s.supervision)]
  {
    EmbeddedIs("HOST", "HOST_COLLECTOR", s.host);
    EmbeddedIs("OBSERVABILITY", "OBSERVABILITY", s.status);
    EmbeddedIs("RECOVERY", "RECOVERY_TOOL", s.recovery);
    EmbeddedIs("RESTART", "HOST_OPERATOR", s.restart);
    EmbeddedIs("SCHEDULE", "CONTROL_PLANE", s.schedule);
    EmbeddedIs("SUPERVISION", "HOST_OPERATOR", s.supervision);
    hide Embedded, Artifact;
  }

  lemma EmbeddedIs(kind: string, owner: string, content: Bytes)
    ensures Artifact(kind, owner, content) == Embedded(kind, owner, content)
  {
    var a, b := Artifact(kind, owner, content), Embedded(kind, owner, content);
    assert a.fields == b.fields;
  }

  // ----- Gate G ------------------------------------------------------------------------

  function GArtifacts(s: GSources): seq<Json> {
    [Embedded("BASELINE_CYCLE", "CONTROL_PLANE", s.baselineCycle), Embedded("BASELINE_PROMOTION", "PROMOTION_WORKER", s.baselinePromotion),
     Embedded("CHANGED_CYCLE", "CONTROL_PLANE", s.changedCycle), Embedded("CHANGED_PROMOTION", "PROMOTION_WORKER", s.changedPromotion),
     Embedded("NO_CHANGE_CYCLE", "CONTROL_PLANE", s.noChangeCycle),
     Embedded("PRE_REBOOT", "CONTROL_PLANE", s.preReboot), Embedded("POST_REBOOT", "CONTROL_PLANE", s.postReboot),
     Embedded("ROLLBACK", "PROMOTION_WORKER", s.rollback), Embedded("RESTORATION", "PROMOTION_WORKER", s.restoration),
     Embedded("POST_REBOOT_NO_CHANGE_CYCLE", "CONTROL_PLANE", s.postRebootNoChangeCycle),
     Embedded("POST_REBOOT_CHANGED_CYCLE", "CONTROL_PLANE", s.postRebootChangedCycle),
     Embedded("NEXT_HEALTH", "CONTROL_PLANE", s.nextHealth)]
  }

  function GWritten(s: GSources, baseline: Json, current: Json): Fields {
    map[SchemaId := Json.Text("asklegal.hk-v1-gate-g-live-lineage/v1"), SchemaVersion := Json.Text("1.0.0"),
        Outcome := Json.Text("COMPLETE"), BaselineServingStateId := baseline, CurrentServingStateId := current,
        Artifacts := Array(GArtifacts(s))]
  }

  /** The lineage, written out: each source under its own kind and owner, and the states of its two promotions. */
  lemma GBuilds(owners: Owners, s: GSources)
    requires BuildG(owners, s).Success?
    ensures var g := ValidateG(owners, s).value;
            var w := GWritten(s, g.baseline.stateId, g.changed.stateId);
            BuildG(owners, s).value == Canonical(Object(w[Fingerprint := Json.Sha256(Canonical(Object(w)))]))
  {
    hide ValidateG, GArtifacts;
    GArtifactsAre(s);
    assert GBody(s, ValidateG(owners, s).value)
        == GWritten(s, ValidateG(owners, s).value.baseline.stateId, ValidateG(owners, s).value.changed.stateId);
  }

  lemma GArtifactsAre(s: GSources)
    ensures ArtifactsOf(G_SLOTS, GContents(s)) == GArtifacts(s)
  {
    hide Embedded, Artifact, GArtifacts;
    var a, b := ArtifactsOf(G_SLOTS, GContents(s)), GArtifacts(s);
    TwelveArtifacts(s);
    forall i | 0 <= i < 12 ensures a[i] == b[i] {
      GArtifactAt(s, i);
      EmbeddedIs(G_SLOTS[i].kind, G_SLOTS[i].owner, GContents(s)[i]);
    }
  }

  lemma TwelveArtifacts(s: GSources)
    ensures |GArtifacts(s)| == |GContents(s)| == 12
  {
    hide Embedded;
  }

  lemma GArtifactAt(s: GSources, i: nat)
    requires i < 12
    ensures |GArtifacts(s)| == 12 && |GContents(s)| == 12
    ensures GArtifacts(s)[i] == Embedded(G_SLOTS[i].kind, G_SLOTS[i].owner, GContents(s)[i])
  {
    hide Embedded;
  }
}
