/** Round trips of the Gate composites, and the serving history that an accepted Gate G bundle tells. */
module GateLineage {
  import opened Wrappers
  import opened GateDocuments
  import opened GateEvidence

  // ----- Gate F ------------------------------------------------------------------------

  predicate FNoneEmpty(s: FSources) {
    NoneEmpty(FContents(s)) && s.serving != EMPTY
  }

  lemma FBodyFields(s: FSources, derived: FDerived)
    ensures FBody(s, derived).Keys == F_FIELDS && Fingerprint !in FBody(s, derived)
  {
  }

  lemma FBodySays(s: FSources, derived: FDerived)
    ensures var body := FBody(s, derived);
            && Get(body, SchemaId) == F_SCHEMA && Get(body, SchemaVersion) == VERSION && Get(body, Outcome) == COMPLETE
            && Get(body, ServingStateId) == derived.serving.stateId
            && Get(body, ServingStateFingerprint) == derived.serving.fingerprint
            && Get(body, ServingStateHex) == Hex(s.serving, 0)
            && Get(body, ServingStateContentFingerprint) == Json.Sha256(s.serving)
            && Get(body, BootIdFingerprint) == Json.Text(derived.boot)
            && Get(body, Artifacts) == Array(ArtifactsOf(F_SLOTS, FContents(s)))
  {
  }

  /** A sealed Gate F body opens to the very sources it was made from. */
  lemma FOpens(owners: Owners, s: FSources, derived: FDerived)
    ensures var body := FBody(s, derived);
            OpenF(owners, Seal(body))
            == if owners.size(Seal(body)) <= MAX_BYTES && FNoneEmpty(s)
               then Success((body[Fingerprint := DigestOf(body)], s)) else Failure(CompositeInvalid)
  {
    hide FBody, OpenArtifacts, Artifact, IsSealed, DigestOf, NoneEmpty;
    var body := FBody(s, derived);
    FBodyFields(s, derived);
    FBodySays(s, derived);
    SealOpens(body);
    ArtifactsRoundTrip(F_SLOTS, FContents(s));
  }

  /** The owners refuse empty bytes, so valid sources hold none. */
  lemma ValidSourcesHaveNoEmpty(owners: Owners, s: FSources)
    requires ValidateF(owners, s).Success?
    ensures FNoneEmpty(s)
  {
    ServingIsCanonical(owners, s.serving);
    hide ServingBinding;
  }

  lemma ServingIsCanonical(owners: Owners, raw: Bytes)
    ensures ServingBinding(owners, raw).Success? ==> raw.Canonical?
  {
  }

  /**
   A composite built from valid sources parses exactly when its bytes fit, and then gives every
   source back in its own slot and the same identities.
   */
  lemma GateFRoundTrip(owners: Owners, s: FSources)
    requires BuildF(owners, s).Success?
    ensures var content, derived := BuildF(owners, s).value, ValidateF(owners, s).value;
            && (ParseF(owners, content).Success? <==> owners.size(content) <= MAX_BYTES)
            && (ParseF(owners, content).Success? ==>
                  && OpenF(owners, content).Success? && OpenF(owners, content).value.1 == s
                  && ParseF(owners, content).value
                     == FEvidence(derived.serving.stateId, derived.serving.fingerprint, derived.boot,
                                  derived.restart.operationId, derived.restart.preBoot, DigestOf(FBody(s, derived))))
  {
    hide ServingBinding, OpenF, FBody;
    ValidSourcesHaveNoEmpty(owners, s);
    FOpens(owners, s, ValidateF(owners, s).value);
    FBodySays(s, ValidateF(owners, s).value);
  }

  /** Each embedded text is spelt as `hex()` spells it. */
  predicate PlainF(content: Bytes) {
    && content.Canonical? && content.json.Object?
    && Get(content.json.fields, Artifacts).Array? && PlainArtifacts(Get(content.json.fields, Artifacts).items)
    && Get(content.json.fields, ServingStateHex).Hex? && Get(content.json.fields, ServingStateHex).spelling == 0
  }

  /** Whatever parses was built: rebuilding from its sources gives its own bytes, unless a text is spelt otherwise. */
  lemma ParsedFIsBuilt(owners: Owners, content: Bytes)
    requires ParseF(owners, content).Success?
    ensures var s := OpenF(owners, content).value.1;
            BuildF(owners, s).Success? && (PlainF(content) <==> BuildF(owners, s).value == content)
  {
    hide ServingBinding, FBody, PlainF, Seal, ValidateF;
    var s := OpenF(owners, content).value.1;
    var derived := ValidateF(owners, s).value;
    if PlainF(content) {
      OpenedFIs(owners, content, derived);
    } else if BuildF(owners, s).value == content {
      BuiltIsPlain(s, derived);
    }
  }

  lemma OpenedFIs(owners: Owners, content: Bytes, derived: FDerived)
    requires PlainF(content) && OpenF(owners, content).Success?
    requires var fields := OpenF(owners, content).value.0;
             && Get(fields, BootIdFingerprint) == Json.Text(derived.boot)
             && Get(fields, ServingStateId) == derived.serving.stateId
             && Get(fields, ServingStateFingerprint) == derived.serving.fingerprint
    ensures content == Seal(FBody(OpenF(owners, content).value.1, derived))
  {
    hide Seal, IsSealed, OpenArtifacts, ArtifactsOf;
    var (fields, s) := OpenF(owners, content).value;
    OpenedArtifactsAre(F_SLOTS, fields[Artifacts].items);
    assert FContents(s) == OpenArtifacts(F_SLOTS, fields[Artifacts].items).value;
    SealedIsSeal(content);
    FBodyFields(s, derived);
    FBodySays(s, derived);
    hide FBody;
    SameFFields(fields - {Fingerprint}, FBody(s, derived));
  }

  /** Two bodies with the fields of a Gate F composite are equal field by field. */
  lemma SameFFields(a: Fields, b: Fields)
    requires a.Keys == b.Keys == F_FIELDS
    requires a[SchemaId] == b[SchemaId] && a[SchemaVersion] == b[SchemaVersion] && a[Outcome] == b[Outcome]
    requires a[ServingStateId] == b[ServingStateId] && a[ServingStateFingerprint] == b[ServingStateFingerprint]
    requires a[ServingStateHex] == b[ServingStateHex] && a[ServingStateContentFingerprint] == b[ServingStateContentFingerprint]
    requires a[BootIdFingerprint] == b[BootIdFingerprint] && a[Artifacts] == b[Artifacts]
    ensures a == b
  {
  }

  lemma BuiltIsPlain(s: FSources, derived: FDerived)
    ensures PlainF(Seal(FBody(s, derived)))
  {
    forall i | 0 <= i < |F_SLOTS|
      ensures var value := ArtifactsOf(F_SLOTS, FContents(s))[i];
              value.Object? && Get(value.fields, ContentHex).Hex? && Get(value.fields, ContentHex).spelling == 0
    {
      assert ArtifactsOf(F_SLOTS, FContents(s))[i] == Artifact(F_SLOTS[i].kind, F_SLOTS[i].owner, FContents(s)[i]);
    }
  }

  // ----- scheduled cycles --------------------------------------------------------------

  /** A scheduled-cycle readback reads back what was derived, exactly when it fits. */
  lemma ScheduledRoundTrip(owners: Owners, state: Bytes, host: Bytes, root: Json, output: Bytes)
    requires BuildScheduled(owners, state, host, root, output).Success?
    ensures var content, parts := BuildScheduled(owners, state, host, root, output).value, PartsOf(owners, state, host, root, output).value;
            && (ParseScheduled(owners, content).Success? <==> owners.size(content) <= MAX_BYTES)
            && (ParseScheduled(owners, content).Success? ==>
                  ParseScheduled(owners, content).value
                  == Scheduled(parts, root, Json.Sha256(state), Json.Sha256(output), DigestOf(ScheduledBody(state, host, root, output, parts))))
  {
    hide OpenSealed, ScheduledBody, Seal, DigestOf, IsText;
    var parts := PartsOf(owners, state, host, root, output).value;
    ScheduledSays(state, host, root, output, parts);
    ScheduledOpens(owners, state, host, root, output, parts);
  }

  lemma ScheduledSays(state: Bytes, host: Bytes, root: Json, output: Bytes, parts: CycleParts)
    ensures var body := ScheduledBody(state, host, root, output, parts);
            && Get(body, ScheduleKind) == Json.Text(parts.scheduleKind) && Get(body, RootOperationId) == root
            && Get(body, AttemptOperationId) == parts.attemptId && Get(body, BootIdFingerprint) == Json.Text(parts.boot)
            && Get(body, AcceptanceResult) == Object(parts.acceptance)
            && Get(body, ScheduleStateHex) == Hex(state, 0) && Get(body, ScheduleStateFingerprint) == Json.Sha256(state)
            && Get(body, HostFactsHex) == Hex(host, 0) && Get(body, HostFactsFingerprint) == Json.Sha256(host)
            && Get(body, SchedulerOutputHex) == Hex(output, 0) && Get(body, SchedulerOutputFingerprint) == Json.Sha256(output)
  {
  }

  lemma ScheduledBodyFields(state: Bytes, host: Bytes, root: Json, output: Bytes, parts: CycleParts)
    ensures var body := ScheduledBody(state, host, root, output, parts);
            && body.Keys == SCHEDULED_FIELDS + {SchemaId, SchemaVersion}
            && Fingerprint !in SCHEDULED_FIELDS && Fingerprint !in body
            && body[SchemaId] == Json.Text(SCHEDULED_SCHEMA) && body[SchemaVersion] == VERSION
  {
  }

  lemma ScheduledOpens(owners: Owners, state: Bytes, host: Bytes, root: Json, output: Bytes, parts: CycleParts)
    ensures var body := ScheduledBody(state, host, root, output, parts);
            && Fingerprint !in body
            && OpenSealed(owners.size, Seal(body), SCHEDULED_SCHEMA, SCHEDULED_FIELDS)
               == if owners.size(Seal(body)) <= MAX_BYTES then Some(body[Fingerprint := DigestOf(body)]) else None
  {
    hide OpenSealed, DigestOf, ScheduledBody, Seal;
    var body := ScheduledBody(state, host, root, output, parts);
    ScheduledBodyFields(state, host, root, output, parts);
    SealedOpens(owners.size, body, SCHEDULED_SCHEMA, SCHEDULED_FIELDS);
  }

  // ----- Gate G ------------------------------------------------------------------------

  /** The owners refuse empty bytes, so a valid bundle holds none. */
  lemma ValidBundleHasNoEmpty(owners: Owners, s: GSources)
    requires ReadBundle(owners, s).Success?
    ensures NoneEmpty(GContents(s))
  {
    hide ReadBundle, ReadCycle, ReadPromotion, ParseF, ParseScheduled;
    BundleIsRead(owners, s);
    CycleIsCanonical(owners, s.baselineCycle, "BASELINE", "PROPOSAL_READY");
    CycleIsCanonical(owners, s.changedCycle, "UPDATE", "PROPOSAL_READY");
    CycleIsCanonical(owners, s.noChangeCycle, "UPDATE", "NO_CHANGE");
    PromotionIsCanonical(owners, s.baselinePromotion, "PROMOTION");
    PromotionIsCanonical(owners, s.changedPromotion, "PROMOTION");
    PromotionIsCanonical(owners, s.rollback, "ROLLBACK");
    PromotionIsCanonical(owners, s.restoration, "RESTORATION");
    FIsCanonical(owners, s.preReboot);
    FIsCanonical(owners, s.postReboot);
    FIsCanonical(owners, s.nextHealth);
    ScheduledIsCanonical(owners, s.postRebootNoChangeCycle);
    ScheduledIsCanonical(owners, s.postRebootChangedCycle);
  }

  lemma CycleIsCanonical(owners: Owners, raw: Bytes, kind: string, outcome: string)
    ensures ReadCycle(owners, raw, kind, outcome).Success? ==> raw.Canonical?
  {
  }

  lemma PromotionIsCanonical(owners: Owners, raw: Bytes, operation: string)
    ensures ReadPromotion(owners, raw, operation).Success? ==> raw.Canonical?
  {
  }

  lemma FIsCanonical(owners: Owners, raw: Bytes)
    ensures ParseF(owners, raw).Success? ==> raw.Canonical?
  {
    hide ValidateF;
  }

  lemma ScheduledIsCanonical(owners: Owners, raw: Bytes)
    ensures ParseScheduled(owners, raw).Success? ==> raw.Canonical?
  {
  }

  /** Each part of a bundle is what its owner reads from its source. */
  lemma BundleIsRead(owners: Owners, s: GSources)
    requires ReadBundle(owners, s).Success?
    ensures var g := ReadBundle(owners, s).value;
            && ReadCycle(owners, s.baselineCycle, "BASELINE", "PROPOSAL_READY") == Success(g.baselineCycle)
            && ReadPromotion(owners, s.baselinePromotion, "PROMOTION") == Success(g.baseline)
            && ReadCycle(owners, s.changedCycle, "UPDATE", "PROPOSAL_READY") == Success(g.changedCycle)
            && ReadPromotion(owners, s.changedPromotion, "PROMOTION") == Success(g.changed)
            && ReadCycle(owners, s.noChangeCycle, "UPDATE", "NO_CHANGE") == Success(g.noChange)
            && ParseF(owners, s.preReboot) == Success(g.pre) && ParseF(owners, s.postReboot) == Success(g.post)
            && ReadPromotion(owners, s.rollback, "ROLLBACK") == Success(g.rollback)
            && ReadPromotion(owners, s.restoration, "RESTORATION") == Success(g.restoration)
            && ParseScheduled(owners, s.postRebootNoChangeCycle) == Success(g.postNoChange)
            && ParseScheduled(owners, s.postRebootChangedCycle) == Success(g.postChanged)
            && ParseF(owners, s.nextHealth) == Success(g.health)
  {
    hide ReadCycle, ReadPromotion, ParseF, ParseScheduled;
  }

  lemma GBodyFields(s: GSources, g: Bundle)
    ensures GBody(s, g).Keys == G_FIELDS && Fingerprint !in GBody(s, g)
  {
  }

  lemma GBodySays(s: GSources, g: Bundle)
    ensures Get(GBody(s, g), SchemaId) == G_SCHEMA && Get(GBody(s, g), SchemaVersion) == VERSION && Get(GBody(s, g), Outcome) == COMPLETE
    ensures Get(GBody(s, g), Artifacts) == Array(ArtifactsOf(G_SLOTS, GContents(s)))
    ensures Get(GBody(s, g), BaselineServingStateId) == g.baseline.stateId
    ensures Get(GBody(s, g), CurrentServingStateId) == g.changed.stateId
  {
  }

  lemma GSlotsInTurn(s: GSources)
    ensures var c := GContents(s);
            |c| == 12 && GSources(c[0], c[1], c[2], c[3], c[4], c[5], c[6], c[7], c[8], c[9], c[10], c[11]) == s
  {
  }

  lemma GOpens(owners: Owners, s: GSources, g: Bundle)
    requires NoneEmpty(GContents(s))
    ensures var body := GBody(s, g);
            OpenG(owners, Seal(body))
            == if owners.size(Seal(body)) <= MAX_BYTES then Success((body[Fingerprint := DigestOf(body)], s)) else Failure(CompositeInvalid)
  {
    hide GBody, OpenArtifacts, Artifact, IsSealed, DigestOf, NoneEmpty;
    var body := GBody(s, g);
    GBodyFields(s, g);
    GBodySays(s, g);
    SealOpens(body);
    ArtifactsRoundTrip(G_SLOTS, GContents(s));
    GSlotsInTurn(s);
  }

  /**
   A lineage built from a valid bundle parses exactly when its bytes fit, and then gives all twelve
   sources back in their slots, and the identities of the changed promotion.
   */
  lemma GateGRoundTrip(owners: Owners, s: GSources)
    requires BuildG(owners, s).Success?
    ensures var content, g := BuildG(owners, s).value, ValidateG(owners, s).value;
            && (ParseG(owners, content).Success? <==> owners.size(content) <= MAX_BYTES)
            && (ParseG(owners, content).Success? ==>
                  && OpenG(owners, content).Success? && OpenG(owners, content).value.1 == s
                  && ParseG(owners, content).value
                     == GLineage(g.baseline.stateId, g.changed.stateId, g.changed.proposal, g.changed.approval, g.changed.target,
                                 g.changed.targetFingerprint, g.changed.stateFingerprint, DigestOf(GBody(s, g))))
  {
    hide ReadBundle, CutoffsHold, PromotionsHold, ReadbacksHold, ScheduledHold, ReturnsHold, OpenG, GBody, Seal,
      DigestOf;
    ValidBundleHasNoEmpty(owners, s);
    GBodySays(s, ValidateG(owners, s).value);
    GOpens(owners, s, ValidateG(owners, s).value);
  }

  /** Each embedded text is spelt as `hex()` spells it. */
  predicate PlainG(content: Bytes) {
    && content.Canonical? && content.json.Object?
    && Get(content.json.fields, Artifacts).Array? && PlainArtifacts(Get(content.json.fields, Artifacts).items)
  }

  /** Whatever lineage parses was built: rebuilding from its sources gives its own bytes, unless a text is spelt otherwise. */
  lemma ParsedGIsBuilt(owners: Owners, content: Bytes)
    requires ParseG(owners, content).Success?
    ensures var s := OpenG(owners, content).value.1;
            BuildG(owners, s).Success? && (PlainG(content) <==> BuildG(owners, s).value == content)
  {
    hide GBody, PlainG, Seal, ValidateG, OpenG;
    var s := OpenG(owners, content).value.1;
    var g := ValidateG(owners, s).value;
    if PlainG(content) {
      OpenedGIs(owners, content, g);
    } else if BuildG(owners, s).value == content {
      BuiltGIsPlain(s, g);
    }
  }

  lemma OpenedGIs(owners: Owners, content: Bytes, g: Bundle)
    requires PlainG(content) && OpenG(owners, content).Success?
    requires var fields := OpenG(owners, content).value.0;
             Get(fields, BaselineServingStateId) == g.baseline.stateId && Get(fields, CurrentServingStateId) == g.changed.stateId
    ensures content == Seal(GBody(OpenG(owners, content).value.1, g))
  {
    hide Seal, IsSealed, OpenArtifacts, ArtifactsOf;
    var (fields, s) := OpenG(owners, content).value;
    OpenedArtifactsAre(G_SLOTS, fields[Artifacts].items);
    var c := OpenArtifacts(G_SLOTS, fields[Artifacts].items).value;
    TwelveInTurn(c);
    SealedIsSeal(content);
    GBodyFields(s, g);
    GBodySays(s, g);
    hide GBody;
    SameGFields(fields - {Fingerprint}, GBody(s, g));
  }

  lemma TwelveInTurn(c: seq<Bytes>)
    requires |c| == 12
    ensures GContents(GSources(c[0], c[1], c[2], c[3], c[4], c[5], c[6], c[7], c[8], c[9], c[10], c[11])) == c
  {
  }

  /** Two bodies with the fields of a Gate G composite are equal field by field. */
  lemma SameGFields(a: Fields, b: Fields)
    requires a.Keys == b.Keys == G_FIELDS
    requires a[SchemaId] == b[SchemaId] && a[SchemaVersion] == b[SchemaVersion] && a[Outcome] == b[Outcome]
    requires a[BaselineServingStateId] == b[BaselineServingStateId] && a[CurrentServingStateId] == b[CurrentServingStateId]
    requires a[Artifacts] == b[Artifacts]
    ensures a == b
  {
  }

  lemma BuiltGIsPlain(s: GSources, g: Bundle)
    ensures PlainG(Seal(GBody(s, g)))
  {
    forall i | 0 <= i < |G_SLOTS|
      ensures var value := ArtifactsOf(G_SLOTS, GContents(s))[i];
              value.Object? && Get(value.fields, ContentHex).Hex? && Get(value.fields, ContentHex).spelling == 0
    {
      assert ArtifactsOf(G_SLOTS, GContents(s))[i] == Artifact(G_SLOTS[i].kind, G_SLOTS[i].owner, GContents(s)[i]);
    }
  }

  // ----- the history of the serving pointer --------------------------------------------

  /** What serves: a state and its target, each with its fingerprint. */
  datatype Pointer = Pointer(stateId: Json, stateFingerprint: Json, target: Json, targetFingerprint: Json)

  function After(p: Promotion): Pointer {
    Pointer(p.stateId, p.stateFingerprint, p.target, p.targetFingerprint)
  }

  /** What an operation expects to find serving: the state, and unless it is a first promotion all the rest. */
  predicate Expects(p: Promotion, found: Pointer) {
    && p.fromState == found.stateId
    && (p.fromFingerprint == Null || p.fromFingerprint == found.stateFingerprint)
    && (p.fromTarget == Null || p.fromTarget == found.target)
    && (p.fromTargetFingerprint == Null || p.fromTargetFingerprint == found.targetFingerprint)
  }

  /** Compare and swap, one operation after another; `None` once an expectation fails. */
  function Swaps(found: Pointer, operations: seq<Promotion>): Option<Pointer>
    decreases |operations|
  {
    if operations == [] then Some(found)
    else if !Expects(operations[0], found) then None
    else
      var rest := operations[1..];
      Swaps(After(operations[0]), rest)
  }

  /** The operations of a bundle that follow its baseline promotion, in the order in which they were made. */
  function OperationsOf(g: Bundle): seq<Promotion> {
    [g.changed, g.rollback, g.restoration]
  }

  lemma ReadPromotionsName(owners: Owners, s: GSources)
    requires ReadBundle(owners, s).Success?
    ensures var g := ReadBundle(owners, s).value;
            && g.changed.fromFingerprint == Null && g.changed.fromTarget == Null && g.changed.fromTargetFingerprint == Null
            && IsText(g.rollback.fromFingerprint) && IsText(g.rollback.fromTarget) && IsText(g.rollback.fromTargetFingerprint)
            && IsText(g.restoration.fromFingerprint) && IsText(g.restoration.fromTarget) && IsText(g.restoration.fromTargetFingerprint)
  {
    BundleIsRead(owners, s);
    hide ReadBundle, ReadCycle, ParseF, ParseScheduled, ReadPromotion, IsText;
    FirstNames(owners, s.changedPromotion);
    RolledNames(owners, s.rollback, "ROLLBACK");
    RolledNames(owners, s.restoration, "RESTORATION");
  }

  lemma FirstNames(owners: Owners, raw: Bytes)
    requires ReadPromotion(owners, raw, "PROMOTION").Success?
    ensures var p := ReadPromotion(owners, raw, "PROMOTION").value;
            p.fromFingerprint == Null && p.fromTarget == Null && p.fromTargetFingerprint == Null
  {
  }

  lemma RolledNames(owners: Owners, raw: Bytes, operation: string)
    requires operation != "PROMOTION" && ReadPromotion(owners, raw, operation).Success?
    ensures var p := ReadPromotion(owners, raw, operation).value;
            IsText(p.fromFingerprint) && IsText(p.fromTarget) && IsText(p.fromTargetFingerprint) && p.fromState != p.stateId
  {
  }

  /**
   An accepted bundle replays as compare-and-swap: from the baseline to the changed state, back to
   exactly the baseline, and on to exactly the changed state, every expectation met. What serves in
   the end is what all three Gate F readbacks and the lineage itself name.
   */
  lemma LineageReplays(owners: Owners, content: Bytes)
    requires ParseG(owners, content).Success?
    ensures var lineage, g := ParseG(owners, content).value, ValidateG(owners, OpenG(owners, content).value.1).value;
            var start, operations := After(g.baseline), OperationsOf(g);
            && Swaps(start, operations[..1]) == Some(After(g.changed))
            && Swaps(start, operations[..2]) == Some(start)
            && Swaps(start, operations) == Some(After(g.changed))
            && start.stateId != After(g.changed).stateId && start.stateFingerprint != After(g.changed).stateFingerprint
            && start.target != After(g.changed).target && start.targetFingerprint != After(g.changed).targetFingerprint
            && After(g.changed) == Pointer(lineage.currentStateId, lineage.stateFingerprint, lineage.target, lineage.targetFingerprint)
            && lineage.baselineStateId == start.stateId
            && (forall f | f in {g.pre, g.post, g.health} ::
                  f.servingStateId == lineage.currentStateId && f.servingStateFingerprint == lineage.stateFingerprint)
  {
    hide ReadBundle, CutoffsHold, ScheduledHold, OpenG, IsText;
    var s := OpenG(owners, content).value.1;
    var g := ValidateG(owners, s).value;
    ReadPromotionsName(owners, s);
    var operations := OperationsOf(g);
    assert operations[..1] == [g.changed] && operations[..2] == [g.changed, g.rollback];
    SwapsThree(After(g.baseline), g.changed, g.rollback, g.restoration);
  }

  lemma SwapsThree(start: Pointer, a: Promotion, b: Promotion, c: Promotion)
    requires Expects(a, start) && Expects(b, After(a)) && Expects(c, After(b))
    ensures Swaps(start, [a]) == Some(After(a))
    ensures Swaps(start, [a, b]) == Some(After(b))
    ensures Swaps(start, [a, b, c]) == Some(After(c))
  {
    assert [a][1..] == [] && [a, b][1..] == [b] && [b][1..] == [] && [a, b, c][1..] == [b, c] && [b, c][1..] == [c] && [c][1..] == [];
    assert Swaps(After(b), [c]) == Some(After(c));
    assert Swaps(After(a), [b]) == Some(After(b));
  }

  /** The cutoffs of the five cycles, in the order in which they were observed. */
  function Cutoffs(owners: Owners, g: Bundle): seq<Option<Moment>> {
    [CutoffOf(owners, g.baselineCycle), CutoffOf(owners, g.changedCycle), CutoffOf(owners, g.noChange),
     CutoffOf(owners, g.postNoChange.parts.acceptance), CutoffOf(owners, g.postChanged.parts.acceptance)]
  }

  lemma EarlierIsTransitive(a: Moment, b: Moment, c: Moment)
    requires Earlier(a, b) && Earlier(b, c)
    ensures Earlier(a, c)
  {
  }

  lemma {:induction false} InTurnThroughout(times: seq<Option<Moment>>, i: nat, j: nat)
    requires forall k | 0 <= k < |times| - 1 :: InTurn(times[k], times[k + 1])
    requires i < j < |times|
    ensures InTurn(times[i], times[j])
  {
    if i + 1 < j {
      InTurnThroughout(times, i, j - 1);
      assert InTurn(times[j - 1], times[j - 1 + 1]);
      EarlierIsTransitive(times[i].value, times[j - 1].value, times[j].value);
    } else {
      assert InTurn(times[i], times[i + 1]);
    }
  }

  /** Any two of an accepted bundle's five cutoffs are in their order, and the reboot lies between its Gate F readbacks. */
  lemma CutoffsAndBootsAreInOrder(owners: Owners, content: Bytes)
    requires ParseG(owners, content).Success?
    ensures var g := ValidateG(owners, OpenG(owners, content).value.1).value;
            && (forall i, j | 0 <= i < j < 5 :: InTurn(Cutoffs(owners, g)[i], Cutoffs(owners, g)[j]))
            && g.pre.boot != g.post.boot && g.post.boot == g.health.boot == g.postNoChange.parts.boot == g.postChanged.parts.boot
            && g.post.restartPreBoot == g.pre.boot == g.health.restartPreBoot
  {
    hide ReadBundle, PromotionsHold, ScheduledHold, ReturnsHold, OpenG;
    var g := ValidateG(owners, OpenG(owners, content).value.1).value;
    var times := Cutoffs(owners, g);
    assert forall k | 0 <= k < 4 :: InTurn(times[k], times[k + 1]);
    forall i, j | 0 <= i < j < 5 ensures InTurn(times[i], times[j]) {
      InTurnThroughout(times, i, j);
    }
  }
}
