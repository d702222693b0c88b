/**
 What a Gate G lineage must tell to be accepted, over the values its sources carry, and one lineage
 that is (tools/hk_v1_admission_operational_evidence.py:1445-1633).
 */
module GateStory {
  import opened Wrappers
  import opened Text
  import opened GateDocuments
  import opened GateEvidence
  import opened GateRecords
  import opened GateLineage

  // ----- times -------------------------------------------------------------------------

  /** Two times of one kind, the first before the second. */
  predicate Precedes(a: Option<Moment>, b: Option<Moment>) {
    match (a, b)
    case (Some(Aware(x)), Some(Aware(y))) => x < y
    case (Some(Naive(x)), Some(Naive(y))) => x < y
    case _ => false
  }

  /** When the five cycles observed: the baseline, the change, no change, and again both after the reboot. */
  function Observed(owners: Owners, g: Bundle): seq<Option<Moment>> {
    [owners.time(Get(g.baselineCycle, ObservationCutoff)),
     owners.time(Get(g.changedCycle, ObservationCutoff)),
     owners.time(Get(g.noChange, ObservationCutoff)),
     owners.time(Get(g.postNoChange.parts.acceptance, ObservationCutoff)),
     owners.time(Get(g.postChanged.parts.acceptance, ObservationCutoff))]
  }

  predicate Ascends(times: seq<Option<Moment>>) {
    forall i, j | 0 <= i < j < |times| :: Precedes(times[i], times[j])
  }

  lemma PrecedesIs(a: Option<Moment>, b: Option<Moment>)
    ensures InTurn(a, b) <==> Precedes(a, b)
  {
  }

  lemma CutoffsAscend(owners: Owners, g: Bundle)
    ensures CutoffsHold(owners, g) <==> Ascends(Observed(owners, g))
  {
    hide InTurn, Precedes;
    var times := Observed(owners, g);
    forall i, j | 0 <= i < j < 5 ensures InTurn(times[i], times[j]) <==> Precedes(times[i], times[j]) {
      PrecedesIs(times[i], times[j]);
    }
    if CutoffsHold(owners, g) {
      assert forall k | 0 <= k < 4 :: InTurn(times[k], times[k + 1]);
      forall i, j | 0 <= i < j < 5 ensures InTurn(times[i], times[j]) {
        InTurnThroughout(times, i, j);
      }
    }
    if Ascends(times) {
      assert Precedes(times[0], times[1]) && Precedes(times[1], times[2]);
      assert Precedes(times[2], times[3]) && Precedes(times[3], times[4]);
    }
  }

  // ----- promotions --------------------------------------------------------------------

  /** The two promotions share nothing but perhaps a backup. */
  predicate Unlike(a: Promotion, b: Promotion) {
    && a.stateId != b.stateId && a.stateFingerprint != b.stateFingerprint
    && a.target != b.target && a.targetFingerprint != b.targetFingerprint
    && a.proposal != b.proposal && a.approval != b.approval && a.readback != b.readback && a.seal != b.seal
  }

  /** The cycle's own proposal is the one promoted. */
  predicate Proposed(cycle: Fields, p: Promotion) {
    StoredOf(Get(cycle, ProposalReference)).Some? && StoredOf(Get(cycle, ProposalReference)).value.fingerprint == p.proposal
  }

  /** The changed promotion undone: from all it put in place, back to all that the baseline had. */
  function RolledBack(baseline: Promotion, changed: Promotion, seal: Json): Promotion {
    Promotion(changed.proposal, changed.approval,
              changed.stateId, changed.stateFingerprint, changed.target, changed.targetFingerprint,
              baseline.stateId, baseline.stateFingerprint, baseline.target, baseline.targetFingerprint,
              baseline.backup, baseline.readback, seal)
  }

  /** And done again. */
  function Restored(baseline: Promotion, changed: Promotion, seal: Json): Promotion {
    Promotion(changed.proposal, changed.approval,
              baseline.stateId, baseline.stateFingerprint, baseline.target, baseline.targetFingerprint,
              changed.stateId, changed.stateFingerprint, changed.target, changed.targetFingerprint,
              changed.backup, changed.readback, seal)
  }

  predicate PromotionsTold(g: Bundle) {
    && Unlike(g.baseline, g.changed)
    && Proposed(g.baselineCycle, g.baseline) && Proposed(g.changedCycle, g.changed)
    && g.changed.fromState == g.baseline.stateId
    && g.rollback == RolledBack(g.baseline, g.changed, g.rollback.seal)
    && g.restoration == Restored(g.baseline, g.changed, g.restoration.seal)
  }

  lemma ProposedIs(cycle: Fields, p: Promotion)
    ensures Some(p.proposal) == ProposalOf(cycle) <==> Proposed(cycle, p)
  {
  }

  lemma PromotionsAreTold(g: Bundle)
    ensures PromotionsHold(g) && ReturnsHold(g) <==> PromotionsTold(g)
  {
    hide ProposalOf, Proposed;
    ProposedIs(g.baselineCycle, g.baseline);
    ProposedIs(g.changedCycle, g.changed);
  }

  // ----- the reboot --------------------------------------------------------------------

  /** One reboot between the first readback and the other two; the changed state serves throughout. */
  predicate RebootTold(g: Bundle) {
    && g.pre.servingStateId == g.post.servingStateId == g.health.servingStateId == g.changed.stateId
    && g.pre.servingStateFingerprint == g.post.servingStateFingerprint == g.health.servingStateFingerprint
       == g.changed.stateFingerprint
    && g.post.boot != g.pre.boot
    && g.post.boot == g.health.boot == g.postNoChange.parts.boot == g.postChanged.parts.boot
    && g.post.restartPreBoot == g.health.restartPreBoot == g.pre.boot
    && g.post.restartOperationId == g.health.restartOperationId && g.pre.restartOperationId != g.post.restartOperationId
  }

  lemma RebootIsTold(g: Bundle)
    ensures ReadbacksHold(g) <==> RebootTold(g)
  {
  }

  // ----- the two cycles after it -------------------------------------------------------

  function Roots(parts: CycleParts): set<Json> {
    set r | r in parts.terminalRoots
  }

  /** Two scheduled cycles, one after the other, that share nothing: the first finds no change, the second proposes one. */
  predicate CyclesTold(owners: Owners, g: Bundle) {
    var first, second := g.postNoChange, g.postChanged;
    var earlier, later := owners.time(first.parts.scheduledAt), owners.time(second.parts.scheduledAt);
    && first.parts.scheduleKind == "OBSERVATION"
    && (second.parts.scheduleKind == "OBSERVATION" || second.parts.scheduleKind == "RECONCILIATION")
    && first.root != second.root && first.parts.attemptId != second.parts.attemptId
    && first.parts.cycleId != second.parts.cycleId
    && first.scheduleState != second.scheduleState && first.output != second.output
    && first.root in Roots(second.parts) && second.root !in Roots(first.parts) && Roots(first.parts) <= Roots(second.parts)
    && (match (earlier, later)
        case (Some(Aware(x)), Some(Aware(y))) => x < y
        case _ => false)
    && Get(first.parts.acceptance, Outcome) == Json.Text("NO_CHANGE")
    && Get(first.parts.acceptance, ProposalReference) == Null
    && Get(second.parts.acceptance, Outcome) == Json.Text("PROPOSAL_READY")
    && (match StoredOf(Get(second.parts.acceptance, ProposalReference))
        case None => false
        case Some(proposal) => proposal.fingerprint !in {g.baseline.proposal, g.changed.proposal})
  }

  lemma CyclesAreTold(owners: Owners, g: Bundle)
    ensures ScheduledHold(owners, g) <==> CyclesTold(owners, g)
  {
    var first, second := g.postNoChange.parts, g.postChanged.parts;
    assert g.postNoChange.root in Roots(second) <==> g.postNoChange.root in second.terminalRoots;
    assert g.postChanged.root in Roots(first) <==> g.postChanged.root in first.terminalRoots;
    RootsGrow(first, second);
  }

  lemma RootsGrow(first: CycleParts, second: CycleParts)
    ensures Roots(first) <= Roots(second) <==> forall r | r in first.terminalRoots :: r in second.terminalRoots
  {
    if Roots(first) <= Roots(second) {
      forall r | r in first.terminalRoots ensures r in second.terminalRoots {
        assert r in Roots(first);
      }
    }
  }

  // ----- the whole ---------------------------------------------------------------------

  ghost predicate Told(owners: Owners, g: Bundle) {
    && Ascends(Observed(owners, g))
    && PromotionsTold(g)
    && RebootTold(g)
    && CyclesTold(owners, g)
  }

  lemma BundleIsTold(owners: Owners, g: Bundle)
    ensures CutoffsHold(owners, g) && PromotionsHold(g) && ReadbacksHold(g) && ScheduledHold(owners, g) && ReturnsHold(g)
       <==> Told(owners, g)
  {
    CutoffsAscend(owners, g);
    PromotionsAreTold(g);
    RebootIsTold(g);
    CyclesAreTold(owners, g);
  }

  /** Gate G is built exactly from sources that their owners read and that together tell this story. */
  lemma LineageIsBuiltExactlyWhen(owners: Owners, s: GSources)
    ensures BuildG(owners, s).Success? <==> ReadBundle(owners, s).Success? && Told(owners, ReadBundle(owners, s).value)
    ensures BuildG(owners, s).Success? ==> ValidateG(owners, s) == ReadBundle(owners, s)
  {
    hide ReadBundle, CutoffsHold, PromotionsHold, ReadbacksHold, ScheduledHold, ReturnsHold, Told;
    if ReadBundle(owners, s).Success? {
      BundleIsTold(owners, ReadBundle(owners, s).value);
    }
  }

  /** Whatever lineage parses tells it. */
  lemma ParsedLineageTells(owners: Owners, content: Bytes)
    requires ParseG(owners, content).Success?
    ensures var s := OpenG(owners, content).value.1;
            ReadBundle(owners, s).Success? && Told(owners, ReadBundle(owners, s).value)
  {
    hide ReadBundle, CutoffsHold, PromotionsHold, ReadbacksHold, ScheduledHold, ReturnsHold, Told, OpenG;
    LineageIsBuiltExactlyWhen(owners, OpenG(owners, content).value.1);
  }

  // ----- one lineage -------------------------------------------------------------------

  function Named(name: string): Json {
    Json.Text(name)
  }

  function DigestNamed(name: string): Json {
    Json.Sha256(Raw(name))
  }

  /** A digest in the other form: a text spelt as one. */
  function DigestText(): Json {
    Json.Text("sha256:" + seq(64, _ => 'a'))
  }

  function StateNamed(digit: char): Json {
    Json.Text("srv_" + seq(48, _ => digit))
  }

  lemma StateNamedIs(digit: char)
    requires IsHex(digit)
    ensures IsState(StateNamed(digit)) && StateNamed(digit).text[4] == digit
    ensures IsFingerprinted(DigestText())
  {
  }

  function ReceiptNamed(): Json {
    Json.Text("ssr_" + seq(48, _ => '0'))
  }

  lemma ReceiptNamedIs()
    ensures IsReceipt(ReceiptNamed())
  {
  }

  function ServingNow(): ServingRecord {
    ServingRecord(
      Candidacy(Named("approval"), StateNamed('1'), DigestNamed("state 1"), DigestText(), DigestNamed("inventory"),
                DigestNamed("profile"), Named("profile"), Named("lineage"), StateNamed('0'), Named("target 1")),
      ReceiptNamed(), Some(ReceiptNamed()))
  }

  function ServingBytes(): Bytes {
    Canonical(Object(ServingNow().Written()))
  }

  function FBefore(): FSources {
    FSources(Raw("schedule"), Raw("host before"), Raw("status"), Raw("supervision"), Raw("recovery"), Raw("restart before"), ServingBytes())
  }

  function FAfter(): FSources {
    FSources(Raw("schedule"), Raw("host after"), Raw("status"), Raw("supervision"), Raw("recovery"), Raw("restart after"), ServingBytes())
  }

  function RestartFrom(raw: Bytes): Restart {
    if raw == Raw("restart before") then Restart("reboot 1", "boot 0", "boot 1") else Restart("reboot 2", "boot 1", "boot 2")
  }

  function BootFrom(raw: Bytes): string {
    if raw == Raw("host before") then "boot 1" else "boot 2"
  }

  const NO_CHANGE_PARTS := CycleParts(
    "OBSERVATION", Json.Text("attempt 1"), "boot 2", Json.Text("cycle 1"), Number(1000), [],
    map[Outcome := Json.Text("NO_CHANGE"), ObservationCutoff := Number(40)])

  const CHANGE_PARTS := CycleParts(
    "RECONCILIATION", Json.Text("attempt 2"), "boot 2", Json.Text("cycle 2"), Number(1100), [Json.Text("first")],
    map[Outcome := Json.Text("PROPOSAL_READY"), ObservationCutoff := Number(50),
        ProposalReference := Object(map[Fingerprint := Json.Sha256(Raw("proposal 2"))])])

  function PartsFrom(root: Json): CycleParts {
    if root == Json.Text("first") then NO_CHANGE_PARTS else CHANGE_PARTS
  }

  function TimeFrom(value: Json): Option<Moment> {
    if value.Number? then Some(Aware(value.number)) else None
  }

  /** Owners that read these sources. */
  function Readers(): Owners {
    Owners(_ => 0, TimeFrom, _ => true, raw => Some(BootFrom(raw)), _ => true, (_, _) => true, _ => true,
           (raw, _) => Some(RestartFrom(raw)), (_, _, root, _) => Some(PartsFrom(root)))
  }

  function WithSeal(operation: string, p: Promotion): Promotion {
    p.(seal := Json.Sha256(Canonical(Object(PromotionWritten(operation, p)))))
  }

  function PromotionBytes(operation: string, p: Promotion): Bytes {
    Canonical(Object(PromotionWritten(operation, p)[Fingerprint := p.seal]))
  }

  function FirstPromotion(n: string, from: char, to: char): Promotion {
    WithSeal("PROMOTION", Promotion(
      DigestNamed("proposal " + n), DigestNamed("approval " + n), StateNamed(from), Null, Null, Null,
      StateNamed(to), DigestNamed("state " + n), Named("target " + n), DigestNamed("target " + n),
      DigestNamed("backup " + n), DigestNamed("readback " + n), Null))
  }

  function Baseline(): Promotion {
    FirstPromotion("0", '2', '0')
  }

  function Changed(): Promotion {
    FirstPromotion("1", '0', '1')
  }

  function CycleWith(cutoff: int, proposal: Option<Stored>): CycleRecord {
    CycleRecord(Named("operation"), DigestText(), Number(cutoff), [], proposal)
  }

  function StoredAs(p: Promotion): Option<Stored> {
    Some(Stored(Named("key"), Named("version"), p.proposal, 1))
  }

  function CycleBytes(r: CycleRecord, kind: string, outcome: string): Bytes {
    Canonical(Object(r.Written(kind, outcome)))
  }

  function ScheduledAs(root: string, n: string): ScheduledRecord {
    ScheduledRecord(PartsFrom(Json.Text(root)), Json.Text(root), Raw("state " + n), Raw("host after"), Raw("output " + n), (0, 0, 0))
  }

  function ScheduledBytes(r: ScheduledRecord): Bytes {
    Canonical(Object(r.Written()[Fingerprint := r.SealOf()]))
  }

  function FBytes(s: FSources, boot: string): Bytes {
    Seal(FBody(s, FDerived(boot, RestartFrom(s.restart), Serving(StateNamed('1'), DigestNamed("state 1")))))
  }

  function LineageSources(): GSources {
    GSources(
      CycleBytes(CycleWith(10, StoredAs(Baseline())), "BASELINE", "PROPOSAL_READY"),
      PromotionBytes("PROMOTION", Baseline()),
      CycleBytes(CycleWith(20, StoredAs(Changed())), "UPDATE", "PROPOSAL_READY"),
      PromotionBytes("PROMOTION", Changed()),
      CycleBytes(CycleWith(30, None), "UPDATE", "NO_CHANGE"),
      FBytes(FBefore(), "boot 1"), FBytes(FAfter(), "boot 2"),
      PromotionBytes("ROLLBACK", WithSeal("ROLLBACK", RolledBack(Baseline(), Changed(), Null))),
      PromotionBytes("RESTORATION", WithSeal("RESTORATION", Restored(Baseline(), Changed(), Null))),
      ScheduledBytes(ScheduledAs("first", "1")), ScheduledBytes(ScheduledAs("second", "2")),
      FBytes(FAfter(), "boot 2"))
  }

  lemma ReadersAre(raw: Bytes, other: Bytes, value: Json)
    ensures var o := Readers();
            && o.size(raw) == 0 && o.schedule(raw) && o.status(raw) && o.recovery(raw) && o.supervision(raw, other)
            && o.host(raw) == Some(BootFrom(raw)) && o.restart(raw, other) == Some(RestartFrom(raw))
            && o.cycleParts(raw, other, value, raw) == Some(PartsFrom(value)) && o.time(value) == TimeFrom(value)
  {
  }

  lemma ServingNowIsFit()
    ensures ServingNow().Fit()
    ensures ServingNow().candidacy.state == StateNamed('1') && ServingNow().candidacy.fingerprint == DigestNamed("state 1")
  {
    hide IsState, IsReceipt, StateNamed, ReceiptNamed, DigestText;
    StateNamedIs('0');
    StateNamedIs('1');
    ReceiptNamedIs();
    assert StateNamed('0').text[4] != StateNamed('1').text[4];
    assert IsFingerprinted(DigestText());
    assert IsFingerprinted(DigestNamed("state 1"));
  }

  lemma ServingIsRead()
    ensures ServingBinding(Readers(), ServingBytes()) == Success(Serving(StateNamed('1'), DigestNamed("state 1")))
  {
    hide ServingBinding, ServingNow, ServingRecord.Fit, ServingRecord.Written, StateNamed;
    ServingNowIsFit();
    ReadersAre(ServingBytes(), ServingBytes(), Null);
    ServingWrites(Readers(), ServingNow());
  }

  lemma FIsRead(s: FSources, boot: string)
    requires (s == FBefore() && boot == "boot 1") || (s == FAfter() && boot == "boot 2")
    ensures var r := RestartFrom(s.restart);
            ParseF(Readers(), FBytes(s, boot))
            == Success(FEvidence(StateNamed('1'), DigestNamed("state 1"), boot, r.operationId, r.preBoot,
                                 DigestOf(FBody(s, FDerived(boot, r, Serving(StateNamed('1'), DigestNamed("state 1")))))))
  {
    hide ServingBinding, ServingBytes, StateNamed, ParseF, FBody, Seal, DigestOf, ValidateF, OpenF;
    ServingIsRead();
    FIsVouched(s, boot);
    FSourcesAreVouched(Readers(), s);
    ReadersAre(FBytes(s, boot), s.host, Null);
    GateFRoundTrip(Readers(), s);
  }

  lemma FIsVouched(s: FSources, boot: string)
    requires (s == FBefore() && boot == "boot 1") || (s == FAfter() && boot == "boot 2")
    ensures s.serving == ServingBytes() && Vouched(Readers(), s, boot, RestartFrom(s.restart))
  {
    hide ServingBytes;
  }

  lemma PromotionIsRead(operation: string, p: Promotion)
    requires PromotionFit(operation, p)
    ensures ReadPromotion(Readers(), PromotionBytes(operation, p), operation) == Success(p)
  {
    hide ReadPromotion, PromotionFit, PromotionWritten;
    ReadersAre(PromotionBytes(operation, p), EMPTY, Null);
    PromotionWrites(Readers(), PromotionBytes(operation, p), operation, p);
  }

  lemma FirstPromotionIsFit(n: string, from: char, to: char)
    requires IsHex(from) && IsHex(to)
    ensures PromotionFit("PROMOTION", FirstPromotion(n, from, to))
  {
    hide IsState, StateNamed, PromotionWritten;
    StateNamedIs(from);
    StateNamedIs(to);
    SealIsOwn("PROMOTION", FirstPromotion(n, from, to), Null);
    assert FirstPromotion(n, from, to) == WithSeal("PROMOTION", FirstPromotion(n, from, to).(seal := Null));
    assert Says(FirstPromotion(n, from, to).target);
  }

  /** The body of a readback does not speak of its own seal. */
  lemma SealIsOwn(operation: string, p: Promotion, seal: Json)
    ensures PromotionWritten(operation, p.(seal := seal)) == PromotionWritten(operation, p)
    ensures WithSeal(operation, p).seal == Json.Sha256(Canonical(Object(PromotionWritten(operation, WithSeal(operation, p)))))
  {
    PromotionWrittenSays(operation, p);
    PromotionWrittenSays(operation, p.(seal := seal));
    PromotionWrittenSays(operation, WithSeal(operation, p));
    hide PromotionWritten;
    SamePromotionFields(PromotionWritten(operation, p.(seal := seal)), PromotionWritten(operation, p));
    SamePromotionFields(PromotionWritten(operation, WithSeal(operation, p)), PromotionWritten(operation, p));
  }

  /** The values of the two promotions that the story compares. */
  lemma PromotionsDiffer()
    ensures Unlike(Baseline(), Changed()) && Changed().fromState == Baseline().stateId
    ensures Says(Baseline().target) && Says(Changed().target)
  {
    hide PromotionWritten, Says;
    StateNamedIs('0');
    StateNamedIs('1');
    assert StateNamed('0').text[4] != StateNamed('1').text[4];
    NamesDiffer("proposal ");
    NamesDiffer("approval ");
    NamesDiffer("state ");
    NamesDiffer("target ");
    NamesDiffer("readback ");
    SealsDiffer();
    TargetsSay();
  }

  lemma TargetsSay()
    ensures Says(Baseline().target) && Says(Changed().target)
  {
  }

  lemma NamesDiffer(front: string)
    ensures front + "0" != front + "1"
  {
    assert (front + "0")[|front|] == '0' && (front + "1")[|front|] == '1';
  }

  lemma FirstPromotionIs(n: string, from: char, to: char)
    ensures var p := FirstPromotion(n, from, to);
            && p.proposal == DigestNamed("proposal " + n)
            && p.seal == Json.Sha256(Canonical(Object(PromotionWritten("PROMOTION", p))))
  {
    hide PromotionWritten, StateNamed;
    SealIsOwn("PROMOTION", FirstPromotion(n, from, to), Null);
  }

  lemma SealsDiffer()
    ensures Baseline().seal != Changed().seal
  {
    hide PromotionWritten, FirstPromotion;
    FirstPromotionIs("0", '2', '0');
    FirstPromotionIs("1", '0', '1');
    NamesDiffer("proposal ");
    PromotionWrittenSays("PROMOTION", Baseline());
    PromotionWrittenSays("PROMOTION", Changed());
  }

  function Undone(): Promotion {
    WithSeal("ROLLBACK", RolledBack(Baseline(), Changed(), Null))
  }

  function Redone(): Promotion {
    WithSeal("RESTORATION", Restored(Baseline(), Changed(), Null))
  }

  lemma PromotionsAreFit()
    ensures PromotionFit("PROMOTION", Baseline()) && PromotionFit("PROMOTION", Changed())
    ensures PromotionFit("ROLLBACK", Undone()) && PromotionFit("RESTORATION", Redone())
    ensures Undone() == RolledBack(Baseline(), Changed(), Undone().seal)
    ensures Redone() == Restored(Baseline(), Changed(), Redone().seal)
  {
    hide PromotionWritten, IsState, IsFingerprinted, FirstPromotion, Says;
    FirstPromotionIsFit("0", '2', '0');
    FirstPromotionIsFit("1", '0', '1');
    PromotionsDiffer();
    FirstPromotionSays("0", '2', '0');
    FirstPromotionSays("1", '0', '1');
    SealIsOwn("ROLLBACK", RolledBack(Baseline(), Changed(), Null), Null);
    SealIsOwn("RESTORATION", Restored(Baseline(), Changed(), Null), Null);
  }

  lemma FirstPromotionSays(n: string, from: char, to: char)
    ensures var p := FirstPromotion(n, from, to); Says(p.stateFingerprint) && Says(p.target) && Says(p.targetFingerprint)
  {
    hide PromotionWritten;
  }

  lemma CycleIsRead(r: CycleRecord, kind: string, outcome: string)
    requires r.Fit(Readers(), outcome)
    ensures ReadCycle(Readers(), CycleBytes(r, kind, outcome), kind, outcome) == Success(r.Written(kind, outcome))
  {
    hide ReadCycle, CycleRecord.Fit, CycleRecord.Written, CycleRecordOf;
    ReadersAre(CycleBytes(r, kind, outcome), EMPTY, Null);
    WrittenCycleIs(r, kind, outcome);
    CycleReads(Readers(), CycleBytes(r, kind, outcome), kind, outcome);
  }

  lemma CyclesAreFit()
    ensures CycleWith(10, StoredAs(Baseline())).Fit(Readers(), "PROPOSAL_READY")
    ensures CycleWith(20, StoredAs(Changed())).Fit(Readers(), "PROPOSAL_READY")
    ensures CycleWith(30, None).Fit(Readers(), "NO_CHANGE")
  {
    hide DigestText, IsFingerprinted, FirstPromotion, Readers;
    ReadersAre(EMPTY, EMPTY, Number(10));
    ReadersAre(EMPTY, EMPTY, Number(20));
    ReadersAre(EMPTY, EMPTY, Number(30));
    StateNamedIs('0');
    PromotionsAreFit();
  }

  lemma ScheduledIsRead(root: string, n: string)
    requires root != ""
    ensures ParseScheduled(Readers(), ScheduledBytes(ScheduledAs(root, n))) == Success(ScheduledAs(root, n).Value())
  {
    hide ParseScheduled, ScheduledRecord.Written, ScheduledRecord.SealOf, ScheduledRecord.Value, PartsFrom;
    var r := ScheduledAs(root, n);
    ReadersAre(ScheduledBytes(r), EMPTY, Null);
    PartsAreDerived(r.state, r.host, r.root, r.output);
    assert |("state " + n)| > 0 && |("output " + n)| > 0;
    ScheduledWrites(Readers(), ScheduledBytes(r), r);
  }

  lemma PartsAreDerived(state: Bytes, host: Bytes, root: Json, output: Bytes)
    ensures Readers().cycleParts(state, host, root, output) == Some(PartsFrom(root))
  {
  }

  function FRead(s: FSources, boot: string): FEvidence {
    var r := RestartFrom(s.restart);
    FEvidence(StateNamed('1'), DigestNamed("state 1"), boot, r.operationId, r.preBoot,
              DigestOf(FBody(s, FDerived(boot, r, Serving(StateNamed('1'), DigestNamed("state 1"))))))
  }

  function LineageBundle(): Bundle {
    Bundle(
      CycleWith(10, StoredAs(Baseline())).Written("BASELINE", "PROPOSAL_READY"), Baseline(),
      CycleWith(20, StoredAs(Changed())).Written("UPDATE", "PROPOSAL_READY"), Changed(),
      CycleWith(30, None).Written("UPDATE", "NO_CHANGE"),
      FRead(FBefore(), "boot 1"), FRead(FAfter(), "boot 2"), Undone(), Redone(),
      ScheduledAs("first", "1").Value(), ScheduledAs("second", "2").Value(), FRead(FAfter(), "boot 2"))
  }

  lemma LineageIsRead()
    ensures ReadBundle(Readers(), LineageSources()) == Success(LineageBundle())
  {
    hide ReadCycle, ReadPromotion, ParseF, ParseScheduled, PromotionFit, CycleRecord.Fit, Readers, FBytes,
      PromotionBytes, CycleBytes, ScheduledBytes, Baseline, Changed, CycleWith, ScheduledAs, FBefore, FAfter, FBody,
      DigestOf, CycleRecord.Written, ScheduledRecord.Value, RolledBack, Restored, WithSeal, DigestNamed, StateNamed;
    PromotionsAreFit();
    CyclesAreFit();
    CycleIsRead(CycleWith(10, StoredAs(Baseline())), "BASELINE", "PROPOSAL_READY");
    CycleIsRead(CycleWith(20, StoredAs(Changed())), "UPDATE", "PROPOSAL_READY");
    CycleIsRead(CycleWith(30, None), "UPDATE", "NO_CHANGE");
    PromotionIsRead("PROMOTION", Baseline());
    PromotionIsRead("PROMOTION", Changed());
    PromotionIsRead("ROLLBACK", Undone());
    PromotionIsRead("RESTORATION", Redone());
    FIsRead(FBefore(), "boot 1");
    FIsRead(FAfter(), "boot 2");
    ScheduledIsRead("first", "1");
    ScheduledIsRead("second", "2");
  }

  lemma CutoffIs(r: CycleRecord, kind: string, outcome: string)
    ensures Get(r.Written(kind, outcome), ObservationCutoff) == r.cutoff
    ensures StoredOf(Get(r.Written(kind, outcome), ProposalReference)) == r.proposal
  {
    WrittenCycleIs(r, kind, outcome);
    hide CycleRecord.Written;
    assert CycleRecordOf(r.Written(kind, outcome)).cutoff == r.cutoff;
    assert CycleRecordOf(r.Written(kind, outcome)).proposal == r.proposal;
  }

  lemma LineageAscends()
    ensures Ascends(Observed(Readers(), LineageBundle()))
  {
    hide Readers, CycleRecord.Written, FRead, Undone, Redone, Baseline, Changed, ScheduledRecord.SealOf, TimeFrom;
    var g := LineageBundle();
    CutoffIs(CycleWith(10, StoredAs(Baseline())), "BASELINE", "PROPOSAL_READY");
    CutoffIs(CycleWith(20, StoredAs(Changed())), "UPDATE", "PROPOSAL_READY");
    CutoffIs(CycleWith(30, None), "UPDATE", "NO_CHANGE");
    NumbersAreTimes(10);
    NumbersAreTimes(20);
    NumbersAreTimes(30);
    NumbersAreTimes(40);
    NumbersAreTimes(50);
    PartsAre();
  }

  lemma NumbersAreTimes(n: int)
    ensures Readers().time(Number(n)) == Some(Aware(n))
  {
  }

  /** The parts of the two scheduled cycles. */
  lemma PartsAre()
    ensures var g := LineageBundle();
            && g.postNoChange.parts == NO_CHANGE_PARTS && g.postChanged.parts == CHANGE_PARTS
            && Get(NO_CHANGE_PARTS.acceptance, ObservationCutoff) == Number(40)
            && Get(CHANGE_PARTS.acceptance, ObservationCutoff) == Number(50)
  {
    hide FRead, Undone, Redone, Baseline, Changed, ScheduledRecord.SealOf, CycleRecord.Written;
  }

  lemma LineageRebooted()
    ensures RebootTold(LineageBundle())
  {
    hide Undone, Redone, ScheduledRecord.SealOf, CycleRecord.Written, FBody, DigestOf, PromotionWritten, StateNamed, ServingBytes,
      RestartFrom;
    PartsAre();
    RestartsAre();
    assert "state " + "1" == "state 1";
    assert Changed().stateId == StateNamed('1') && Changed().stateFingerprint == DigestNamed("state 1");
  }

  lemma RestartsAre()
    ensures RestartFrom(FBefore().restart) == Restart("reboot 1", "boot 0", "boot 1")
    ensures RestartFrom(FAfter().restart) == Restart("reboot 2", "boot 1", "boot 2")
    ensures "reboot 1" != "reboot 2" && "boot 1" != "boot 2"
  {
    assert "restart before"[8] != "restart after"[8];
    assert "reboot 1"[7] != "reboot 2"[7];
    assert "boot 1"[5] != "boot 2"[5];
  }

  lemma LineageScheduled()
    ensures CyclesTold(Readers(), LineageBundle())
  {
    hide FRead, Undone, Redone, CycleRecord.Written, ScheduledRecord.SealOf, Readers, PromotionWritten, StateNamed, Baseline, Changed;
    PartsAre();
    NumbersAreTimes(1000);
    NumbersAreTimes(1100);
    ScheduledDiffer();
    ProposalsDiffer();
  }

  lemma ScheduledDiffer()
    ensures Json.Text("first") != Json.Text("second") && Json.Text("attempt 1") != Json.Text("attempt 2")
    ensures Json.Text("cycle 1") != Json.Text("cycle 2")
    ensures Raw("state " + "1") != Raw("state " + "2") && Raw("output " + "1") != Raw("output " + "2")
  {
    assert "first"[0] != "second"[0];
    assert "attempt 1"[8] != "attempt 2"[8];
    assert "cycle 1"[6] != "cycle 2"[6];
    assert ("state " + "1")[6] != ("state " + "2")[6];
    assert ("output " + "1")[7] != ("output " + "2")[7];
  }

  /** What the last cycle proposes is neither promotion's proposal. */
  lemma ProposalsDiffer()
    ensures Json.Sha256(Raw("proposal 2")) !in {Baseline().proposal, Changed().proposal}
  {
    hide PromotionWritten, StateNamed;
    assert "proposal 2"[9] == '2' && ("proposal " + "0")[9] == '0' && ("proposal " + "1")[9] == '1';
  }

  lemma LineagePromoted()
    ensures PromotionsTold(LineageBundle())
  {
    hide Baseline, Changed, CycleRecord.Written, FRead, ScheduledAs, Unlike, ScheduledRecord.SealOf, RolledBack, Restored;
    PromotionsDiffer();
    PromotionsAreFit();
    CutoffIs(CycleWith(10, StoredAs(Baseline())), "BASELINE", "PROPOSAL_READY");
    CutoffIs(CycleWith(20, StoredAs(Changed())), "UPDATE", "PROPOSAL_READY");
  }

  /** Such a lineage exists: it is built, it parses, and its first scheduled cycle precedes its second. */
  lemma SomeLineageIsAccepted()
    ensures BuildG(Readers(), LineageSources()).Success?
    ensures ParseG(Readers(), BuildG(Readers(), LineageSources()).value).Success?
  {
    hide ReadBundle, Told, BuildG, ParseG, LineageSources, LineageBundle, Readers, OpenG, ValidateG, Ascends, PromotionsTold, RebootTold, CyclesTold;
    LineageIsRead();
    LineageIsTold();
    LineageIsBuiltExactlyWhen(Readers(), LineageSources());
    GateGRoundTrip(Readers(), LineageSources());
    ReadersAre(BuildG(Readers(), LineageSources()).value, EMPTY, Null);
  }

  lemma LineageIsTold()
    ensures Told(Readers(), LineageBundle())
  {
    hide Ascends, PromotionsTold, RebootTold, CyclesTold, LineageBundle, Readers;
    LineageAscends();
    LineagePromoted();
    LineageRebooted();
    LineageScheduled();
  }
}
