/**
 The planner and the executor agree: which printed plans the executor accepts, and what it
 reads from them (tools/hk_v1_host_reconcile.py:595-779 into tools/hk_v1_host_apply.py:456-577).
 */
module HostAgreement {
  import opened Wrappers
  import opened Text
  import opened Ordering
  import opened HostPlan
  import opened HostGrammar
  import opened HostReconcile

  // ----- texts that cancel -------------------------------------------------------------

  lemma {:induction false} BarSplit(front: seq<string>, back: seq<string>)
    requires front != [] && back != []
    ensures Bar(front + back) == Bar(front) + "|" + Bar(back)
  {
    if |front| == 1 {
      assert front + back == [front[0]] + back;
      BarCons(front[0], back);
    } else {
      BarSplit(front[1..], back);
      assert (front + back)[1..] == front[1..] + back;
    }
  }

  lemma FieldInside(front: seq<string>, lead: string, x: string, back: seq<string>)
    requires back != []
    ensures Bar(front + [lead + x] + back) == Bar(front + [lead]) + x + ("|" + Bar(back))
  {
    BarSplit(front + [lead + x], back);
    BarLast(front, lead, x);
  }

  /** Equal texts around two unknown parts, the second of a known length, fix both parts. */
  lemma Cancel(before: string, a: string, b: string, between: string, c: string, d: string)
    requires before + a + (between + c) == before + b + (between + d)
    requires |c| == |d|
    ensures a == b && c == d
  {
    var left, right := before + a + (between + c), before + b + (between + d);
    assert |a| == |b|;
    assert left[|before|..|before| + |a|] == a && right[|before|..|before| + |a|] == b;
    assert left[|left| - |c|..] == c && right[|left| - |c|..] == d;
  }

  /** A text that holds one bar splits at it in one way only. */
  lemma CancelAtBar(a: string, b: string, c: string, d: string)
    requires a + ("|" + c) == b + ("|" + d)
    requires '|' !in b && '|' !in d
    ensures a == b && c == d
  {
    var left, right := a + ("|" + c), b + ("|" + d);
    NoBarAnywhere(b);
    NoBarAnywhere(d);
    assert left[|a|] == '|';
    assert |a| == |b|;
    assert left[..|a|] == a && right[..|a|] == b;
    assert left[|a| + 1..] == c && right[|a| + 1..] == d;
  }

  // ----- verify rows -------------------------------------------------------------------

  function VerifyWith(sequence: string, service: string, unit: string, imageId: string): string {
    Bar([sequence, "VERIFY_DIGEST_PINNED_CANDIDATE", "service=" + service, "unit=" + unit,
         "candidate_tag=asklegal/" + service + ":hk-v1-candidate"] + ["image_id=" + imageId])
  }

  function UnitName(service: string): string {
    "asklegal-" + service + ".service"
  }

  lemma VerifyWithSplits(sequence: string, service: string, unit: string, imageId: string)
    ensures VerifyWith(sequence, service, unit, imageId)
         == Bar([sequence, "VERIFY_DIGEST_PINNED_CANDIDATE", "service=" + service] + ["unit="]) + unit
            + (("|" + Bar(["candidate_tag=asklegal/" + service + ":hk-v1-candidate"] + ["image_id="])) + imageId)
  {
    var front := [sequence, "VERIFY_DIGEST_PINNED_CANDIDATE", "service=" + service];
    var tag := "candidate_tag=asklegal/" + service + ":hk-v1-candidate";
    var back := [tag] + ["image_id=" + imageId];
    assert front + ["unit=" + unit] + back
        == [sequence, "VERIFY_DIGEST_PINNED_CANDIDATE", "service=" + service, "unit=" + unit, tag] + ["image_id=" + imageId];
    FieldInside(front, "unit=", unit, back);
    BarLast([tag], "image_id=", imageId);
  }

  lemma VerifyRowIsWith(sequence: string, service: string, imageId: string)
    ensures VerifyRow(sequence, service, imageId) == VerifyWith(sequence, service, UnitName(service), imageId)
  {
    assert "unit=" + UnitName(service) == "unit=asklegal-" + service + ".service";
  }

  /** A printed verify row parses exactly when it names the service's own unit. */
  lemma VerifyAgrees(sequence: string, service: string, unit: string, imageId: string)
    requires IsFingerprint(imageId)
    ensures ParseVerify(sequence, service, VerifyWith(sequence, service, unit, imageId))
         == if unit == UnitName(service) then Some(imageId) else None
  {
    var raw := VerifyWith(sequence, service, unit, imageId);
    var parsed := ParseVerify(sequence, service, raw);
    VerifyWithSplits(sequence, service, unit, imageId);
    VerifyRowIsWith(sequence, service, imageId);
    if parsed.Some? {
      VerifyRowIsWith(sequence, service, parsed.value);
      VerifyWithSplits(sequence, service, UnitName(service), parsed.value);
      Cancel(Bar([sequence, "VERIFY_DIGEST_PINNED_CANDIDATE", "service=" + service] + ["unit="]), unit, UnitName(service),
             "|" + Bar(["candidate_tag=asklegal/" + service + ":hk-v1-candidate"] + ["image_id="]), imageId, parsed.value);
    }
  }

  // ----- rollback rows -----------------------------------------------------------------

  lemma AbsenceIsNoImage(sequence: string, service: string, runtimeState: string, imageId: string)
    ensures AbsenceRow(sequence, service) != RestoreRow(sequence, service, runtimeState, imageId)
  {
    var absence, image := "RESTORE_PREDECESSOR_SERVICE_ABSENCE", "RESTORE_PREDECESSOR_SERVICE_IMAGE";
    var back := ["service=" + service, "runtime_state=" + runtimeState, "image_id=" + imageId];
    assert [sequence, absence, "service=" + service] == [sequence, absence] + ["service=" + service];
    assert RestoreFront(sequence, service) + ["runtime_state=" + runtimeState] + ["image_id=" + imageId]
        == [sequence, image] + back;
    BarSplit([sequence, absence], ["service=" + service]);
    BarSplit([sequence, image], back);
    assert [sequence, absence] == [sequence] + [absence] && [sequence, image] == [sequence] + [image];
    BarCons(sequence, [absence]);
    BarCons(sequence, [image]);
    var at := |sequence| + 29;
    assert AbsenceRow(sequence, service)[at] == absence[28] == 'A';
    assert RestoreRow(sequence, service, runtimeState, imageId)[at] == image[28] == 'I';
  }

  lemma AbsenceAgrees(sequence: string, service: string)
    ensures ParseRestore(sequence, service, AbsenceRow(sequence, service)) == Some(Predecessor(service, None, None))
  {
    var parsed := ParseRestore(sequence, service, AbsenceRow(sequence, service));
    if parsed.Some? && parsed.value.imageId.Some? {
      AbsenceIsNoImage(sequence, service, parsed.value.runtimeState.value, parsed.value.imageId.value);
    }
  }

  lemma RestoreRowIsUnique(sequence: string, service: string, s: string, id: string, t: string, other: string)
    requires RestoreRow(sequence, service, s, id) == RestoreRow(sequence, service, t, other)
    requires IsLowerWord(t) && IsFingerprint(other)
    ensures s == t && id == other
  {
    RestoreRowSplits(sequence, service, s, id);
    RestoreRowSplits(sequence, service, t, other);
    assert '|' !in t;
    FingerprintHasNoBar(other);
    var prefix := RestorePrefix(sequence, service);
    var left, right := s + ("|" + ("image_id=" + id)), t + ("|" + ("image_id=" + other));
    assert prefix + s + "|image_id=" + id == prefix + left;
    assert prefix + t + "|image_id=" + other == prefix + right;
    assert left == (prefix + left)[|prefix|..] && right == (prefix + right)[|prefix|..];
    assert '|' !in "image_id=" + other;
    CancelAtBar(s, t, "image_id=" + id, "image_id=" + other);
    assert id == ("image_id=" + id)[9..] && other == ("image_id=" + other)[9..];
  }

  /** A printed restore row parses exactly when its state and image are well formed. */
  lemma RestoreAgrees(sequence: string, service: string, runtimeState: string, imageId: string)
    ensures ParseRestore(sequence, service, RestoreRow(sequence, service, runtimeState, imageId))
         == if IsLowerWord(runtimeState) && IsFingerprint(imageId)
            then Some(Predecessor(service, Some(imageId), Some(runtimeState))) else None
  {
    var raw := RestoreRow(sequence, service, runtimeState, imageId);
    var parsed := ParseRestore(sequence, service, raw);
    if IsLowerWord(runtimeState) && IsFingerprint(imageId) {
      ParseRestoreReadsImage(sequence, service, runtimeState, imageId);
    } else if parsed.Some? && parsed.value.imageId.None? {
      AbsenceIsNoImage(sequence, service, runtimeState, imageId);
    } else if parsed.Some? {
      RestoreRowIsUnique(sequence, service, runtimeState, imageId, parsed.value.runtimeState.value, parsed.value.imageId.value);
    }
  }

  // ----- a printed deployment ----------------------------------------------------------

  /** What stands in a container's place before the deployment: nothing, or an image in a state. */
  type Standing = Option<(string, string)>

  function RestoreText(sequence: string, service: string, standing: Standing): string {
    if standing.None? then AbsenceRow(sequence, service)
    else RestoreRow(sequence, service, standing.value.1, standing.value.0)
  }

  predicate WellStanding(standing: Standing) {
    standing.Some? ==> IsFingerprint(standing.value.0) && IsLowerWord(standing.value.1)
  }

  function PredecessorOf(service: string, standing: Standing): Predecessor {
    if standing.None? then Predecessor(service, None, None)
    else Predecessor(service, Some(standing.value.0), Some(standing.value.1))
  }

  /** The verify rows are those printed for these units and images. */
  ghost predicate PrintedVerifies(numbers: seq<string>, services: seq<string>, rows: seq<string>, targets: seq<string>,
                                  units: seq<string>, images: seq<(string, string)>) {
    && |numbers| == |services| == |rows| == |units| == |images|
    && forall k | 0 <= k < |rows| ::
         && images[k].0 == services[k] && IsFingerprint(images[k].1) && ImageTarget(services[k], images[k].1) in targets
         && rows[k] == VerifyWith(numbers[k], services[k], units[k], images[k].1)
  }

  lemma {:induction false} VerifyRowsAgree(numbers: seq<string>, services: seq<string>, rows: seq<string>,
                                           targets: seq<string>, units: seq<string>, images: seq<(string, string)>)
    requires PrintedVerifies(numbers, services, rows, targets, units, images)
    ensures ParseVerifyRows(numbers, services, rows, targets)
         == if forall i | 0 <= i < |rows| :: units[i] == UnitName(services[i]) then Some(images) else None
  {
    hide VerifyWith, ParseVerify, UnitName, ImageTarget, IsFingerprint;
    if rows != [] {
      VerifyRowsAgree(numbers[1..], services[1..], rows[1..], targets, units[1..], images[1..]);
      VerifyAgrees(numbers[0], services[0], units[0], images[0].1);
      assert images == [(services[0], images[0].1)] + images[1..];
      assert (forall i | 0 <= i < |rows| :: units[i] == UnitName(services[i]))
        <==> units[0] == UnitName(services[0]) && forall i | 0 <= i < |rows[1..]| :: units[1..][i] == UnitName(services[1..][i]);
    }
  }

  lemma StandingAgrees(sequence: string, service: string, standing: Standing)
    ensures ParseRestore(sequence, service, RestoreText(sequence, service, standing))
         == if WellStanding(standing) then Some(PredecessorOf(service, standing)) else None
  {
    if standing.None? {
      AbsenceAgrees(sequence, service);
    } else {
      RestoreAgrees(sequence, service, standing.value.1, standing.value.0);
    }
  }

  /** The restoring rows are those printed for these containers. */
  ghost predicate PrintedRestores(numbers: seq<string>, services: seq<string>, rows: seq<string>, standing: seq<Standing>) {
    && |numbers| == |services| == |rows| == |standing|
    && forall k | 0 <= k < |rows| :: rows[k] == RestoreText(numbers[k], services[k], standing[k])
  }

  lemma {:induction false} RestoreRowsAgree(numbers: seq<string>, services: seq<string>, rows: seq<string>, standing: seq<Standing>)
    requires PrintedRestores(numbers, services, rows, standing)
    ensures var parsed := ParseRestoreRows(numbers, services, rows);
            && (parsed.Some? <==> forall i | 0 <= i < |rows| :: WellStanding(standing[i]))
            && (parsed.Some? ==> forall i | 0 <= i < |rows| :: parsed.value[i] == PredecessorOf(services[i], standing[i]))
  {
    hide RestoreText, ParseRestore, WellStanding, PredecessorOf;
    if rows != [] {
      RestoreRowsAgree(numbers[1..], services[1..], rows[1..], standing[1..]);
      StandingAgrees(numbers[0], services[0], standing[0]);
      assert (forall i | 0 <= i < |rows| :: WellStanding(standing[i]))
        <==> WellStanding(standing[0]) && forall i | 0 <= i < |rows[1..]| :: WellStanding(standing[1..][i]);
    }
  }

  // ----- what the planner prints -------------------------------------------------------

  lemma SmallNumbers()
    ensures Padded(1, 3) == "001" && Padded(2, 3) == "002" && Padded(3, 3) == "003" && Padded(4, 3) == "004"
    ensures Padded(5, 3) == "005" && Padded(6, 3) == "006" && Padded(7, 3) == "007" && Padded(8, 3) == "008"
    ensures Padded(9, 3) == "009"
  {
  }

  lemma LargerNumbers()
    ensures Padded(10, 3) == "010" && Padded(11, 3) == "011" && Padded(12, 3) == "012" && Padded(13, 3) == "013"
  {
    assert Decimal(1) == "1";
    assert Decimal(10) == "10" && Decimal(11) == "11" && Decimal(12) == "12" && Decimal(13) == "13";
  }

  lemma NumberedIsBar(k: nat, number: string, fields: seq<string>)
    requires fields != [] && Padded(k, 3) == number
    ensures Numbered(k, Bar(fields)) == Bar([number] + fields)
  {
    BarCons(number, fields);
  }

  lemma VerifyPrints(k: nat, number: string, service: string, unit: string, row: BuildRow)
    requires Padded(k, 3) == number && row.tag == "asklegal/" + service + ":hk-v1-candidate"
    ensures Numbered(k, VerifyValue(service, unit, row)) == VerifyWith(number, service, unit, row.imageId)
  {
    var fields := ["VERIFY_DIGEST_PINNED_CANDIDATE", "service=" + service, "unit=" + unit, "candidate_tag=" + row.tag];
    NumberedIsBar(k, number, fields + ["image_id=" + row.imageId]);
    assert "candidate_tag=" + row.tag == "candidate_tag=asklegal/" + service + ":hk-v1-candidate";
    assert [number] + (fields + ["image_id=" + row.imageId])
        == [number, "VERIFY_DIGEST_PINNED_CANDIDATE", "service=" + service, "unit=" + unit,
            "candidate_tag=asklegal/" + service + ":hk-v1-candidate"] + ["image_id=" + row.imageId];
  }

  function StandingOf(states: map<string, (string, string)>, service: string): Standing {
    if "asklegal-" + service in states then Some(states["asklegal-" + service]) else None
  }

  lemma RestorePrints(k: nat, number: string, states: map<string, (string, string)>, service: string)
    requires Padded(k, 3) == number
    ensures Numbered(k, RestoreValue(states, service)) == RestoreText(number, service, StandingOf(states, service))
  {
    if "asklegal-" + service in states {
      var (imageId, runtimeState) := states["asklegal-" + service];
      var fields := ["RESTORE_PREDECESSOR_SERVICE_IMAGE", "service=" + service] + ["runtime_state=" + runtimeState] + ["image_id=" + imageId];
      NumberedIsBar(k, number, fields);
      assert [number] + fields == RestoreFront(number, service) + ["runtime_state=" + runtimeState] + ["image_id=" + imageId];
    } else {
      NumberedIsBar(k, number, ["RESTORE_PREDECESSOR_SERVICE_ABSENCE", "service=" + service]);
      assert [number] + ["RESTORE_PREDECESSOR_SERVICE_ABSENCE", "service=" + service]
          == [number, "RESTORE_PREDECESSOR_SERVICE_ABSENCE", "service=" + service];
    }
  }

  /** The planner's fixed values print as the executor's fixed rows. */
  ghost predicate SameFixed(values: FixedValues, fixed: FixedRows) {
    && |values.head| == |values.back| == 5
    && fixed.head == [Numbered(1, values.head[0]), Numbered(2, values.head[1]), Numbered(3, values.head[2]),
                      Numbered(4, values.head[3]), Numbered(5, values.head[4])]
    && fixed.recollect == Numbered(12, values.recollect) && fixed.confirm == Numbered(13, values.confirm)
    && fixed.restores == [Numbered(6, values.back[0]), Numbered(7, values.back[1]), Numbered(8, values.back[2]), Numbered(9, values.back[3])]
    && fixed.recollectBack == Numbered(10, values.back[4])
  }

  lemma FixedAgree()
    ensures SameFixed(VALUES, FIXED)
  {
    ProvisionPrints();
    StagePrints();
    InstallPrints();
    NetworksPrints();
    FirewallPrints();
    RecollectPrints();
    ConfirmPrints();
    RestoreTailPrints();
    RecollectBackPrints();
  }

  lemma ProvisionPrints()
    ensures Numbered(1, VALUES.head[0]) == PROVISION
  {
    SmallNumbers();
    var fields := ["PROVISION_RUNTIME_PATHS", "source=" + POC + "provisioning/30-identities.sh"];
    NumberedIsBar(1, "001", fields);
    assert ["001"] + fields == ["001", "PROVISION_RUNTIME_PATHS", "source=" + POC + "provisioning/30-identities.sh"];
  }

  lemma StagePrints()
    ensures Numbered(2, VALUES.head[1]) == STAGE
  {
    SmallNumbers();
    var fields := ["STAGE_RUNTIME_CONFIGURATION", "unit_source=" + POC + "units",
           "config_destination=/etc/asklegal", "helper_source=" + POC + "libexec",
           "helper_destination=/usr/local/libexec",
           MIGRATION_SOURCE,
           MIGRATION_DESTINATION];
    NumberedIsBar(2, "002", fields);
    assert ["002"] + fields ==
         ["002", "STAGE_RUNTIME_CONFIGURATION", "unit_source=" + POC + "units",
                      "config_destination=/etc/asklegal", "helper_source=" + POC + "libexec",
                      "helper_destination=/usr/local/libexec",
                      MIGRATION_SOURCE,
                      MIGRATION_DESTINATION];
  }

  lemma InstallPrints()
    ensures Numbered(3, VALUES.head[2]) == INSTALL
  {
    SmallNumbers();
    var fields := ["INSTALL_SYSTEMD_UNITS", "source=" + POC + "units", "destination=/etc/systemd/system"];
    NumberedIsBar(3, "003", fields);
    assert ["003"] + fields == ["003", "INSTALL_SYSTEMD_UNITS", "source=" + POC + "units", "destination=/etc/systemd/system"];
  }

  lemma NetworksPrints()
    ensures Numbered(4, VALUES.head[3]) == NETWORKS
  {
    SmallNumbers();
    var fields := ["RECONCILE_NETWORKS", "unit=asklegal-networks.service", "source=" + POC + "systemd_unit_inputs.json"];
    NumberedIsBar(4, "004", fields);
    assert ["004"] + fields == ["004", "RECONCILE_NETWORKS", "unit=asklegal-networks.service",
                         "source=" + POC + "systemd_unit_inputs.json"];
  }

  lemma FirewallPrints()
    ensures Numbered(5, VALUES.head[4]) == FIREWALL
  {
    SmallNumbers();
    var fields := ["APPLY_HOST_FIREWALL", "source=" + POC + "provisioning/60-firewall.sh", "deadman_seconds=900"];
    NumberedIsBar(5, "005", fields);
    assert ["005"] + fields == ["005", "APPLY_HOST_FIREWALL", "source=" + POC + "provisioning/60-firewall.sh",
                         "deadman_seconds=900"];
  }

  lemma RecollectPrints()
    ensures Numbered(12, VALUES.recollect) == RECOLLECT_FORWARD
  {
    LargerNumbers();
    var fields := ["RECOLLECT_HOST_FACTS", "output=var/hk-v1/host/post-reconcile.json", "required=all-11-fact-classes"];
    NumberedIsBar(12, "012", fields);
    assert ["012"] + fields == ["012", "RECOLLECT_HOST_FACTS", "output=var/hk-v1/host/post-reconcile.json",
                                  "required=all-11-fact-classes"];
  }

  lemma ConfirmPrints()
    ensures Numbered(13, VALUES.confirm) == CONFIRM
  {
    LargerNumbers();
    var fields := ["CONFIRM_HOST_FIREWALL", "source=post-reconcile-host-facts", "marker=/run/asklegal-firewall-confirmed"];
    NumberedIsBar(13, "013", fields);
    assert ["013"] + fields == ["013", "CONFIRM_HOST_FIREWALL", "source=post-reconcile-host-facts",
                        "marker=/run/asklegal-firewall-confirmed"];
  }

  lemma EnablePrints(images: seq<(string, string)>)
    ensures Numbered(11, EnableValue(Bindings(images))) == EnableRow(images)
  {
    LargerNumbers();
    var fields := ["ENABLE_START_TARGET_AND_TIMERS", "target=asklegal.target",
           "source=" + POC + "systemd_unit_inputs.json", "bindings=" + Bindings(images)];
    NumberedIsBar(11, "011", fields);
    assert ["011"] + fields == ["011", "ENABLE_START_TARGET_AND_TIMERS", "target=asklegal.target",
         "source=" + POC + "systemd_unit_inputs.json", "bindings=" + Bindings(images)];
  }

  lemma RestoreTailPrints()
    ensures Numbered(6, VALUES.back[0]) == RESTORE_CONFIGURATION
    ensures Numbered(7, VALUES.back[1]) == RESTORE_NETWORKS
    ensures Numbered(8, VALUES.back[2]) == RESTORE_FIREWALL
    ensures Numbered(9, VALUES.back[3]) == RESTORE_UNITS
  {
    SmallNumbers();
    NumberedIsBar(6, "006", ["RESTORE_RUNTIME_CONFIGURATION", "source=state-owned-predecessor-snapshot"]);
    assert ["006"] + ["RESTORE_RUNTIME_CONFIGURATION", "source=state-owned-predecessor-snapshot"]
        == ["006", "RESTORE_RUNTIME_CONFIGURATION", "source=state-owned-predecessor-snapshot"];
    NumberedIsBar(7, "007", ["RESTORE_NETWORK_SET", "source=retained-host-facts"]);
    assert ["007"] + ["RESTORE_NETWORK_SET", "source=retained-host-facts"]
        == ["007", "RESTORE_NETWORK_SET", "source=retained-host-facts"];
    NumberedIsBar(8, "008", ["RESTORE_HOST_FIREWALL", "source=state-owned-predecessor-snapshot"]);
    assert ["008"] + ["RESTORE_HOST_FIREWALL", "source=state-owned-predecessor-snapshot"]
        == ["008", "RESTORE_HOST_FIREWALL", "source=state-owned-predecessor-snapshot"];
    NumberedIsBar(9, "009", ["RESTORE_SYSTEMD_UNIT_BYTES", "source=state-owned-predecessor-snapshot"]);
    assert ["009"] + ["RESTORE_SYSTEMD_UNIT_BYTES", "source=state-owned-predecessor-snapshot"]
        == ["009", "RESTORE_SYSTEMD_UNIT_BYTES", "source=state-owned-predecessor-snapshot"];
  }

  lemma RecollectBackPrints()
    ensures Numbered(10, VALUES.back[4]) == RECOLLECT_ROLLBACK
  {
    LargerNumbers();
    var fields := ["RECOLLECT_HOST_FACTS", "output=var/hk-v1/host/post-rollback.json", "required=all-11-fact-classes"];
    NumberedIsBar(10, "010", fields);
    assert ["010"] + fields == ["010", "RECOLLECT_HOST_FACTS", "output=var/hk-v1/host/post-rollback.json",
                                   "required=all-11-fact-classes"];
  }

  // ----- blockers and targets ----------------------------------------------------------

  lemma {:induction false} BindingsAgree(rows: map<string, BuildRow>, names: seq<string>, images: seq<(string, string)>)
    requires (forall s | s in names :: s in rows) && |images| == |names|
    requires forall k | 0 <= k < |names| :: images[k] == (names[k], rows[names[k]].imageId)
    ensures BindingsText(rows, names) == Bindings(images)
  {
    if |names| > 1 {
      BindingsAgree(rows, names[1..], images[1..]);
    }
  }

  lemma {:induction false} ImageTargetIsListed(inputs: Inputs, services: seq<RuntimeService>, name: string)
    requires inputs.buildResults.Some? && name in inputs.buildResults.value.rows
    requires ImageTargets(inputs, services).Some? && UnitOf(services, name).Some?
    ensures ImageTarget(name, inputs.buildResults.value.rows[name].imageId) in ImageTargets(inputs, services).value
  {
    if services[0].serviceId != name {
      ImageTargetIsListed(inputs, services[1..], name);
    }
  }

  lemma {:induction false} ImageTargetsAreTexts(inputs: Inputs, services: seq<RuntimeService>)
    requires ImageTargets(inputs, services).Some?
    ensures "" !in ImageTargets(inputs, services).value
  {
    if services != [] {
      ImageTargetsAreTexts(inputs, services[1..]);
    }
  }

  lemma {:induction false} NoLimitations(blockers: seq<string>)
    requires forall b | b in blockers :: !OfRecovery(b)
    ensures RecoveryLimitations(blockers) == []
  {
    if blockers != [] {
      assert blockers[0] in blockers;
      NoLimitations(blockers[1..]);
    }
  }

  /** The one recovery blocker of an ordered list is its one limitation. */
  lemma {:induction false} OneLimitation(blockers: seq<string>, only: string)
    requires Ascending(blockers) && only in blockers
    requires forall b | b in blockers :: (OfRecovery(b) <==> b == only)
    ensures RecoveryLimitations(blockers) == [only]
  {
    AscendingIsDistinct(blockers);
    assert blockers[0] in blockers;
    if blockers[0] == only {
      NoLimitations(blockers[1..]);
    } else {
      OneLimitation(blockers[1..], only);
    }
  }

  // ----- the theorem -------------------------------------------------------------------

  /** The evidence leaves nothing open but the limits that a deployment admits. */
  predicate Settled(e: Evidence) {
    && ContractOf(e).terminal
    && e.recovery.Valid? && !e.recovery.value.ready
  }

  function AllBlockers(inputs: Inputs): set<string> {
    HostBlockers(inputs) + ContractOf(inputs.evidence).blockers
  }

  predicate NoneOf(blockers: set<string>, refused: set<string>) {
    forall b | b in blockers :: b !in refused
  }

  lemma PlainHostBlocker(b: string)
    requires b == "HOST_MUTATION_NOT_AUTHORIZED" || b == "HOST_FACTS_INCOMPLETE" || b == "HOST_FACTS_NONCONFORMING"
             || b == "APPLICATION_IMAGE_PINS_REQUIRED" || b == "DESIRED_SERVICE_INVENTORY_MISMATCH"
    ensures b != "" && !OfRecovery(b)
  {
    assert b[0] == 'H' || b[0] == 'A' || b[0] == 'D';
    assert RECOVERY_PREFIX[0] == 'R';
  }

  lemma AuthorityRequiredIs()
    ensures CREDENTIAL_AUTHORITY_REQUIRED == "CREDENTIAL_ROTATION_EXECUTION_AUTHORITY" + "_REQUIRED"
    ensures CREDENTIAL_AUTHORITY_REQUIRED[0] == 'C'
  {
    assert CREDENTIAL_AUTHORITY_REQUIRED == "CREDENTIAL_ROTATION_EXECUTION_AUTHORITY" + "_REQUIRED";
  }

  lemma PlainCredentialBlocker(b: string)
    requires b in DEPLOYMENT_CREDENTIAL_BLOCKERS
    ensures b != "" && !OfRecovery(b)
  {
    assert RECOVERY_PREFIX[0] == 'R';
    if b == CREDENTIAL_AUTHORITY_REQUIRED {
      AuthorityRequiredIs();
    } else if b == "CREDENTIAL_ROTATION_PLAN_INVALID" {
    } else if b == "CREDENTIAL_ROTATION_PLAN_REQUIRED" {
    } else if b == "CREDENTIAL_ROTATION_REPORT_INVALID" {
    } else {
      assert b == "CREDENTIAL_ROTATION_REPORT_REQUIRED";
    }
  }

  lemma HostBlockersRefuse(inputs: Inputs)
    ensures NoneOf(HostBlockers(inputs), INCOMPLETE_BLOCKERS) <==> inputs.factsComplete
    ensures NoneOf(HostBlockers(inputs), DEPLOYMENT_CREDENTIAL_BLOCKERS)
  {
    if !inputs.factsComplete {
      assert "HOST_FACTS_INCOMPLETE" in HostBlockers(inputs);
    }
  }

  lemma HostBlockersArePlain(inputs: Inputs)
    ensures forall b | b in HostBlockers(inputs) :: !OfRecovery(b) && b != ""
  {
    forall b | b in HostBlockers(inputs) ensures !OfRecovery(b) && b != "" {
      PlainHostBlocker(b);
    }
  }

  lemma CredentialBlockersAreKnown(e: Evidence)
    ensures CredentialContract(e).0 <= DEPLOYMENT_CREDENTIAL_BLOCKERS
    ensures NoneOf(CredentialContract(e).0, INCOMPLETE_BLOCKERS)
    ensures ContractOf(e).terminal <==> ContractOf(e).credential.Some? && CredentialContract(e).0 == {}
    ensures ContractOf(e).terminal <==> CredentialContract(e).0 == {}
  {
    assert e.credentialPlan.Missing? || e.credentialPlan.Invalid? || e.credentialPlan.Valid?;
  }

  lemma CredentialBlockersRefuse(e: Evidence)
    ensures NoneOf(CredentialContract(e).0, INCOMPLETE_BLOCKERS)
    ensures NoneOf(CredentialContract(e).0, DEPLOYMENT_CREDENTIAL_BLOCKERS) <==> ContractOf(e).terminal
    ensures forall b | b in CredentialContract(e).0 :: !OfRecovery(b) && b != ""
    ensures ContractOf(e).terminal ==> ContractOf(e).credential.Some?
  {
    CredentialBlockersAreKnown(e);
    forall b | b in CredentialContract(e).0 ensures !OfRecovery(b) && b != "" {
      PlainCredentialBlocker(b);
    }
  }

  lemma RecoveryBlockersRefuse(e: Evidence)
    ensures NoneOf(RecoveryContract(e).0, INCOMPLETE_BLOCKERS) <==> e.recovery.Valid?
    ensures NoneOf(RecoveryContract(e).0, DEPLOYMENT_CREDENTIAL_BLOCKERS)
    ensures exists only :: RecoveryContract(e).0 == {only} && OfRecovery(only)
              && (only == RECOVERY_NOT_READY <==> e.recovery.Valid? && !e.recovery.value.ready)
  {
    assert RecoveryContract(e).0 == {"RECOVERY_PREFLIGHT_REPORT_REQUIRED"} || RecoveryContract(e).0 == {"RECOVERY_PREFLIGHT_REPORT_INVALID"}
        || RecoveryContract(e).0 == {"RECOVERY_EXECUTION_AUTHORITY_REQUIRED"} || RecoveryContract(e).0 == {"RECOVERY_PREFLIGHT_NOT_READY"};
  }

  predicate Acceptable(inputs: Inputs)
    requires inputs.buildResults.Some?
  {
    && inputs.factsComplete
    && Settled(inputs.evidence)
    && OwnUnits(inputs.services, SERVICES)
    && KnownStanding(inputs.containers, SERVICES)
  }

  /** Each named service runs as its own unit. */
  predicate OwnUnits(services: seq<RuntimeService>, names: seq<string>) {
    forall s | s in names :: UnitOf(services, s) == Some(UnitName(s))
  }

  /** Each named service's container is absent, or stands in a one-word state at a digest. */
  predicate KnownStanding(containers: seq<Container>, names: seq<string>) {
    forall s | s in names :: WellStanding(StandingOf(StatesOf(containers), s))
  }

  /** The blockers refuse a deployment unless facts and evidence are settled. */
  lemma BlockersDecide(inputs: Inputs, blockers: seq<string>)
    requires blockers == Sorted(AllBlockers(inputs))
    ensures AllNonempty(blockers)
    ensures (TextSet(blockers) * INCOMPLETE_BLOCKERS == {} && TextSet(blockers) * DEPLOYMENT_CREDENTIAL_BLOCKERS == {}
             && Admitted(RecoveryLimitations(blockers)))
            <==> inputs.factsComplete && Settled(inputs.evidence)
    ensures Settled(inputs.evidence) ==> RecoveryLimitations(blockers) == [RECOVERY_NOT_READY]
  {
    hide CredentialContract, RecoveryContract, HostBlockers, OfRecovery, TextSet, RecoveryLimitations, Sorted;
    HostBlockersRefuse(inputs);
    HostBlockersArePlain(inputs);
    CredentialBlockersRefuse(inputs.evidence);
    RecoveryBlockersRefuse(inputs.evidence);
    var only :| RecoveryContract(inputs.evidence).0 == {only} && OfRecovery(only)
      && (only == RECOVERY_NOT_READY <==> inputs.evidence.recovery.Valid? && !inputs.evidence.recovery.value.ready);
    assert AllBlockers(inputs) == HostBlockers(inputs) + (CredentialContract(inputs.evidence).0 + {only});
    OneLimitationOf(HostBlockers(inputs), CredentialContract(inputs.evidence).0, only, blockers);
    DisjointFrom(HostBlockers(inputs), CredentialContract(inputs.evidence).0, {only}, TextSet(blockers), INCOMPLETE_BLOCKERS);
    DisjointFrom(HostBlockers(inputs), CredentialContract(inputs.evidence).0, {only}, TextSet(blockers), DEPLOYMENT_CREDENTIAL_BLOCKERS);
    assert only in RecoveryLimitations(blockers);
  }

  lemma RecoveryBlockerIsText(blocker: string)
    requires OfRecovery(blocker)
    ensures blocker != ""
  {
  }

  lemma OneLimitationOf(host: set<string>, credential: set<string>, only: string, blockers: seq<string>)
    requires blockers == Sorted(host + (credential + {only})) && OfRecovery(only)
    requires forall b | b in host :: !OfRecovery(b) && b != ""
    requires forall b | b in credential :: !OfRecovery(b) && b != ""
    ensures TextSet(blockers) == host + (credential + {only}) && AllNonempty(blockers)
    ensures RecoveryLimitations(blockers) == [only]
  {
    hide OfRecovery, RecoveryLimitations, Sorted;
    RecoveryBlockerIsText(only);
    forall b ensures b in blockers <==> b in host || b in credential || b == only {
      assert b in blockers <==> b in host + (credential + {only});
    }
    OneLimitation(blockers, only);
  }

  lemma DisjointFrom(host: set<string>, credential: set<string>, recovery: set<string>, all: set<string>, refused: set<string>)
    requires all == host + (credential + recovery)
    ensures all * refused == {} <==> NoneOf(host, refused) && NoneOf(credential, refused) && NoneOf(recovery, refused)
  {
    assert forall b :: b in all * refused <==> b in all && b in refused;
  }

  /** The rows of a plan body are those printed for these units, images and standing containers. */
  ghost predicate Printed(fixed: FixedRows, body: PlanBody, units: seq<string>, images: seq<(string, string)>,
                          standing: seq<Standing>) {
    && |body.actions| == 13 && |body.rollbackActions| == 10
    && body.actions[..5] == fixed.head
    && PrintedVerifies(VERIFY_NUMBERS, SERVICES, body.actions[5..10], body.targets, units, images)
    && body.actions[10] == EnableRow(images)
    && body.actions[11] == fixed.recollect && body.actions[12] == fixed.confirm
    && PrintedRestores(FIRST_NUMBERS, Reversed(SERVICES), body.rollbackActions[..5], standing)
    && body.rollbackActions[5..9] == fixed.restores
    && body.rollbackActions[9] == fixed.recollectBack
    && AllNonempty(body.rollbackActions) && body.rollbackState == "ORDERED_REVERSIBLE_PLAN"
  }

  /** What the executor reads from a printed deployment. */
  function ReadBack(body: PlanBody, images: seq<(string, string)>, predecessors: seq<Predecessor>): HostPlan
    requires |body.actions| == 13 && body.buildResults.Some?
  {
    Deployment(Sha256(body), body.actions, body.targets, body.actions[11], "var/hk-v1/host/post-reconcile.json",
               body.rollbackActions, body.buildResults.value, body.imageInputs, images,
               predecessors, RecoveryLimitations(body.blockers))
  }

  function PredecessorsOf(standing: seq<Standing>): seq<Predecessor>
    requires |standing| == 5
  {
    seq(5, k requires 0 <= k < 5 => PredecessorOf(SERVICES[k], standing[4 - k]))
  }

  predicate EachUnit(units: seq<string>) {
    |units| == 5 && forall k | 0 <= k < 5 :: units[k] == UnitName(SERVICES[k])
  }

  predicate EachStanding(standing: seq<Standing>) {
    |standing| == 5 && forall k | 0 <= k < 5 :: WellStanding(standing[k])
  }

  lemma ForwardRowsParse(fixed: FixedRows, body: PlanBody, units: seq<string>, images: seq<(string, string)>, standing: seq<Standing>)
    requires Printed(fixed, body, units, images, standing)
    ensures ParseForwardRows(fixed, body).Success? <==> EachUnit(units)
    ensures ParseForwardRows(fixed, body).Success? ==> ParseForwardRows(fixed, body).value == images
  {
    VerifyRowsAgree(VERIFY_NUMBERS, SERVICES, body.actions[5..10], body.targets, units, images);
  }

  lemma RollbackRowsParse(fixed: FixedRows, body: PlanBody, units: seq<string>, images: seq<(string, string)>, standing: seq<Standing>)
    requires Printed(fixed, body, units, images, standing)
    ensures ParseRollbackRows(fixed, body).Success? <==> EachStanding(standing)
    ensures ParseRollbackRows(fixed, body).Success? ==> ParseRollbackRows(fixed, body).value == PredecessorsOf(standing)
  {
    RestoreRowsAgree(FIRST_NUMBERS, Reversed(SERVICES), body.rollbackActions[..5], standing);
    var predecessors := ParseRestoreRows(FIRST_NUMBERS, Reversed(SERVICES), body.rollbackActions[..5]);
    if predecessors.Some? {
      ReversedPredecessorsAre(predecessors.value, standing);
    }
  }

  lemma ReversedPredecessorsAre(back: seq<Predecessor>, standing: seq<Standing>)
    requires |back| == |standing| == 5
    requires forall i | 0 <= i < 5 :: back[i] == PredecessorOf(Reversed(SERVICES)[i], standing[i])
    ensures ReversedPredecessors(back) == PredecessorsOf(standing)
  {
    forall k | 0 <= k < 5 ensures ReversedPredecessors(back)[k] == PredecessorsOf(standing)[k] {
      assert back[4 - k] == PredecessorOf(SERVICES[k], standing[4 - k]);
    }
  }

  /** A printed deployment is refused for its evidence, units or containers, and for nothing else. */
  lemma PrintedParses(fixed: FixedRows, body: PlanBody, units: seq<string>, images: seq<(string, string)>, standing: seq<Standing>)
    requires Printed(fixed, body, units, images, standing) && body.buildResults.Some?
    requires IsFingerprint(body.imageInputs)
    requires body.credential.Some? ==> IsFingerprint(body.credential.value)
    requires body.recovery.Some? ==> IsFingerprint(body.recovery.value)
    ensures |standing| == 5 && |body.actions| == 13
    ensures ParseDeployment(fixed, body, Sha256(body)).Success?
       <==> && body.credential.Some? && ReportTarget(body.credential.value) in body.targets
            && TextSet(body.blockers) * DEPLOYMENT_CREDENTIAL_BLOCKERS == {}
            && EachUnit(units) && EachStanding(standing)
            && body.recovery.Some?
            && Admitted(RecoveryLimitations(body.blockers))
    ensures ParseDeployment(fixed, body, Sha256(body)).Success?
        ==> ParseDeployment(fixed, body, Sha256(body)).value == ReadBack(body, images, PredecessorsOf(standing))
  {
    ForwardRowsParse(fixed, body, units, images, standing);
    RollbackRowsParse(fixed, body, units, images, standing);
    DeploymentNeeds(fixed, body);
  }

  lemma DeploymentNeeds(fixed: FixedRows, body: PlanBody)
    requires body.buildResults.Some? && |body.actions| == 13
    ensures ParseDeployment(fixed, body, Sha256(body)).Success?
       <==> && body.credential.Some? && IsFingerprint(body.credential.value)
            && ReportTarget(body.credential.value) in body.targets
            && TextSet(body.blockers) * DEPLOYMENT_CREDENTIAL_BLOCKERS == {}
            && ParseForwardRows(fixed, body).Success? && ParseRollbackRows(fixed, body).Success?
            && IsFingerprint(body.imageInputs)
            && body.recovery.Some? && IsFingerprint(body.recovery.value)
            && Admitted(RecoveryLimitations(body.blockers))
    ensures ParseDeployment(fixed, body, Sha256(body)).Success?
        ==> ParseDeployment(fixed, body, Sha256(body)).value
            == ReadBack(body, ParseForwardRows(fixed, body).value, ParseRollbackRows(fixed, body).value)
  {
    hide ParseForwardRows, ParseRollbackRows, RecoveryLimitations, Admitted, IsFingerprint, TextSet, ReportTarget;
  }

  function UnitsOf(services: seq<RuntimeService>, names: seq<string>): seq<string>
    requires forall s | s in names :: UnitOf(services, s).Some?
  {
    seq(|names|, k requires 0 <= k < |names| => UnitOf(services, names[k]).value)
  }

  function ImagesOf(rows: map<string, BuildRow>, names: seq<string>): seq<(string, string)>
    requires forall s | s in names :: s in rows
  {
    seq(|names|, k requires 0 <= k < |names| => (names[k], rows[names[k]].imageId))
  }

  function StandingsOf(states: map<string, (string, string)>, names: seq<string>): seq<Standing> {
    seq(|names|, k requires 0 <= k < |names| => StandingOf(states, names[k]))
  }

  lemma NumberedParts(head: seq<string>, verifies: seq<string>, tail: seq<string>)
    requires |head| == |verifies| == 5 && |tail| == 3
    ensures var rows := NumberedFrom(1, head + verifies + tail);
            && |rows| == 13
            && rows[..5] == [Numbered(1, head[0]), Numbered(2, head[1]), Numbered(3, head[2]), Numbered(4, head[3]), Numbered(5, head[4])]
            && (forall k | 0 <= k < 5 :: rows[5..10][k] == Numbered(6 + k, verifies[k]))
            && rows[10] == Numbered(11, tail[0]) && rows[11] == Numbered(12, tail[1]) && rows[12] == Numbered(13, tail[2])
  {
    var all := head + verifies + tail;
    var rows := NumberedFrom(1, all);
    assert rows[0] == Numbered(1, all[0]) && rows[1] == Numbered(2, all[1]) && rows[2] == Numbered(3, all[2])
        && rows[3] == Numbered(4, all[3]) && rows[4] == Numbered(5, all[4]);
    forall k | 0 <= k < 5 ensures rows[5..10][k] == Numbered(6 + k, verifies[k]) {
      assert rows[5..10][k] == rows[5 + k] == Numbered(1 + (5 + k), all[5 + k]);
    }
    assert rows[10] == Numbered(1 + 10, all[10]) && rows[11] == Numbered(1 + 11, all[11]) && rows[12] == Numbered(1 + 12, all[12]);
  }

  lemma NumberedBack(restores: seq<string>, tail: seq<string>)
    requires |restores| == |tail| == 5
    ensures var rows := NumberedFrom(1, restores + tail);
            && |rows| == 10
            && (forall k | 0 <= k < 5 :: rows[..5][k] == Numbered(1 + k, restores[k]))
            && rows[5..9] == [Numbered(6, tail[0]), Numbered(7, tail[1]), Numbered(8, tail[2]), Numbered(9, tail[3])]
            && rows[9] == Numbered(10, tail[4])
  {
    var all := restores + tail;
    var rows := NumberedFrom(1, all);
    forall k | 0 <= k < 5 ensures rows[..5][k] == Numbered(1 + k, restores[k]) {
      assert rows[..5][k] == rows[k] == Numbered(1 + k, all[k]);
    }
    assert rows[5] == Numbered(1 + 5, all[5]) && rows[6] == Numbered(1 + 6, all[6]) && rows[7] == Numbered(1 + 7, all[7])
        && rows[8] == Numbered(1 + 8, all[8]) && rows[9] == Numbered(1 + 9, all[9]);
  }

  lemma NumberedIsText(k: nat, value: string)
    ensures Numbered(k, value) != ""
  {
    assert '|' in Numbered(k, value);
  }

  lemma NumberedAreTexts(values: seq<string>)
    ensures AllNonempty(NumberedFrom(1, values))
  {
    var rows := NumberedFrom(1, values);
    forall x | x in rows ensures x != "" {
      var i :| 0 <= i < |rows| && rows[i] == x;
      NumberedIsText(1 + i, values[i]);
    }
  }

  lemma SmallNumber(k: nat)
    requires k < 5
    ensures Padded(1 + k, 3) == FIRST_NUMBERS[k] && Padded(6 + k, 3) == VERIFY_NUMBERS[k]
  {
    SmallNumbers();
    LargerNumbers();
  }

  lemma VerifiesPrinted(inputs: Inputs, results: BuildResults, rows: seq<string>, targets: seq<string>)
    requires LoadedResults(results) && inputs.buildResults == Some(results)
    requires VerifyValues(inputs.services, results.rows, SERVICES).Some?
    requires |rows| == 5 && forall k | 0 <= k < 5 ::
               rows[k] == Numbered(6 + k, VerifyValues(inputs.services, results.rows, SERVICES).value[k])
    requires ImageTargets(inputs, inputs.services).Some? && forall t | t in ImageTargets(inputs, inputs.services).value :: t in targets
    ensures PrintedVerifies(VERIFY_NUMBERS, SERVICES, rows, targets,
                            UnitsOf(inputs.services, SERVICES), ImagesOf(results.rows, SERVICES))
  {
    hide VerifyWith, VerifyValue, UnitOf, Numbered, ImageTargets, VerifyValues, IsFingerprint, Padded;
    var values := VerifyValues(inputs.services, results.rows, SERVICES).value;
    var units, images := UnitsOf(inputs.services, SERVICES), ImagesOf(results.rows, SERVICES);
    forall k | 0 <= k < 5
      ensures images[k].0 == SERVICES[k] && IsFingerprint(images[k].1) && ImageTarget(SERVICES[k], images[k].1) in targets
              && rows[k] == VerifyWith(VERIFY_NUMBERS[k], SERVICES[k], units[k], images[k].1)
    {
      var name := SERVICES[k];
      assert name in results.rows;
      SmallNumber(k);
      assert values[k] == VerifyValue(name, units[k], results.rows[name]);
      VerifyPrints(6 + k, VERIFY_NUMBERS[k], name, units[k], results.rows[name]);
      ImageTargetIsListed(inputs, inputs.services, name);
    }
  }

  lemma RestoresPrinted(states: map<string, (string, string)>, rows: seq<string>)
    requires |rows| == 5 && forall k | 0 <= k < 5 :: rows[k] == Numbered(1 + k, RestoreValues(states)[k])
    ensures PrintedRestores(FIRST_NUMBERS, Reversed(SERVICES), rows, StandingsOf(states, Reversed(SERVICES)))
  {
    forall k | 0 <= k < 5
      ensures rows[k] == RestoreText(FIRST_NUMBERS[k], Reversed(SERVICES)[k], StandingOf(states, Reversed(SERVICES)[k]))
    {
      SmallNumber(k);
      assert Reversed(SERVICES)[k] == SERVICES[4 - k];
      RestorePrints(1 + k, FIRST_NUMBERS[k], states, Reversed(SERVICES)[k]);
    }
  }

  /** The rows that a plan body numbers are the fixed ones and these. */
  ghost predicate NumbersRows(fixed: FixedRows, body: PlanBody, enable: string, verifies: seq<string>, restores: seq<string>) {
    && |body.actions| == 13 && |body.rollbackActions| == 10 && |verifies| == |restores| == 5
    && body.actions[..5] == fixed.head
    && (forall k | 0 <= k < 5 :: body.actions[5..10][k] == Numbered(6 + k, verifies[k]))
    && body.actions[10] == enable && body.actions[11] == fixed.recollect && body.actions[12] == fixed.confirm
    && (forall k | 0 <= k < 5 :: body.rollbackActions[..5][k] == Numbered(1 + k, restores[k]))
    && body.rollbackActions[5..9] == fixed.restores
    && body.rollbackActions[9] == fixed.recollectBack
    && AllNonempty(body.actions) && AllNonempty(body.rollbackActions)
  }

  lemma RowsAreNumbered(values: FixedValues, fixed: FixedRows, body: PlanBody, bindings: string,
                        verifies: seq<string>, restores: seq<string>)
    requires SameFixed(values, fixed) && |verifies| == |restores| == 5
    requires body.actions == NumberedFrom(1, ForwardValues(values, verifies, bindings))
    requires body.rollbackActions == NumberedFrom(1, restores + values.back)
    ensures NumbersRows(fixed, body, Numbered(11, EnableValue(bindings)), verifies, restores)
  {
    NumberedParts(values.head, verifies, [EnableValue(bindings), values.recollect, values.confirm]);
    NumberedAreTexts(ForwardValues(values, verifies, bindings));
    NumberedBack(restores, values.back);
    NumberedAreTexts(restores + values.back);
  }

  lemma UnitsAreFound(services: seq<RuntimeService>, rows: map<string, BuildRow>, names: seq<string>)
    requires (forall s | s in names :: s in rows) && VerifyValues(services, rows, names).Some?
    ensures forall s | s in names :: UnitOf(services, s).Some?
  {
    forall s | s in names ensures UnitOf(services, s).Some? {
      var i :| 0 <= i < |names| && names[i] == s;
    }
  }

  lemma TargetsAreTexts(inputs: Inputs)
    requires Loaded(inputs) && Targets(inputs).Some?
    ensures "" !in Targets(inputs).value
  {
    hide ImageTargets;
    ImageTargetsAreTexts(inputs, inputs.services);
    var contract := ContractOf(inputs.evidence);
    assert contract.credential.Some? ==> contract.credential.value != "";
    assert contract.recovery.Some? ==> contract.recovery.value != "";
  }

  lemma SortedTextsAreASet(targets: set<string>)
    requires "" !in targets
    ensures SortedSet(Sorted(targets)) && AllNonempty(Sorted(targets))
  {
    assert TextSet(Sorted(targets)) == targets;
  }

  lemma EachUnitIsOwn(inputs: Inputs)
    requires forall s | s in SERVICES :: UnitOf(inputs.services, s).Some?
    ensures EachUnit(UnitsOf(inputs.services, SERVICES)) <==> OwnUnits(inputs.services, SERVICES)
  {
    var units := UnitsOf(inputs.services, SERVICES);
    assert forall k | 0 <= k < 5 :: Some(units[k]) == UnitOf(inputs.services, SERVICES[k]) && SERVICES[k] in SERVICES;
  }

  lemma EachStandingIsKnown(inputs: Inputs)
    ensures EachStanding(StandingsOf(StatesOf(inputs.containers), Reversed(SERVICES)))
       <==> KnownStanding(inputs.containers, SERVICES)
  {
    var states := StatesOf(inputs.containers);
    var standing := StandingsOf(states, Reversed(SERVICES));
    forall k | 0 <= k < 5 ensures standing[4 - k] == StandingOf(states, SERVICES[k]) {
    }
    if EachStanding(standing) {
      forall s | s in SERVICES ensures WellStanding(StandingOf(states, s)) {
        var k :| 0 <= k < 5 && SERVICES[k] == s;
        assert WellStanding(standing[4 - k]);
      }
    } else {
      var k :| 0 <= k < 5 && !WellStanding(standing[k]);
      assert Reversed(SERVICES)[k] == SERVICES[4 - k];
    }
  }

  lemma NumberedRowsArePrinted(fixed: FixedRows, body: PlanBody, units: seq<string>, images: seq<(string, string)>,
                               standing: seq<Standing>, verifies: seq<string>, restores: seq<string>)
    requires NumbersRows(fixed, body, EnableRow(images), verifies, restores)
    requires PrintedVerifies(VERIFY_NUMBERS, SERVICES, body.actions[5..10], body.targets, units, images)
    requires PrintedRestores(FIRST_NUMBERS, Reversed(SERVICES), body.rollbackActions[..5], standing)
    requires body.rollbackState == "ORDERED_REVERSIBLE_PLAN"
    ensures Printed(fixed, body, units, images, standing)
  {
  }

  lemma DeploymentRowsAre(values: FixedValues, inputs: Inputs, results: BuildResults)
    requires LoadedResults(results) && DeploymentRows(values, inputs, results).Some?
    ensures var rows, verifies := DeploymentRows(values, inputs, results).value, VerifyValues(inputs.services, results.rows, SERVICES);
            && verifies.Some?
            && rows.actions == NumberedFrom(1, ForwardValues(values, verifies.value, BindingsText(results.rows, SERVICES)))
            && rows.rollback == NumberedFrom(1, RestoreValues(StatesOf(inputs.containers)) + values.back)
            && rows.rollbackState == "ORDERED_REVERSIBLE_PLAN"
  {
  }

  lemma PlanRowsAre(values: FixedValues, inputs: Inputs, body: PlanBody)
    requires Loaded(inputs) && inputs.buildResults.Some? && inputs.factsComplete
    requires BuildPlanWith(values, inputs).Some? && body == BuildPlanWith(values, inputs).value.body
    ensures DeploymentRows(values, inputs, inputs.buildResults.value) == Some(Rows(body.actions, body.rollbackState, body.rollbackActions))
  {
  }

  lemma FrozenRest(values: FixedValues, inputs: Inputs, body: PlanBody)
    requires Loaded(inputs) && BuildPlanWith(values, inputs).Some? && body == BuildPlanWith(values, inputs).value.body
    ensures BuildPlanWith(values, inputs).value == PlanFile(body, Some(Sha256(body)))
    ensures Targets(inputs).Some? && body.targets == Sorted(Targets(inputs).value)
    ensures body.blockers == Sorted(AllBlockers(inputs))
    ensures body.credential == ContractOf(inputs.evidence).credential && body.recovery == ContractOf(inputs.evidence).recovery
    ensures body.mode == "PLAN" && body.schemaVersion == 1 && !body.mutationAuthorized && body.mutationsPerformed == []
    ensures body.imageInputs == inputs.imageInputs
    ensures body.buildResults == if inputs.buildResults.None? then None else Some(inputs.buildResults.value.fingerprint)
    ensures !inputs.factsComplete ==> body.actions == []
  {
  }

  lemma EnableIsPrinted(rows: map<string, BuildRow>)
    requires forall s | s in SERVICES :: s in rows
    ensures Numbered(11, EnableValue(BindingsText(rows, SERVICES))) == EnableRow(ImagesOf(rows, SERVICES))
  {
    BindingsAgree(rows, SERVICES, ImagesOf(rows, SERVICES));
    EnablePrints(ImagesOf(rows, SERVICES));
  }

  lemma VerifyPartIsPrinted(fixed: FixedRows, inputs: Inputs, body: PlanBody, enable: string, verifies: seq<string>, restores: seq<string>)
    requires inputs.buildResults.Some? && LoadedResults(inputs.buildResults.value)
    requires NumbersRows(fixed, body, enable, verifies, restores)
    requires VerifyValues(inputs.services, inputs.buildResults.value.rows, SERVICES) == Some(verifies)
    requires Targets(inputs).Some? && body.targets == Sorted(Targets(inputs).value)
    ensures forall s | s in SERVICES :: UnitOf(inputs.services, s).Some?
    ensures PrintedVerifies(VERIFY_NUMBERS, SERVICES, body.actions[5..10], body.targets,
                            UnitsOf(inputs.services, SERVICES),
                            ImagesOf(inputs.buildResults.value.rows, SERVICES))
  {
    hide VerifyWith, UnitOf, Numbered, ImageTargets, VerifyValues, PrintedVerifies, Targets;
    UnitsAreFound(inputs.services, inputs.buildResults.value.rows, SERVICES);
    TargetsHoldImages(inputs);
    VerifiesPrinted(inputs, inputs.buildResults.value, body.actions[5..10], body.targets);
  }

  lemma TargetsHoldImages(inputs: Inputs)
    requires Targets(inputs).Some?
    ensures ImageTargets(inputs, inputs.services).Some? && ImageTargets(inputs, inputs.services).value <= Targets(inputs).value
  {
  }

  lemma RestorePartIsPrinted(fixed: FixedRows, body: PlanBody, enable: string, verifies: seq<string>, states: map<string, (string, string)>)
    requires NumbersRows(fixed, body, enable, verifies, RestoreValues(states))
    ensures PrintedRestores(FIRST_NUMBERS, Reversed(SERVICES), body.rollbackActions[..5], StandingsOf(states, Reversed(SERVICES)))
  {
    RestoresPrinted(states, body.rollbackActions[..5]);
  }

  lemma FrozenNumbers(values: FixedValues, fixed: FixedRows, inputs: Inputs, body: PlanBody) returns (verifies: seq<string>)
    requires SameFixed(values, fixed)
    requires Loaded(inputs) && inputs.buildResults.Some? && inputs.factsComplete
    requires BuildPlanWith(values, inputs).Some? && body == BuildPlanWith(values, inputs).value.body
    ensures VerifyValues(inputs.services, inputs.buildResults.value.rows, SERVICES) == Some(verifies)
    ensures NumbersRows(fixed, body, EnableRow(ImagesOf(inputs.buildResults.value.rows, SERVICES)), verifies,
                        RestoreValues(StatesOf(inputs.containers)))
    ensures body.rollbackState == "ORDERED_REVERSIBLE_PLAN"
  {
    PlanRowsAre(values, inputs, body);
    DeploymentRowsAre(values, inputs, inputs.buildResults.value);
    verifies := VerifyValues(inputs.services, inputs.buildResults.value.rows, SERVICES).value;
    EnableIsPrinted(inputs.buildResults.value.rows);
    RowsAreNumbered(values, fixed, body, BindingsText(inputs.buildResults.value.rows, SERVICES), verifies,
                    RestoreValues(StatesOf(inputs.containers)));
  }

  /** The document the planner freezes for complete facts and build results. */
  lemma BodyIsPrinted(values: FixedValues, fixed: FixedRows, inputs: Inputs, body: PlanBody)
    requires SameFixed(values, fixed)
    requires Loaded(inputs) && inputs.buildResults.Some? && inputs.factsComplete
    requires BuildPlanWith(values, inputs).Some? && body == BuildPlanWith(values, inputs).value.body
    ensures forall s | s in SERVICES :: UnitOf(inputs.services, s).Some?
    ensures Printed(fixed, body, UnitsOf(inputs.services, SERVICES),
                    ImagesOf(inputs.buildResults.value.rows, SERVICES),
                    StandingsOf(StatesOf(inputs.containers), Reversed(SERVICES)))
    ensures AllNonempty(body.actions)
  {
    FrozenRest(values, inputs, body);
    var verifies := FrozenNumbers(values, fixed, inputs, body);
    var enable := EnableRow(ImagesOf(inputs.buildResults.value.rows, SERVICES));
    VerifyPartIsPrinted(fixed, inputs, body, enable, verifies, RestoreValues(StatesOf(inputs.containers)));
    RestorePartIsPrinted(fixed, body, enable, verifies, StatesOf(inputs.containers));
    NumberedRowsArePrinted(fixed, body, UnitsOf(inputs.services, SERVICES),
                           ImagesOf(inputs.buildResults.value.rows, SERVICES),
                           StandingsOf(StatesOf(inputs.containers), Reversed(SERVICES)), verifies, RestoreValues(StatesOf(inputs.containers)));
  }

  /** Which parts of the printed body decide acceptance. */
  lemma DecidedByParts(fixed: FixedRows, body: PlanBody, units: seq<string>, images: seq<(string, string)>, standing: seq<Standing>)
    requires Printed(fixed, body, units, images, standing) && body.buildResults.Some?
    requires IsFingerprint(body.buildResults.value) && IsFingerprint(body.imageInputs)
    requires body.credential.Some? ==> IsFingerprint(body.credential.value)
    requires body.recovery.Some? ==> IsFingerprint(body.recovery.value)
    requires body.mode == "PLAN" && body.schemaVersion == 1 && !body.mutationAuthorized && body.mutationsPerformed == []
    requires AllNonempty(body.actions) && AllNonempty(body.blockers) && AllNonempty(body.targets) && SortedSet(body.targets)
    ensures |standing| == 5 && |body.actions| == 13
    ensures var parsed := ParsePlanWith(fixed, PlanFile(body, Some(Sha256(body))));
            && (parsed.Success? <==>
                 && TextSet(body.blockers) * INCOMPLETE_BLOCKERS == {} && TextSet(body.blockers) * DEPLOYMENT_CREDENTIAL_BLOCKERS == {}
                 && Admitted(RecoveryLimitations(body.blockers))
                 && body.credential.Some? && ReportTarget(body.credential.value) in body.targets
                 && body.recovery.Some?
                 && EachUnit(units) && EachStanding(standing))
            && (parsed.Success? ==> parsed.value == ReadBack(body, images, PredecessorsOf(standing)))
  {
    PrintedParses(fixed, body, units, images, standing);
  }

  /** Incomplete facts leave the executor nothing to run. */
  lemma IncompleteIsRefused(values: FixedValues, fixed: FixedRows, inputs: Inputs)
    requires Loaded(inputs) && BuildPlanWith(values, inputs).Some? && !inputs.factsComplete
    ensures ParsePlanWith(fixed, BuildPlanWith(values, inputs).value).Failure?
  {
    FrozenRest(values, inputs, BuildPlanWith(values, inputs).value.body);
  }

  /** A terminal credential report is named among the targets, and a valid recovery report is bound. */
  lemma EvidenceIsBound(inputs: Inputs)
    requires Loaded(inputs) && Targets(inputs).Some?
    ensures var contract := ContractOf(inputs.evidence);
            && (contract.terminal ==> contract.credential.Some? && ReportTarget(contract.credential.value) in Targets(inputs).value)
            && (contract.credential.Some? ==> IsFingerprint(contract.credential.value))
            && (contract.recovery.Some? <==> inputs.evidence.recovery.Valid?)
            && (contract.recovery.Some? ==> IsFingerprint(contract.recovery.value))
  {
    hide ImageTargets, IsFingerprint;
  }

  lemma AgreementWith(values: FixedValues, fixed: FixedRows, inputs: Inputs)
    requires SameFixed(values, fixed)
    requires Loaded(inputs) && inputs.buildResults.Some? && inputs.factsComplete && BuildPlanWith(values, inputs).Some?
    ensures var file := BuildPlanWith(values, inputs).value;
            var standing := StandingsOf(StatesOf(inputs.containers), Reversed(SERVICES));
            && (ParsePlanWith(fixed, file).Success? <==> Acceptable(inputs))
            && |file.body.actions| == 13 && file.body.buildResults.Some?
            && (Acceptable(inputs) ==>
                  ParsePlanWith(fixed, file).value
                  == ReadBack(file.body, ImagesOf(inputs.buildResults.value.rows, SERVICES), PredecessorsOf(standing)))
  {
    hide SameFixed, BuildPlanWith, ParsePlanWith, Printed, ContractOf, IsFingerprint, StatesOf, PredecessorsOf,
      StandingsOf, ImagesOf, UnitsOf, ReadBack, AllBlockers, RecoveryLimitations, SortedSet, AllNonempty, EachUnit,
      EachStanding, OwnUnits, KnownStanding, Targets;
    var body := BuildPlanWith(values, inputs).value.body;
    FrozenRest(values, inputs, body);
    BodyIsPrinted(values, fixed, inputs, body);
    TargetsAreTexts(inputs);
    SortedTextsAreASet(Targets(inputs).value);
    BlockersDecide(inputs, body.blockers);
    EvidenceIsBound(inputs);
    EachUnitIsOwn(inputs);
    EachStandingIsKnown(inputs);
    DecidedByParts(fixed, body, UnitsOf(inputs.services, SERVICES),
                   ImagesOf(inputs.buildResults.value.rows, SERVICES),
                   StandingsOf(StatesOf(inputs.containers), Reversed(SERVICES)));
  }

  /**
   A plan frozen with build results is accepted exactly when it fits, the facts are complete, the
   credential report is terminal, the recovery report is valid and not ready, every service runs as its
   own unit, and every present predecessor container has a one-word state and a digest.
   */
  lemma PlansAgree(size: PlanSize, inputs: Inputs)
    requires Loaded(inputs) && inputs.buildResults.Some? && BuildPlan(inputs).Some?
    ensures ReadPlan(size, BuildPlan(inputs).value).Success? <==> PlanFits(size, BuildPlan(inputs).value) && Acceptable(inputs)
  {
    hide SameFixed, BuildPlanWith, ParsePlanWith, Settled, OwnUnits, KnownStanding, Loaded;
    FixedAgree();
    if inputs.factsComplete {
      AgreementWith(VALUES, FIXED, inputs);
    } else {
      IncompleteIsRefused(VALUES, FIXED, inputs);
    }
  }

  /** What the executor has bound is what the planner was given. */
  predicate SaysWhatWasPlanned(inputs: Inputs, body: PlanBody, parsed: HostPlan)
    requires inputs.buildResults.Some?
  {
    var results := inputs.buildResults.value;
    && parsed.Deployment?
    && parsed.fingerprint == Sha256(body)
    && parsed.actions == body.actions && parsed.rollbackActions == body.rollbackActions
    && parsed.targets == body.targets
    && parsed.buildResults == results.fingerprint && parsed.imageInputs == inputs.imageInputs
    && |parsed.expectedImages| == |parsed.predecessorImages| == 5
    && (forall k | 0 <= k < 5 ::
          && SERVICES[k] in results.rows
          && parsed.expectedImages[k] == (SERVICES[k], results.rows[SERVICES[k]].imageId)
          && parsed.predecessorImages[k]
             == PredecessorOf(SERVICES[k], StandingOf(StatesOf(inputs.containers), SERVICES[k])))
    && parsed.admissionLimitations == ["RECOVERY_PREFLIGHT_NOT_READY"]
  }

  lemma AcceptableReadsBack(inputs: Inputs)
    requires Loaded(inputs) && inputs.buildResults.Some? && BuildPlan(inputs).Some? && Acceptable(inputs)
    ensures var body := BuildPlan(inputs).value.body;
            var standing := StandingsOf(StatesOf(inputs.containers), Reversed(SERVICES));
            && |body.actions| == 13 && body.buildResults.Some?
            && ParsePlan(BuildPlan(inputs).value)
               == Success(ReadBack(body, ImagesOf(inputs.buildResults.value.rows, SERVICES), PredecessorsOf(standing)))
  {
    hide SameFixed, BuildPlanWith, ParsePlanWith, Settled, OwnUnits, KnownStanding, StatesOf, ImagesOf,
      PredecessorsOf, StandingsOf, ReadBack;
    FixedAgree();
    AgreementWith(VALUES, FIXED, inputs);
  }

  lemma AcceptableIsBound(inputs: Inputs)
    requires Loaded(inputs) && inputs.buildResults.Some? && BuildPlan(inputs).Some? && Acceptable(inputs)
    ensures var parsed := ParsePlan(BuildPlan(inputs).value);
            parsed.Success? && SaysWhatWasPlanned(inputs, BuildPlan(inputs).value.body, parsed.value)
  {
    hide SameFixed, BuildPlanWith, ParsePlanWith, Settled, OwnUnits, KnownStanding, StatesOf, ImagesOf,
      PredecessorsOf, StandingsOf, AllBlockers, ContractOf, RecoveryLimitations, PredecessorOf, StandingOf, ParsePlan;
    AcceptableReadsBack(inputs);
    var body := BuildPlan(inputs).value.body;
    FrozenRest(VALUES, inputs, body);
    BlockersDecide(inputs, body.blockers);
    ReadBackSays(inputs, body);
  }

  /** Whatever frozen plan the executor accepts, it binds what the planner was given. */
  lemma AcceptedPlanBinds(size: PlanSize, inputs: Inputs)
    requires Loaded(inputs) && inputs.buildResults.Some? && BuildPlan(inputs).Some?
    requires ReadPlan(size, BuildPlan(inputs).value).Success?
    ensures SaysWhatWasPlanned(inputs, BuildPlan(inputs).value.body, ReadPlan(size, BuildPlan(inputs).value).value)
  {
    hide SaysWhatWasPlanned, BuildPlan, ParsePlan, Acceptable, Loaded;
    PlansAgree(size, inputs);
    AcceptableIsBound(inputs);
  }

  lemma ReadBackSays(inputs: Inputs, body: PlanBody)
    requires inputs.buildResults.Some? && LoadedResults(inputs.buildResults.value) && |body.actions| == 13 && body.buildResults.Some?
    ensures var results, states := inputs.buildResults.value, StatesOf(inputs.containers);
            var plan := ReadBack(body, ImagesOf(results.rows, SERVICES), PredecessorsOf(StandingsOf(states, Reversed(SERVICES))));
            && |plan.expectedImages| == |plan.predecessorImages| == 5
            && (forall k | 0 <= k < 5 ::
                  && SERVICES[k] in results.rows
                  && plan.expectedImages[k] == (SERVICES[k], results.rows[SERVICES[k]].imageId)
                  && plan.predecessorImages[k] == PredecessorOf(SERVICES[k], StandingOf(states, SERVICES[k])))
  {
  }
}
