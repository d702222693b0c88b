/** Every deployment plan that parses has the shape its executor relies on. */
module HostGrammarShape {
  import opened Wrappers
  import opened Text
  import opened HostPlan
  import opened HostGrammar
  import opened HostDeployment

  lemma NoInnerWord(fields: seq<string>, word: string)
    requires NoBars(fields) && '|' !in word
    requires forall j | 0 < j < |fields| - 1 :: fields[j] != word
    ensures !Contains(Bar(fields), "|" + word + "|")
  {
    hide Bar;
    var row := Bar(fields);
    if Contains(row, "|" + word + "|") {
      var i :| 0 <= i <= |row| && OccursAt(row, "|" + word + "|", i);
      WordIsInnerField(fields, word, i);
    }
  }

  /** A row with another verb in it is not a recollection, whatever its last field says. */
  lemma PlainRow(fields: seq<string>)
    requires NoBars(fields)
    requires forall j | 0 < j < |fields| - 1 :: fields[j] != RECOLLECT_VERB
    ensures !IsRecollect(Bar(fields))
  {
    hide Bar, Contains, NoBars;
    NoInnerWord(fields, RECOLLECT_VERB);
  }

  lemma RecollectRow(first: string, rest: seq<string>)
    requires rest != []
    ensures IsRecollect(Bar([first, RECOLLECT_VERB] + rest))
  {
    var row := Bar([first, RECOLLECT_VERB] + rest);
    assert [first, RECOLLECT_VERB] + rest == [first] + ([RECOLLECT_VERB] + rest);
    BarCons(first, [RECOLLECT_VERB] + rest);
    BarCons(RECOLLECT_VERB, rest);
    assert row == first + ("|" + RECOLLECT_VERB + "|") + Bar(rest);
    assert OccursAt(row, RECOLLECT, |first|);
  }

  lemma ProvisionIsPlain()
    ensures !IsRecollect(PROVISION)
  {
    PlainRow(["001", "PROVISION_RUNTIME_PATHS", "source=" + POC + "provisioning/30-identities.sh"]);
  }

  /** Fields that may stand inside a row that does not recollect. */
  predicate Quiet(fields: seq<string>) {
    forall j | 0 <= j < |fields| :: '|' !in fields[j] && fields[j] != RECOLLECT_VERB
  }

  lemma QuietRow(fields: seq<string>, more: seq<string>)
    requires Quiet(fields) && Quiet(more)
    ensures !IsRecollect(Bar(fields + more))
  {
    forall j | 0 <= j < |fields + more| ensures '|' !in (fields + more)[j] && (fields + more)[j] != RECOLLECT_VERB {
      assert (fields + more)[j] == if j < |fields| then fields[j] else more[j - |fields|];
    }
    PlainRow(fields + more);
  }

  lemma StageFrontIsQuiet()
    ensures Quiet(["002", "STAGE_RUNTIME_CONFIGURATION", "unit_source=" + POC + "units", "config_destination=/etc/asklegal"])
  {
  }

  lemma HelpersAreQuiet()
    ensures Quiet(["helper_source=" + POC + "libexec", "helper_destination=/usr/local/libexec"])
  {
  }

  predicate NoBar(s: string) {
    '|' !in s
  }

  lemma JoinedHasNoBar(a: string, b: string)
    requires NoBar(a) && NoBar(b)
    ensures NoBar(a + b)
  {
  }

  lemma LongIsQuiet(s: string)
    requires NoBar(s) && |s| > |RECOLLECT_VERB|
    ensures Quiet([s])
  {
  }

  // The verifier reads a literal as long as these from its end, and only so far at a time.

  lemma FrontsHaveNoBar()
    ensures NoBar("migration_source=packages/management") && NoBar("migration_destination=/opt/asklegal/")
  {
  }

  lemma PartsHaveNoBar()
    ensures NoBar("-register") && NoBar("-adapter") && NoBar("management") && NoBar("/migrations")
  {
  }

  lemma MigrationSourceIsQuiet()
    ensures Quiet([MIGRATION_SOURCE])
  {
    hide NoBar;
    FrontsHaveNoBar();
    PartsHaveNoBar();
    JoinedHasNoBar("migration_source=packages/management", "-register");
    SourceFront();
    JoinedHasNoBar("migration_source=packages/management-register", "-adapter");
    SourceMiddle();
    JoinedHasNoBar("migration_source=packages/management-register-adapter", "/migrations");
    SourceBack();
    LongIsQuiet(MIGRATION_SOURCE);
  }

  lemma SourceFront()
    ensures "migration_source=packages/management-register" == "migration_source=packages/management" + "-register"
  {
  }

  lemma SourceMiddle()
    ensures "migration_source=packages/management-register-adapter"
         == "migration_source=packages/management-register" + "-adapter"
  {
  }

  lemma SourceBack()
    ensures MIGRATION_SOURCE == "migration_source=packages/management-register-adapter" + "/migrations"
  {
  }

  lemma MigrationDestinationIsQuiet()
    ensures Quiet([MIGRATION_DESTINATION])
  {
    hide NoBar;
    FrontsHaveNoBar();
    PartsHaveNoBar();
    JoinedHasNoBar("migration_destination=/opt/asklegal/", "management");
    DestinationFront();
    JoinedHasNoBar("migration_destination=/opt/asklegal/management", "-register");
    DestinationMiddle();
    JoinedHasNoBar("migration_destination=/opt/asklegal/management-register", "/migrations");
    DestinationBack();
    LongIsQuiet(MIGRATION_DESTINATION);
  }

  lemma DestinationFront()
    ensures "migration_destination=/opt/asklegal/management" == "migration_destination=/opt/asklegal/" + "management"
  {
  }

  lemma DestinationMiddle()
    ensures "migration_destination=/opt/asklegal/management-register"
         == "migration_destination=/opt/asklegal/management" + "-register"
  {
  }

  lemma DestinationBack()
    ensures MIGRATION_DESTINATION == "migration_destination=/opt/asklegal/management-register" + "/migrations"
  {
  }

  lemma QuietBoth(fields: seq<string>, more: seq<string>)
    requires Quiet(fields) && Quiet(more)
    ensures Quiet(fields + more)
  {
  }

  lemma StageIsPlain()
    ensures !IsRecollect(STAGE)
  {
    StageFrontIsQuiet();
    HelpersAreQuiet();
    MigrationSourceIsQuiet();
    MigrationDestinationIsQuiet();
    var front := ["002", "STAGE_RUNTIME_CONFIGURATION", "unit_source=" + POC + "units", "config_destination=/etc/asklegal"];
    var helpers := ["helper_source=" + POC + "libexec", "helper_destination=/usr/local/libexec"];
    var source := [MIGRATION_SOURCE];
    var destination := [MIGRATION_DESTINATION];
    QuietBoth(source, destination);
    QuietBoth(helpers, source + destination);
    var back := helpers + (source + destination);
    QuietRow(front, back);
    assert front + back ==
      ["002", "STAGE_RUNTIME_CONFIGURATION", "unit_source=" + POC + "units",
       "config_destination=/etc/asklegal", "helper_source=" + POC + "libexec",
       "helper_destination=/usr/local/libexec",
       MIGRATION_SOURCE,
       MIGRATION_DESTINATION];
  }

  lemma InstallIsPlain()
    ensures !IsRecollect(INSTALL)
  {
    PlainRow(["003", "INSTALL_SYSTEMD_UNITS", "source=" + POC + "units", "destination=/etc/systemd/system"]);
  }

  lemma NetworksIsPlain()
    ensures !IsRecollect(NETWORKS)
  {
    PlainRow(["004", "RECONCILE_NETWORKS", "unit=asklegal-networks.service",
              "source=" + POC + "systemd_unit_inputs.json"]);
  }

  lemma FirewallIsPlain()
    ensures !IsRecollect(FIREWALL)
  {
    FirewallFrontIsQuiet();
    FirewallBackIsQuiet();
    var back := ["source=" + POC + "provisioning/60-firewall.sh", "deadman_seconds=900"];
    QuietRow(["005", "APPLY_HOST_FIREWALL"], back);
    assert ["005", "APPLY_HOST_FIREWALL"] + back
        == ["005", "APPLY_HOST_FIREWALL", "source=" + POC + "provisioning/60-firewall.sh", "deadman_seconds=900"];
  }

  lemma FirewallFrontIsQuiet()
    ensures Quiet(["005", "APPLY_HOST_FIREWALL"])
  {
  }

  lemma FirewallBackIsQuiet()
    ensures Quiet(["source=" + POC + "provisioning/60-firewall.sh", "deadman_seconds=900"])
  {
  }

  lemma ConfirmIsPlain()
    ensures !IsRecollect(CONFIRM)
  {
    ConfirmFrontIsQuiet();
    ConfirmBackIsQuiet();
    QuietRow(["013", "CONFIRM_HOST_FIREWALL"], ["source=post-reconcile-host-facts", "marker=/run/asklegal-firewall-confirmed"]);
  }

  lemma ConfirmFrontIsQuiet()
    ensures Quiet(["013", "CONFIRM_HOST_FIREWALL"])
  {
  }

  lemma ConfirmBackIsQuiet()
    ensures Quiet(["source=post-reconcile-host-facts", "marker=/run/asklegal-firewall-confirmed"])
  {
  }

  lemma RestoreConfigurationIsPlain()
    ensures !IsRecollect(RESTORE_CONFIGURATION)
  {
    PlainRow(["006", "RESTORE_RUNTIME_CONFIGURATION", "source=state-owned-predecessor-snapshot"]);
  }

  lemma RestoreNetworksIsPlain()
    ensures !IsRecollect(RESTORE_NETWORKS)
  {
    PlainRow(["007", "RESTORE_NETWORK_SET", "source=retained-host-facts"]);
  }

  lemma RestoreFirewallIsPlain()
    ensures !IsRecollect(RESTORE_FIREWALL)
  {
    PlainRow(["008", "RESTORE_HOST_FIREWALL", "source=state-owned-predecessor-snapshot"]);
  }

  lemma RestoreUnitsIsPlain()
    ensures !IsRecollect(RESTORE_UNITS)
  {
    PlainRow(["009", "RESTORE_SYSTEMD_UNIT_BYTES", "source=state-owned-predecessor-snapshot"]);
  }

  lemma ForwardRecollects()
    ensures IsRecollect(RECOLLECT_FORWARD)
  {
    RecollectRow("012", ["output=var/hk-v1/host/post-reconcile.json", "required=all-11-fact-classes"]);
    assert ["012", RECOLLECT_VERB] + ["output=var/hk-v1/host/post-reconcile.json", "required=all-11-fact-classes"]
        == ["012", "RECOLLECT_HOST_FACTS", "output=var/hk-v1/host/post-reconcile.json", "required=all-11-fact-classes"];
  }

  lemma RollbackRecollects()
    ensures IsRecollect(RECOLLECT_ROLLBACK)
  {
    RecollectRow("010", ["output=var/hk-v1/host/post-rollback.json", "required=all-11-fact-classes"]);
    assert ["010", RECOLLECT_VERB] + ["output=var/hk-v1/host/post-rollback.json", "required=all-11-fact-classes"]
        == ["010", "RECOLLECT_HOST_FACTS", "output=var/hk-v1/host/post-rollback.json", "required=all-11-fact-classes"];
  }

  /** The fixed rows recollect exactly where the machine expects it. */
  predicate FixedShaped(fixed: FixedRows) {
    && |fixed.head| == 5 && |fixed.restores| == 4
    && (forall row | row in fixed.head :: !IsRecollect(row))
    && (forall row | row in fixed.restores :: !IsRecollect(row))
    && IsRecollect(fixed.recollect) && !IsRecollect(fixed.confirm) && IsRecollect(fixed.recollectBack)
  }

  lemma RowsAreShaped(fixed: FixedRows, h0: string, h1: string, h2: string, h3: string, h4: string,
                      r0: string, r1: string, r2: string, r3: string)
    requires fixed.head == [h0, h1, h2, h3, h4] && fixed.restores == [r0, r1, r2, r3]
    requires !IsRecollect(h0) && !IsRecollect(h1) && !IsRecollect(h2) && !IsRecollect(h3) && !IsRecollect(h4)
    requires !IsRecollect(r0) && !IsRecollect(r1) && !IsRecollect(r2) && !IsRecollect(r3)
    requires IsRecollect(fixed.recollect) && !IsRecollect(fixed.confirm) && IsRecollect(fixed.recollectBack)
    ensures FixedShaped(fixed)
  {
  }

  lemma FixedRowsAreShaped()
    ensures FixedShaped(FIXED)
  {
    ProvisionIsPlain();
    StageIsPlain();
    InstallIsPlain();
    NetworksIsPlain();
    FirewallIsPlain();
    ConfirmIsPlain();
    RestoreConfigurationIsPlain();
    RestoreNetworksIsPlain();
    RestoreFirewallIsPlain();
    RestoreUnitsIsPlain();
    ForwardRecollects();
    RollbackRecollects();
    RowsAreShaped(FIXED, PROVISION, STAGE, INSTALL, NETWORKS, FIREWALL,
                  RESTORE_CONFIGURATION, RESTORE_NETWORKS, RESTORE_FIREWALL, RESTORE_UNITS);
  }

  /** A name that can stand in a field. */
  lemma ServicesHaveNoBar()
    ensures forall k | 0 <= k < 5 :: '|' !in SERVICES[k] && '|' !in Reversed(SERVICES)[k]
    ensures forall k | 0 <= k < 5 :: '|' !in VERIFY_NUMBERS[k] && '|' !in FIRST_NUMBERS[k]
  {
    assert '|' !in SERVICES[0] && '|' !in SERVICES[1] && '|' !in SERVICES[2] && '|' !in SERVICES[3] && '|' !in SERVICES[4];
    assert '|' !in VERIFY_NUMBERS[0] && '|' !in VERIFY_NUMBERS[1] && '|' !in VERIFY_NUMBERS[2]
        && '|' !in VERIFY_NUMBERS[3] && '|' !in VERIFY_NUMBERS[4];
    assert '|' !in FIRST_NUMBERS[0] && '|' !in FIRST_NUMBERS[1] && '|' !in FIRST_NUMBERS[2]
        && '|' !in FIRST_NUMBERS[3] && '|' !in FIRST_NUMBERS[4];
  }

  lemma VerifyRowIsPlain(sequence: string, service: string, id: string)
    requires '|' !in sequence && '|' !in service && IsFingerprint(id)
    ensures !IsRecollect(VerifyRow(sequence, service, id))
  {
    hide IsRecollect, IsFingerprint;
    FingerprintHasNoBar(id);
    var unit, tag := "unit=asklegal-" + service + ".service", "candidate_tag=asklegal/" + service + ":hk-v1-candidate";
    assert '|' !in unit && '|' !in tag && '|' !in "service=" + service && '|' !in "image_id=" + id;
    assert unit[0] != RECOLLECT_VERB[0] && tag[0] != RECOLLECT_VERB[0] && ("service=" + service)[0] != RECOLLECT_VERB[0];
    PlainRow(VerifyFront(sequence, service) + ["image_id=" + id]);
  }

  lemma RestoreRowIsPlain(sequence: string, service: string, runtimeState: string, id: string)
    requires '|' !in sequence && '|' !in service && IsLowerWord(runtimeState) && IsFingerprint(id)
    ensures !IsRecollect(RestoreRow(sequence, service, runtimeState, id))
  {
    FingerprintHasNoBar(id);
    assert '|' !in runtimeState;
    assert '|' !in "service=" + service && '|' !in "runtime_state=" + runtimeState && '|' !in "image_id=" + id;
    assert ("service=" + service)[0] != RECOLLECT_VERB[0] && ("runtime_state=" + runtimeState)[0] != RECOLLECT_VERB[0];
    PlainRow(RestoreFront(sequence, service) + ["runtime_state=" + runtimeState] + ["image_id=" + id]);
  }

  lemma AbsenceRowIsPlain(sequence: string, service: string)
    requires '|' !in sequence && '|' !in service
    ensures !IsRecollect(AbsenceRow(sequence, service))
  {
    assert '|' !in "service=" + service;
    PlainRow([sequence, "RESTORE_PREDECESSOR_SERVICE_ABSENCE", "service=" + service]);
  }

  lemma {:induction false} BindingsHaveNoBar(images: seq<(string, string)>)
    requires forall i | 0 <= i < |images| :: '|' !in images[i].0 && IsFingerprint(images[i].1)
    ensures '|' !in Bindings(images)
  {
    if images != [] {
      FingerprintHasNoBar(images[0].1);
      forall i | 0 <= i < |images[1..]| ensures '|' !in images[1..][i].0 && IsFingerprint(images[1..][i].1) {
        assert images[1..][i] == images[i + 1];
      }
      BindingsHaveNoBar(images[1..]);
    }
  }

  lemma EnableRowIsPlain(images: seq<(string, string)>)
    requires forall i | 0 <= i < |images| :: '|' !in images[i].0 && IsFingerprint(images[i].1)
    ensures !IsRecollect(EnableRow(images))
  {
    BindingsHaveNoBar(images);
    assert ("bindings=" + Bindings(images))[0] != RECOLLECT_VERB[0];
    EnableFieldsArePlain("bindings=" + Bindings(images));
  }

  lemma EnableFrontIsQuiet()
    ensures Quiet(["011", "ENABLE_START_TARGET_AND_TIMERS", "target=asklegal.target", "source=" + POC + "systemd_unit_inputs.json"])
  {
  }

  lemma EnableFieldsArePlain(last: string)
    requires '|' !in last && last != RECOLLECT_VERB
    ensures !IsRecollect(Bar(["011", "ENABLE_START_TARGET_AND_TIMERS", "target=asklegal.target",
                              "source=" + POC + "systemd_unit_inputs.json", last]))
  {
    EnableFrontIsQuiet();
    assert Quiet([last]);
    var front := ["011", "ENABLE_START_TARGET_AND_TIMERS", "target=asklegal.target", "source=" + POC + "systemd_unit_inputs.json"];
    QuietRow(front, [last]);
    assert front + [last] == ["011", "ENABLE_START_TARGET_AND_TIMERS", "target=asklegal.target",
                              "source=" + POC + "systemd_unit_inputs.json", last];
  }

  /** What a parsed deployment plan binds together, row by row. */
  lemma ParsedDeploymentIs(fixed: FixedRows, body: PlanBody, seal: PlanDigest)
    requires body.buildResults.Some? && ParseDeployment(fixed, body, seal).Success?
    ensures var plan := ParseDeployment(fixed, body, seal).value;
            && plan.Deployment? && plan.actions == body.actions && plan.rollbackActions == body.rollbackActions
            && |plan.actions| == 13 && |plan.rollbackActions| == 10
            && |plan.expectedImages| == 5 && |plan.predecessorImages| == 5
            && plan.actions[..5] == fixed.head
            && (forall k | 0 <= k < 5 ::
                  && plan.expectedImages[k].0 == SERVICES[k] && IsFingerprint(plan.expectedImages[k].1)
                  && plan.actions[5 + k] == VerifyRow(VERIFY_NUMBERS[k], SERVICES[k], plan.expectedImages[k].1)
                  && ImageTarget(SERVICES[k], plan.expectedImages[k].1) in body.targets)
            && plan.actions[10] == EnableRow(plan.expectedImages)
            && plan.actions[11] == fixed.recollect && plan.actions[12] == fixed.confirm
            && (forall k | 0 <= k < 5 ::
                  Some(plan.predecessorImages[4 - k]) == ParseRestore(FIRST_NUMBERS[k], Reversed(SERVICES)[k], plan.rollbackActions[k]))
            && plan.rollbackActions[5..9] == fixed.restores
            && plan.rollbackActions[9] == fixed.recollectBack
  {
    var images := ParseVerifyRows(VERIFY_NUMBERS, SERVICES, body.actions[5..10], body.targets).value;
    var predecessors := ParseRestoreRows(FIRST_NUMBERS, Reversed(SERVICES), body.rollbackActions[..5]).value;
    forall k | 0 <= k < 5
      ensures body.actions[5 + k] == VerifyRow(VERIFY_NUMBERS[k], SERVICES[k], images[k].1)
    {
      assert body.actions[5..10][k] == body.actions[5 + k];
    }
    forall k | 0 <= k < 5
      ensures Some(ReversedPredecessors(predecessors)[4 - k]) == ParseRestore(FIRST_NUMBERS[k], Reversed(SERVICES)[k], body.rollbackActions[k])
    {
      assert predecessors[k] == ReversedPredecessors(predecessors)[4 - k];
      assert body.rollbackActions[..5][k] == body.rollbackActions[k];
    }
  }

  lemma ForwardRowShaped(fixed: FixedRows, body: PlanBody, seal: PlanDigest, k: nat)
    requires body.buildResults.Some? && ParseDeployment(fixed, body, seal).Success? && FixedShaped(fixed) && k < 13
    requires |body.actions| == 13
    ensures IsRecollect(body.actions[k]) <==> k == 11
  {
    ParsedDeploymentIs(fixed, body, seal);
    ServicesHaveNoBar();
    var plan := ParseDeployment(fixed, body, seal).value;
    if k < 5 {
      assert body.actions[k] == body.actions[..5][k];
    } else if k < 10 {
      var i := k - 5;
      VerifyRowIsPlain(VERIFY_NUMBERS[i], SERVICES[i], plan.expectedImages[i].1);
      assert plan.actions[5 + i] == VerifyRow(VERIFY_NUMBERS[i], SERVICES[i], plan.expectedImages[i].1);
    } else if k == 10 {
      EnableRowIsPlain(plan.expectedImages);
    }
  }

  lemma RestoringRowIsPlain(k: nat, raw: string)
    requires k < 5 && ParseRestore(FIRST_NUMBERS[k], Reversed(SERVICES)[k], raw).Some?
    ensures !IsRecollect(raw)
  {
    ServicesHaveNoBar();
    var p := ParseRestore(FIRST_NUMBERS[k], Reversed(SERVICES)[k], raw).value;
    if p.imageId.Some? {
      RestoreRowIsPlain(FIRST_NUMBERS[k], Reversed(SERVICES)[k], p.runtimeState.value, p.imageId.value);
    } else {
      AbsenceRowIsPlain(FIRST_NUMBERS[k], Reversed(SERVICES)[k]);
    }
  }

  lemma RollbackRowShaped(fixed: FixedRows, body: PlanBody, seal: PlanDigest, k: nat)
    requires body.buildResults.Some? && ParseDeployment(fixed, body, seal).Success? && FixedShaped(fixed) && k < 10
    requires |body.rollbackActions| == 10
    ensures IsRecollect(body.rollbackActions[k]) <==> k == 9
  {
    ParsedDeploymentIs(fixed, body, seal);
    if k < 5 {
      RestoringRowIsPlain(k, body.rollbackActions[k]);
    } else if k < 9 {
      assert body.rollbackActions[k] == body.rollbackActions[5..9][k - 5];
    }
  }

  lemma AcceptedShaped(fixed: FixedRows, file: PlanFile)
    requires FixedShaped(fixed) && ParsePlanWith(fixed, file).Success? && ParsePlanWith(fixed, file).value.Deployment?
    ensures Shaped(ParsePlanWith(fixed, file).value)
  {
    DeploymentShaped(fixed, file.body, Sha256(file.body));
  }

  /** Whatever plan file the executor accepts as a deployment, the machine's assumptions hold of it. */
  lemma ParsedDeploymentIsShaped(file: PlanFile)
    requires ParsePlan(file).Success? && ParsePlan(file).value.Deployment?
    ensures Shaped(ParsePlan(file).value)
  {
    FixedRowsAreShaped();
    AcceptedShaped(FIXED, file);
  }

  lemma DeploymentShaped(fixed: FixedRows, body: PlanBody, seal: PlanDigest)
    requires body.buildResults.Some? && ParseDeployment(fixed, body, seal).Success? && FixedShaped(fixed)
    ensures Shaped(ParseDeployment(fixed, body, seal).value)
  {
    ParsedDeploymentIs(fixed, body, seal);
    forall k | 0 <= k < 13 ensures IsRecollect(body.actions[k]) <==> k == 11 {
      ForwardRowShaped(fixed, body, seal, k);
    }
    forall k | 0 <= k < 10 ensures IsRecollect(body.rollbackActions[k]) <==> k == 9 {
      RollbackRowShaped(fixed, body, seal, k);
    }
  }
}
