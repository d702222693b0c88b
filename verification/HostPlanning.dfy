/**
 The planner and the executor agree, over the planner's own inputs: which frozen plans the executor accepts and
 what it binds from them (tools/hk_v1_host_reconcile.py:462-951 into tools/hk_v1_host_apply.py:325-577).
 */
module HostPlanning {
  import opened Wrappers
  import opened Text
  import opened Ordering
  import opened HostPlan
  import opened HostGrammar
  import opened HostReconcile
  import opened HostAgreement
  import Builds = HostBuildAgreement

  // ----- containers --------------------------------------------------------------------

  predicate Absent(containers: seq<Container>, name: string) {
    forall c | c in containers :: c.name != name
  }

  /** The last row of the name. */
  predicate LastOf(containers: seq<Container>, k: int, name: string) {
    0 <= k < |containers| && containers[k].name == name && forall j | k < j < |containers| :: containers[j].name != name
  }

  lemma {:induction false} LastExists(containers: seq<Container>, name: string)
    requires !Absent(containers, name)
    ensures exists k :: LastOf(containers, k, name)
  {
    var n := |containers| - 1;
    if containers[n].name == name {
      assert LastOf(containers, n, name);
    } else {
      LastExists(containers[..n], name);
      var k :| LastOf(containers[..n], k, name);
      assert LastOf(containers, k, name);
    }
  }

  lemma {:induction false} LastTells(containers: seq<Container>, k: int, name: string)
    requires LastOf(containers, k, name)
    ensures name in StatesOf(containers) && StatesOf(containers)[name] == (containers[k].imageId, containers[k].runtimeState)
  {
    var n := |containers| - 1;
    if k < n {
      assert LastOf(containers[..n], k, name);
      LastTells(containers[..n], k, name);
      assert containers[n].name != name;
    }
  }

  lemma {:induction false} AbsentTells(containers: seq<Container>, name: string)
    requires Absent(containers, name)
    ensures name !in StatesOf(containers)
  {
    if containers != [] {
      AbsentTells(containers[..|containers| - 1], name);
      assert containers[|containers| - 1] in containers;
    }
  }

  lemma StatesTell(containers: seq<Container>, name: string)
    ensures Absent(containers, name) ==> name !in StatesOf(containers)
    ensures Absent(containers, name) || exists k :: LastOf(containers, k, name)
    ensures forall k | LastOf(containers, k, name) ::
              name in StatesOf(containers) && StatesOf(containers)[name] == (containers[k].imageId, containers[k].runtimeState)
  {
    hide StatesOf;
    if Absent(containers, name) {
      AbsentTells(containers, name);
    } else {
      LastExists(containers, name);
    }
    forall k | LastOf(containers, k, name)
      ensures name in StatesOf(containers) && StatesOf(containers)[name] == (containers[k].imageId, containers[k].runtimeState)
    {
      LastTells(containers, k, name);
    }
  }

  /** What the predecessor of a service is: its last container's image and state, or an absence. */
  ghost predicate Stood(containers: seq<Container>, service: string, p: Predecessor) {
    || (Absent(containers, "asklegal-" + service) && p == Predecessor(service, None, None))
    || exists k :: LastOf(containers, k, "asklegal-" + service)
                   && p == Predecessor(service, Some(containers[k].imageId), Some(containers[k].runtimeState))
  }

  lemma PredecessorStood(containers: seq<Container>, service: string)
    ensures Stood(containers, service, PredecessorOf(service, StandingOf(StatesOf(containers), service)))
  {
    StatesTell(containers, "asklegal-" + service);
  }

  ghost predicate StandsKnown(containers: seq<Container>, service: string) {
    forall k | LastOf(containers, k, "asklegal-" + service) ::
      IsFingerprint(containers[k].imageId) && IsLowerWord(containers[k].runtimeState)
  }

  lemma StandsKnownIs(containers: seq<Container>, service: string)
    ensures WellStanding(StandingOf(StatesOf(containers), service)) <==> StandsKnown(containers, service)
  {
    StatesTell(containers, "asklegal-" + service);
  }

  ghost predicate ImageKnown(containers: seq<Container>, service: string) {
    forall k | LastOf(containers, k, "asklegal-" + service) :: IsFingerprint(containers[k].imageId)
  }

  lemma ImageKnownIs(containers: seq<Container>, service: string)
    ensures Builds.DigestOrAbsent(Builds.ImageOf(StatesOf(containers), service)) <==> ImageKnown(containers, service)
  {
    StatesTell(containers, "asklegal-" + service);
  }

  // ----- services ----------------------------------------------------------------------

  /** The first row of the service. */
  predicate FirstOf(services: seq<RuntimeService>, k: int, id: string) {
    0 <= k < |services| && services[k].serviceId == id && forall j | 0 <= j < k :: services[j].serviceId != id
  }

  lemma {:induction false} UnitsTell(services: seq<RuntimeService>, id: string)
    ensures forall k | FirstOf(services, k, id) :: UnitOf(services, id) == Some(services[k].unitName)
    ensures UnitOf(services, id).Some? <==> exists s | s in services :: s.serviceId == id
    ensures UnitOf(services, id).Some? ==> exists k :: FirstOf(services, k, id)
  {
    if services != [] {
      UnitsTell(services[1..], id);
      if services[0].serviceId == id {
        assert FirstOf(services, 0, id);
      } else {
        assert forall k | 0 <= k < |services| - 1 :: services[1..][k] == services[k + 1];
        forall k | FirstOf(services, k, id) ensures UnitOf(services, id) == Some(services[k].unitName) {
          assert FirstOf(services[1..], k - 1, id);
        }
        if UnitOf(services[1..], id).Some? {
          var k :| FirstOf(services[1..], k, id);
          assert forall j | 0 < j < k + 1 :: services[j] == services[1..][j - 1];
          assert FirstOf(services, k + 1, id);
        }
      }
    }
  }

  /** The service's first row names the service's own unit. */
  ghost predicate RunsAsItsUnit(services: seq<RuntimeService>, id: string) {
    exists k :: FirstOf(services, k, id) && services[k].unitName == "asklegal-" + id + ".service"
  }

  lemma RunsAsItsUnitIs(services: seq<RuntimeService>, id: string)
    ensures UnitOf(services, id) == Some(UnitName(id)) <==> RunsAsItsUnit(services, id)
  {
    UnitsTell(services, id);
  }

  /** The k-th row is the only one of the service that is not pinned to a digest. */
  predicate OnlyUnpinned(services: seq<RuntimeService>, k: int, id: string) {
    && 0 <= k < |services| && services[k].serviceId == id && !services[k].pinned
    && forall j | 0 <= j < |services| && j != k :: !(services[j].serviceId == id && !services[j].pinned)
  }

  /** One unpinned row for each application service, and no other. */
  ghost predicate UnpinnedOnce(services: seq<RuntimeService>) {
    && (forall s | s in services && !s.pinned :: s.serviceId in SERVICES)
    && (forall id | id in SERVICES :: exists k :: OnlyUnpinned(services, k, id))
  }

  // ----- evidence ----------------------------------------------------------------------

  /** The batch rotation has a plan and a report that its owner accepts, and recovery is reported as not ready. */
  predicate Evident(e: Evidence) {
    && e.credentialPlan.Missing? && e.batchPlan && e.batchReport && e.batch.Some?
    && e.recovery.Valid? && !e.recovery.value.ready
  }

  lemma EvidentIs(e: Evidence)
    ensures Settled(e) <==> Evident(e)
    ensures Evident(e) ==> ContractOf(e).credential == e.batch && ContractOf(e).terminal
                           && ContractOf(e).recovery == Some(e.recovery.value.fingerprint)
  {
  }

  // ----- a deployment ------------------------------------------------------------------

  ghost predicate Deployable(inputs: Inputs) {
    && inputs.factsComplete
    && Evident(inputs.evidence)
    && (forall s | s in SERVICES :: RunsAsItsUnit(inputs.services, s))
    && (forall s | s in SERVICES :: StandsKnown(inputs.containers, s))
  }

  lemma DeployableIs(inputs: Inputs)
    requires inputs.buildResults.Some?
    ensures Acceptable(inputs) <==> Deployable(inputs)
  {
    hide Settled, Evident, WellStanding, StandsKnown, RunsAsItsUnit, StatesOf, UnitOf;
    EvidentIs(inputs.evidence);
    forall s ensures UnitOf(inputs.services, s) == Some(UnitName(s)) <==> RunsAsItsUnit(inputs.services, s) {
      RunsAsItsUnitIs(inputs.services, s);
    }
    forall s ensures WellStanding(StandingOf(StatesOf(inputs.containers), s)) <==> StandsKnown(inputs.containers, s) {
      StandsKnownIs(inputs.containers, s);
    }
  }

  /**
   A plan frozen with build results is accepted exactly when it fits, the facts are complete, the credential
   report is there and terminal, the recovery report is valid and not ready, every service's first row names its
   own unit, and every predecessor's last container has a one-word state and a digest.
   */
  lemma PlannerAndExecutorAgree(size: PlanSize, inputs: Inputs)
    requires Loaded(inputs) && inputs.buildResults.Some? && BuildPlan(inputs).Some?
    ensures ReadPlan(size, BuildPlan(inputs).value).Success? <==> size(BuildPlan(inputs).value) <= MAX_BYTES && Deployable(inputs)
  {
    hide ReadPlan, BuildPlan, Acceptable, Deployable, Loaded;
    PlansAgree(size, inputs);
    DeployableIs(inputs);
  }

  /** A target that the planner names for a service: its build result, its pinned image, or the build of its context. */
  predicate TargetOf(inputs: Inputs, s: RuntimeService, target: string) {
    || (inputs.buildResults.Some? && s.serviceId in inputs.buildResults.value.rows
        && target == "image-replacement:" + s.serviceId + ":" + inputs.buildResults.value.rows[s.serviceId].imageId)
    || (!(inputs.buildResults.Some? && s.serviceId in inputs.buildResults.value.rows)
        && s.pinned && target == "image-replacement:" + s.serviceId + ":" + s.image)
    || (!(inputs.buildResults.Some? && s.serviceId in inputs.buildResults.value.rows)
        && !s.pinned && s.serviceId in inputs.contexts
        && target == "image-build:" + s.serviceId + ":asklegal/" + s.serviceId + ":hk-v1-candidate:" + inputs.contexts[s.serviceId])
  }

  lemma {:induction false} ImageTargetsAre(inputs: Inputs, services: seq<RuntimeService>)
    requires ImageTargets(inputs, services).Some?
    ensures forall t :: t in ImageTargets(inputs, services).value <==> exists s | s in services :: TargetOf(inputs, s, t)
  {
    if services != [] {
      ImageTargetsAre(inputs, services[1..]);
      forall t ensures t in ImageTargets(inputs, services).value <==> exists s | s in services :: TargetOf(inputs, s, t) {
        OneTarget(inputs, services, t);
      }
    }
  }

  lemma OneTarget(inputs: Inputs, services: seq<RuntimeService>, t: string)
    requires services != [] && ImageTargets(inputs, services).Some?
    requires t in ImageTargets(inputs, services[1..]).value <==> exists s | s in services[1..] :: TargetOf(inputs, s, t)
    ensures t in ImageTargets(inputs, services).value <==> exists s | s in services :: TargetOf(inputs, s, t)
  {
    assert forall s :: s in services <==> s == services[0] || s in services[1..];
    assert t in ImageTargets(inputs, services).value <==> TargetOf(inputs, services[0], t) || t in ImageTargets(inputs, services[1..]).value;
  }

  /** The frozen plan names its other targets, one for each service, and its evidence. */
  predicate NamesTarget(inputs: Inputs, t: string) {
    || t in inputs.otherTargets
    || (exists s | s in inputs.services :: TargetOf(inputs, s, t))
    || (inputs.evidence.batch.Some? && t == "credential-rotation-report:" + inputs.evidence.batch.value)
    || (inputs.evidence.recovery.Valid? && t == "recovery-preflight-report:" + inputs.evidence.recovery.value.fingerprint)
  }

  lemma FrozenTargetsAre(inputs: Inputs)
    requires Targets(inputs).Some? && Evident(inputs.evidence)
    ensures forall t :: t in Targets(inputs).value <==> NamesTarget(inputs, t)
  {
    hide ImageTargets, TargetOf;
    EvidentIs(inputs.evidence);
    ImageTargetsAre(inputs, inputs.services);
  }

  /** Why a plan frozen over complete facts may not run by itself. */
  predicate BlocksDeployment(inputs: Inputs, b: string) {
    || b == "HOST_MUTATION_NOT_AUTHORIZED"
    || b == "RECOVERY_PREFLIGHT_NOT_READY"
    || (b == "HOST_FACTS_NONCONFORMING" && inputs.nonconforming)
    || (b == "DESIRED_SERVICE_INVENTORY_MISMATCH" && inputs.inventoryMismatch)
  }

  lemma FrozenBlockersAre(inputs: Inputs)
    requires inputs.buildResults.Some? && inputs.factsComplete && Evident(inputs.evidence)
    ensures forall b :: b in AllBlockers(inputs) <==> BlocksDeployment(inputs, b)
  {
  }

  /** What the executor binds from an accepted deployment is what the planner was given. */
  ghost predicate Binds(inputs: Inputs, body: PlanBody, parsed: HostPlan)
    requires inputs.buildResults.Some?
  {
    var results := inputs.buildResults.value;
    && parsed.Deployment?
    && parsed.fingerprint == Sha256(body)
    && parsed.actions == body.actions && parsed.rollbackActions == body.rollbackActions && parsed.targets == body.targets
    && (forall t :: t in body.targets <==> NamesTarget(inputs, t))
    && (forall b :: b in body.blockers <==> BlocksDeployment(inputs, b))
    && parsed.buildResults == results.fingerprint && parsed.imageInputs == inputs.imageInputs
    && |parsed.expectedImages| == |parsed.predecessorImages| == 5
    && (forall k | 0 <= k < 5 ::
          && SERVICES[k] in results.rows
          && parsed.expectedImages[k] == (SERVICES[k], results.rows[SERVICES[k]].imageId)
          && Stood(inputs.containers, SERVICES[k], parsed.predecessorImages[k]))
    && parsed.admissionLimitations == ["RECOVERY_PREFLIGHT_NOT_READY"]
  }

  /** Whatever frozen plan the executor accepts, it binds what the planner was given. */
  lemma AcceptedPlanSaysWhatWasPlanned(size: PlanSize, inputs: Inputs)
    requires Loaded(inputs) && inputs.buildResults.Some? && BuildPlan(inputs).Some?
    requires ReadPlan(size, BuildPlan(inputs).value).Success?
    ensures Binds(inputs, BuildPlan(inputs).value.body, ReadPlan(size, BuildPlan(inputs).value).value)
  {
    hide BuildPlanWith, ReadPlan, Loaded, Evident, NamesTarget, BlocksDeployment, StatesOf, Stood, PredecessorOf, StandingOf, Deployable,
      AllBlockers, Targets;
    PlannerAndExecutorAgree(size, inputs);
    AcceptedPlanBinds(size, inputs);
    var body := BuildPlan(inputs).value.body;
    FrozenRest(VALUES, inputs, body);
    DeployableNeeds(inputs);
    FrozenTargetsAre(inputs);
    FrozenBlockersAre(inputs);
    forall k | 0 <= k < 5 ensures Stood(inputs.containers, SERVICES[k], PredecessorOf(SERVICES[k], StandingOf(StatesOf(inputs.containers), SERVICES[k]))) {
      PredecessorStood(inputs.containers, SERVICES[k]);
    }
  }

  lemma DeployableNeeds(inputs: Inputs)
    requires Deployable(inputs)
    ensures inputs.factsComplete && Evident(inputs.evidence)
  {
  }

  // ----- a build phase -----------------------------------------------------------------

  function Ids(services: seq<RuntimeService>): (r: seq<string>)
    ensures |r| == |services|
  {
    seq(|services|, i requires 0 <= i < |services| => services[i].serviceId)
  }

  /** How many rows of the service are not pinned. */
  function UnpinnedRows(services: seq<RuntimeService>, id: string): nat {
    if services == [] then 0
    else (if !services[0].pinned && services[0].serviceId == id then 1 else 0) + UnpinnedRows(services[1..], id)
  }

  lemma {:induction false} InsertCounts(s: RuntimeService, rest: seq<RuntimeService>)
    ensures multiset(Ids(InsertService(s, rest))) == multiset{s.serviceId} + multiset(Ids(rest))
  {
    var all := InsertService(s, rest);
    if all == [s] + rest {
      assert Ids(all) == [s.serviceId] + Ids(rest);
    } else {
      InsertCounts(s, rest[1..]);
      assert Ids(all) == [rest[0].serviceId] + Ids(InsertService(s, rest[1..]));
      assert Ids(rest) == [rest[0].serviceId] + Ids(rest[1..]);
    }
  }

  lemma {:induction false} UnpinnedCounts(services: seq<RuntimeService>, id: string)
    ensures multiset(Ids(Unpinned(services)))[id] == UnpinnedRows(services, id)
  {
    if services != [] {
      UnpinnedCounts(services[1..], id);
      if !services[0].pinned {
        InsertCounts(services[0], Unpinned(services[1..]));
      }
    }
  }

  predicate NotFalling(keys: seq<string>) {
    forall i, j | 0 <= i < j < |keys| :: !Before(keys[j], keys[i])
  }

  lemma NotFallingFrom(first: string, rest: seq<string>)
    requires NotFalling(rest) && forall x | x in rest :: !Before(x, first)
    ensures NotFalling([first] + rest)
  {
    var all := [first] + rest;
    forall i, j | 0 <= i < j < |all| ensures !Before(all[j], all[i]) {
      assert all[j] == rest[j - 1] && rest[j - 1] in rest;
    }
  }

  lemma NotFallingTail(keys: seq<string>)
    requires NotFalling(keys) && keys != []
    ensures NotFalling(keys[1..]) && forall x | x in keys[1..] :: !Before(x, keys[0])
  {
  }

  lemma NotBeforeBoth(x: string, a: string, b: string)
    requires !Before(x, a) && (Before(b, a) || a == b)
    ensures !Before(x, b)
  {
    if Before(x, b) && Before(b, a) {
      BeforeTransitive(x, b, a);
    }
  }

  lemma {:induction false} InsertKeepsOrder(s: RuntimeService, rest: seq<RuntimeService>)
    requires NotFalling(Ids(rest))
    ensures NotFalling(Ids(InsertService(s, rest)))
  {
    hide Before;
    var all := InsertService(s, rest);
    if rest != [] {
      assert Ids(rest) == [rest[0].serviceId] + Ids(rest[1..]);
      NotFallingTail(Ids(rest));
      BeforeTrichotomy(s.serviceId, rest[0].serviceId);
    }
    if rest == [] || Before(s.serviceId, rest[0].serviceId)
       || (s.serviceId == rest[0].serviceId && !Before(rest[0].unitName, s.unitName)) {
      assert Ids(all) == [s.serviceId] + Ids(rest);
      forall x | x in Ids(rest) ensures !Before(x, s.serviceId) {
        BeforeTrichotomy(x, rest[0].serviceId);
        NotBeforeBoth(x, rest[0].serviceId, s.serviceId);
      }
      NotFallingFrom(s.serviceId, Ids(rest));
    } else {
      assert Ids(rest)[1..] == Ids(rest[1..]);
      InsertKeepsOrder(s, rest[1..]);
      InsertCounts(s, rest[1..]);
      var tail := Ids(InsertService(s, rest[1..]));
      assert Ids(all) == [rest[0].serviceId] + tail;
      forall x | x in tail ensures !Before(x, rest[0].serviceId) {
        assert x in multiset(tail);
        assert x == s.serviceId || x in Ids(rest[1..]);
      }
      NotFallingFrom(rest[0].serviceId, tail);
    }
  }

  lemma {:induction false} UnpinnedIsOrdered(services: seq<RuntimeService>)
    ensures NotFalling(Ids(Unpinned(services)))
  {
    if services != [] {
      UnpinnedIsOrdered(services[1..]);
      if !services[0].pinned {
        InsertKeepsOrder(services[0], Unpinned(services[1..]));
      }
    }
  }

  lemma {:induction false} NoUnpinnedRows(services: seq<RuntimeService>, id: string)
    ensures UnpinnedRows(services, id) > 0 <==> exists s | s in services :: !s.pinned && s.serviceId == id
  {
    if services != [] {
      NoUnpinnedRows(services[1..], id);
      assert forall s :: s in services <==> s == services[0] || s in services[1..];
    }
  }

  lemma {:induction false} OneUnpinnedRow(services: seq<RuntimeService>, id: string)
    ensures UnpinnedRows(services, id) == 1 <==> exists k :: OnlyUnpinned(services, k, id)
  {
    if services != [] {
      OneUnpinnedRow(services[1..], id);
      if !services[0].pinned && services[0].serviceId == id {
        FirstRowOnly(services, id);
      } else {
        LaterRowOnly(services, id);
      }
    }
  }

  lemma FirstRowOnly(services: seq<RuntimeService>, id: string)
    requires services != [] && !services[0].pinned && services[0].serviceId == id
    ensures UnpinnedRows(services[1..], id) == 0 <==> exists k :: OnlyUnpinned(services, k, id)
  {
    var rest := services[1..];
    NoUnpinnedRows(rest, id);
    assert forall j | 0 <= j < |rest| :: rest[j] == services[j + 1];
    if UnpinnedRows(rest, id) == 0 {
      forall j | 0 < j < |services| ensures !(services[j].serviceId == id && !services[j].pinned) {
        assert rest[j - 1] in rest;
      }
      assert OnlyUnpinned(services, 0, id);
    } else {
      var s :| s in rest && !s.pinned && s.serviceId == id;
      var j :| 0 <= j < |rest| && rest[j] == s;
      assert services[j + 1].serviceId == id && !services[j + 1].pinned;
    }
  }

  lemma LaterRowOnly(services: seq<RuntimeService>, id: string)
    requires services != [] && !(!services[0].pinned && services[0].serviceId == id)
    ensures (exists k :: OnlyUnpinned(services[1..], k, id)) <==> exists k :: OnlyUnpinned(services, k, id)
  {
    hide OnlyUnpinned;
    if exists k :: OnlyUnpinned(services, k, id) {
      var k :| OnlyUnpinned(services, k, id);
      ShiftedRow(services, k - 1, id);
      assert OnlyUnpinned(services[1..], k - 1, id);
    }
    if exists k :: OnlyUnpinned(services[1..], k, id) {
      var k :| OnlyUnpinned(services[1..], k, id);
      ShiftedRow(services, k, id);
      assert OnlyUnpinned(services, k + 1, id);
    }
  }

  lemma ShiftedRow(services: seq<RuntimeService>, k: int, id: string)
    requires services != [] && !(!services[0].pinned && services[0].serviceId == id)
    ensures OnlyUnpinned(services, k + 1, id) <==> OnlyUnpinned(services[1..], k, id)
  {
    var rest := services[1..];
    assert forall j | 0 <= j < |rest| :: rest[j] == services[j + 1];
    if OnlyUnpinned(services, k + 1, id) {
      assert k + 1 != 0;
    }
    if OnlyUnpinned(rest, k, id) {
      forall j | 0 <= j < |services| && j != k + 1 ensures !(services[j].serviceId == id && !services[j].pinned) {
        assert j > 0 ==> services[j] == rest[j - 1];
      }
    }
  }

  lemma BeforeByLetter(a: string, b: string)
    requires a != "" && b != "" && a[0] < b[0]
    ensures Before(a, b)
  {
  }

  lemma ServiceLetters()
    ensures |SERVICES| == 5 && forall k | 0 <= k < 5 :: SERVICES[k] != ""
    ensures SERVICES[0][0] == 'a' && SERVICES[1][0] == 'c' && SERVICES[2][0] == 'l' && SERVICES[3][0] == 'p' && SERVICES[4][0] == 'r'
  {
  }

  lemma {:induction false} CountsOnce(keys: seq<string>, key: string)
    requires Distinct(keys) && key in keys
    ensures multiset(keys)[key] == 1
  {
    assert keys == [keys[0]] + keys[1..];
    if keys[0] == key {
      assert key !in keys[1..];
    } else {
      CountsOnce(keys[1..], key);
    }
  }

  lemma ServicesAscend()
    ensures Ascending(SERVICES) && forall id | id in SERVICES :: multiset(SERVICES)[id] == 1
  {
    hide Before;
    ServiceLetters();
    forall i, j | 0 <= i < j < 5 ensures Before(SERVICES[i], SERVICES[j]) {
      BeforeByLetter(SERVICES[i], SERVICES[j]);
    }
    AscendingIsDistinct(SERVICES);
    forall id | id in SERVICES ensures multiset(SERVICES)[id] == 1 {
      CountsOnce(SERVICES, id);
    }
  }

  /** Keys that do not fall, each of them once, ascend. */
  lemma OnceEachAscends(keys: seq<string>)
    requires NotFalling(keys) && forall x | x in keys :: multiset(keys)[x] == 1
    ensures Ascending(keys)
  {
    forall i, j | 0 <= i < j < |keys| ensures Before(keys[i], keys[j]) {
      BeforeTrichotomy(keys[i], keys[j]);
      CountsTwice(keys, i, j);
    }
  }

  lemma CountsTwice(keys: seq<string>, i: int, j: int)
    requires 0 <= i < j < |keys|
    ensures keys[i] == keys[j] ==> multiset(keys)[keys[i]] >= 2
  {
    assert keys == keys[..i] + [keys[i]] + keys[i + 1..j] + [keys[j]] + keys[j + 1..];
  }

  /** The planner builds the five services in order exactly when each has one unpinned row and nothing else has. */
  lemma UnpinnedAre(services: seq<RuntimeService>)
    ensures Ids(Unpinned(services)) == SERVICES <==> UnpinnedOnce(services)
  {
    hide Unpinned, OnlyUnpinned, Before;
    var ids := Ids(Unpinned(services));
    forall id
      ensures multiset(ids)[id] == 1 <==> exists k :: OnlyUnpinned(services, k, id)
      ensures id in ids <==> exists s | s in services :: !s.pinned && s.serviceId == id
    {
      UnpinnedCounts(services, id);
      OneUnpinnedRow(services, id);
      NoUnpinnedRows(services, id);
    }
    ServicesAscend();
    if UnpinnedOnce(services) {
      forall id ensures id in ids <==> id in SERVICES {
        if id in SERVICES {
          assert multiset(ids)[id] == 1;
        }
      }
      UnpinnedIsOrdered(services);
      OnceEachAscends(ids);
      AscendingIsUnique(ids, SERVICES);
    }
    if ids == SERVICES {
      forall s | s in services && !s.pinned ensures s.serviceId in SERVICES {
        assert s.serviceId in ids;
      }
    }
  }

  /** Exactly the five services are unpinned, each with its own context, and every last container has a digest. */
  ghost predicate Buildable(inputs: Inputs) {
    && UnpinnedOnce(inputs.services)
    && (forall s | s in SERVICES :: s in inputs.contexts && inputs.contexts[s] == "apps/" + s)
    && (forall s | s in SERVICES :: ImageKnown(inputs.containers, s))
  }

  lemma BuildableIs(inputs: Inputs)
    ensures Builds.Buildable(inputs, Unpinned(inputs.services)) <==> Buildable(inputs)
  {
    hide UnpinnedOnce, ImageKnown, Unpinned, StatesOf, Builds.DigestOrAbsent, Builds.ImageOf;
    var unpinned := Unpinned(inputs.services);
    UnpinnedAre(inputs.services);
    forall s ensures Builds.DigestOrAbsent(Builds.ImageOf(StatesOf(inputs.containers), s)) <==> ImageKnown(inputs.containers, s) {
      ImageKnownIs(inputs.containers, s);
    }
    if |unpinned| == 5 {
      assert forall k | 0 <= k < 5 :: Ids(unpinned)[k] == unpinned[k].serviceId;
      assert (forall k | 0 <= k < 5 :: unpinned[k].serviceId == SERVICES[k]) <==> Ids(unpinned) == SERVICES;
    }
  }

  /**
   A plan frozen without build results is accepted exactly when it fits, the facts are complete, the recovery report
   is valid, and the host is buildable; the credential rotation has no part in it.
   */
  lemma PlannerAndExecutorAgreeOnBuilds(size: PlanSize, inputs: Inputs)
    requires Loaded(inputs) && inputs.buildResults.None? && BuildPlan(inputs).Some?
    ensures ReadPlan(size, BuildPlan(inputs).value).Success?
       <==> size(BuildPlan(inputs).value) <= MAX_BYTES
            && inputs.factsComplete && inputs.evidence.recovery.Valid? && Buildable(inputs)
  {
    hide ReadPlan, BuildPlan, Builds.Buildable, Buildable, Loaded;
    Builds.BuildsAgree(size, inputs);
    BuildableIs(inputs);
  }

  /** The image that a build plan preserves for a service: its last container's, or none. */
  ghost predicate Preserves(containers: seq<Container>, service: string, image: Option<string>) {
    || (Absent(containers, "asklegal-" + service) && image == None)
    || exists k :: LastOf(containers, k, "asklegal-" + service) && image == Some(containers[k].imageId)
  }

  lemma ImagePreserved(containers: seq<Container>, service: string)
    ensures Preserves(containers, service, Builds.ImageOf(StatesOf(containers), service))
  {
    StatesTell(containers, "asklegal-" + service);
  }

  /** What the executor binds for a build is what the planner was given. */
  ghost predicate BindsBuild(inputs: Inputs, body: PlanBody, plan: HostPlan) {
    && plan.BuildPhase? && plan.fingerprint == Sha256(body) && plan.actions == body.actions && plan.targets == body.targets
    && plan.imageInputs == inputs.imageInputs && |plan.imageActions| == |plan.preserveActions| == 5
    && (forall k | 0 <= k < 5 ::
          && plan.imageActions[k].service == SERVICES[k] && plan.imageActions[k].inputs == inputs.imageInputs
          && plan.preserveActions[k].service == SERVICES[4 - k]
          && Preserves(inputs.containers, SERVICES[4 - k], plan.preserveActions[k].imageId))
  }

  lemma AcceptedBuildSaysWhatWasPlanned(size: PlanSize, inputs: Inputs)
    requires Loaded(inputs) && inputs.buildResults.None? && BuildPlan(inputs).Some?
    requires ReadPlan(size, BuildPlan(inputs).value).Success?
    ensures BindsBuild(inputs, BuildPlan(inputs).value.body, ReadPlan(size, BuildPlan(inputs).value).value)
  {
    hide BuildPlan, ReadPlan, Loaded, Builds.ImageOf, StatesOf, Preserves;
    Builds.AcceptedBuildBinds(size, inputs);
    forall k | 0 <= k < 5
      ensures Reversed(SERVICES)[k] == SERVICES[4 - k]
      ensures Preserves(inputs.containers, SERVICES[4 - k], Builds.ImageOf(StatesOf(inputs.containers), SERVICES[4 - k]))
    {
      ImagePreserved(inputs.containers, SERVICES[4 - k]);
    }
  }

  // ----- when the planner freezes a plan -----------------------------------------------

  lemma {:induction false} VerifyValuesExist(services: seq<RuntimeService>, rows: map<string, BuildRow>, names: seq<string>)
    requires forall s | s in names :: s in rows
    ensures VerifyValues(services, rows, names).Some? <==> forall s | s in names :: UnitOf(services, s).Some?
  {
    if names != [] {
      VerifyValuesExist(services, rows, names[1..]);
      assert names[0] in names;
      assert forall s :: s in names ==> s == names[0] || s in names[1..];
      assert forall s :: s in names[1..] ==> s in names;
    }
  }

  /** The planner can name a target for the service, and the service says all that is printed of it. */
  predicate IsPlannable(inputs: Inputs, s: RuntimeService) {
    && s.serviceId != "" && s.unitName != "" && s.image != ""
    && ((inputs.buildResults.Some? && s.serviceId in inputs.buildResults.value.rows) || s.pinned || s.serviceId in inputs.contexts)
  }

  lemma {:induction false} ImageTargetsExist(inputs: Inputs, services: seq<RuntimeService>)
    ensures ImageTargets(inputs, services).Some? && !(exists s | s in services :: s.serviceId == "" || s.unitName == "" || s.image == "")
       <==> forall s | s in services :: IsPlannable(inputs, s)
  {
    if services != [] {
      ImageTargetsExist(inputs, services[1..]);
      assert services[0] in services;
      assert forall s :: s in services ==> s == services[0] || s in services[1..];
      assert forall s :: s in services[1..] ==> s in services;
    }
  }

  /** Without results, a plan is frozen over complete facts only where something is to be built. */
  ghost predicate HasBuilds(inputs: Inputs) {
    && (exists s | s in inputs.services :: !s.pinned)
    && (forall c | c in inputs.containers :: c.name != "" && c.imageId != "")
  }

  /** With results, every application service must be named, and every container must say its state. */
  ghost predicate HasDeployment(inputs: Inputs) {
    && (forall id | id in SERVICES :: exists s | s in inputs.services :: s.serviceId == id)
    && (forall c | c in inputs.containers :: c.name != "" && c.imageId != "" && c.runtimeState != "")
  }

  lemma {:induction false} InsertedAre(s: RuntimeService, rest: seq<RuntimeService>)
    ensures forall t :: t in InsertService(s, rest) <==> t == s || t in rest
  {
    if rest != [] {
      InsertedAre(s, rest[1..]);
      assert forall t :: t in rest <==> t == rest[0] || t in rest[1..];
    }
  }

  lemma {:induction false} UnpinnedMembers(services: seq<RuntimeService>)
    ensures forall t :: t in Unpinned(services) <==> t in services && !t.pinned
  {
    if services != [] {
      UnpinnedMembers(services[1..]);
      assert forall t :: t in services <==> t == services[0] || t in services[1..];
      if !services[0].pinned {
        InsertedAre(services[0], Unpinned(services[1..]));
      }
    }
  }

  lemma BuildsAreFrozen(values: FixedValues, inputs: Inputs)
    requires Loaded(inputs) && inputs.factsComplete && inputs.buildResults.None?
    requires forall s | s in inputs.services :: IsPlannable(inputs, s)
    ensures PlanRows(values, inputs).Some? <==> HasBuilds(inputs)
  {
    hide Unpinned, StatesOf, NumberedFrom, ImageValues, PreserveValues;
    UnpinnedMembers(inputs.services);
    var unpinned := Unpinned(inputs.services);
    assert unpinned != [] ==> unpinned[0] in unpinned;
  }

  lemma DeploymentIsFrozen(values: FixedValues, inputs: Inputs)
    requires Loaded(inputs) && inputs.factsComplete && inputs.buildResults.Some?
    ensures PlanRows(values, inputs).Some? <==> HasDeployment(inputs)
  {
    hide VerifyValues, UnitOf, NumberedFrom, StatesOf, BindingsText, RestoreValues, ForwardValues;
    VerifyValuesExist(inputs.services, inputs.buildResults.value.rows, SERVICES);
    forall id ensures UnitOf(inputs.services, id).Some? <==> exists s | s in inputs.services :: s.serviceId == id {
      UnitsTell(inputs.services, id);
    }
  }

  /** Exactly what keeps the planner from raising. */
  lemma PlanIsFrozenExactlyWhen(inputs: Inputs)
    requires Loaded(inputs)
    ensures BuildPlan(inputs).Some? <==>
              && (forall s | s in inputs.services :: IsPlannable(inputs, s))
              && (inputs.factsComplete && inputs.buildResults.None? ==> HasBuilds(inputs))
              && (inputs.factsComplete && inputs.buildResults.Some? ==> HasDeployment(inputs))
  {
    hide ImageTargets, ContractOf, Freeze, PlanRows, HasBuilds, HasDeployment, IsPlannable;
    ImageTargetsExist(inputs, inputs.services);
    if !inputs.factsComplete {
      IncompleteIsFrozen(VALUES, inputs);
    } else if inputs.buildResults.Some? {
      DeploymentIsFrozen(VALUES, inputs);
    } else if forall s | s in inputs.services :: IsPlannable(inputs, s) {
      BuildsAreFrozen(VALUES, inputs);
    }
  }

  lemma IncompleteIsFrozen(values: FixedValues, inputs: Inputs)
    requires Loaded(inputs) && !inputs.factsComplete
    ensures PlanRows(values, inputs).Some?
  {
  }

  // ----- there are such plans ----------------------------------------------------------

  /** Each service as its own unit. */
  function OwnServices(names: seq<string>, pinned: bool): (r: seq<RuntimeService>)
    ensures |r| == |names| && forall i | 0 <= i < |r| :: r[i] == RuntimeService(names[i], UnitName(names[i]), "image", pinned)
  {
    seq(|names|, i requires 0 <= i < |names| => RuntimeService(names[i], UnitName(names[i]), "image", pinned))
  }

  lemma OwnServicesAre(pinned: bool)
    ensures var services := OwnServices(SERVICES, pinned);
            && (forall id | id in SERVICES :: RunsAsItsUnit(services, id))
            && (forall id | id in SERVICES :: exists s | s in services :: s.serviceId == id)
            && (forall s | s in services :: s.pinned == pinned && s.serviceId in SERVICES && s.serviceId != "" && s.unitName != "" && s.image != "")
            && (!pinned ==> UnpinnedOnce(services))
  {
    hide Before, OnlyUnpinned, RunsAsItsUnit, OwnServices;
    var services := OwnServices(SERVICES, pinned);
    ServiceLetters();
    forall id | id in SERVICES
      ensures RunsAsItsUnit(services, id)
      ensures exists s | s in services :: s.serviceId == id
      ensures !pinned ==> exists k :: OnlyUnpinned(services, k, id)
    {
      var k :| 0 <= k < 5 && SERVICES[k] == id;
      OwnServiceIs(k, pinned);
      assert services[k] in services;
    }
    forall s | s in services ensures s.pinned == pinned && s.serviceId in SERVICES && s.serviceId != "" && s.unitName != "" && s.image != "" {
      var i :| 0 <= i < 5 && services[i] == s;
      assert SERVICES[i] in SERVICES;
      assert UnitName(SERVICES[i]) != "";
    }
  }

  lemma OwnServiceIs(k: nat, pinned: bool)
    requires k < 5
    ensures var services := OwnServices(SERVICES, pinned);
            && services[k].serviceId == SERVICES[k] && RunsAsItsUnit(services, SERVICES[k])
            && (!pinned ==> OnlyUnpinned(services, k, SERVICES[k]))
  {
    hide OwnServices;
    var services := OwnServices(SERVICES, pinned);
    ServicesDiffer();
    assert FirstOf(services, k, SERVICES[k]);
  }

  lemma ServicesDiffer()
    ensures forall i, j | 0 <= i < 5 && 0 <= j < 5 && i != j :: SERVICES[i] != SERVICES[j]
  {
    ServiceLetters();
    assert forall i, j | 0 <= i < j < 5 :: SERVICES[i][0] < SERVICES[j][0];
  }

  function SampleResults(digest: string): BuildResults {
    BuildResults(digest, map s | s in SERVICES :: BuildRow("asklegal/" + s + ":hk-v1-candidate", digest, ""))
  }

  /** Two rows of one name, the second of them running, and one of a service that has exited. */
  function SampleContainers(digest: string, other: string): seq<Container> {
    [Container("asklegal-review-api", other, "created"),
     Container("asklegal-control-plane", other, "exited"),
     Container("asklegal-review-api", digest, "running")]
  }

  /** A host on which two services stand, results for every service, and evidence that is settled. */
  function SampleInputs(digest: string, other: string): Inputs {
    Inputs(true, SampleContainers(digest, other), OwnServices(SERVICES, true), map[], digest, Some(SampleResults(digest)),
           Evidence(Missing, true, true, Some(digest), Valid(Recovery(digest, false))), {}, false, false, false)
  }

  /** The same host before any of its images is built. */
  function SampleBuildInputs(digest: string, other: string): Inputs {
    Inputs(true, SampleContainers(digest, other), OwnServices(SERVICES, false), map s | s in SERVICES :: "apps/" + s, digest, None,
           Evidence(Missing, false, false, None, Valid(Recovery(digest, true))), {}, false, true, false)
  }

  function Short(file: PlanFile): nat {
    0
  }

  lemma SampleStands(digest: string, other: string)
    requires IsFingerprint(digest) && IsFingerprint(other)
    ensures var containers := SampleContainers(digest, other);
            && LastOf(containers, 2, "asklegal-review-api") && LastOf(containers, 1, "asklegal-control-plane")
            && (forall c | c in containers :: c.name != "" && c.imageId != "" && c.runtimeState != "")
            && (forall id | id in SERVICES :: StandsKnown(containers, id) && ImageKnown(containers, id))
  {
    assert "asklegal-review-api"[9] != "asklegal-control-plane"[9];
    assert IsLowerWord("created") && IsLowerWord("exited") && IsLowerWord("running");
  }

  lemma SampleIsFrozen(digest: string, other: string)
    requires IsFingerprint(digest) && IsFingerprint(other)
    ensures var inputs := SampleInputs(digest, other); Loaded(inputs) && BuildPlan(inputs).Some? && Deployable(inputs)
  {
    hide BuildPlan, IsFingerprint, IsLowerWord, SampleContainers, OwnServices, StandsKnown, RunsAsItsUnit, FirstOf;
    SampleStands(digest, other);
    OwnServicesAre(true);
    SampleIsLoaded(digest, other);
    PlanIsFrozenExactlyWhen(SampleInputs(digest, other));
  }

  lemma SampleIsLoaded(digest: string, other: string)
    requires IsFingerprint(digest)
    ensures Loaded(SampleInputs(digest, other)) && Loaded(SampleBuildInputs(digest, other))
  {
    hide IsFingerprint;
  }

  lemma SampleBuildIsFrozen(digest: string, other: string)
    requires IsFingerprint(digest) && IsFingerprint(other)
    ensures var inputs := SampleBuildInputs(digest, other); Loaded(inputs) && BuildPlan(inputs).Some? && Buildable(inputs)
  {
    hide BuildPlan, IsFingerprint, IsLowerWord, SampleContainers, OwnServices, ImageKnown, UnpinnedOnce, IsPlannable, RunsAsItsUnit, StandsKnown;
    SampleStands(digest, other);
    OwnServicesAre(false);
    SampleIsLoaded(digest, other);
    SampleIsPlannable(digest, other);
    PlanIsFrozenExactlyWhen(SampleBuildInputs(digest, other));
  }

  lemma SampleIsPlannable(digest: string, other: string)
    ensures var inputs := SampleBuildInputs(digest, other);
            && (forall s | s in inputs.services :: IsPlannable(inputs, s))
            && (exists s | s in inputs.services :: !s.pinned)
            && (forall s | s in SERVICES :: s in inputs.contexts && inputs.contexts[s] == "apps/" + s)
  {
    hide OwnServices, UnpinnedOnce, RunsAsItsUnit, SampleContainers;
    OwnServicesAre(false);
    var services := OwnServices(SERVICES, false);
    assert SERVICES[0] in SERVICES;
    var s :| s in services && s.serviceId == SERVICES[0];
  }

  /** Some deployment is accepted, and restores the running container's own image and state. */
  lemma SomePlanIsAccepted(digest: string, other: string)
    requires IsFingerprint(digest) && IsFingerprint(other)
    ensures var inputs := SampleInputs(digest, other);
            && Loaded(inputs) && BuildPlan(inputs).Some?
            && ReadPlan(Short, BuildPlan(inputs).value).Success?
            && Restores(ReadPlan(Short, BuildPlan(inputs).value).value, digest, other)
  {
    hide BuildPlan, ReadPlan, IsFingerprint, Loaded, Deployable, SampleInputs, Binds;
    var inputs := SampleInputs(digest, other);
    SampleIsFrozen(digest, other);
    SampleHasResults(digest, other);
    PlannerAndExecutorAgree(Short, inputs);
    AcceptedPlanSaysWhatWasPlanned(Short, inputs);
    SampleBinds(digest, other, BuildPlan(inputs).value.body, ReadPlan(Short, BuildPlan(inputs).value).value);
  }

  lemma SampleHasResults(digest: string, other: string)
    ensures SampleInputs(digest, other).buildResults.Some? && SampleBuildInputs(digest, other).buildResults.None?
  {
  }

  lemma ServiceNames()
    ensures SERVICES[0] == "acquisition-worker" && SERVICES[1] == "control-plane" && SERVICES[4] == "review-api"
  {
  }

  predicate Restores(plan: HostPlan, digest: string, other: string) {
    && plan.Deployment? && |plan.predecessorImages| == 5
    && plan.predecessorImages[0] == Predecessor("acquisition-worker", None, None)
    && plan.predecessorImages[1] == Predecessor("control-plane", Some(other), Some("exited"))
    && plan.predecessorImages[4] == Predecessor("review-api", Some(digest), Some("running"))
  }

  lemma SampleBinds(digest: string, other: string, body: PlanBody, plan: HostPlan)
    requires SampleInputs(digest, other).buildResults.Some? && Binds(SampleInputs(digest, other), body, plan)
    ensures Restores(plan, digest, other)
  {
    hide Stood, NamesTarget, BlocksDeployment, SampleContainers, OwnServices, SampleResults;
    SampleServices(digest, other);
    ServiceNames();
    assert Stood(SampleContainers(digest, other), SERVICES[0], plan.predecessorImages[0]);
    assert Stood(SampleContainers(digest, other), SERVICES[1], plan.predecessorImages[1]);
    assert Stood(SampleContainers(digest, other), SERVICES[4], plan.predecessorImages[4]);
  }

  /** The last rows of the sample. */
  lemma SampleLast(digest: string, other: string)
    ensures var containers := SampleContainers(digest, other);
            && Absent(containers, "asklegal-" + "acquisition-worker")
            && LastOf(containers, 1, "asklegal-" + "control-plane") && LastOf(containers, 2, "asklegal-" + "review-api")
  {
    assert "asklegal-" + "acquisition-worker" == "asklegal-acquisition-worker";
    assert "asklegal-" + "control-plane" == "asklegal-control-plane";
    assert "asklegal-" + "review-api" == "asklegal-review-api";
    assert "asklegal-acquisition-worker"[9] == 'a' && "asklegal-control-plane"[9] == 'c' && "asklegal-review-api"[9] == 'r';
  }

  lemma LastIsUnique(containers: seq<Container>, k: int, j: int, name: string)
    requires LastOf(containers, k, name) && LastOf(containers, j, name)
    ensures k == j
  {
  }

  lemma StoodAt(containers: seq<Container>, service: string, k: int)
    requires LastOf(containers, k, "asklegal-" + service)
    ensures forall p | Stood(containers, service, p) :: p == Predecessor(service, Some(containers[k].imageId), Some(containers[k].runtimeState))
    ensures forall image | Preserves(containers, service, image) :: image == Some(containers[k].imageId)
  {
    assert containers[k] in containers;
    forall j | LastOf(containers, j, "asklegal-" + service) ensures j == k {
      LastIsUnique(containers, k, j, "asklegal-" + service);
    }
  }

  lemma StoodNowhere(containers: seq<Container>, service: string)
    requires Absent(containers, "asklegal-" + service)
    ensures forall p | Stood(containers, service, p) :: p == Predecessor(service, None, None)
    ensures forall image | Preserves(containers, service, image) :: image == None
  {
    forall k ensures !LastOf(containers, k, "asklegal-" + service) {
      if 0 <= k < |containers| {
        assert containers[k] in containers;
      }
    }
  }

  lemma SampleServices(digest: string, other: string)
    ensures var containers := SampleContainers(digest, other);
            && (forall p | Stood(containers, "acquisition-worker", p) :: p == Predecessor("acquisition-worker", None, None))
            && (forall p | Stood(containers, "control-plane", p) :: p == Predecessor("control-plane", Some(other), Some("exited")))
            && (forall p | Stood(containers, "review-api", p) :: p == Predecessor("review-api", Some(digest), Some("running")))
  {
    hide Stood, LastOf, Absent;
    SampleLast(digest, other);
    StoodNowhere(SampleContainers(digest, other), "acquisition-worker");
    StoodAt(SampleContainers(digest, other), "control-plane", 1);
    StoodAt(SampleContainers(digest, other), "review-api", 2);
  }

  /** Some build phase is accepted, and preserves the running container's own image. */
  lemma SomeBuildIsAccepted(digest: string, other: string)
    requires IsFingerprint(digest) && IsFingerprint(other)
    ensures var inputs := SampleBuildInputs(digest, other);
            && Loaded(inputs) && BuildPlan(inputs).Some?
            && ReadPlan(Short, BuildPlan(inputs).value).Success?
            && Keeps(ReadPlan(Short, BuildPlan(inputs).value).value, digest, other)
  {
    hide BuildPlan, ReadPlan, IsFingerprint, Loaded, Buildable, SampleBuildInputs, BindsBuild;
    var inputs := SampleBuildInputs(digest, other);
    SampleBuildIsFrozen(digest, other);
    SampleHasResults(digest, other);
    SampleIsReady(digest, other);
    PlannerAndExecutorAgreeOnBuilds(Short, inputs);
    AcceptedBuildSaysWhatWasPlanned(Short, inputs);
    SampleBuildBinds(digest, other, BuildPlan(inputs).value.body, ReadPlan(Short, BuildPlan(inputs).value).value);
  }

  lemma SampleIsReady(digest: string, other: string)
    ensures SampleBuildInputs(digest, other).factsComplete && SampleBuildInputs(digest, other).evidence.recovery.Valid?
  {
  }

  predicate Keeps(plan: HostPlan, digest: string, other: string) {
    && plan.BuildPhase? && |plan.preserveActions| == 5
    && plan.preserveActions[0].imageId == Some(digest)
    && plan.preserveActions[3].imageId == Some(other)
    && plan.preserveActions[4].imageId == None
  }

  lemma SampleBuildBinds(digest: string, other: string, body: PlanBody, plan: HostPlan)
    requires BindsBuild(SampleBuildInputs(digest, other), body, plan)
    ensures Keeps(plan, digest, other)
  {
    hide Preserves, SampleContainers, OwnServices;
    SamplePreserved(digest, other);
    ServiceNames();
    assert Preserves(SampleContainers(digest, other), SERVICES[4 - 0], plan.preserveActions[0].imageId);
    assert Preserves(SampleContainers(digest, other), SERVICES[4 - 3], plan.preserveActions[3].imageId);
    assert Preserves(SampleContainers(digest, other), SERVICES[4 - 4], plan.preserveActions[4].imageId);
  }

  lemma SamplePreserved(digest: string, other: string)
    ensures var containers := SampleContainers(digest, other);
            && (forall p | Preserves(containers, "acquisition-worker", p) :: p == None)
            && (forall p | Preserves(containers, "control-plane", p) :: p == Some(other))
            && (forall p | Preserves(containers, "review-api", p) :: p == Some(digest))
  {
    hide Preserves, LastOf, Absent;
    SampleLast(digest, other);
    StoodNowhere(SampleContainers(digest, other), "acquisition-worker");
    StoodAt(SampleContainers(digest, other), "control-plane", 1);
    StoodAt(SampleContainers(digest, other), "review-api", 2);
  }
}
