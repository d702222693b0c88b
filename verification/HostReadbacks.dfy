/**
 What the host must show for a readback to be admitted, row by row, and what each command of a deployment is
 (tools/hk_v1_host_apply.py:1291-1379, 1640-1960).
 */
module HostReadbacks {
  import opened Wrappers
  import opened Text
  import opened HostPlan
  import opened HostJournal
  import opened HostDeployment

  // ----- the whole deployment ----------------------------------------------------------

  /** The five applications and the nine services around them. */
  predicate ContainerName(name: string) {
    || name == "asklegal-acquisition-worker" || name == "asklegal-control-plane" || name == "asklegal-legal-processing-worker"
    || name == "asklegal-promotion-worker" || name == "asklegal-review-api"
    || name == "asklegal-dts-general" || name == "asklegal-dts-promotion"
    || name == "asklegal-egress-model" || name == "asklegal-egress-promotion" || name == "asklegal-egress-source"
    || name == "asklegal-otel-collector" || name == "asklegal-sql-server"
    || name == "asklegal-vault-primary" || name == "asklegal-vault-recovery"
  }

  predicate Healthy(row: ContainerRow) {
    row.runtimeState == "running" && (row.health == "HEALTHY" || row.health == "NONE")
  }

  /** A row of the service's own container, at this image. */
  predicate RunsAt(rows: seq<ContainerRow>, service: string, imageId: string) {
    exists i | 0 <= i < |rows| :: rows[i].name == "asklegal-" + service && rows[i].imageId == imageId && Healthy(rows[i])
  }

  predicate NamesOnce(rows: seq<ContainerRow>) {
    forall i, j | 0 <= i < |rows| && 0 <= j < |rows| && rows[i].name == rows[j].name :: i == j
  }

  predicate Named(rows: seq<ContainerRow>, name: string) {
    exists i | 0 <= i < |rows| :: rows[i].name == name
  }

  /** The rows carry exactly the fourteen names. */
  ghost predicate AllNamed(rows: seq<ContainerRow>) {
    forall name: string :: Named(rows, name) <==> ContainerName(name)
  }

  /** Exactly the fourteen containers, once each, all of them healthy, and every application at its image. */
  ghost predicate Running(rows: seq<ContainerRow>, images: seq<(string, string)>) {
    && NamesOnce(rows)
    && AllNamed(rows)
    && (forall i | 0 <= i < |rows| :: Healthy(rows[i]))
    && (forall k | 0 <= k < |images| :: RunsAt(rows, images[k].0, images[k].1))
  }

  lemma NamesAre(name: string)
    ensures name in CONTAINER_NAMES <==> ContainerName(name)
  {
  }

  lemma NamesOfRows(rows: seq<ContainerRow>, names: set<string>)
    requires names == set row | row in rows :: row.name
    ensures forall name: string :: name in names <==> Named(rows, name)
  {
    forall name: string ensures name in names <==> Named(rows, name) {
      if Named(rows, name) {
        var i :| 0 <= i < |rows| && rows[i].name == name;
        assert rows[i] in rows;
      }
    }
  }

  lemma AllNamedIs(rows: seq<ContainerRow>)
    ensures (set row | row in rows :: row.name) == CONTAINER_NAMES <==> AllNamed(rows)
  {
    hide ContainerName, Named;
    var names := set row | row in rows :: row.name;
    NamesOfRows(rows, names);
    forall name: string ensures name in CONTAINER_NAMES <==> ContainerName(name) {
      NamesAre(name);
    }
    if AllNamed(rows) {
      assert forall name: string :: name in names <==> name in CONTAINER_NAMES;
    }
  }

  lemma HealthyRows(rows: seq<ContainerRow>)
    ensures (forall row | row in rows :: row.runtimeState == "running" && row.health in {"HEALTHY", "NONE"})
       <==> forall i | 0 <= i < |rows| :: Healthy(rows[i])
  {
    forall i | 0 <= i < |rows| ensures rows[i] in rows {
    }
  }

  lemma RunsAtIs(rows: seq<ContainerRow>, service: string, imageId: string)
    requires forall i | 0 <= i < |rows| :: Healthy(rows[i])
    ensures RunsAt(rows, service, imageId) <==> exists row | row in rows :: row.name == "asklegal-" + service && row.imageId == imageId
  {
    hide Healthy;
    if row :| row in rows && row.name == "asklegal-" + service && row.imageId == imageId {
      var i :| 0 <= i < |rows| && rows[i] == row;
    }
  }

  lemma ImagesRun(rows: seq<ContainerRow>, images: seq<(string, string)>)
    requires forall i | 0 <= i < |rows| :: Healthy(rows[i])
    ensures (forall e | e in images :: exists row | row in rows :: row.name == "asklegal-" + e.0 && row.imageId == e.1)
       <==> forall k | 0 <= k < |images| :: RunsAt(rows, images[k].0, images[k].1)
  {
    hide Healthy, RunsAt;
    forall service, imageId
      ensures RunsAt(rows, service, imageId) <==> exists row | row in rows :: row.name == "asklegal-" + service && row.imageId == imageId
    {
      RunsAtIs(rows, service, imageId);
    }
    forall k | 0 <= k < |images| ensures images[k] in images {
    }
  }

  lemma NamesAreOnce(rows: seq<ContainerRow>)
    ensures (forall i, j | 0 <= i < j < |rows| :: rows[i].name != rows[j].name) <==> NamesOnce(rows)
  {
  }

  lemma RunningIs(facts: FactsView, images: seq<(string, string)>)
    ensures DeploymentReady(facts, images) <==> Running(facts.containers, images) && facts.unitsReady
  {
    hide AllNamed, Healthy, RunsAt, NamesOnce;
    var rows := facts.containers;
    AllNamedIs(rows);
    NamesAreOnce(rows);
    HealthyRows(rows);
    if forall i | 0 <= i < |rows| :: Healthy(rows[i]) {
      ImagesRun(rows, images);
    }
  }

  /** The launch manifest, line after line. */
  function Manifest(images: seq<(string, string)>): string {
    if images == [] then ""
    else
      var last := images[|images| - 1];
      Manifest(images[..|images| - 1]) + last.0 + " " + last.1 + "\n"
  }

  lemma {:induction false} ManifestIs(images: seq<(string, string)>)
    ensures ManifestText(images) == Manifest(images)
  {
    if images != [] {
      var front, last := images[..|images| - 1], images[|images| - 1];
      ManifestIs(front);
      ManifestAppends(front, last);
      assert images == front + [last];
    }
  }

  lemma {:induction false} ManifestAppends(images: seq<(string, string)>, last: (string, string))
    ensures ManifestText(images + [last]) == ManifestText(images) + last.0 + " " + last.1 + "\n"
  {
    if images == [] {
      assert images + [last] == [last];
      assert ManifestText([last]) == last.0 + " " + last.1 + "\n" + ManifestText([last][1..]);
    } else {
      ManifestAppends(images[1..], last);
      assert (images + [last])[1..] == images[1..] + [last];
    }
  }

  /** All that a forward recollection must read back: containers, units, firewall, launch manifest and bootstrap receipts. */
  ghost predicate Launched(facts: FactsView, images: seq<(string, string)>) {
    && Running(facts.containers, images)
    && facts.unitsReady
    && facts.firewall.inputDefault == "DROP" && facts.firewall.forwardDefault == "DROP" && facts.firewall.egressDefault == "DROP"
    && facts.manifest == Some(Manifest(images))
    && facts.bootstrapReady
  }

  lemma LaunchedIs(facts: FactsView, images: seq<(string, string)>)
    ensures FirewallReady(facts) && DeploymentReady(facts, images) && ManifestReady(facts, images) && facts.bootstrapReady
       <==> Launched(facts, images)
  {
    hide Running, DeploymentReady, Manifest, ManifestText;
    RunningIs(facts, images);
    ManifestIs(images);
  }

  // ----- the predecessors --------------------------------------------------------------

  /** The last row of the name. */
  predicate LastNamed(rows: seq<ContainerRow>, k: int, name: string) {
    0 <= k < |rows| && rows[k].name == name && forall j | k < j < |rows| :: rows[j].name != name
  }

  /** The predecessor stands again: its last row is at its image and in its state, or there is no row of it. */
  ghost predicate Back(rows: seq<ContainerRow>, p: Predecessor) {
    if p.imageId == None then !Named(rows, "asklegal-" + p.service)
    else exists k :: LastNamed(rows, k, "asklegal-" + p.service) && p.imageId == Some(rows[k].imageId) && p.runtimeState == Some(rows[k].runtimeState)
  }

  ghost predicate Restored(rows: seq<ContainerRow>, predecessors: seq<Predecessor>) {
    forall i | 0 <= i < |predecessors| :: Back(rows, predecessors[i])
  }

  lemma {:induction false} ObservedTells(rows: seq<ContainerRow>, name: string)
    ensures Observed(rows, name).None? <==> !Named(rows, name)
    ensures Observed(rows, name).Some? ==> exists k :: LastNamed(rows, k, name) && Observed(rows, name).value == (rows[k].imageId, rows[k].runtimeState)
  {
    if rows != [] {
      var n := |rows| - 1;
      if rows[n].name == name {
        assert LastNamed(rows, n, name);
      } else {
        ObservedTells(rows[..n], name);
        if Observed(rows[..n], name).Some? {
          var k :| LastNamed(rows[..n], k, name) && Observed(rows[..n], name).value == (rows[k].imageId, rows[k].runtimeState);
          assert LastNamed(rows, k, name);
        }
        if i :| 0 <= i < |rows| && rows[i].name == name {
          assert rows[..n][i].name == name;
        }
      }
    }
  }

  lemma BackIs(rows: seq<ContainerRow>, p: Predecessor)
    ensures Back(rows, p) <==>
              var seen := Observed(rows, "asklegal-" + p.service);
              if p.imageId == None then seen == None
              else seen.Some? && p.imageId == Some(seen.value.0) && p.runtimeState == Some(seen.value.1)
  {
    hide Observed;
    ObservedTells(rows, "asklegal-" + p.service);
    forall k, j | LastNamed(rows, k, "asklegal-" + p.service) && LastNamed(rows, j, "asklegal-" + p.service) ensures k == j {
    }
  }

  lemma RestoredIs(facts: FactsView, predecessors: seq<Predecessor>)
    ensures RollbackReady(facts, predecessors) <==> Restored(facts.containers, predecessors)
  {
    hide Observed, Back;
    forall p: Predecessor
      ensures Back(facts.containers, p) <==>
                var seen := Observed(facts.containers, "asklegal-" + p.service);
                if p.imageId == None then seen == None
                else seen.Some? && p.imageId == Some(seen.value.0) && p.runtimeState == Some(seen.value.1)
    {
      BackIs(facts.containers, p);
    }
    assert (forall i | 0 <= i < |predecessors| :: Back(facts.containers, predecessors[i]))
      <==> forall p | p in predecessors :: Back(facts.containers, p);
  }

  // ----- receipts of the two recollections ---------------------------------------------

  /** What the forward recollection's receipt says: success exactly for a launched host, and nothing for facts without a digest. */
  lemma RecollectionAdmits(job: Job, seen: Observation)
    requires Shaped(job.plan)
    ensures var r := ReceiptOf(job, false, 11, seen);
            && (r.None? <==> seen.result.returncode == 0 && !IsFingerprint(seen.facts.fingerprint))
            && (r.Some? && r.value.returncode == 0
                <==> seen.result.returncode == 0 && IsFingerprint(seen.facts.fingerprint) && Launched(seen.facts, job.plan.expectedImages))
  {
    hide Launched, DeploymentReady, ManifestReady, IsFingerprint, Argv;
    LaunchedIs(seen.facts, job.plan.expectedImages);
  }

  /** And what the rollback's says: success exactly where every predecessor stands again. */
  lemma RollbackRecollectionRestores(job: Job, seen: Observation)
    requires Shaped(job.plan)
    ensures var r := ReceiptOf(job, true, 9, seen);
            && (r.None? <==> seen.result.returncode == 0 && !IsFingerprint(seen.facts.fingerprint))
            && (r.Some? && r.value.returncode == 0
                <==> seen.result.returncode == 0 && IsFingerprint(seen.facts.fingerprint)
                     && Restored(seen.facts.containers, job.plan.predecessorImages))
  {
    hide Restored, RollbackReady, IsFingerprint, Argv;
    RestoredIs(seen.facts, job.plan.predecessorImages);
  }

  /** A reading succeeds exactly when its command did, and a recollection's only over a host that shows what is asked of it. */
  ghost predicate ReadsWell(job: Job, rollback: bool, k: nat, seen: Observation, r: Reading)
    requires job.plan.Deployment?
  {
    r.result.returncode == 0
    <==> && seen.result.returncode == 0
         && (!rollback && k == 11 ==> Launched(seen.facts, job.plan.expectedImages))
         && (rollback && k == 9 ==> Restored(seen.facts.containers, job.plan.predecessorImages))
  }

  lemma ReadingAdmits(job: Job, rollback: bool, k: nat, seen: Observation)
    requires Shaped(job.plan) && k < (if rollback then 10 else 13)
    ensures var r := Read(job, Row(job.plan, rollback, k), rollback, seen);
            r.Some? ==> ReadsWell(job, rollback, k, seen, r.value)
  {
    hide Launched, DeploymentReady, ManifestReady, FirewallReady, Restored, RollbackReady, IsFingerprint, Argv;
    LaunchedIs(seen.facts, job.plan.expectedImages);
    RestoredIs(seen.facts, job.plan.predecessorImages);
  }

  // ----- commands ----------------------------------------------------------------------

  /** The vector of the collector, which writes the facts to this path. */
  function Collector(root: string, output: string): seq<string> {
    [root + "/.venv/bin/python", "-m", "tools.v1_poc_collect_host_facts", "--acknowledge-read-only-host-inspection", "--output",
     root + "/" + output]
  }

  /** The vector of the helper, which gets the row to carry out and the directory of the state. */
  function Helper(job: Job, row: string): seq<string> {
    ["/usr/bin/bash", job.repositoryRoot + "/infrastructure/poc/provisioning/90-host-apply.sh", row, job.stateDirectory]
  }

  /** The command of each row: the collector for the two recollections, the helper with the very row for every other. */
  function CommandFor(job: Job, rollback: bool, k: nat): seq<string>
    requires Shaped(job.plan) && k < (if rollback then 10 else 13)
  {
    if rollback then
      if k == 9 then Collector(job.repositoryRoot, "var/hk-v1/host/post-rollback.json") else Helper(job, job.plan.rollbackActions[k])
    else if k == 11 then Collector(job.repositoryRoot, "var/hk-v1/host/post-reconcile.json")
    else Helper(job, job.plan.actions[k])
  }

  lemma CommandIs(job: Job, rollback: bool, k: nat)
    requires Shaped(job.plan) && k < (if rollback then 10 else 13)
    ensures Argv(job, Row(job.plan, rollback, k), rollback) == CommandFor(job, rollback, k)
  {
    hide IsRecollect, OutputPath;
    OutputIs(job, rollback);
  }

  lemma OutputIs(job: Job, rollback: bool)
    ensures OutputPath(job, rollback)
         == job.repositoryRoot + "/" + (if rollback then "var/hk-v1/host/post-rollback.json" else "var/hk-v1/host/post-reconcile.json")
  {
    assert "/var/hk-v1/host/" == "/" + "var/hk-v1/host/";
    if rollback {
      assert "var/hk-v1/host/post-rollback.json" == "var/hk-v1/host/" + "post-rollback.json";
      Regroup(job.repositoryRoot, "/", "var/hk-v1/host/", "post-rollback.json");
    } else {
      assert "var/hk-v1/host/post-reconcile.json" == "var/hk-v1/host/" + "post-reconcile.json";
      Regroup(job.repositoryRoot, "/", "var/hk-v1/host/", "post-reconcile.json");
    }
  }

  lemma Regroup(a: string, b: string, c: string, d: string)
    ensures a + (b + c) + d == a + b + (c + d)
  {
  }

  /** The receipt accounts for the command of its row: its code, its outputs and what it was. */
  predicate Accounts(job: Job, receipt: Receipt, rollback: bool, k: nat, seen: Observation)
    requires Shaped(job.plan) && k < (if rollback then 10 else 13)
  {
    && receipt.sequence == k + 1
    && receipt.action == (if rollback then job.plan.rollbackActions[k] else job.plan.actions[k])
    && receipt.argv == OfArgv(CommandFor(job, rollback, k))
    && receipt.stdout == OfText(seen.result.stdout)
    && (if k != (if rollback then 9 else 11) then
          && receipt.returncode == seen.result.returncode && receipt.stderr == OfText(seen.result.stderr)
          && receipt.readback == ActionComplete(seen.result.returncode == 0)
        else if seen.result.returncode != 0 then
          && receipt.returncode == seen.result.returncode && receipt.stderr == OfText(seen.result.stderr)
          && receipt.readback == FactsNotCollected
        else if receipt.returncode == 0 then
          && receipt.stderr == OfText(seen.result.stderr)
          && receipt.readback == FactsFingerprint(seen.facts.fingerprint)
        else
          && receipt.returncode == 1
          && (receipt.stderr, receipt.readback) ==
             if rollback then (OfText("HOST_APPLY_ROLLBACK_READBACK_INVALID"), RollbackNotAdmitted)
             else if seen.facts.firewall == Firewall("DROP", "DROP", "DROP") then
               (OfText("HOST_APPLY_DEPLOYMENT_READBACK_INVALID"), DeploymentNotAdmitted)
             else (OfText("HOST_APPLY_FIREWALL_READBACK_INVALID"), FirewallNotAdmitted))
  }

  lemma ReceiptAccounts(job: Job, rollback: bool, k: nat, seen: Observation)
    requires Shaped(job.plan) && k < (if rollback then 10 else 13)
    requires ReceiptOf(job, rollback, k, seen).Some?
    ensures Accounts(job, ReceiptOf(job, rollback, k, seen).value, rollback, k, seen)
  {
    hide Argv, CommandFor, DeploymentReady, ManifestReady, RollbackReady, IsRecollect, IsFingerprint;
    CommandIs(job, rollback, k);
  }
}
