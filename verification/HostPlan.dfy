/** The parsed host plans that the executor runs (tools/hk_v1_host_apply.py:180-225). */
module HostPlan {
  import opened Wrappers

  /** `_MAX_BYTES`: no plan or state file longer than this is read. */
  const MAX_BYTES: nat := 5_000_000

  // What the planner prints and the executor expects, word for word.

  const SERVICES: seq<string> := [
    "acquisition-worker", "control-plane", "legal-processing-worker", "promotion-worker", "review-api"]

  const CREDENTIAL_AUTHORITY_REQUIRED := "CREDENTIAL_ROTATION_EXECUTION_AUTHORITY_REQUIRED"

  const POC := "infrastructure/poc/"
  const MIGRATION_SOURCE := "migration_source=packages/management-register-adapter/migrations"
  const MIGRATION_DESTINATION := "migration_destination=/opt/asklegal/management-register/migrations"

  /** Everything a plan document says, without its own seal. */
  datatype PlanBody = PlanBody(
    actions: seq<string>,
    buildResults: Option<string>,
    imageInputs: string,
    blockers: seq<string>,
    credential: Option<string>,
    recovery: Option<string>,
    mode: string,
    schemaVersion: int,
    mutationAuthorized: bool,
    mutationsPerformed: seq<string>,
    rollbackState: string,
    rollbackActions: seq<string>,
    targets: seq<string>)

  /** The seal is the digest of the canonical body; equal digests mean equal bodies. */
  datatype PlanDigest = Sha256(body: PlanBody)

  datatype PlanFile = PlanFile(body: PlanBody, fingerprint: Option<PlanDigest>)

  datatype ImageAction = ImageAction(
    sequence: nat, service: string, context: string, tag: string, inputs: string, raw: string)

  datatype PreserveAction = PreserveAction(
    sequence: nat, service: string, imageId: Option<string>, raw: string)

  datatype Predecessor = Predecessor(service: string, imageId: Option<string>, runtimeState: Option<string>)

  datatype HostPlan =
    | BuildPhase(
        fingerprint: PlanDigest,
        actions: seq<string>,
        targets: seq<string>,
        imageActions: seq<ImageAction>,
        recollectAction: string,
        recollectOutput: string,
        preserveActions: seq<PreserveAction>,
        imageInputs: string)
    | Deployment(
        fingerprint: PlanDigest,
        actions: seq<string>,
        targets: seq<string>,
        recollectAction: string,
        recollectOutput: string,
        rollbackActions: seq<string>,
        buildResults: string,
        imageInputs: string,
        expectedImages: seq<(string, string)>,
        predecessorImages: seq<Predecessor>,
        admissionLimitations: seq<string>)
  {
    /** The raw rollback rows of either phase. */
    function RollbackRows(): seq<string> {
      match this
      case BuildPhase(_, _, _, _, _, _, preserves, _) => seq(|preserves|, i requires 0 <= i < |preserves| => preserves[i].raw)
      case Deployment(_, _, _, _, _, rows, _, _, _, _, _) => rows
    }

    /** Only a deployment plan names limitations; a build plan has none. */
    function Limitations(): seq<string> {
      if Deployment? then admissionLimitations else []
    }
  }
}
