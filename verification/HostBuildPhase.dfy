/**
 The image-build phase: build, retain the build results, recollect, or confirm the running
 images after a failure (tools/hk_v1_host_apply.py:966-1020, 1038-1288, 1563-1597).
 */
module HostBuildPhase {
  import opened Wrappers
  import opened Text
  import opened HostPlan
  import opened HostJournal
  import opened HostGrammar

  datatype ResultRow = ResultRow(service: string, imageId: string, installedTree: string)

  /** The build-results file: what was built, from which inputs. */
  datatype ResultsFile = ResultsFile(imageInputs: string, rows: seq<ResultRow>)

  /** `digest` is the fingerprint of a results file's bytes; `size` measures the state files that are written. */
  datatype BuildJob = BuildJob(plan: HostPlan, repositoryRoot: string, digest: ResultsFile -> string, size: StateSize)

  /** What the executor relies on in a parsed build plan; every accepted one has it. */
  predicate BuildShaped(plan: HostPlan) {
    && plan.BuildPhase?
    && |plan.actions| == 6 && |plan.imageActions| == 5 && |plan.preserveActions| == 5
    && plan.recollectAction == plan.actions[5]
    && (forall k | 0 <= k < 5 ::
          plan.imageActions[k].raw == plan.actions[k] && plan.imageActions[k].sequence == k + 1
          && plan.imageActions[k].service == SERVICES[k])
    && (forall k | 0 <= k < 5 :: plan.preserveActions[k].sequence == k + 1)
  }

  ghost predicate Good(job: BuildJob) {
    && BuildShaped(job.plan)
    && |job.repositoryRoot| > 0 && job.repositoryRoot[0] == '/'
    && forall file :: IsFingerprint(job.digest(file))
  }

  predicate IsSha512(s: string) {
    IsTagged(s, "", 128)
  }

  predicate ValidRow(row: ResultRow, service: string) {
    row.service == service && IsFingerprint(row.imageId) && IsSha512(row.installedTree)
  }

  predicate ValidRows(rows: seq<ResultRow>) {
    |rows| == 5 && forall k | 0 <= k < 5 :: ValidRow(rows[k], SERVICES[k])
  }

  /** `_retained_build_results`: a current and well-formed results file. */
  predicate ValidResults(job: BuildJob, file: Option<ResultsFile>)
    requires job.plan.BuildPhase?
  {
    file.Some? && file.value.imageInputs == job.plan.imageInputs && ValidRows(file.value.rows)
  }

  // ----- commands ----------------------------------------------------------------------

  datatype Command = Build | Recollect | Inspect(k: nat)

  function FactsPath(job: BuildJob): string
    requires job.plan.BuildPhase?
  {
    job.repositoryRoot + "/" + job.plan.recollectOutput
  }

  function ResultsPath(job: BuildJob): string {
    job.repositoryRoot + "/var/hk-v1/host/application-build-results.json"
  }

  function ArgvOf(job: BuildJob, command: Command): seq<string>
    requires BuildShaped(job.plan) && (command.Inspect? ==> command.k < 5)
  {
    match command
    case Build => [job.repositoryRoot + "/.venv/bin/python", "-m", "tools.v1_poc_build_images", "--tag-suffix", "hk-v1-candidate"]
    case Recollect => [job.repositoryRoot + "/.venv/bin/python", "-m", "tools.v1_poc_collect_host_facts",
                       "--acknowledge-read-only-host-inspection", "--output", FactsPath(job)]
    case Inspect(k) => ["/usr/bin/docker", "container", "inspect", "--format", "{{.Image}}",
                        "asklegal-" + job.plan.preserveActions[k].service]
  }

  /**
   What one command gave: its result, its output stripped of surrounding blanks, the rows that a
   build's output tells in service order (`None`: malformed), and the facts read back afterwards.
   */
  datatype Seen = Seen(result: CommandResult, text: string, rows: Option<seq<ResultRow>>, facts: string)

  /** One command handed to the runner; for a recollection, with the results file read before it. */
  datatype Attempt = Attempt(command: Command, argv: seq<string>, read: Option<ResultsFile>, seen: Option<Seen>)

  // ----- receipts ----------------------------------------------------------------------

  /** `_build_receipts` for a build that failed. */
  function FailedSteps(job: BuildJob, result: CommandResult): (r: seq<Receipt>)
    requires BuildShaped(job.plan)
    ensures |r| == 5
  {
    seq(5, k requires 0 <= k < 5 => MakeReceipt(k + 1, job.plan.imageActions[k].raw, ArgvOf(job, Build), result, ImageNotBuilt))
  }

  /** `_build_receipts` for a build whose output parsed. */
  function BuiltSteps(job: BuildJob, result: CommandResult, rows: seq<ResultRow>): (r: seq<Receipt>)
    requires BuildShaped(job.plan) && ValidRows(rows)
    ensures |r| == 5
  {
    seq(5, k requires 0 <= k < 5 =>
      MakeReceipt(k + 1, job.plan.imageActions[k].raw, ArgvOf(job, Build), result, ImageBuilt(rows[k].imageId, rows[k].installedTree)))
  }

  function RecollectReceipt(job: BuildJob, seen: Seen): Receipt
    requires BuildShaped(job.plan)
  {
    MakeReceipt(6, job.plan.recollectAction, ArgvOf(job, Recollect), seen.result,
                if seen.result.returncode != 0 then FactsNotCollected else FactsFingerprint(seen.facts))
  }

  /** The running container still is what the plan preserves. */
  predicate Matched(action: PreserveAction, seen: Seen) {
    if action.imageId.None? then seen.result.returncode != 0
    else seen.result.returncode == 0 && seen.text == action.imageId.value
  }

  function InspectReceipt(job: BuildJob, k: nat, seen: Seen): Receipt
    requires BuildShaped(job.plan) && k < 5
  {
    MakeReceipt(k + 1, job.plan.preserveActions[k].raw, ArgvOf(job, Inspect(k)), seen.result,
                PredecessorPreserved(Matched(job.plan.preserveActions[k], seen)))
  }

  predicate AllPreserved(rollbacks: seq<Receipt>) {
    forall k | 0 <= k < |rollbacks| :: rollbacks[k].readback == PredecessorPreserved(true)
  }

  // ----- states ------------------------------------------------------------------------

  function Body(job: BuildJob, authority: Authority, result: Outcome, steps: seq<Receipt>, rollbacks: seq<Receipt>,
                facts: Option<string>, build: Option<string>): State
    requires BuildShaped(job.plan)
  {
    State(job.plan.fingerprint, authority, [], result, steps, rollbacks,
          facts, if facts.None? then None else Some(FactsPath(job)),
          build, if build.None? then None else Some(ResultsPath(job)),
          result == FailedRolledBack, false)
  }

  function Initial(job: BuildJob, authority: Authority): State
    requires BuildShaped(job.plan)
  {
    Body(job, authority, InProgress, [], [], None, None)
  }

  function FailedState(job: BuildJob, authority: Authority, steps: seq<Receipt>, rollbacks: seq<Receipt>): State
    requires BuildShaped(job.plan)
  {
    Body(job, authority, if AllPreserved(rollbacks) then FailedRolledBack else FailedRollbackUnverified, steps, rollbacks, None, None)
  }

  // ----- the machine -------------------------------------------------------------------

  datatype Process =
    | Idle
    | BuildDue(authority: Authority)
    | Storing(authority: Authority, steps: seq<Receipt>, file: ResultsFile)
    | Rereading(authority: Authority, steps: seq<Receipt>)
    | Writing(state: State)
    | Reading(authority: Authority, steps: seq<Receipt>)
    | CollectDue(authority: Authority, steps: seq<Receipt>, read: ResultsFile)
    | Inspecting(authority: Authority, steps: seq<Receipt>, rollbacks: seq<Receipt>)

  /** The journal, the results file (`None`: absent or unreadable), the commands so far, the invocation. */
  datatype World = World(disk: Disk, results: Option<ResultsFile>, trace: seq<Attempt>, process: Process)

  /** `Replace`: whoever else writes the shared results file, such as the executor of another plan. */
  datatype Move =
    | Begin(authority: Authority)
    | Run(seen: Option<Seen>)
    | Look
    | Write
    | Crash
    | Replace(file: Option<ResultsFile>)

  function Continue(authority: Authority, steps: seq<Receipt>): Process {
    if steps == [] then BuildDue(authority) else Reading(authority, steps)
  }

  function Begun(job: BuildJob, w: World, authority: Authority): World
    requires BuildShaped(job.plan)
  {
    if !w.process.Idle? then w
    else
      match Load(job.size, w.disk, job.plan, authority)
      case Failure(_) => w
      case Success(None) => w.(process := Writing(Initial(job, authority)))
      case Success(Some(s)) => if s.result.Terminal() then w else w.(process := Continue(authority, s.steps))
  }

  predicate CommandDue(p: Process) {
    p.BuildDue? || p.CollectDue? || (p.Inspecting? && |p.rollbacks| < 5)
  }

  function DueCommand(p: Process): (r: Command)
    requires CommandDue(p)
    ensures r.Inspect? ==> r.k < 5
  {
    match p
    case BuildDue(_) => Build
    case CollectDue(_, _, _) => Recollect
    case Inspecting(_, _, rollbacks) => Inspect(|rollbacks|)
  }

  /** The process once its due command has returned; `Idle` where the executor raises. */
  function Returned(job: BuildJob, p: Process, seen: Seen): Process
    requires BuildShaped(job.plan) && CommandDue(p)
  {
    match p
    case BuildDue(authority) =>
      if seen.result.returncode != 0 then Inspecting(authority, FailedSteps(job, seen.result), [])
      else if seen.rows.None? || !ValidRows(seen.rows.value) then Idle
      else Storing(authority, BuiltSteps(job, seen.result, seen.rows.value), ResultsFile(job.plan.imageInputs, seen.rows.value))
    case CollectDue(authority, steps, read) =>
      if seen.result.returncode != 0 then Inspecting(authority, steps + [RecollectReceipt(job, seen)], [])
      else if !IsFingerprint(seen.facts) then Idle
      else
        Writing(Body(job, authority, PhaseCompleteReplanRequired, steps + [RecollectReceipt(job, seen)], [],
                     Some(seen.facts), Some(job.digest(read))))
    case Inspecting(authority, steps, rollbacks) =>
      var more := rollbacks + [InspectReceipt(job, |rollbacks|, seen)];
      if |more| < 5 then Inspecting(authority, steps, more) else Writing(FailedState(job, authority, steps, more))
  }

  function ReadOf(p: Process): Option<ResultsFile> {
    if p.CollectDue? then Some(p.read) else None
  }

  function Ran(job: BuildJob, w: World, seen: Option<Seen>): World
    requires BuildShaped(job.plan)
  {
    if !CommandDue(w.process) then w
    else
      var command := DueCommand(w.process);
      World(w.disk, w.results, w.trace + [Attempt(command, ArgvOf(job, command), ReadOf(w.process), seen)],
            if seen.None? then Idle else Returned(job, w.process, seen.value))
  }

  /** The results file is read again, after it was stored or before a recollection. */
  function Looked(job: BuildJob, w: World): World
    requires BuildShaped(job.plan)
  {
    if !w.process.Rereading? && !w.process.Reading? then w
    else if !ValidResults(job, w.results) then w.(process := Idle)
    else if w.process.Rereading? then
      w.(process := Writing(Body(job, w.process.authority, InProgress, w.process.steps, [], None, Some(job.digest(w.results.value)))))
    else w.(process := CollectDue(w.process.authority, w.process.steps, w.results.value))
  }

  function Wrote(w: World): World {
    match w.process
    case Storing(authority, steps, file) => World(w.disk, Some(file), w.trace, Rereading(authority, steps))
    case Writing(s) =>
      World(Retained(s), w.results, w.trace, if s.result.Terminal() then Idle else Continue(s.authority, s.steps))
    case _ => w
  }

  function After(job: BuildJob, w: World, move: Move): World
    requires BuildShaped(job.plan)
  {
    match move
    case Begin(authority) => Begun(job, w, authority)
    case Run(seen) => Ran(job, w, seen)
    case Look => Looked(job, w)
    case Write => Wrote(w)
    case Crash => w.(process := Idle)
    case Replace(file) => w.(results := file)
  }

  /** The world that a history leads to, from whatever lies at the state path and the results path. */
  function ReplayFrom(job: BuildJob, disk: Disk, results: Option<ResultsFile>, moves: seq<Move>): World
    requires BuildShaped(job.plan)
  {
    if moves == [] then World(disk, results, [], Idle)
    else After(job, ReplayFrom(job, disk, results, moves[..|moves| - 1]), moves[|moves| - 1])
  }

  /** The world that a whole history leads to: one that began with nothing at the state path. */
  function Replay(job: BuildJob, results: Option<ResultsFile>, moves: seq<Move>): World
    requires BuildShaped(job.plan)
  {
    ReplayFrom(job, Absent, results, moves)
  }

  /** Whatever plan file the executor accepts as a build phase has the shape it relies on. */
  lemma ParsedBuildIsShaped(file: PlanFile)
    requires ParsePlan(file).Success? && ParsePlan(file).value.BuildPhase?
    ensures BuildShaped(ParsePlan(file).value)
  {
    ParsedBuildWith(FIXED, file);
  }

  lemma ParsedBuildWith(fixed: FixedRows, file: PlanFile)
    requires ParsePlanWith(fixed, file).Success? && ParsePlanWith(fixed, file).value.BuildPhase?
    ensures BuildShaped(ParsePlanWith(fixed, file).value)
  {
    ParsedBuildIs(fixed, file.body, Sha256(file.body));
  }

  lemma ParsedBuildIs(fixed: FixedRows, body: PlanBody, seal: PlanDigest)
    requires ParseBuildPhase(fixed, body, seal).Success?
    ensures BuildShaped(ParseBuildPhase(fixed, body, seal).value)
  {
    hide ImageRow, PreserveImageRow, PreserveServiceRow, ParseImage, ParsePreserve;
    var images := ParseImageRows(FIRST_NUMBERS, SERVICES, body.actions[..5], 1).value;
    forall k | 0 <= k < 5
      ensures images[k].raw == body.actions[k] && images[k].sequence == k + 1 && images[k].service == SERVICES[k]
    {
      assert body.actions[..5][k] == body.actions[k];
    }
  }
}
