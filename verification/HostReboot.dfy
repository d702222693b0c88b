/**
 One exact host reboot: its plan, authority and state documents, and the protocol that
 issues the command (tools/hk_v1_host_reboot.py:165-699).
 */
module HostReboot {
  import opened Wrappers
  import opened Text

  datatype Error =
    | PlanInvalid | AuthorityInvalid | AuthorityExpired | StateInvalid | PreFactsInvalid | PostFactsInvalid
    | PathInvalid | ReadbackInvalid | Interrupted

  /** `_host`: the boot identity and the semantic fingerprint of one host-facts envelope. */
  datatype Host = Host(boot: string, semantic: string)

  const MAX_BYTES: nat := 10_000_000

  /** What the documents' readers ask of the world: the facts parser, the path check, a document's size. */
  datatype Env = Env(host: string -> Option<Host>, safe: string -> bool, size: Document -> nat)
  {
    predicate Fits(document: Document) {
      size(document) <= MAX_BYTES
    }
  }

  datatype Document = OfPlan(plan: PlanFile) | OfAuthority(authority: AuthorityFile) | OfState(state: StateFile)

  // ----- plans -------------------------------------------------------------------------

  /** `"rbt_"` and 48 digits of the digest of these three, or any other text. */
  datatype OperationId = Derived(semantic: string, postPath: string, statePath: string) | OtherId(text: string)

  predicate IsOperationId(id: OperationId) {
    id.Derived? || IsTagged(id.text, "rbt_", 48)
  }

  datatype Plan = Plan(
    operationId: OperationId, preFacts: string, preSemantic: string, preBoot: string, postPath: string, statePath: string)

  datatype PlanSeal = PlanSha256(plan: Plan)

  datatype PlanFile = PlanFile(plan: Plan, seal: PlanSeal)

  /** `build_host_reboot_plan` */
  function BuildPlan(env: Env, preFacts: string, postPath: string, statePath: string): Result<Plan, Error> {
    match env.host(preFacts)
    case None => Failure(PreFactsInvalid)
    case Some(host) =>
      if !env.safe(postPath) || !env.safe(statePath) || postPath == statePath then Failure(PathInvalid)
      else Success(Plan(Derived(host.semantic, postPath, statePath), preFacts, host.semantic, host.boot, postPath, statePath))
  }

  /** `host_reboot_plan_bytes` */
  function PlanBytes(plan: Plan): PlanFile {
    PlanFile(plan, PlanSha256(plan))
  }

  /** `_parse_plan` */
  function ParsePlan(env: Env, file: PlanFile): Result<Plan, Error> {
    var host := env.host(file.plan.preFacts);
    if !env.Fits(OfPlan(file)) || host.None? || !IsOperationId(file.plan.operationId)
       || file.seal != PlanSha256(file.plan)
       || file.plan.preBoot != host.value.boot || file.plan.preSemantic != host.value.semantic
       || file.plan.postPath == file.plan.statePath
       || !env.safe(file.plan.postPath) || !env.safe(file.plan.statePath) then Failure(PlanInvalid)
    else Success(file.plan)
  }

  // ----- authorities -------------------------------------------------------------------

  /**
   An ISO 8601 text for an instant. Spelling 0 is the one that `isoformat` gives in UTC; the
   others write the same instant with another offset or precision. A naive time is unusable.
   */
  datatype TimeText = Iso(instant: int, spelling: nat) | Unusable

  datatype AuthorityBody = AuthorityBody(
    authorityId: string, subject: string, authorizedAt: TimeText, expiresAt: TimeText,
    operationId: OperationId, plan: PlanSeal, preBoot: string, postPath: string, statePath: string)

  datatype AuthoritySeal = AuthoritySha256(body: AuthorityBody)

  datatype AuthorityFile = AuthorityFile(body: AuthorityBody, seal: AuthoritySeal)

  datatype Authority = Authority(
    authorityId: string, subject: string, authorizedAt: int, expiresAt: int, fingerprint: AuthoritySeal)

  predicate IsSubject(text: string) {
    && 3 <= |text| <= 128 && 'a' <= text[0] <= 'z'
    && forall i | 1 <= i < |text| :: 'a' <= text[i] <= 'z' || '0' <= text[i] <= '9' || text[i] in {'.', '_', '-'}
  }

  /** `build_host_reboot_authority` */
  function BuildAuthority(plan: Plan, authorityId: string, subject: string, authorizedAt: int, expiresAt: int)
    : Result<AuthorityFile, Error>
  {
    if !IsTagged(authorityId, "auth_", 48) || !IsSubject(subject) || authorizedAt >= expiresAt then Failure(AuthorityInvalid)
    else
      var body := AuthorityBody(authorityId, subject, Iso(authorizedAt, 0), Iso(expiresAt, 0),
                                plan.operationId, PlanSha256(plan), plan.preBoot, plan.postPath, plan.statePath);
      Success(AuthorityFile(body, AuthoritySha256(body)))
  }

  /** `_parse_authority` */
  function ParseAuthority(env: Env, file: AuthorityFile, plan: Plan): Result<Authority, Error> {
    var body := file.body;
    if !env.Fits(OfAuthority(file)) || body.authorizedAt.Unusable? || body.expiresAt.Unusable?
       || !IsTagged(body.authorityId, "auth_", 48) || !IsSubject(body.subject)
       || body.authorizedAt.instant >= body.expiresAt.instant
       || body.operationId != plan.operationId || body.plan != PlanSha256(plan) || body.preBoot != plan.preBoot
       || body.postPath != plan.postPath || body.statePath != plan.statePath
       || file.seal != AuthoritySha256(body) then Failure(AuthorityInvalid)
    else Success(Authority(body.authorityId, body.subject, body.authorizedAt.instant, body.expiresAt.instant, file.seal))
  }

  /** Both times are spelt as the builder spells them. */
  predicate Canonical(file: AuthorityFile) {
    && file.body.authorizedAt.Iso? && file.body.authorizedAt.spelling == 0
    && file.body.expiresAt.Iso? && file.body.expiresAt.spelling == 0
  }

  // ----- states ------------------------------------------------------------------------

  datatype Phase = Requested | AwaitingReboot | Failed | Completed | OtherPhase

  datatype Output = OutputSha256(text: string)

  datatype Receipt = CommandReturned(returncode: int, stdout: Output, stderr: Output) | AdoptedFromChangedBoot | OtherReceipt

  datatype StateBody = StateBody(
    operationId: OperationId, phase: Phase, complete: bool,
    planSeal: PlanSeal, planFile: PlanFile,
    authoritySeal: AuthoritySeal, authorityId: string, authorityFile: AuthorityFile,
    preBoot: string, postBoot: Option<string>, postSemantic: Option<string>, postFacts: Option<string>,
    receipt: Option<Receipt>)

  datatype StateSeal = StateSha256(body: StateBody)

  datatype StateFile = StateFile(body: StateBody, seal: StateSeal)

  function Sealed(body: StateBody): StateFile {
    StateFile(body, StateSha256(body))
  }

  /** `_state_body` */
  function BodyOf(env: Env, planFile: PlanFile, authorityFile: AuthorityFile, phase: Phase,
                  receipt: Option<Receipt>, post: Option<string>): Result<StateBody, Error> {
    var plan :- ParsePlan(env, planFile);
    var authority :- ParseAuthority(env, authorityFile, plan);
    if post.Some? && env.host(post.value).None? then Failure(PostFactsInvalid)
    else
      var seen := if post.None? then None else env.host(post.value);
      Success(StateBody(
        plan.operationId, phase, phase == Completed, PlanSha256(plan), planFile,
        authority.fingerprint, authority.authorityId, authorityFile, plan.preBoot,
        if seen.None? then None else Some(seen.value.boot), if seen.None? then None else Some(seen.value.semantic),
        post, receipt))
  }

  /** `_validate_state_receipt` */
  predicate ValidReceipt(receipt: Option<Receipt>, phase: Phase) {
    if phase == Requested then receipt.None?
    else receipt.Some? && !receipt.value.OtherReceipt?
  }

  /** `_validate_state_post_facts` */
  predicate ValidPostFacts(env: Env, body: StateBody, plan: Plan) {
    if body.phase != Completed then body.postBoot.None? && body.postSemantic.None? && body.postFacts.None?
    else
      && body.postFacts.Some? && env.host(body.postFacts.value).Some?
      && var host := env.host(body.postFacts.value).value;
         host.boot != plan.preBoot && body.postBoot == Some(host.boot) && body.postSemantic == Some(host.semantic)
  }

  /** `_parse_state` */
  function ParseState(env: Env, file: StateFile, plan: Plan, authority: Authority): Result<StateBody, Error> {
    var body := file.body;
    if !env.Fits(OfState(file)) || body.phase == OtherPhase || body.complete != (body.phase == Completed)
       || body.operationId != plan.operationId || body.planSeal != PlanSha256(plan)
       || body.authoritySeal != authority.fingerprint || body.authorityId != authority.authorityId
       || body.preBoot != plan.preBoot || file.seal != StateSha256(body)
       || body.planFile != PlanBytes(plan)
       || BuildAuthority(plan, authority.authorityId, authority.subject, authority.authorizedAt, authority.expiresAt)
          != Success(body.authorityFile)
       || !ValidReceipt(body.receipt, body.phase) || !ValidPostFacts(env, body, plan) then Failure(StateInvalid)
    else Success(body)
  }

  datatype Readback = Readback(
    operationId: OperationId, preBoot: string, postBoot: string, preSemantic: string, postSemantic: string, state: StateSeal)

  /** `parse_host_reboot_readback_details` */
  function ReadbackDetails(env: Env, file: StateFile, expectedPost: string): Result<Readback, Error> {
    var plan := ParsePlan(env, file.body.planFile);
    if plan.Failure? then Failure(ReadbackInvalid)
    else
      var authority := ParseAuthority(env, file.body.authorityFile, plan.value);
      if authority.Failure? then Failure(ReadbackInvalid)
      else
        var parsed := ParseState(env, file, plan.value, authority.value);
        if parsed.Failure? || parsed.value.phase != Completed || parsed.value.postFacts != Some(expectedPost)
           || parsed.value.postBoot.None? || parsed.value.postSemantic.None? then Failure(ReadbackInvalid)
        else
          Success(Readback(plan.value.operationId, plan.value.preBoot, parsed.value.postBoot.value,
                           plan.value.preSemantic, parsed.value.postSemantic.value, file.seal))
  }

  // ----- the protocol ------------------------------------------------------------------

  datatype CommandResult = CommandResult(returncode: int, stdout: string, stderr: string)

  /** What lies at the state path: nothing, bytes that are no sealed state, or a state. */
  datatype Disk = Absent | Unreadable | Present(state: StateFile)

  /** One reboot command handed to the runner, with the authority, the clock and the file at that moment. */
  datatype Command = Command(planFile: PlanFile, authorityFile: AuthorityFile, now: int, disk: Disk)

  /** The invocation under the lock: none, about to issue the command, or with its result to record. */
  datatype Process =
    | Idle
    | Due(planFile: PlanFile, authorityFile: AuthorityFile, now: int)
    | Ran(planFile: PlanFile, authorityFile: AuthorityFile, result: CommandResult)

  datatype World = World(disk: Disk, issued: seq<Command>, process: Process)

  /** `Raise`: the runner was started and gave no result. */
  datatype Move =
    | Begin(planFile: PlanFile, authorityFile: AuthorityFile, now: int, post: Option<string>)
    | Run(result: CommandResult)
    | Raise
    | Record
    | Crash

  const KEPT_OUTPUT: nat := 100_000

  /** `text[-100_000:]` */
  function Tail(text: string): string {
    if |text| <= KEPT_OUTPUT then text else text[|text| - KEPT_OUTPUT..]
  }

  function ReceiptOf(result: CommandResult): Receipt {
    CommandReturned(result.returncode, OutputSha256(Tail(result.stdout)), OutputSha256(Tail(result.stderr)))
  }

  function PhaseOf(result: CommandResult): Phase {
    if result.returncode == 0 then AwaitingReboot else Failed
  }

  /** What an invocation that finds a state writes in its place, if anything. */
  function Reconciled(env: Env, planFile: PlanFile, authorityFile: AuthorityFile, state: StateFile, post: Option<string>)
    : Option<StateBody>
  {
    var plan := ParsePlan(env, planFile);
    if plan.Failure? then None
    else
      var authority := ParseAuthority(env, authorityFile, plan.value);
      if authority.Failure? then None
      else
        var parsed := ParseState(env, state, plan.value, authority.value);
        if parsed.Failure? || parsed.value.phase in {Failed, Completed} then None
        else if post.None? || env.host(post.value).None? || env.host(post.value).value.boot == plan.value.preBoot then None
        else
          var receipt := if parsed.value.receipt.Some? then parsed.value.receipt else Some(AdoptedFromChangedBoot);
          match BodyOf(env, planFile, authorityFile, Completed, receipt, post)
          case Failure(_) => None
          case Success(body) => Some(body)
  }

  /** An invocation that finds no state may ask for the reboot: its documents parse and its window is open. */
  predicate MayRequest(env: Env, path: string, planFile: PlanFile, authorityFile: AuthorityFile, now: int) {
    var plan := ParsePlan(env, planFile);
    && plan.Success? && plan.value.statePath == path
    && var authority := ParseAuthority(env, authorityFile, plan.value);
       authority.Success? && authority.value.authorizedAt <= now <= authority.value.expiresAt
  }

  predicate Names(env: Env, path: string, planFile: PlanFile) {
    ParsePlan(env, planFile).Success? && ParsePlan(env, planFile).value.statePath == path
  }

  /** One step of the invocations that name this state path; the lock lets one in at a time. */
  function After(env: Env, path: string, w: World, move: Move): World {
    match move
    case Begin(planFile, authorityFile, now, post) =>
      if !w.process.Idle? || !Names(env, path, planFile) then w
      else (
        match w.disk
        case Unreadable => w
        case Absent =>
          if !MayRequest(env, path, planFile, authorityFile, now) then w
          else
            var body := BodyOf(env, planFile, authorityFile, Requested, None, None);
            World(Present(Sealed(body.value)), w.issued, Due(planFile, authorityFile, now))
        case Present(state) =>
          var body := Reconciled(env, planFile, authorityFile, state, post);
          if body.None? then w else w.(disk := Present(Sealed(body.value))))
    case Run(result) =>
      if !w.process.Due? then w
      else
        var p := w.process;
        World(w.disk, w.issued + [Command(p.planFile, p.authorityFile, p.now, w.disk)], Ran(p.planFile, p.authorityFile, result))
    case Raise =>
      if !w.process.Due? then w
      else
        var p := w.process;
        World(w.disk, w.issued + [Command(p.planFile, p.authorityFile, p.now, w.disk)], Idle)
    case Record =>
      if !w.process.Ran? then w
      else
        var p := w.process;
        var body := BodyOf(env, p.planFile, p.authorityFile, PhaseOf(p.result), Some(ReceiptOf(p.result)), None);
        World(if body.Success? then Present(Sealed(body.value)) else w.disk, w.issued, Idle)
    case Crash => w.(process := Idle)
  }

  function Replay(env: Env, path: string, disk: Disk, moves: seq<Move>): World {
    if moves == [] then World(disk, [], Idle)
    else After(env, path, Replay(env, path, disk, moves[..|moves| - 1]), moves[|moves| - 1])
  }
}
