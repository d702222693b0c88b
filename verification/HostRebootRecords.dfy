/**
 What the reboot's documents say, field by field, and which documents its readers accept
 (tools/hk_v1_host_reboot.py:165-560).
 */
module HostRebootRecords {
  import opened Wrappers
  import opened Text
  import opened HostReboot

  const LETTERS := "abcdefghijklmnopqrstuvwxyz"

  /** A letter, and 2 to 127 letters, digits, dots, underscores or hyphens. */
  predicate Subject(text: string) {
    && 2 < |text| < 129
    && text[0] in LETTERS
    && forall c | c in text[1..] :: c in LETTERS || c in "0123456789" || c in "._-"
  }

  /** A tag and 48 lower-case hexadecimal digits. */
  predicate Tagged(text: string, tag: string) {
    && |text| == |tag| + 48 && text[..|tag|] == tag
    && forall c | c in text[|tag|..] :: c in "0123456789abcdef"
  }

  lemma TaggedIs(text: string, tag: string)
    ensures IsTagged(text, tag, 48) <==> Tagged(text, tag)
  {
    HexDigits();
    if |text| == |tag| + 48 {
      assert forall i | 0 <= i < 48 :: text[|tag|..][i] == text[|tag| + i];
    }
  }

  lemma Letters()
    ensures forall c: char :: c in LETTERS <==> 'a' <= c <= 'z'
  {
    assert LETTERS == "abcdefghijklm" + "nopqrstuvwxyz";
    assert forall c: char :: c in "abcdefghijklm" <==> 'a' <= c <= 'm';
    assert forall c: char :: c in "nopqrstuvwxyz" <==> 'n' <= c <= 'z';
  }

  lemma Digits()
    ensures forall c: char :: c in "0123456789" <==> '0' <= c <= '9'
  {
  }

  lemma SubjectIs(text: string)
    ensures IsSubject(text) <==> Subject(text)
  {
    hide IsSubject;
    Letters();
    Digits();
    Marks();
    if 2 < |text| {
      var rest := text[1..];
      assert forall i | 1 <= i < |text| :: rest[i - 1] == text[i];
      assert IsSubject(text) <==> |text| <= 128 && 'a' <= text[0] <= 'z' && forall i | 1 <= i < |text| :: InSubject(text[i]) by {
        SubjectSpells(text);
      }
      forall c ensures InSubject(c) <==> c in LETTERS || c in "0123456789" || c in "._-" {
      }
    } else {
      ShortIsNoSubject(text);
    }
  }

  predicate InSubject(c: char) {
    'a' <= c <= 'z' || '0' <= c <= '9' || c in {'.', '_', '-'}
  }

  lemma SubjectSpells(text: string)
    requires 2 < |text|
    ensures IsSubject(text) <==> |text| <= 128 && 'a' <= text[0] <= 'z' && forall i | 1 <= i < |text| :: InSubject(text[i])
  {
  }

  lemma ShortIsNoSubject(text: string)
    requires |text| <= 2
    ensures !IsSubject(text)
  {
  }

  lemma Marks()
    ensures forall c: char :: c in "._-" <==> c in {'.', '_', '-'}
  {
  }

  // ----- plans -------------------------------------------------------------------------

  /** The facts before the boot are the host's own, and the two paths are safe and different. */
  predicate PlanHolds(env: Env, plan: Plan) {
    && (plan.operationId.Derived? || Tagged(plan.operationId.text, "rbt_"))
    && env.host(plan.preFacts) == Some(Host(plan.preBoot, plan.preSemantic))
    && env.safe(plan.postPath) && env.safe(plan.statePath) && plan.postPath != plan.statePath
  }

  predicate PlanDelivered(env: Env, file: PlanFile) {
    file.seal == PlanSha256(file.plan) && PlanHolds(env, file.plan) && env.size(OfPlan(file)) <= 10_000_000
  }

  /** A plan file is read exactly when it is sealed, true of its own facts, and fits. */
  lemma PlanReads(env: Env, file: PlanFile)
    ensures ParsePlan(env, file) == (if PlanDelivered(env, file) then Success(file.plan) else Failure(PlanInvalid))
  {
    if file.plan.operationId.OtherId? {
      TaggedIs(file.plan.operationId.text, "rbt_");
    }
  }

  /** What the planner builds holds, names its arguments, and is read back exactly when it fits. */
  lemma PlanBuilds(env: Env, preFacts: string, postPath: string, statePath: string)
    ensures BuildPlan(env, preFacts, postPath, statePath).Success?
       <==> env.host(preFacts).Some? && env.safe(postPath) && env.safe(statePath) && postPath != statePath
    ensures BuildPlan(env, preFacts, postPath, statePath).Success? ==>
              var plan := BuildPlan(env, preFacts, postPath, statePath).value;
              && PlanHolds(env, plan) && plan.preFacts == preFacts && plan.postPath == postPath && plan.statePath == statePath
              && plan.operationId == Derived(plan.preSemantic, postPath, statePath)
              && (ParsePlan(env, PlanBytes(plan)) == Success(plan) <==> env.size(OfPlan(PlanBytes(plan))) <= 10_000_000)
  {
    hide ParsePlan;
    if BuildPlan(env, preFacts, postPath, statePath).Success? {
      PlanReads(env, PlanBytes(BuildPlan(env, preFacts, postPath, statePath).value));
    }
  }

  // ----- authorities -------------------------------------------------------------------

  /** An authority for the plan, with its times as they are spelt. */
  function AuthorityFor(plan: Plan, authorityId: string, subject: string, authorizedAt: TimeText, expiresAt: TimeText): AuthorityFile {
    var body := AuthorityBody(authorityId, subject, authorizedAt, expiresAt,
                              plan.operationId, PlanSha256(plan), plan.preBoot, plan.postPath, plan.statePath);
    AuthorityFile(body, AuthoritySha256(body))
  }

  /** Nothing but this plan's own reboot, by a named subject, for a window that is not empty. */
  predicate AuthorityDelivered(env: Env, file: AuthorityFile, plan: Plan) {
    var body := file.body;
    && file == AuthorityFor(plan, body.authorityId, body.subject, body.authorizedAt, body.expiresAt)
    && Tagged(body.authorityId, "auth_") && Subject(body.subject)
    && body.authorizedAt.Iso? && body.expiresAt.Iso? && body.authorizedAt.instant < body.expiresAt.instant
    && env.size(OfAuthority(file)) <= 10_000_000
  }

  lemma AuthorityReads(env: Env, file: AuthorityFile, plan: Plan)
    ensures ParseAuthority(env, file, plan).Success? <==> AuthorityDelivered(env, file, plan)
    ensures AuthorityDelivered(env, file, plan) ==>
              ParseAuthority(env, file, plan).value
              == Authority(file.body.authorityId, file.body.subject, file.body.authorizedAt.instant, file.body.expiresAt.instant, file.seal)
    ensures !AuthorityDelivered(env, file, plan) ==> ParseAuthority(env, file, plan) == Failure(AuthorityInvalid)
  {
    hide IsTagged, IsSubject, Tagged, Subject;
    TaggedIs(file.body.authorityId, "auth_");
    SubjectIs(file.body.subject);
  }

  /** The builder writes the authority it is asked for, its times in UTC, or refuses. */
  lemma AuthorityBuilds(plan: Plan, authorityId: string, subject: string, authorizedAt: int, expiresAt: int)
    ensures BuildAuthority(plan, authorityId, subject, authorizedAt, expiresAt)
         == if Tagged(authorityId, "auth_") && Subject(subject) && authorizedAt < expiresAt
            then Success(AuthorityFor(plan, authorityId, subject, Iso(authorizedAt, 0), Iso(expiresAt, 0))) else Failure(AuthorityInvalid)
  {
    hide IsTagged, IsSubject, Tagged, Subject;
    TaggedIs(authorityId, "auth_");
    SubjectIs(subject);
  }

  // ----- states ------------------------------------------------------------------------

  /** A state under these two documents, with the facts after the boot where there are any. */
  function StateFor(planFile: PlanFile, authorityFile: AuthorityFile, phase: Phase, receipt: Option<Receipt>,
                    post: Option<string>, seen: Option<Host>): StateFile {
    var plan := planFile.plan;
    var body := StateBody(
      plan.operationId, phase, phase == Completed, PlanSha256(plan), planFile,
      authorityFile.seal, authorityFile.body.authorityId, authorityFile, plan.preBoot,
      (match seen case None => None case Some(host) => Some(host.boot)),
      (match seen case None => None case Some(host) => Some(host.semantic)),
      post, receipt);
    StateFile(body, StateSha256(body))
  }

  /** The receipt that each phase must carry, and the facts that a completed one must. */
  predicate Tells(env: Env, plan: Plan, phase: Phase, receipt: Option<Receipt>, post: Option<string>) {
    match phase
    case Requested => receipt == None && post == None
    case AwaitingReboot => receipt.Some? && (receipt.value.CommandReturned? || receipt.value.AdoptedFromChangedBoot?) && post == None
    case Failed => receipt.Some? && (receipt.value.CommandReturned? || receipt.value.AdoptedFromChangedBoot?) && post == None
    case Completed =>
      && receipt.Some? && (receipt.value.CommandReturned? || receipt.value.AdoptedFromChangedBoot?)
      && post.Some? && env.host(post.value).Some? && env.host(post.value).value.boot != plan.preBoot
    case OtherPhase => false
  }

  function Seen(env: Env, post: Option<string>): Option<Host> {
    match post case None => None case Some(facts) => env.host(facts)
  }

  /** What a writer under two accepted documents puts down. */
  lemma BodyIs(env: Env, planFile: PlanFile, authorityFile: AuthorityFile, phase: Phase, receipt: Option<Receipt>, post: Option<string>)
    requires PlanDelivered(env, planFile) && AuthorityDelivered(env, authorityFile, planFile.plan)
    requires post.Some? ==> env.host(post.value).Some?
    ensures BodyOf(env, planFile, authorityFile, phase, receipt, post).Success?
    ensures Sealed(BodyOf(env, planFile, authorityFile, phase, receipt, post).value)
         == StateFor(planFile, authorityFile, phase, receipt, post, Seen(env, post))
  {
    hide ParsePlan, ParseAuthority, PlanDelivered, AuthorityDelivered;
    PlanReads(env, planFile);
    AuthorityReads(env, authorityFile, planFile.plan);
  }

  /**
   The state, if it is read under these documents, is one that they were written into: with the plan file itself,
   the authority as its builder would spell it, and the fingerprint of the authority as it is spelt.
   */
  predicate StateDelivered(env: Env, file: StateFile, planFile: PlanFile, authorityFile: AuthorityFile) {
    var body, own := file.body, authorityFile.body;
    && env.size(OfState(file)) <= 10_000_000
    && Tells(env, planFile.plan, body.phase, body.receipt, body.postFacts)
    && own.authorizedAt.Iso? && own.expiresAt.Iso?
    && var canonical := AuthorityFor(planFile.plan, own.authorityId, own.subject, Iso(own.authorizedAt.instant, 0), Iso(own.expiresAt.instant, 0));
       var written := StateFor(planFile, canonical, body.phase, body.receipt, body.postFacts, Seen(env, body.postFacts)).body;
       && body == written.(authoritySeal := authorityFile.seal)
       && file.seal == StateSha256(body)
  }

  lemma StateReads(env: Env, file: StateFile, planFile: PlanFile, authorityFile: AuthorityFile)
    requires PlanDelivered(env, planFile) && AuthorityDelivered(env, authorityFile, planFile.plan)
    ensures var authority := ParseAuthority(env, authorityFile, planFile.plan);
            && authority.Success?
            && ParseState(env, file, planFile.plan, authority.value)
               == if StateDelivered(env, file, planFile, authorityFile) then Success(file.body) else Failure(StateInvalid)
  {
    hide ParseAuthority, BuildAuthority, PlanDelivered, ValidReceipt, ValidPostFacts, Tells, Seen;
    AuthorityReads(env, authorityFile, planFile.plan);
    var own, plan := authorityFile.body, planFile.plan;
    AuthorityBuilds(plan, own.authorityId, own.subject, own.authorizedAt.instant, own.expiresAt.instant);
    PlanIsBytes(env, planFile);
    if file.body.phase != OtherPhase {
      TellsIs(env, plan, file.body);
    } else {
      OtherTellsNothing(env, plan, file.body);
    }
  }

  lemma PlanIsBytes(env: Env, planFile: PlanFile)
    requires PlanDelivered(env, planFile)
    ensures planFile == PlanBytes(planFile.plan)
  {
  }

  lemma OtherTellsNothing(env: Env, plan: Plan, body: StateBody)
    requires body.phase == OtherPhase
    ensures !Tells(env, plan, body.phase, body.receipt, body.postFacts)
  {
  }

  lemma TellsIs(env: Env, plan: Plan, body: StateBody)
    requires body.phase != OtherPhase
    ensures ValidReceipt(body.receipt, body.phase) && ValidPostFacts(env, body, plan)
       <==> && Tells(env, plan, body.phase, body.receipt, body.postFacts)
            && var seen := Seen(env, body.postFacts);
               && body.postBoot == (match seen case None => None case Some(host) => Some(host.boot))
               && body.postSemantic == (match seen case None => None case Some(host) => Some(host.semantic))
  {
  }

  // ----- permission --------------------------------------------------------------------

  /** The documents name this path, this plan and a window that is open now. */
  predicate Permits(env: Env, path: string, planFile: PlanFile, authorityFile: AuthorityFile, now: int) {
    && PlanDelivered(env, planFile) && planFile.plan.statePath == path
    && AuthorityDelivered(env, authorityFile, planFile.plan)
    && authorityFile.body.authorizedAt.instant <= now && now <= authorityFile.body.expiresAt.instant
  }

  lemma PermitsIs(env: Env, path: string, planFile: PlanFile, authorityFile: AuthorityFile, now: int)
    ensures MayRequest(env, path, planFile, authorityFile, now) <==> Permits(env, path, planFile, authorityFile, now)
  {
    hide ParsePlan, ParseAuthority, PlanDelivered, AuthorityFor, Tagged, Subject;
    PlanReads(env, planFile);
    AuthorityReads(env, authorityFile, planFile.plan);
  }

  lemma NamesIs(env: Env, path: string, planFile: PlanFile)
    ensures Names(env, path, planFile) <==> PlanDelivered(env, planFile) && planFile.plan.statePath == path
  {
    hide ParsePlan, PlanDelivered;
    PlanReads(env, planFile);
  }

  predicate Granted(env: Env, path: string, planFile: PlanFile, authorityFile: AuthorityFile) {
    && PlanDelivered(env, planFile) && planFile.plan.statePath == path && AuthorityDelivered(env, authorityFile, planFile.plan)
  }

  // ----- completion --------------------------------------------------------------------

  /** A state under these documents whose reboot is not yet known to have happened or failed. */
  predicate OpenFor(env: Env, state: StateFile, planFile: PlanFile, authorityFile: AuthorityFile) {
    StateDelivered(env, state, planFile, authorityFile) && (state.body.phase == Requested || state.body.phase == AwaitingReboot)
  }

  /** The facts found after the command are of another boot than the plan's. */
  predicate Rebooted(env: Env, planFile: PlanFile, post: Option<string>) {
    post.Some? && env.host(post.value).Some? && env.host(post.value).value.boot != planFile.plan.preBoot
  }

  /** The state completed by such facts: its receipt is kept, or adopted where the command left none. */
  function CompletedBy(env: Env, state: StateFile, planFile: PlanFile, authorityFile: AuthorityFile, post: string): StateFile {
    StateFor(planFile, authorityFile, Completed,
             Some(match state.body.receipt case None => AdoptedFromChangedBoot case Some(receipt) => receipt),
             Some(post), env.host(post))
  }

  /** An invocation completes exactly an open state of its own documents, and by changed facts alone. */
  lemma ReconciledIs(env: Env, planFile: PlanFile, authorityFile: AuthorityFile, state: StateFile, post: Option<string>)
    requires PlanDelivered(env, planFile) && AuthorityDelivered(env, authorityFile, planFile.plan)
    ensures var body := Reconciled(env, planFile, authorityFile, state, post);
            && (body.Some? <==> OpenFor(env, state, planFile, authorityFile) && Rebooted(env, planFile, post))
            && (body.Some? ==> Sealed(body.value) == CompletedBy(env, state, planFile, authorityFile, post.value))
  {
    hide ParsePlan, ParseAuthority, ParseState, PlanDelivered, AuthorityDelivered, StateDelivered, BodyOf, Sealed, StateFor;
    PlanReads(env, planFile);
    AuthorityReads(env, authorityFile, planFile.plan);
    StateReads(env, state, planFile, authorityFile);
    DeliveredPhase(env, state, planFile, authorityFile);
    if Rebooted(env, planFile, post) {
      BodyIs(env, planFile, authorityFile, Completed,
             Some(match state.body.receipt case None => AdoptedFromChangedBoot case Some(receipt) => receipt), post);
    }
  }

  lemma DeliveredPhase(env: Env, state: StateFile, planFile: PlanFile, authorityFile: AuthorityFile)
    ensures StateDelivered(env, state, planFile, authorityFile) ==> state.body.phase != OtherPhase
  {
  }

  // ----- receipts ----------------------------------------------------------------------

  /** What is kept of an output: all of it, or its last 100000 characters. */
  predicate KeptOf(kept: string, text: string) {
    && |kept| == (if |text| < 100_000 then |text| else 100_000)
    && kept == text[|text| - |kept|..]
  }

  /** The receipt of a command that returned: its code, its output and its error output, each in its own place. */
  predicate ReceiptFor(receipt: Receipt, result: CommandResult) {
    && receipt.CommandReturned? && receipt.returncode == result.returncode
    && KeptOf(receipt.stdout.text, result.stdout) && KeptOf(receipt.stderr.text, result.stderr)
  }

  lemma ReceiptIs(result: CommandResult)
    ensures ReceiptFor(ReceiptOf(result), result)
  {
  }
}
