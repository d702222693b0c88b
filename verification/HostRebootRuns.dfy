/** What every history of one reboot state path keeps, and the method that makes such histories. */
module HostRebootRuns {
  import opened Wrappers
  import opened Text
  import opened HostReboot
  import opened HostRebootRecords

  // ----- documents ---------------------------------------------------------------------

  /** Building again from what was parsed gives the same bytes exactly when its times are spelt as the builder does. */
  lemma RebuiltExactlyWhenCanonical(env: Env, file: AuthorityFile, plan: Plan)
    requires ParseAuthority(env, file, plan).Success?
    ensures var a := ParseAuthority(env, file, plan).value;
            BuildAuthority(plan, a.authorityId, a.subject, a.authorizedAt, a.expiresAt) == Success(file) <==> Canonical(file)
  {
  }

  /**
   An accepted state carries the very plan that it was read under, and a canonical authority. Where
   the fingerprint it names is that authority's own, it is the authority that it was read under.
   */
  lemma StateNamesItsDocuments(env: Env, state: StateFile, planFile: PlanFile, authorityFile: AuthorityFile)
    requires ParsePlan(env, planFile).Success?
    requires ParseAuthority(env, authorityFile, planFile.plan).Success?
    requires ParseState(env, state, planFile.plan, ParseAuthority(env, authorityFile, planFile.plan).value).Success?
    ensures state.body.planFile == planFile && state.body.authoritySeal == authorityFile.seal
    ensures Canonical(state.body.authorityFile)
    ensures state.body.authoritySeal == state.body.authorityFile.seal ==> state.body.authorityFile == authorityFile
  {
    RebuiltExactlyWhenCanonical(env, authorityFile, planFile.plan);
  }

  // ----- the invariant -----------------------------------------------------------------

  /** A file at the state path that an invocation naming this path wrote. */
  predicate Written(env: Env, path: string, state: StateFile) {
    var body := state.body;
    && state == Sealed(body)
    && Names(env, path, body.planFile)
    && ParseAuthority(env, body.authorityFile, body.planFile.plan).Success?
    && BodyOf(env, body.planFile, body.authorityFile, body.phase, body.receipt, body.postFacts) == Success(body)
    && match body.phase
       case Requested => body.receipt.None? && body.postFacts.None?
       case AwaitingReboot =>
         body.receipt.Some? && body.receipt.value.CommandReturned? && body.receipt.value.returncode == 0 && body.postFacts.None?
       case Failed =>
         body.receipt.Some? && body.receipt.value.CommandReturned? && body.receipt.value.returncode != 0 && body.postFacts.None?
       case Completed =>
         && body.receipt.Some?
         && (body.receipt.value.AdoptedFromChangedBoot?
             || (body.receipt.value.CommandReturned? && body.receipt.value.returncode == 0))
         && body.postFacts.Some? && env.host(body.postFacts.value).Some?
         && env.host(body.postFacts.value).value.boot != body.planFile.plan.preBoot
       case OtherPhase => false
  }

  predicate RequestedBy(env: Env, path: string, disk: Disk, planFile: PlanFile, authorityFile: AuthorityFile) {
    && disk.Present? && Written(env, path, disk.state) && disk.state.body.phase == Requested
    && disk.state.body.planFile == planFile && disk.state.body.authorityFile == authorityFile
  }

  /** The command was issued inside its authority's window, with the request already durable. */
  predicate Proper(env: Env, path: string, c: Command) {
    && MayRequest(env, path, c.planFile, c.authorityFile, c.now)
    && RequestedBy(env, path, c.disk, c.planFile, c.authorityFile)
  }

  predicate Sound(env: Env, path: string, w: World) {
    && |w.issued| <= 1
    && (forall c | c in w.issued :: Proper(env, path, c))
    && (w.disk.Absent? ==> w.issued == [] && w.process.Idle?)
    && (w.disk.Present? ==> Written(env, path, w.disk.state))
    && (w.process.Due? ==>
          && w.issued == []
          && RequestedBy(env, path, w.disk, w.process.planFile, w.process.authorityFile)
          && MayRequest(env, path, w.process.planFile, w.process.authorityFile, w.process.now))
    && (w.process.Ran? ==> RequestedBy(env, path, w.disk, w.process.planFile, w.process.authorityFile))
    && !w.disk.Unreadable?
  }

  lemma RequestIsWritten(env: Env, path: string, planFile: PlanFile, authorityFile: AuthorityFile, now: int)
    requires MayRequest(env, path, planFile, authorityFile, now)
    ensures var body := BodyOf(env, planFile, authorityFile, Requested, None, None);
            body.Success? && RequestedBy(env, path, Present(Sealed(body.value)), planFile, authorityFile)
  {
  }

  lemma ResultIsWritten(env: Env, path: string, disk: Disk, planFile: PlanFile, authorityFile: AuthorityFile, result: CommandResult)
    requires RequestedBy(env, path, disk, planFile, authorityFile)
    ensures var body := BodyOf(env, planFile, authorityFile, PhaseOf(result), Some(ReceiptOf(result)), None);
            && body.Success? && Written(env, path, Sealed(body.value)) && body.value.phase == PhaseOf(result)
            && body.value.planFile == planFile && body.value.authorityFile == authorityFile
  {
  }

  lemma ReconciledIsWritten(env: Env, path: string, planFile: PlanFile, authorityFile: AuthorityFile, state: StateFile, post: Option<string>)
    requires Names(env, path, planFile) && Written(env, path, state)
    requires Reconciled(env, planFile, authorityFile, state, post).Some?
    ensures var body := Reconciled(env, planFile, authorityFile, state, post).value;
            && Written(env, path, Sealed(body)) && body.phase == Completed && state.body.phase in {Requested, AwaitingReboot}
            && body.planFile == state.body.planFile && body.authorityFile == state.body.authorityFile
  {
    StateNamesItsDocuments(env, state, planFile, authorityFile);
  }

  lemma StepKeepsSound(env: Env, path: string, w: World, move: Move)
    requires Sound(env, path, w)
    ensures Sound(env, path, After(env, path, w, move))
  {
    match move
    case Begin(planFile, authorityFile, now, post) =>
      if w.process.Idle? && Names(env, path, planFile) {
        if w.disk.Absent? && MayRequest(env, path, planFile, authorityFile, now) {
          RequestIsWritten(env, path, planFile, authorityFile, now);
        } else if w.disk.Present? && Reconciled(env, planFile, authorityFile, w.disk.state, post).Some? {
          ReconciledIsWritten(env, path, planFile, authorityFile, w.disk.state, post);
        }
      }
    case Record =>
      if w.process.Ran? {
        ResultIsWritten(env, path, w.disk, w.process.planFile, w.process.authorityFile, w.process.result);
      }
    case Run(_) =>
    case Raise =>
    case Crash =>
  }

  lemma {:induction false} EveryWorldIsSound(env: Env, path: string, moves: seq<Move>)
    ensures Sound(env, path, Replay(env, path, Absent, moves))
  {
    if moves != [] {
      EveryWorldIsSound(env, path, moves[..|moves| - 1]);
      StepKeepsSound(env, path, Replay(env, path, Absent, moves[..|moves| - 1]), moves[|moves| - 1]);
    }
  }

  // ----- the theorems ------------------------------------------------------------------

  /** With something at the state path, no invocation issues a command. */
  lemma {:induction false} OccupiedPathIssuesNothing(env: Env, path: string, disk: Disk, moves: seq<Move>)
    requires !disk.Absent?
    ensures var w := Replay(env, path, disk, moves); w.issued == [] && w.process.Idle? && !w.disk.Absent?
  {
    if moves != [] {
      OccupiedPathIssuesNothing(env, path, disk, moves[..|moves| - 1]);
    }
  }

  lemma RequestIsFor(env: Env, path: string, c: Command)
    requires Proper(env, path, c)
    ensures Permits(env, path, c.planFile, c.authorityFile, c.now)
    ensures c.disk == Present(StateFor(c.planFile, c.authorityFile, Requested, None, None, None))
  {
    hide MayRequest, ParsePlan, ParseAuthority, AuthorityDelivered, PlanDelivered, BodyOf, Sealed, StateFor;
    PermitsIs(env, path, c.planFile, c.authorityFile, c.now);
    BodyIs(env, c.planFile, c.authorityFile, Requested, None, None);
  }

  /**
   Across all invocations, plans and authorities that name one state path, at most one command is issued: only
   where the path was free, only under a plan that is true of its facts and an authority for that very plan, only
   inside its window, and only with the request that names both already at the path.
   */
  lemma AtMostOneCommand(env: Env, path: string, disk: Disk, moves: seq<Move>)
    ensures var issued := Replay(env, path, disk, moves).issued;
            && |issued| <= (if disk.Absent? then 1 else 0)
            && forall c | c in issued ::
                 && c.planFile == PlanFile(c.planFile.plan, PlanSha256(c.planFile.plan)) && PlanHolds(env, c.planFile.plan)
                 && c.planFile.plan.statePath == path
                 && AuthorityDelivered(env, c.authorityFile, c.planFile.plan)
                 && c.authorityFile.body.authorizedAt.instant <= c.now <= c.authorityFile.body.expiresAt.instant
                 && c.disk == Present(StateFor(c.planFile, c.authorityFile, Requested, None, None, None))
  {
    hide AuthorityDelivered, StateFor, Proper, PlanHolds;
    if disk.Absent? {
      EveryWorldIsSound(env, path, moves);
      forall c | c in Replay(env, path, disk, moves).issued
        ensures Permits(env, path, c.planFile, c.authorityFile, c.now)
        ensures c.disk == Present(StateFor(c.planFile, c.authorityFile, Requested, None, None, None))
      {
        RequestIsFor(env, path, c);
      }
    } else {
      OccupiedPathIssuesNothing(env, path, disk, moves);
    }
  }

  /** An invocation whose plan is not read, or names another path, changes nothing here. */
  lemma StrangersChangeNothing(env: Env, path: string, w: World, planFile: PlanFile, authorityFile: AuthorityFile, now: int, post: Option<string>)
    requires !(PlanDelivered(env, planFile) && planFile.plan.statePath == path)
    ensures After(env, path, w, Begin(planFile, authorityFile, now, post)) == w
  {
    hide PlanDelivered, Names;
    NamesIs(env, path, planFile);
  }

  predicate Follows(before: Disk, after: Disk) {
    || before == after
    || (before.Absent? && after.Present? && after.state.body.phase == Requested)
    || (before.Present? && after.Present?
        && after.state.body.planFile == before.state.body.planFile
        && after.state.body.authorityFile == before.state.body.authorityFile
        && match before.state.body.phase
           case Requested =>
             || after.state.body.phase in {AwaitingReboot, Failed}
             || (after.state.body.phase == Completed && after.state.body.receipt == Some(AdoptedFromChangedBoot))
           case AwaitingReboot => after.state.body.phase == Completed && after.state.body.receipt == before.state.body.receipt
           case _ => false)
  }

  /** The phases only go from none to REQUESTED, on to AWAITING_REBOOT or FAILED, and from the first two to COMPLETE. */
  lemma PhasesFollow(env: Env, path: string, moves: seq<Move>, move: Move)
    ensures var w := Replay(env, path, Absent, moves); Follows(w.disk, After(env, path, w, move).disk)
  {
    EveryWorldIsSound(env, path, moves);
    var w := Replay(env, path, Absent, moves);
    match move
    case Begin(planFile, authorityFile, now, post) =>
      if w.process.Idle? && Names(env, path, planFile) {
        if w.disk.Absent? && MayRequest(env, path, planFile, authorityFile, now) {
          RequestIsWritten(env, path, planFile, authorityFile, now);
        } else if w.disk.Present? && Reconciled(env, planFile, authorityFile, w.disk.state, post).Some? {
          ReconciledIsWritten(env, path, planFile, authorityFile, w.disk.state, post);
        }
      }
    case Record =>
      if w.process.Ran? {
        ResultIsWritten(env, path, w.disk, w.process.planFile, w.process.authorityFile, w.process.result);
      }
    case Run(_) =>
    case Raise =>
    case Crash =>
  }

  /** What is recorded of a command that returned: its code decides the phase, and its outputs are kept apart. */
  lemma ReturnIsRecorded(env: Env, path: string, moves: seq<Move>)
    requires Replay(env, path, Absent, moves).process.Ran?
    ensures var p := Replay(env, path, Absent, moves).process;
            exists receipt ::
              && ReceiptFor(receipt, p.result)
              && After(env, path, Replay(env, path, Absent, moves), Record).disk
                 == Present(StateFor(p.planFile, p.authorityFile, if p.result.returncode == 0 then AwaitingReboot else Failed,
                                     Some(receipt), None, None))
  {
    EveryWorldIsSound(env, path, moves);
    var w := Replay(env, path, Absent, moves);
    RecordIs(env, path, w);
  }

  lemma RecordIs(env: Env, path: string, w: World)
    requires w.process.Ran? && RequestedBy(env, path, w.disk, w.process.planFile, w.process.authorityFile)
    ensures var p := w.process;
            && ReceiptFor(ReceiptOf(p.result), p.result)
            && After(env, path, w, Record).disk
               == Present(StateFor(p.planFile, p.authorityFile, if p.result.returncode == 0 then AwaitingReboot else Failed,
                                   Some(ReceiptOf(p.result)), None, None))
  {
    hide ParsePlan, ParseAuthority, AuthorityDelivered, PlanDelivered, BodyOf, Sealed, StateFor, ReceiptOf, ReceiptFor;
    var p := w.process;
    PlanReads(env, p.planFile);
    AuthorityReads(env, p.authorityFile, p.planFile.plan);
    NamesIs(env, path, p.planFile);
    ReceiptIs(p.result);
    BodyIs(env, p.planFile, p.authorityFile, PhaseOf(p.result), Some(ReceiptOf(p.result)), None);
  }

  /** A FAILED or COMPLETE file, whoever wrote it, is never replaced and no command follows it. */
  lemma {:induction false} TerminalIsAbsorbing(env: Env, path: string, state: StateFile, moves: seq<Move>)
    requires state.body.phase in {Failed, Completed}
    ensures Replay(env, path, Present(state), moves) == World(Present(state), [], Idle)
  {
    if moves != [] {
      TerminalIsAbsorbing(env, path, state, moves[..|moves| - 1]);
    }
  }

  /** A COMPLETE file holds post-boot facts of another boot than the plan's. */
  lemma {:induction false} CompleteMeansRebooted(env: Env, path: string, moves: seq<Move>)
    requires var disk := Replay(env, path, Absent, moves).disk; disk.Present? && disk.state.body.phase == Completed
    ensures var body := Replay(env, path, Absent, moves).disk.state.body;
            && body.postFacts.Some? && env.host(body.postFacts.value).Some?
            && body.postBoot == Some(env.host(body.postFacts.value).value.boot)
            && body.postBoot.value != body.planFile.plan.preBoot
  {
    EveryWorldIsSound(env, path, moves);
  }

  /** What it takes for a state to be read again: its authority's times are spelt as the builder spells them, and it fits. */
  predicate Rereadable(env: Env, state: StateFile) {
    Canonical(state.body.authorityFile) && env.Fits(OfState(state))
  }

  /** Reading a written file back under its own documents. */
  lemma WrittenReparses(env: Env, path: string, state: StateFile)
    requires Written(env, path, state)
    ensures var plan := state.body.planFile.plan;
            var authority := ParseAuthority(env, state.body.authorityFile, plan);
            && authority.Success?
            && (ParseState(env, state, plan, authority.value) == Success(state.body) <==> Rereadable(env, state))
            && (ParseState(env, state, plan, authority.value).Failure? <==> !Rereadable(env, state))
  {
    RebuiltExactlyWhenCanonical(env, state.body.authorityFile, state.body.planFile.plan);
  }

  /** Every file ever written parses again exactly when its authority's times are canonical and it fits. */
  lemma {:induction false} WrittenStatesReparse(env: Env, path: string, moves: seq<Move>)
    requires Replay(env, path, Absent, moves).disk.Present?
    ensures var state := Replay(env, path, Absent, moves).disk.state;
            var authority := ParseAuthority(env, state.body.authorityFile, state.body.planFile.plan);
            && ParsePlan(env, state.body.planFile) == Success(state.body.planFile.plan)
            && authority.Success?
            && (ParseState(env, state, state.body.planFile.plan, authority.value) == Success(state.body) <==> Rereadable(env, state))
  {
    EveryWorldIsSound(env, path, moves);
    WrittenReparses(env, path, Replay(env, path, Absent, moves).disk.state);
  }

  /** With a file that cannot be read again at rest at the path, no move by any plan or authority changes the world. */
  lemma UnreadStays(env: Env, path: string, w: World, move: Move)
    requires w.disk.Present? && !Rereadable(env, w.disk.state) && w.process.Idle?
    ensures After(env, path, w, move) == w
  {
    if move.Begin? && Names(env, path, move.planFile)
       && Reconciled(env, move.planFile, move.authorityFile, w.disk.state, move.post).Some? {
      StateNamesItsDocuments(env, w.disk.state, move.planFile, move.authorityFile);
    }
  }

  /** Whatever led to such a file, every extension of the history keeps it: the reboot it asked for stays open. */
  lemma {:induction false} UnreadStatesStayOpen(env: Env, path: string, disk: Disk, moves: seq<Move>, later: seq<Move>)
    requires var w := Replay(env, path, disk, moves);
             w.disk.Present? && !Rereadable(env, w.disk.state) && w.process.Idle?
    ensures Replay(env, path, disk, moves + later) == Replay(env, path, disk, moves)
  {
    hide Rereadable;
    if later == [] {
      assert moves + later == moves;
    } else {
      var most, last := later[..|later| - 1], later[|later| - 1];
      UnreadStatesStayOpen(env, path, disk, moves, most);
      assert moves + later == (moves + most) + [last];
      OneMore(env, path, disk, moves + most, last);
      UnreadStays(env, path, Replay(env, path, disk, moves + most), last);
    }
  }

  /** An invocation that finds the path free and is not disturbed. */
  function Undisturbed(planFile: PlanFile, authorityFile: AuthorityFile, now: int, result: CommandResult): seq<Move> {
    [Begin(planFile, authorityFile, now, None), Run(result), Record]
  }

  lemma UndisturbedLeads(env: Env, path: string, planFile: PlanFile, authorityFile: AuthorityFile, now: int, result: CommandResult)
    requires MayRequest(env, path, planFile, authorityFile, now)
    ensures var w := Replay(env, path, Absent, Undisturbed(planFile, authorityFile, now, result));
            && w.disk.Present? && w.process.Idle? && |w.issued| == 1
            && Written(env, path, w.disk.state) && w.disk.state.body.phase == PhaseOf(result)
            && w.disk.state.body.planFile == planFile && w.disk.state.body.authorityFile == authorityFile
  {
    hide ParsePlan, ParseAuthority, BodyOf, MayRequest, Written, Replay;
    var moves := Undisturbed(planFile, authorityFile, now, result);
    RequestIsWritten(env, path, planFile, authorityFile, now);
    var requested := Present(Sealed(BodyOf(env, planFile, authorityFile, Requested, None, None).value));
    ResultIsWritten(env, path, requested, planFile, authorityFile, result);
    RequestBegins(env, path, planFile, authorityFile, now);
    assert moves == [] + [moves[0]] + [Run(result)] + [Record];
    NothingReplayed(env, path, Absent);
    OneMore(env, path, Absent, [], moves[0]);
    OneMore(env, path, Absent, [] + [moves[0]], Run(result));
    OneMore(env, path, Absent, [] + [moves[0]] + [Run(result)], Record);
  }

  lemma RequestBegins(env: Env, path: string, planFile: PlanFile, authorityFile: AuthorityFile, now: int)
    requires MayRequest(env, path, planFile, authorityFile, now)
    ensures var body := BodyOf(env, planFile, authorityFile, Requested, None, None);
            && body.Success?
            && After(env, path, World(Absent, [], Idle), Begin(planFile, authorityFile, now, None))
               == World(Present(Sealed(body.value)), [], Due(planFile, authorityFile, now))
  {
    RequestIsWritten(env, path, planFile, authorityFile, now);
  }

  lemma NothingReplayed(env: Env, path: string, disk: Disk)
    ensures Replay(env, path, disk, []) == World(disk, [], Idle)
  {
  }

  /**
   Every authority that may request a reboot is accepted once: its command is issued and its result
   recorded. Exactly where the recorded state cannot be read again, because a time is spelt otherwise or
   the state has outgrown the bound, it fails to parse under its own documents; and then it never changes.
   */
  lemma UnreadRequestsStayOpen(
    env: Env, path: string, planFile: PlanFile, authorityFile: AuthorityFile, now: int, result: CommandResult, later: seq<Move>)
    requires MayRequest(env, path, planFile, authorityFile, now)
    ensures var moves := Undisturbed(planFile, authorityFile, now, result);
            var w := Replay(env, path, Absent, moves);
            && w.disk.Present? && |w.issued| == 1
            && w.disk.state.body.phase == PhaseOf(result)
            && w.disk.state.body.planFile == planFile && w.disk.state.body.authorityFile == authorityFile
            && (ParseState(env, w.disk.state, planFile.plan, ParseAuthority(env, authorityFile, planFile.plan).value).Failure?
                <==> !Rereadable(env, w.disk.state))
            && (!Rereadable(env, w.disk.state) ==> Replay(env, path, Absent, moves + later) == w)
  {
    hide ParsePlan, ParseState, BodyOf, Written, Replay, Undisturbed, After;
    UndisturbedLeads(env, path, planFile, authorityFile, now, result);
    var state := Replay(env, path, Absent, Undisturbed(planFile, authorityFile, now, result)).disk.state;
    WrittenReparses(env, path, state);
    if !Rereadable(env, state) {
      UnreadStatesStayOpen(env, path, Absent, Undisturbed(planFile, authorityFile, now, result), later);
    }
  }

  /** Such authorities and such states exist: some world lets one be requested and cannot read what it records. */
  lemma SomeRequestStaysOpen(path: string, other: string, result: CommandResult, oversized: bool)
    returns (env: Env, planFile: PlanFile, authorityFile: AuthorityFile)
    requires path != other
    ensures MayRequest(env, path, planFile, authorityFile, 0)
    ensures var disk := Replay(env, path, Absent, Undisturbed(planFile, authorityFile, 0, result)).disk;
            && disk.Present? && !Rereadable(env, disk.state)
            && Canonical(authorityFile) == oversized && env.Fits(OfState(disk.state)) == !oversized
  {
    env := Env(_ => Some(Host("", "")), _ => true, (document: Document) => if oversized && document.OfState? then MAX_BYTES + 1 else 0);
    var plan := Plan(Derived("", other, path), "", "", "", other, path);
    planFile := PlanBytes(plan);
    var digits := seq(48, _ => '0');
    var body := AuthorityBody("auth_" + digits, "abc", Iso(0, if oversized then 0 else 1), Iso(1, 0),
                              plan.operationId, PlanSha256(plan), "", other, path);
    authorityFile := AuthorityFile(body, AuthoritySha256(body));
    assert IsTagged(body.authorityId, "auth_", 48);
    assert IsSubject("abc");
    UndisturbedLeads(env, path, planFile, authorityFile, 0, result);
  }

  /** A completed reboot reads back, for its own post-boot facts and no others, as two different boots. */
  lemma {:induction false} CompleteReadsBack(env: Env, path: string, moves: seq<Move>, expectedPost: string)
    requires var disk := Replay(env, path, Absent, moves).disk;
             disk.Present? && disk.state.body.phase == Completed && Rereadable(env, disk.state)
    ensures var state := Replay(env, path, Absent, moves).disk.state;
            var plan, readback := state.body.planFile.plan, ReadbackDetails(env, state, expectedPost);
            && (readback.Success? <==> state.body.postFacts == Some(expectedPost))
            && (readback.Success? ==>
                  && env.host(expectedPost).Some? && env.host(expectedPost).value.boot != plan.preBoot
                  && readback.value == Readback(plan.operationId, plan.preBoot, env.host(expectedPost).value.boot,
                                                plan.preSemantic, env.host(expectedPost).value.semantic, state.seal))
  {
    EveryWorldIsSound(env, path, moves);
    WrittenReparses(env, path, Replay(env, path, Absent, moves).disk.state);
  }

  /** Whatever bytes are offered, an accepted readback tells of two different boots. */
  lemma ReadbackMeansRebooted(env: Env, file: StateFile, expectedPost: string)
    requires ReadbackDetails(env, file, expectedPost).Success?
    ensures var r := ReadbackDetails(env, file, expectedPost).value;
            && r.preBoot != r.postBoot
            && env.host(expectedPost) == Some(Host(r.postBoot, r.postSemantic))
            && env.host(file.body.planFile.plan.preFacts) == Some(Host(r.preBoot, r.preSemantic))
  {
  }

  /** A state that was written under a canonical authority, and fits, is found open as it was left. */
  lemma WrittenIsOpen(env: Env, planFile: PlanFile, authorityFile: AuthorityFile, phase: Phase, receipt: Option<Receipt>)
    requires PlanDelivered(env, planFile) && AuthorityDelivered(env, authorityFile, planFile.plan) && Canonical(authorityFile)
    requires (phase == Requested && receipt == None) || (phase == AwaitingReboot && receipt.Some? && receipt.value.CommandReturned?)
    requires env.size(OfState(StateFor(planFile, authorityFile, phase, receipt, None, None))) <= 10_000_000
    ensures OpenFor(env, StateFor(planFile, authorityFile, phase, receipt, None, None), planFile, authorityFile)
  {
    hide PlanDelivered, Tagged, Subject;
    var own := authorityFile.body;
    assert authorityFile == AuthorityFor(planFile.plan, own.authorityId, own.subject, Iso(own.authorizedAt.instant, 0), Iso(own.expiresAt.instant, 0));
  }

  /**
   An undisturbed reboot is completed by any later invocation that finds facts of another boot, even one that comes
   after the window: with the receipt of its own command, or an adopted one where no result of it was recorded.
   */
  lemma RebootCompletes(env: Env, path: string, planFile: PlanFile, authorityFile: AuthorityFile, now: int, result: Option<CommandResult>,
                        later: int, post: string)
    requires Permits(env, path, planFile, authorityFile, now) && Canonical(authorityFile)
    requires result.Some? ==> result.value.returncode == 0
    requires Rebooted(env, planFile, Some(post))
    requires forall phase, receipt :: env.size(OfState(StateFor(planFile, authorityFile, phase, receipt, None, None))) <= 10_000_000
    ensures var moves := [Begin(planFile, authorityFile, now, None)]
                         + (if result.Some? then [Run(result.value), Record] else [Raise])
                         + [Begin(planFile, authorityFile, later, Some(post))];
            var receipt := if result.Some? then ReceiptOf(result.value) else AdoptedFromChangedBoot;
            Replay(env, path, Absent, moves).disk
            == Present(StateFor(planFile, authorityFile, Completed, Some(receipt), Some(post), env.host(post)))
  {
    hide ParsePlan, ParseAuthority, PlanDelivered, AuthorityDelivered, BodyOf, StateFor, Replay, MayRequest, Written, After, ReceiptOf, Rebooted;
    PermitsIs(env, path, planFile, authorityFile, now);
    RequestBegins(env, path, planFile, authorityFile, now);
    BodyIs(env, planFile, authorityFile, Requested, None, None);
    var requested := StateFor(planFile, authorityFile, Requested, None, None, None);
    var due := World(Present(requested), [], Due(planFile, authorityFile, now));
    RequestIsWritten(env, path, planFile, authorityFile, now);
    NothingReplayed(env, path, Absent);
    var begin, more, back := Begin(planFile, authorityFile, now, None), Begin(planFile, authorityFile, later, Some(post)), requested;
    OneMore(env, path, Absent, [], begin);
    assert [] + [begin] == [begin];
    var moves := [begin];
    if result.Some? {
      OneMore(env, path, Absent, moves, Run(result.value));
      RunLeads(env, path, due, result.value);
      moves := moves + [Run(result.value)];
      RecordIs(env, path, Replay(env, path, Absent, moves));
      OneMore(env, path, Absent, moves, Record);
      RecordEnds(env, path, Replay(env, path, Absent, moves));
      moves := moves + [Record];
      assert moves == [begin] + [Run(result.value), Record];
      ReceiptReturned(result.value);
      WrittenIsOpen(env, planFile, authorityFile, AwaitingReboot, Some(ReceiptOf(result.value)));
      StateSays(planFile, authorityFile, AwaitingReboot, Some(ReceiptOf(result.value)));
    } else {
      OneMore(env, path, Absent, moves, Raise);
      RaiseLeads(env, path, due);
      moves := moves + [Raise];
      WrittenIsOpen(env, planFile, authorityFile, Requested, None);
      StateSays(planFile, authorityFile, Requested, None);
    }
    CompletionStarts(env, path, Replay(env, path, Absent, moves), planFile, authorityFile, later, Some(post));
    OneMore(env, path, Absent, moves, more);
  }

  lemma RunLeads(env: Env, path: string, w: World, result: CommandResult)
    requires w.process.Due?
    ensures After(env, path, w, Run(result)).disk == w.disk
    ensures After(env, path, w, Run(result)).process == Ran(w.process.planFile, w.process.authorityFile, result)
  {
  }

  lemma RaiseLeads(env: Env, path: string, w: World)
    requires w.process.Due?
    ensures After(env, path, w, Raise).disk == w.disk && After(env, path, w, Raise).process == Idle
  {
  }

  lemma RecordEnds(env: Env, path: string, w: World)
    requires w.process.Ran?
    ensures After(env, path, w, Record).process == Idle
  {
  }

  // ----- the method --------------------------------------------------------------------

  lemma OneMore(env: Env, path: string, disk: Disk, moves: seq<Move>, move: Move)
    ensures Replay(env, path, disk, moves + [move]) == After(env, path, Replay(env, path, disk, moves), move)
  {
    assert (moves + [move])[..|moves|] == moves;
  }

  lemma CrashIs(env: Env, path: string, w: World)
    ensures After(env, path, w, Crash) == w.(process := Idle)
  {
  }

  lemma RequestStarts(env: Env, path: string, w: World, planFile: PlanFile, authorityFile: AuthorityFile, now: int, post: Option<string>)
    requires w.disk.Absent? && w.process.Idle? && MayRequest(env, path, planFile, authorityFile, now)
    requires BodyOf(env, planFile, authorityFile, Requested, None, None).Success?
    ensures After(env, path, w, Begin(planFile, authorityFile, now, post))
         == World(Present(Sealed(BodyOf(env, planFile, authorityFile, Requested, None, None).value)), w.issued, Due(planFile, authorityFile, now))
  {
    hide ParsePlan, ParseAuthority, BodyOf, Sealed;
  }

  lemma CompletionStarts(env: Env, path: string, w: World, planFile: PlanFile, authorityFile: AuthorityFile, now: int, post: Option<string>)
    requires w.disk.Present? && w.process.Idle? && Granted(env, path, planFile, authorityFile)
    requires OpenFor(env, w.disk.state, planFile, authorityFile) && Rebooted(env, planFile, post)
    ensures After(env, path, w, Begin(planFile, authorityFile, now, post))
         == w.(disk := Present(CompletedBy(env, w.disk.state, planFile, authorityFile, post.value)))
  {
    hide PlanDelivered, AuthorityDelivered, Reconciled, Sealed, CompletedBy, OpenFor, Rebooted, Names;
    NamesIs(env, path, planFile);
    ReconciledIs(env, planFile, authorityFile, w.disk.state, post);
  }

  lemma RecordLeaves(env: Env, path: string, w: World)
    requires w.process.Ran?
    requires BodyOf(env, w.process.planFile, w.process.authorityFile, PhaseOf(w.process.result), Some(ReceiptOf(w.process.result)), None).Success?
    ensures After(env, path, w, Record)
         == World(Present(Sealed(BodyOf(env, w.process.planFile, w.process.authorityFile, PhaseOf(w.process.result),
                                        Some(ReceiptOf(w.process.result)), None).value)), w.issued, Idle)
  {
  }

  lemma ReceiptReturned(result: CommandResult)
    ensures ReceiptOf(result).CommandReturned? && ReceiptOf(result).returncode == result.returncode
  {
  }

  lemma StateSays(planFile: PlanFile, authorityFile: AuthorityFile, phase: Phase, receipt: Option<Receipt>)
    ensures StateFor(planFile, authorityFile, phase, receipt, None, None).body.receipt == receipt
  {
  }

  /** The host around one state path. Replaying its ghost moves gives its file, its commands and its process. */
  class RebootHost {
    const env: Env
    const path: string
    ghost const initial: Disk
    var disk: Disk
    ghost var issued: seq<Command>
    ghost var process: Process
    ghost var moves: seq<Move>

    ghost predicate Valid()
      reads this
    {
      Replay(env, path, initial, moves) == World(disk, issued, process)
    }

    constructor (env: Env, path: string, disk: Disk)
      ensures Valid() && this.env == env && this.path == path && initial == disk && this.disk == disk && process.Idle?
    {
      this.env, this.path, this.disk, initial := env, path, disk, disk;
      issued, process, moves := [], Idle, [];
    }

    /** Note one move, to a world with the same file. */
    ghost method Note(move: Move, w: World)
      requires Valid() && w == After(env, path, World(disk, issued, process), move) && w.disk == disk
      modifies this`issued, this`process, this`moves
      ensures Valid() && moves == old(moves) + [move] && issued == w.issued && process == w.process
    {
      hide After, ParsePlan, ParseAuthority, Replay, BodyOf, Reconciled, MayRequest, Names, ParseState, Sealed;
      OneMore(env, path, initial, moves, move);
      moves, issued, process := moves + [move], w.issued, w.process;
    }

    /** The atomic replacement that a move makes; it may be stopped before it or after it. */
    method WriteState(content: StateFile, ghost move: Move) returns (ok: bool)
      requires Valid()
      requires var w := After(env, path, World(disk, issued, process), move); w.disk == Present(content) && w.issued == issued
      modifies this
      ensures Valid() && old(moves) <= moves && issued == old(issued)
      ensures ok ==> World(disk, issued, process) == After(env, path, World(old(disk), old(issued), old(process)), move)
      ensures !ok ==> process.Idle? && disk in {old(disk), Present(content)}
    {
      hide ParsePlan, ParseAuthority, BodyOf, Reconciled, MayRequest, Names, Replay, ReceiptOf, Sealed, After;
      var replaced: bool := *;
      if replaced {
        OneMore(env, path, initial, moves, move);
        ghost var w := After(env, path, World(disk, issued, process), move);
        disk := Present(content);
        moves, process := moves + [move], w.process;
      }
      ok := *;
      ok := ok && replaced;
      if !ok {
        CrashIs(env, path, World(disk, issued, process));
        Note(Crash, World(disk, issued, Idle));
      }
    }

    /** The runner: a result, or nothing where it raises or the host goes down. */
    method RunCommand() returns (result: Option<CommandResult>)
      requires Valid() && process.Due?
      modifies this`issued, this`process, this`moves
      ensures Valid() && old(moves) <= moves
      ensures issued == old(issued) + [Command(old(process).planFile, old(process).authorityFile, old(process).now, disk)]
      ensures process == if result.Some? then Ran(old(process).planFile, old(process).authorityFile, result.value) else Idle
    {
      result := *;
      if result.Some? {
        Note(Run(result.value), After(env, path, World(disk, issued, process), Run(result.value)));
      } else {
        Note(Raise, After(env, path, World(disk, issued, process), Raise));
      }
    }

    /** The invocation left the path and the runner as it found them. */
    twostate predicate Untouched()
      reads this
    {
      disk == old(disk) && issued == old(issued)
    }

    /** `run_host_reboot`, with what is found at the post-facts path (`None`: no file). */
    method Reboot(planFile: PlanFile, authorityFile: AuthorityFile, now: int, post: Option<string>)
      returns (r: Result<StateFile, Error>)
      requires Valid() && process.Idle?
      modifies this
      ensures Valid() && process.Idle? && old(moves) <= moves
      ensures !PlanDelivered(env, planFile) ==> r == Failure(PlanInvalid) && Untouched()
      ensures PlanDelivered(env, planFile) && planFile.plan.statePath != path ==> r == Failure(PathInvalid) && Untouched()
      ensures PlanDelivered(env, planFile) && planFile.plan.statePath == path && !AuthorityDelivered(env, authorityFile, planFile.plan) ==>
                r == Failure(AuthorityInvalid) && Untouched()
      ensures Granted(env, path, planFile, authorityFile) && !old(disk).Absent? ==>
                Reconciles(old(disk), planFile, authorityFile, post, r) && issued == old(issued)
      ensures Granted(env, path, planFile, authorityFile) && old(disk).Absent?
              && !(authorityFile.body.authorizedAt.instant <= now <= authorityFile.body.expiresAt.instant) ==>
                r == Failure(AuthorityExpired) && Untouched()
      ensures Granted(env, path, planFile, authorityFile) && old(disk).Absent?
              && authorityFile.body.authorizedAt.instant <= now <= authorityFile.body.expiresAt.instant ==>
                Requests(planFile, authorityFile, r) && old(issued) <= issued && |issued| <= |old(issued)| + 1
                && (r.Success? ==> |issued| == |old(issued)| + 1)
    {
      hide ParsePlan, ParseAuthority, PlanDelivered, AuthorityDelivered, Reconciles, RequestedBy, BodyOf, StateFor, ReceiptOf;
      PlanReads(env, planFile);
      var parsedPlan := ParsePlan(env, planFile);
      if parsedPlan.Failure? {
        return Failure(parsedPlan.error);
      }
      var plan := parsedPlan.value;
      if plan.statePath != path {
        return Failure(PathInvalid);
      }
      AuthorityReads(env, authorityFile, plan);
      var parsedAuthority := ParseAuthority(env, authorityFile, plan);
      if parsedAuthority.Failure? {
        return Failure(parsedAuthority.error);
      }
      var authority := parsedAuthority.value;
      if !disk.Absent? {
        r := Reconcile(planFile, authorityFile, now, post);
        return;
      }
      if !(authority.authorizedAt <= now <= authority.expiresAt) {
        return Failure(AuthorityExpired);
      }
      r := Request(planFile, authorityFile, now, post);
    }

    /** What an invocation may leave that finds the path free and its window open. */
    predicate Requests(planFile: PlanFile, authorityFile: AuthorityFile, r: Result<StateFile, Error>)
      reads this
    {
      if r.Failure? then r == Failure(Interrupted)
      else
        && disk == Present(r.value)
        && r.value.body.receipt.Some? && r.value.body.receipt.value.CommandReturned?
        && r.value == StateFor(planFile, authorityFile, if r.value.body.receipt.value.returncode == 0 then AwaitingReboot else Failed,
                               r.value.body.receipt, None, None)
    }

    /** The branch of `run_host_reboot` that finds the path free. */
    method Request(planFile: PlanFile, authorityFile: AuthorityFile, now: int, post: Option<string>)
      returns (r: Result<StateFile, Error>)
      requires Valid() && process.Idle? && disk.Absent?
      requires Permits(env, path, planFile, authorityFile, now)
      modifies this
      ensures Valid() && process.Idle? && old(moves) <= moves
      ensures Requests(planFile, authorityFile, r) && old(issued) <= issued && |issued| <= |old(issued)| + 1
      ensures r.Success? ==> |issued| == |old(issued)| + 1
    {
      hide ParsePlan, ParseAuthority, PlanDelivered, AuthorityDelivered, RequestedBy, BodyOf, StateFor, ReceiptOf, Replay;
      PermitsIs(env, path, planFile, authorityFile, now);
      RequestIsWritten(env, path, planFile, authorityFile, now);
      RequestStarts(env, path, World(disk, issued, process), planFile, authorityFile, now, post);
      var requested := BodyOf(env, planFile, authorityFile, Requested, None, None).value;
      var ok := WriteState(Sealed(requested), Begin(planFile, authorityFile, now, post));
      if !ok {
        return Failure(Interrupted);
      }
      var result := RunCommand();
      if result.None? {
        return Failure(Interrupted);
      }
      ResultIsWritten(env, path, disk, planFile, authorityFile, result.value);
      RecordIs(env, path, World(disk, issued, process));
      var recorded := BodyOf(env, planFile, authorityFile, PhaseOf(result.value), Some(ReceiptOf(result.value)), None).value;
      RecordLeaves(env, path, World(disk, issued, process));
      ok := WriteState(Sealed(recorded), Record);
      ReceiptReturned(result.value);
      StateSays(planFile, authorityFile, if result.value.returncode == 0 then AwaitingReboot else Failed, Some(ReceiptOf(result.value)));
      r := if ok then Success(Sealed(recorded)) else Failure(Interrupted);
    }

    /** What an invocation leaves that finds something at the path. */
    predicate Reconciles(found: Disk, planFile: PlanFile, authorityFile: AuthorityFile, post: Option<string>, r: Result<StateFile, Error>)
      reads this
    {
      if found.Unreadable? || (found.Present? && !StateDelivered(env, found.state, planFile, authorityFile)) then
        r == Failure(StateInvalid) && disk == found
      else if found.Absent? then true
      else if !OpenFor(env, found.state, planFile, authorityFile) || post.None? then r == Success(found.state) && disk == found
      else if env.host(post.value).None? then r == Failure(PostFactsInvalid) && disk == found
      else if !Rebooted(env, planFile, post) then r == Success(found.state) && disk == found
      else
        var completed := CompletedBy(env, found.state, planFile, authorityFile, post.value);
        || (r == Success(completed) && disk == Present(completed))
        || (r == Failure(Interrupted) && (disk == found || disk == Present(completed)))
    }

    /** The branch of `run_host_reboot` that finds a file at the state path. */
    method Reconcile(planFile: PlanFile, authorityFile: AuthorityFile, now: int, post: Option<string>)
      returns (r: Result<StateFile, Error>)
      requires Valid() && process.Idle? && !disk.Absent?
      requires Granted(env, path, planFile, authorityFile)
      modifies this
      ensures Valid() && process.Idle? && old(moves) <= moves && issued == old(issued)
      ensures Reconciles(old(disk), planFile, authorityFile, post, r)
    {
      hide ParsePlan, ParseAuthority, ParseState, PlanDelivered, AuthorityDelivered, StateDelivered, BodyOf, StateFor, Sealed;
      if disk.Unreadable? {
        return Failure(StateInvalid);
      }
      var plan := planFile.plan;
      AuthorityReads(env, authorityFile, plan);
      StateReads(env, disk.state, planFile, authorityFile);
      DeliveredPhase(env, disk.state, planFile, authorityFile);
      var parsed := ParseState(env, disk.state, plan, ParseAuthority(env, authorityFile, plan).value);
      if parsed.Failure? {
        return Failure(parsed.error);
      }
      if parsed.value.phase in {Failed, Completed} {
        return Success(disk.state);
      }
      if post.Some? {
        var host := env.host(post.value);
        if host.None? {
          return Failure(PostFactsInvalid);
        }
        if host.value.boot != plan.preBoot {
          var receipt := if parsed.value.receipt.Some? then parsed.value.receipt else Some(AdoptedFromChangedBoot);
          ReconciledIs(env, planFile, authorityFile, disk.state, post);
          BodyIs(env, planFile, authorityFile, Completed, receipt, post);
          CompletionStarts(env, path, World(disk, issued, process), planFile, authorityFile, now, post);
          var completed := BodyOf(env, planFile, authorityFile, Completed, receipt, post).value;
          var ok := WriteState(Sealed(completed), Begin(planFile, authorityFile, now, post));
          r := if ok then Success(Sealed(completed)) else Failure(Interrupted);
          return;
        }
      }
      r := Success(disk.state);
    }
  }
}
