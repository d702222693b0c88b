/** What holds in every history of the deployment transaction. */
module HostDeploymentRuns {
  import opened Wrappers
  import opened Text
  import opened HostPlan
  import opened HostJournal
  import opened HostDeployment
  import opened HostReadbacks

  // ----- the states that the executor writes ------------------------------------------

  predicate FailedLast(steps: seq<Receipt>) {
    && steps != []
    && AllSucceeded(steps[..|steps| - 1])
    && steps[|steps| - 1].returncode != 0
  }

  /** The retained facts are those that the given recollection receipt reports. */
  predicate FactsFrom(job: Job, s: State, receipt: Receipt, rollback: bool) {
    && IsFingerprintOption(s.factsFingerprint)
    && s.factsPath == Some(OutputPath(job, rollback))
    && receipt.readback == FactsFingerprint(s.factsFingerprint.value)
  }

  predicate NoFacts(s: State) {
    s.factsFingerprint == None && s.factsPath == None
  }

  /** The exact shape of every state the executor writes for this job. */
  predicate Written(job: Job, s: State)
    requires Shaped(job.plan)
  {
    && s == Body(job, s.authority, s.result, s.steps, s.rollbacks, s.factsFingerprint, s.factsPath,
                 s.result == FailedRolledBack, s.result == Complete)
    && InOrder(s.steps, job.plan.actions)
    && InOrder(s.rollbacks, job.plan.rollbackActions)
    && match s.result
       case InProgress =>
         && |s.steps| <= 12 && s.rollbacks == [] && AllSucceeded(s.steps)
         && if |s.steps| == 12 then FactsFrom(job, s, s.steps[11], false) else NoFacts(s)
       case Complete =>
         && |s.steps| == 13 && s.rollbacks == [] && AllSucceeded(s.steps)
         && FactsFrom(job, s, s.steps[11], false)
       case RollbackInProgress =>
         FailedLast(s.steps) && |s.rollbacks| < 10 && NoFacts(s)
       case FailedRolledBack =>
         FailedLast(s.steps) && |s.rollbacks| == 10 && AllSucceeded(s.rollbacks) && FactsFrom(job, s, s.rollbacks[9], true)
       case FailedRollbackUnverified =>
         && FailedLast(s.steps) && |s.rollbacks| == 10 && !AllSucceeded(s.rollbacks)
         && (s.rollbacks[9].returncode == 0 ==> FactsFrom(job, s, s.rollbacks[9], true))
         && (s.rollbacks[9].returncode != 0 ==> NoFacts(s))
       case PhaseCompleteReplanRequired => false
  }

  /** Whatever the executor writes, its own loader accepts again for the same plan and authority, exactly where it fits. */
  lemma WrittenIsAccepted(job: Job, s: State)
    requires Shaped(job.plan) && Written(job, s)
    ensures Accepts(job.plan, s.authority, s)
    ensures Load(job.size, Retained(s), job.plan, s.authority)
            == if Fits(job.size, s) then Success(Some(s)) else Failure(StateInvalid)
    ensures s.result.Terminal() <==> !Resumable(job.plan, s)
  {
  }

  lemma InitialIsWritten(job: Job, authority: Authority)
    requires Shaped(job.plan)
    ensures Written(job, Initial(job, authority))
  {
  }

  /** A reading carries facts exactly when it is a successful recollection. */
  predicate ReadingFits(job: Job, rollback: bool, k: nat, r: Reading) {
    if k == (if rollback then 9 else 11) then
      if r.result.returncode == 0 then
        && IsFingerprintOption(r.fingerprint)
        && r.path == Some(OutputPath(job, rollback))
        && r.readback == FactsFingerprint(r.fingerprint.value)
      else r.fingerprint.None? && r.path.None?
    else r.fingerprint.None? && r.path.None?
  }

  lemma ReadFits(job: Job, rollback: bool, k: nat, seen: Observation)
    requires Shaped(job.plan) && k < (if rollback then 10 else 13)
    ensures var r := Read(job, Row(job.plan, rollback, k), rollback, seen);
            r.Some? ==> ReadingFits(job, rollback, k, r.value)
  {
  }

  lemma ForwardIsWritten(job: Job, s: State, receipt: Receipt, r: Reading)
    requires Shaped(job.plan) && Written(job, s) && s.result == InProgress
    requires ReadingFits(job, false, |s.steps|, r)
    requires receipt.sequence == |s.steps| + 1 && receipt.action == job.plan.actions[|s.steps|]
    requires receipt.returncode == r.result.returncode && receipt.readback == r.readback
    ensures Written(job, AfterForward(job, s, receipt, r))
  {
    var steps := s.steps + [receipt];
    assert steps[..|steps| - 1] == s.steps;
  }

  lemma RollbackIsWritten(job: Job, s: State, receipt: Receipt, r: Reading)
    requires Shaped(job.plan) && Written(job, s) && s.result == RollbackInProgress
    requires ReadingFits(job, true, |s.rollbacks|, r)
    requires receipt.sequence == |s.rollbacks| + 1 && receipt.action == job.plan.rollbackActions[|s.rollbacks|]
    requires receipt.returncode == r.result.returncode && receipt.readback == r.readback
    ensures Written(job, AfterRollback(job, s, receipt, r))
  {
    var rollbacks := s.rollbacks + [receipt];
    assert rollbacks[|rollbacks| - 1] == receipt;
  }

  lemma NextIsWritten(job: Job, s: State, seen: Observation)
    requires Shaped(job.plan) && Written(job, s) && Resumable(job.plan, s)
    requires Next(job, s, seen).Some?
    ensures Written(job, Next(job, s, seen).value)
  {
    hide Written, ReadingFits;
    var k := NextIndex(s);
    var raw := Row(job.plan, Rolling(s), k);
    ReadFits(job, Rolling(s), k, seen);
    var r := Read(job, raw, Rolling(s), seen).value;
    var receipt := MakeReceipt(k + 1, raw, Argv(job, raw, Rolling(s)), r.result, r.readback);
    if Rolling(s) {
      RollbackIsWritten(job, s, receipt, r);
    } else {
      ForwardIsWritten(job, s, receipt, r);
    }
  }

  // ----- the order in which commands reach the host ------------------------------------

  predicate Justifies(job: Job, a: Attempt, rollback: bool, k: nat, receipt: Receipt)
    requires Shaped(job.plan)
  {
    && a.rollback == rollback && a.index == k && k < (if rollback then 10 else 13)
    && a.seen.Some?
    && ReceiptOf(job, rollback, k, a.seen.value) == Some(receipt)
  }

  /** Some attempt before position `n` really produced this receipt. */
  predicate Seen(job: Job, trace: seq<Attempt>, n: nat, rollback: bool, k: nat, receipt: Receipt)
    requires Shaped(job.plan) && n <= |trace|
  {
    exists i | 0 <= i < n :: Justifies(job, trace[i], rollback, k, receipt)
  }

  /** Every receipt in the state comes from an attempt in the trace. */
  predicate Recorded(job: Job, trace: seq<Attempt>, s: State)
    requires Shaped(job.plan)
  {
    && (forall k | 0 <= k < |s.steps| :: Seen(job, trace, |trace|, false, k, s.steps[k]))
    && (forall k | 0 <= k < |s.rollbacks| :: Seen(job, trace, |trace|, true, k, s.rollbacks[k]))
  }

  /** Repeat the same action, or go on to the next, or turn from forward to rollback. */
  predicate Follows(a: Attempt, b: Attempt) {
    || (a.rollback == b.rollback && (b.index == a.index || b.index == a.index + 1))
    || (!a.rollback && b.rollback && b.index == 0)
  }

  predicate Stutters(trace: seq<Attempt>) {
    && (trace != [] ==> !trace[0].rollback && trace[0].index == 0)
    && (forall i | 0 <= i < |trace| - 1 :: Follows(trace[i], trace[i + 1]))
  }

  /** An attempt that gave a receipt, successful or not. */
  predicate Settled(job: Job, a: Attempt, rollback: bool, k: nat, success: bool)
    requires Shaped(job.plan)
  {
    && a.rollback == rollback && a.index == k && k < (if rollback then 10 else 13)
    && a.seen.Some?
    && var r := ReceiptOf(job, rollback, k, a.seen.value); r.Some? && (r.value.returncode == 0) == success
  }

  predicate SettledBefore(job: Job, trace: seq<Attempt>, n: nat, rollback: bool, k: nat, success: bool)
    requires Shaped(job.plan) && n <= |trace|
  {
    exists i | 0 <= i < n :: Settled(job, trace[i], rollback, k, success)
  }

  /**
   The attempt at `i` has its argument vector right and its cause behind it: a forward action
   follows the success of every earlier one, a rollback action follows a forward failure.
   */
  predicate Earned(job: Job, trace: seq<Attempt>, i: nat)
    requires Shaped(job.plan) && i < |trace|
  {
    var a := trace[i];
    && a.index < (if a.rollback then 10 else 13)
    && a.argv == Argv(job, Row(job.plan, a.rollback, a.index), a.rollback)
    && (!a.rollback ==> forall k | 0 <= k < a.index :: SettledBefore(job, trace, i, false, k, true))
    && (a.rollback ==> exists k | 0 <= k < 13 :: SettledBefore(job, trace, i, false, k, false))
  }

  predicate Due(a: Attempt, s: State) {
    a.rollback == Rolling(s) && a.index == NextIndex(s)
  }

  predicate LastRecorded(a: Attempt, s: State) {
    if s.rollbacks != [] then a.rollback && a.index == |s.rollbacks| - 1
    else !a.rollback && a.index == |s.steps| - 1
  }

  /** The last attempt is the one last recorded, or the one due next. */
  predicate Aligned(trace: seq<Attempt>, s: State) {
    if trace == [] then s.result == InProgress && s.steps == []
    else
      var last := trace[|trace| - 1];
      LastRecorded(last, s) || (!s.result.Terminal() && Due(last, s))
  }

  predicate Told(job: Job, trace: seq<Attempt>, s: State)
    requires Shaped(job.plan)
  {
    Written(job, s) && Recorded(job, trace, s) && Aligned(trace, s)
  }

  predicate Sound(job: Job, w: World)
    requires Shaped(job.plan)
  {
    && Stutters(w.trace)
    && (forall i | 0 <= i < |w.trace| :: Earned(job, w.trace, i))
    && match w.disk
       case Absent =>
         && w.trace == []
         && !w.process.At?
         && (w.process.Writing? ==> w.process.state == Initial(job, w.process.state.authority))
       case Unreadable => false
       case Retained(s) =>
         && Told(job, w.trace, s)
         && (w.process.At? ==> w.process.state == s && !s.result.Terminal())
         && (w.process.Writing? ==>
               && !s.result.Terminal()
               && w.process.state.authority == s.authority
               && Told(job, w.trace, w.process.state))
  }

  // ----- every move keeps it -----------------------------------------------------------

  lemma EarnedExtends(job: Job, trace: seq<Attempt>, a: Attempt, i: nat)
    requires Shaped(job.plan) && i < |trace| && Earned(job, trace, i)
    ensures Earned(job, trace + [a], i)
  {
    var longer := trace + [a];
    forall k, success | 0 <= k < 13 && SettledBefore(job, trace, i, false, k, success)
      ensures SettledBefore(job, longer, i, false, k, success)
    {
      var j :| 0 <= j < i && Settled(job, trace[j], false, k, success);
      assert longer[j] == trace[j];
    }
  }

  lemma SeenExtends(job: Job, trace: seq<Attempt>, a: Attempt, rollback: bool, k: nat, receipt: Receipt)
    requires Shaped(job.plan) && Seen(job, trace, |trace|, rollback, k, receipt)
    ensures Seen(job, trace + [a], |trace| + 1, rollback, k, receipt)
  {
    var i :| 0 <= i < |trace| && Justifies(job, trace[i], rollback, k, receipt);
    assert (trace + [a])[i] == trace[i];
  }

  lemma RecordedExtends(job: Job, trace: seq<Attempt>, a: Attempt, s: State)
    requires Shaped(job.plan) && Recorded(job, trace, s)
    ensures Recorded(job, trace + [a], s)
  {
    forall k | 0 <= k < |s.steps| ensures Seen(job, trace + [a], |trace| + 1, false, k, s.steps[k]) {
      SeenExtends(job, trace, a, false, k, s.steps[k]);
    }
    forall k | 0 <= k < |s.rollbacks| ensures Seen(job, trace + [a], |trace| + 1, true, k, s.rollbacks[k]) {
      SeenExtends(job, trace, a, true, k, s.rollbacks[k]);
    }
  }

  /** A receipt in the state settles its action in the trace. */
  lemma RecordedSettles(job: Job, trace: seq<Attempt>, s: State, k: nat)
    requires Shaped(job.plan) && Recorded(job, trace, s) && k < |s.steps| <= 13
    ensures SettledBefore(job, trace, |trace|, false, k, s.steps[k].returncode == 0)
  {
    assert Seen(job, trace, |trace|, false, k, s.steps[k]);
    var i :| 0 <= i < |trace| && Justifies(job, trace[i], false, k, s.steps[k]);
    assert Settled(job, trace[i], false, k, s.steps[k].returncode == 0);
  }

  function Attempted(job: Job, s: State, seen: Option<Observation>): Attempt
    requires Resumable(job.plan, s)
  {
    Attempt(Rolling(s), NextIndex(s), Argv(job, Row(job.plan, Rolling(s), NextIndex(s)), Rolling(s)), seen)
  }

  lemma NewAttemptEarned(job: Job, trace: seq<Attempt>, s: State, seen: Option<Observation>)
    requires Shaped(job.plan) && Written(job, s) && Recorded(job, trace, s) && Resumable(job.plan, s)
    ensures Earned(job, trace + [Attempted(job, s, seen)], |trace|)
  {
    var longer := trace + [Attempted(job, s, seen)];
    forall k | 0 <= k < |s.steps|
      ensures SettledBefore(job, longer, |trace|, false, k, s.steps[k].returncode == 0)
    {
      RecordedSettles(job, trace, s, k);
      var j :| 0 <= j < |trace| && Settled(job, trace[j], false, k, s.steps[k].returncode == 0);
      assert longer[j] == trace[j];
    }
    if Rolling(s) {
      assert SettledBefore(job, longer, |trace|, false, |s.steps| - 1, false);
    } else {
      forall k | 0 <= k < |s.steps| ensures SettledBefore(job, longer, |trace|, false, k, true) {
        assert s.steps[k].returncode == 0;
      }
    }
  }

  lemma NewAttemptFollows(job: Job, trace: seq<Attempt>, s: State, seen: Option<Observation>)
    requires Shaped(job.plan) && Written(job, s) && Resumable(job.plan, s)
    requires Stutters(trace) && Aligned(trace, s)
    ensures Stutters(trace + [Attempted(job, s, seen)])
    ensures Aligned(trace + [Attempted(job, s, seen)], s)
  {
    var longer := trace + [Attempted(job, s, seen)];
    forall i | 0 <= i < |longer| - 1 ensures Follows(longer[i], longer[i + 1]) {
      if i < |trace| - 1 {
        assert Follows(trace[i], trace[i + 1]);
      }
    }
  }

  /** What one more receipt does to the state. */
  lemma NextAppends(job: Job, s: State, seen: Observation)
    requires Shaped(job.plan) && Written(job, s) && Resumable(job.plan, s)
    requires Next(job, s, seen).Some?
    ensures var next := Next(job, s, seen).value;
            var receipt := ReceiptOf(job, Rolling(s), NextIndex(s), seen);
            && receipt.Some?
            && next.authority == s.authority
            && next.steps == s.steps + (if Rolling(s) then [] else [receipt.value])
            && next.rollbacks == s.rollbacks + (if Rolling(s) then [receipt.value] else [])
  {
    if Rolling(s) {
      assert s.steps + [] == s.steps;
    }
  }

  lemma ReceiptIsSeen(job: Job, trace: seq<Attempt>, s: State, seen: Observation, receipt: Receipt)
    requires Shaped(job.plan) && Resumable(job.plan, s)
    requires ReceiptOf(job, Rolling(s), NextIndex(s), seen) == Some(receipt)
    ensures Seen(job, trace + [Attempted(job, s, Some(seen))], |trace| + 1, Rolling(s), NextIndex(s), receipt)
  {
    assert Justifies(job, (trace + [Attempted(job, s, Some(seen))])[|trace|], Rolling(s), NextIndex(s), receipt);
  }

  lemma NextIsTold(job: Job, trace: seq<Attempt>, s: State, seen: Observation)
    requires Shaped(job.plan) && Told(job, trace, s) && Resumable(job.plan, s)
    requires Next(job, s, seen).Some?
    ensures Told(job, trace + [Attempted(job, s, Some(seen))], Next(job, s, seen).value)
    ensures Next(job, s, seen).value.authority == s.authority
  {
    NextIsWritten(job, s, seen);
    NextAppends(job, s, seen);
    var receipt := ReceiptOf(job, Rolling(s), NextIndex(s), seen).value;
    ReceiptIsSeen(job, trace, s, seen, receipt);
    RecordedAppends(job, trace, Attempted(job, s, Some(seen)), s, Next(job, s, seen).value, receipt);
  }

  lemma RecordedAppends(job: Job, trace: seq<Attempt>, a: Attempt, s: State, next: State, receipt: Receipt)
    requires Shaped(job.plan) && Recorded(job, trace, s) && Written(job, s) && Resumable(job.plan, s)
    requires Seen(job, trace + [a], |trace| + 1, Rolling(s), NextIndex(s), receipt)
    requires next.steps == s.steps + (if Rolling(s) then [] else [receipt])
    requires next.rollbacks == s.rollbacks + (if Rolling(s) then [receipt] else [])
    requires Due(a, s)
    ensures Recorded(job, trace + [a], next) && Aligned(trace + [a], next)
  {
    hide Justifies, Body, FactsFrom, AllSucceeded;
    RecordedExtends(job, trace, a, s);
  }

  lemma RunKeepsSound(job: Job, w: World, seen: Option<Observation>)
    requires Shaped(job.plan) && Sound(job, w)
    ensures Sound(job, After(job, w, Run(seen)))
  {
    hide Earned, Stutters, Written, Recorded, Aligned, Next, Argv, Row, Load;
    if w.process.At? && Resumable(job.plan, w.process.state) {
      var s := w.process.state;
      var a := Attempted(job, s, seen);
      var w' := After(job, w, Run(seen));
      assert w'.trace == w.trace + [a];
      forall i | 0 <= i < |w'.trace| ensures Earned(job, w'.trace, i) {
        if i < |w.trace| {
          EarnedExtends(job, w.trace, a, i);
        } else {
          NewAttemptEarned(job, w.trace, s, seen);
        }
      }
      NewAttemptFollows(job, w.trace, s, seen);
      RecordedExtends(job, w.trace, a, s);
      if seen.Some? && Next(job, s, seen.value).Some? {
        NextIsTold(job, w.trace, s, seen.value);
      }
    }
  }

  lemma MoveKeepsSound(job: Job, w: World, move: Move)
    requires Shaped(job.plan) && Sound(job, w)
    ensures Sound(job, After(job, w, move))
  {
    hide Earned, Stutters, Next, Written, Valid, Argv, Row;
    match move
    case Run(seen) => RunKeepsSound(job, w, seen);
    case Begin(authority) =>
    case Write =>
      if w.process.Writing? && w.disk.Absent? {
        InitialIsWritten(job, w.process.state.authority);
      }
    case Crash =>
  }

  lemma {:induction false} EveryWorldIsSound(job: Job, moves: seq<Move>)
    requires Shaped(job.plan)
    ensures Sound(job, Replay(job, moves))
  {
    if moves != [] {
      EveryWorldIsSound(job, moves[..|moves| - 1]);
      MoveKeepsSound(job, Replay(job, moves[..|moves| - 1]), moves[|moves| - 1]);
    }
  }

  // ----- theorems about whole histories ------------------------------------------------

  /**
   A command reaches the host only while the journal itself names it as due: forward action k
   when exactly the first k receipts are durable and all report success, rollback action k
   when a forward failure and exactly k rollback receipts are durable.
   */
  lemma CommandsFollowTheJournal(job: Job, moves: seq<Move>, move: Move)
    requires Shaped(job.plan)
    ensures var w := Replay(job, moves);
            var w' := Replay(job, moves + [move]);
            w'.trace != w.trace ==>
              && w'.disk == w.disk && w.disk.Retained?
              && |w'.trace| == |w.trace| + 1
              && var s := w.disk.state;
                 var a := w'.trace[|w.trace|];
                 && w'.trace == w.trace + [a]
                 && if a.rollback then
                      s.result == RollbackInProgress && FailedLast(s.steps) && |s.rollbacks| == a.index < 10
                    else
                      s.result == InProgress && AllSucceeded(s.steps) && |s.steps| == a.index < 13
  {
    hide Earned, Stutters, Recorded, Aligned, Next, Valid, Argv, Row, Body;
    EveryWorldIsSound(job, moves);
    assert (moves + [move])[..|moves|] == moves;
  }

  /** No history runs a forward action after a rollback action, or skips or reorders either list. */
  lemma TraceIsTwoStutteringPrefixes(job: Job, moves: seq<Move>) returns (turn: nat)
    requires Shaped(job.plan)
    ensures var trace := Replay(job, moves).trace;
            && turn <= |trace|
            && (forall i | 0 <= i < turn :: !trace[i].rollback && trace[i].index < 13)
            && (forall i | turn <= i < |trace| :: trace[i].rollback && trace[i].index < 10)
            && (turn > 0 ==> trace[0].index == 0)
            && (turn < |trace| ==> turn > 0 && trace[turn].index == 0)
            && (forall i | 0 <= i < |trace| - 1 && i + 1 != turn ::
                  trace[i + 1].index == trace[i].index || trace[i + 1].index == trace[i].index + 1)
  {
    hide Replay, Told, SettledBefore, Argv, Row;
    EveryWorldIsSound(job, moves);
    var trace := Replay(job, moves).trace;
    turn := 0;
    while turn < |trace| && !trace[turn].rollback
      invariant turn <= |trace|
      invariant forall i | 0 <= i < turn :: !trace[i].rollback
    {
      turn := turn + 1;
    }
    var n := turn;
    while n < |trace|
      invariant turn <= n <= |trace|
      invariant turn < |trace| ==> trace[turn].rollback
      invariant forall i | turn <= i < n :: trace[i].rollback
    {
      if n > turn {
        assert Follows(trace[n - 1], trace[n]);
      }
      n := n + 1;
    }
    forall i | 0 <= i < |trace| - 1 && i + 1 != turn
      ensures trace[i + 1].index == trace[i].index || trace[i + 1].index == trace[i].index + 1
    {
      assert Follows(trace[i], trace[i + 1]);
    }
    forall i | 0 <= i < |trace| ensures trace[i].index < (if trace[i].rollback then 10 else 13) {
      assert Earned(job, trace, i);
    }
    if 0 < turn < |trace| {
      assert Follows(trace[turn - 1], trace[turn]);
    }
  }

  /** An attempt is the very command of its row. */
  lemma EveryCommandIsItsRows(job: Job, moves: seq<Move>, i: nat)
    requires Shaped(job.plan) && i < |Replay(job, moves).trace|
    ensures var a := Replay(job, moves).trace[i];
            a.index < (if a.rollback then 10 else 13) && a.argv == CommandFor(job, a.rollback, a.index)
  {
    hide CommandFor, Argv, Row, SettledBefore;
    EveryWorldIsSound(job, moves);
    var a := Replay(job, moves).trace[i];
    assert Earned(job, Replay(job, moves).trace, i);
    CommandIs(job, a.rollback, a.index);
  }

  /** A recollection that read back the whole launched host, under the digest that it then reports. */
  ghost predicate Admitted(job: Job, a: Attempt) {
    && !a.rollback && a.index == 11 && a.argv == Collector(job.repositoryRoot, "var/hk-v1/host/post-reconcile.json")
    && a.seen.Some? && a.seen.value.result.returncode == 0
    && IsFingerprint(a.seen.value.facts.fingerprint)
    && job.plan.Deployment? && Launched(a.seen.value.facts, job.plan.expectedImages)
  }

  lemma SettledIsAdmitted(job: Job, a: Attempt)
    requires Shaped(job.plan) && Settled(job, a, false, 11, true) && a.argv == CommandFor(job, false, 11)
    ensures Admitted(job, a)
  {
    hide Launched, ReceiptOf;
    RecollectionAdmits(job, a.seen.value);
  }

  /** The firewall is confirmed only after an earlier recollection read back the whole launched host. */
  lemma FirewallConfirmedOnlyAfterAdmission(job: Job, moves: seq<Move>, i: nat)
    requires Shaped(job.plan)
    requires i < |Replay(job, moves).trace|
    requires !Replay(job, moves).trace[i].rollback && Replay(job, moves).trace[i].index == 12
    ensures exists j | 0 <= j < i :: Admitted(job, Replay(job, moves).trace[j])
  {
    hide Settled, Admitted, CommandFor;
    EveryWorldIsSound(job, moves);
    var trace := Replay(job, moves).trace;
    assert Earned(job, trace, i);
    assert SettledBefore(job, trace, i, false, 11, true);
    var j :| 0 <= j < i && Settled(job, trace[j], false, 11, true);
    SettledIs(job, trace[j], false, 11, true);
    EveryCommandIsItsRows(job, moves, j);
    SettledIsAdmitted(job, trace[j]);
  }

  lemma SettledIs(job: Job, a: Attempt, rollback: bool, k: nat, success: bool)
    requires Shaped(job.plan) && Settled(job, a, rollback, k, success)
    ensures a.rollback == rollback && a.index == k && a.seen.Some?
  {
  }

  /** An action that was attempted and returned a successful (or a failed) receipt. */
  predicate Happened(job: Job, trace: seq<Attempt>, rollback: bool, k: nat, success: bool)
    requires Shaped(job.plan)
  {
    SettledBefore(job, trace, |trace|, rollback, k, success)
  }

  lemma RecordedHappened(job: Job, trace: seq<Attempt>, s: State)
    requires Shaped(job.plan) && Recorded(job, trace, s) && |s.steps| <= 13 && |s.rollbacks| <= 10
    ensures forall k | 0 <= k < |s.steps| :: Happened(job, trace, false, k, s.steps[k].returncode == 0)
    ensures forall k | 0 <= k < |s.rollbacks| :: Happened(job, trace, true, k, s.rollbacks[k].returncode == 0)
  {
    forall k | 0 <= k < |s.steps| ensures Happened(job, trace, false, k, s.steps[k].returncode == 0) {
      RecordedSettles(job, trace, s, k);
    }
    forall k | 0 <= k < |s.rollbacks| ensures Happened(job, trace, true, k, s.rollbacks[k].returncode == 0) {
      assert Seen(job, trace, |trace|, true, k, s.rollbacks[k]);
      var i :| 0 <= i < |trace| && Justifies(job, trace[i], true, k, s.rollbacks[k]);
      assert Settled(job, trace[i], true, k, s.rollbacks[k].returncode == 0);
    }
  }

  /** COMPLETE is durable only when all thirteen actions succeeded, in order, with admitted facts retained. */
  lemma CompleteMeansAllSucceeded(job: Job, moves: seq<Move>)
    requires Shaped(job.plan)
    requires Replay(job, moves).disk.Retained? && Replay(job, moves).disk.state.result == Complete
    ensures var w := Replay(job, moves);
            && InOrder(w.disk.state.steps, job.plan.actions) && |w.disk.state.steps| == 13
            && (forall k | 0 <= k < 13 :: Happened(job, w.trace, false, k, true))
            && (forall i | 0 <= i < |w.trace| :: !w.trace[i].rollback)
            && (exists i | 0 <= i < |w.trace| ::
                  Admitted(job, w.trace[i]) && w.disk.state.factsFingerprint == Some(w.trace[i].seen.value.facts.fingerprint))
            && w.disk.state.factsPath == Some(job.repositoryRoot + "/" + "var/hk-v1/host/post-reconcile.json")
  {
    hide Admitted, Settled, Earned, Stutters, Recorded, InOrder, OutputPath;
    EveryWorldIsSound(job, moves);
    var w := Replay(job, moves);
    RecordedHappened(job, w.trace, w.disk.state);
    forall k | 0 <= k < 13 ensures Happened(job, w.trace, false, k, true) {
      assert w.disk.state.steps[k].returncode == 0;
    }
    var turn := TraceIsTwoStutteringPrefixes(job, moves);
    RetainedFactsWereAdmitted(job, moves);
    OutputIs(job, false);
  }

  lemma RetainedFactsWereAdmitted(job: Job, moves: seq<Move>)
    requires Shaped(job.plan)
    requires Replay(job, moves).disk.Retained? && Replay(job, moves).disk.state.result == Complete
    ensures var w := Replay(job, moves);
            exists i | 0 <= i < |w.trace| ::
              Admitted(job, w.trace[i]) && w.disk.state.factsFingerprint == Some(w.trace[i].seen.value.facts.fingerprint)
  {
    hide Admitted, Accounts, CommandFor, Justifies, Settled;
    EveryWorldIsSound(job, moves);
    var w := Replay(job, moves);
    assert Seen(job, w.trace, |w.trace|, false, 11, w.disk.state.steps[11]);
    var i :| 0 <= i < |w.trace| && Justifies(job, w.trace[i], false, 11, w.disk.state.steps[11]);
    JustifiedIs(job, w.trace[i], false, 11, w.disk.state.steps[11]);
    EveryCommandIsItsRows(job, moves, i);
    SettledIsAdmitted(job, w.trace[i]);
    ReportsItsFacts(job, w.disk.state, w.trace[i].seen.value);
  }

  lemma JustifiedIs(job: Job, a: Attempt, rollback: bool, k: nat, receipt: Receipt)
    requires Shaped(job.plan) && Justifies(job, a, rollback, k, receipt)
    ensures a.rollback == rollback && a.index == k && k < (if rollback then 10 else 13) && a.seen.Some?
    ensures Settled(job, a, rollback, k, receipt.returncode == 0)
    ensures Accounts(job, receipt, rollback, k, a.seen.value)
  {
    hide ReceiptOf, Accounts;
    ReceiptAccounts(job, rollback, k, a.seen.value);
  }

  /** A successful forward recollection's receipt reports the digest of its own facts. */
  lemma ReportsItsFacts(job: Job, s: State, seen: Observation)
    requires Shaped(job.plan) && |s.steps| == 13 && FactsFrom(job, s, s.steps[11], false) && s.steps[11].returncode == 0
    requires Accounts(job, s.steps[11], false, 11, seen)
    ensures s.factsFingerprint == Some(seen.facts.fingerprint)
  {
    hide CommandFor, IsFingerprint;
  }

  /** Each durable receipt accounts for a command of the trace: its row, its vector, its code and its outputs. */
  lemma DurableReceiptsAccount(job: Job, moves: seq<Move>, rollback: bool, k: nat)
    requires Shaped(job.plan) && Replay(job, moves).disk.Retained?
    requires k < (if rollback then |Replay(job, moves).disk.state.rollbacks| else |Replay(job, moves).disk.state.steps|)
    ensures k < (if rollback then 10 else 13)
    ensures var trace, s := Replay(job, moves).trace, Replay(job, moves).disk.state;
            exists i | 0 <= i < |trace| ::
              && trace[i].rollback == rollback && trace[i].index == k && trace[i].seen.Some?
              && Accounts(job, if rollback then s.rollbacks[k] else s.steps[k], rollback, k, trace[i].seen.value)
  {
    hide Accounts, Justifies, Settled, Written;
    EveryWorldIsSound(job, moves);
    var trace, s := Replay(job, moves).trace, Replay(job, moves).disk.state;
    var receipt := if rollback then s.rollbacks[k] else s.steps[k];
    assert Seen(job, trace, |trace|, rollback, k, receipt);
    var i :| 0 <= i < |trace| && Justifies(job, trace[i], rollback, k, receipt);
    JustifiedIs(job, trace[i], rollback, k, receipt);
  }

  /** A recollection after the rollback that found every predecessor as the plan names it. */
  ghost predicate ReadBack(job: Job, a: Attempt) {
    && a.rollback && a.index == 9 && a.argv == Collector(job.repositoryRoot, "var/hk-v1/host/post-rollback.json")
    && a.seen.Some? && a.seen.value.result.returncode == 0
    && IsFingerprint(a.seen.value.facts.fingerprint)
    && job.plan.Deployment? && Restored(a.seen.value.facts.containers, job.plan.predecessorImages)
  }

  lemma SettledIsReadBack(job: Job, a: Attempt)
    requires Shaped(job.plan) && Settled(job, a, true, 9, true) && a.argv == CommandFor(job, true, 9)
    ensures ReadBack(job, a)
  {
    hide Restored, ReceiptOf;
    RollbackRecollectionRestores(job, a.seen.value);
  }

  /**
   A failed transaction ends FAILED_ROLLED_BACK exactly when all ten rollback receipts report
   success, the last of them because every predecessor was read back; in either verdict each
   rollback action reached the host, however many crashes the rollback was split across.
   */
  lemma RolledBackMeansRestored(job: Job, moves: seq<Move>)
    requires Shaped(job.plan)
    requires Replay(job, moves).disk.Retained?
    requires Replay(job, moves).disk.state.result in {FailedRolledBack, FailedRollbackUnverified}
    ensures var w := Replay(job, moves);
            var s := w.disk.state;
            && |s.rollbacks| == 10
            && (s.result == FailedRolledBack <==> AllSucceeded(s.rollbacks))
            && (forall k | 0 <= k < 10 :: Happened(job, w.trace, true, k, s.rollbacks[k].returncode == 0))
            && (s.result == FailedRolledBack ==>
                  exists i | 0 <= i < |w.trace| :: ReadBack(job, w.trace[i]))
            && (exists k | 0 <= k < 13 :: Happened(job, w.trace, false, k, false))
  {
    EveryWorldIsSound(job, moves);
    var w := Replay(job, moves);
    var s := w.disk.state;
    RecordedHappened(job, w.trace, s);
    assert Happened(job, w.trace, false, |s.steps| - 1, false);
    if s.result == FailedRolledBack {
      assert s.rollbacks[9].returncode == 0;
      assert Happened(job, w.trace, true, 9, true);
      var i :| 0 <= i < |w.trace| && Settled(job, w.trace[i], true, 9, true);
      EveryCommandIsItsRows(job, moves, i);
      SettledIsReadBack(job, w.trace[i]);
    }
  }

  /** Every durable state that fits is loaded again by its own authority, and by no other. */
  lemma EveryDurableStateReloads(job: Job, moves: seq<Move>, authority: Authority)
    requires Shaped(job.plan) && Replay(job, moves).disk.Retained?
    ensures var s := Replay(job, moves).disk.state;
            Load(job.size, Retained(s), job.plan, authority)
            == if authority == s.authority && Fits(job.size, s) then Success(Some(s)) else Failure(StateInvalid)
  {
    EveryWorldIsSound(job, moves);
    WrittenIsAccepted(job, Replay(job, moves).disk.state);
  }

  lemma OneMoreFrom(job: Job, disk: Disk, moves: seq<Move>, move: Move)
    requires Shaped(job.plan)
    ensures ReplayFrom(job, disk, moves + [move]) == After(job, ReplayFrom(job, disk, moves), move)
  {
    assert (moves + [move])[..|moves|] == moves;
  }

  lemma OneMore(job: Job, moves: seq<Move>, move: Move)
    requires Shaped(job.plan)
    ensures Replay(job, moves + [move]) == After(job, Replay(job, moves), move)
  {
    OneMoreFrom(job, Absent, moves, move);
  }

  lemma ResumesAtRetained(job: Job, w: World)
    requires Shaped(job.plan) && w.disk.Retained? && w.process.Idle?
    requires Written(job, w.disk.state) && !w.disk.state.result.Terminal()
    ensures After(job, w, Begin(w.disk.state.authority))
            == if Fits(job.size, w.disk.state) then w.(process := At(w.disk.state)) else w
    ensures Resumable(job.plan, w.disk.state)
  {
    WrittenIsAccepted(job, w.disk.state);
  }

  /**
   A crash loses nothing but the unjournalled command: exactly where the durable state fits, the next
   invocation resumes at the first action without a receipt.
   */
  lemma CrashThenResume(job: Job, moves: seq<Move>)
    requires Shaped(job.plan) && Replay(job, moves).disk.Retained?
    requires !Replay(job, moves).disk.state.result.Terminal()
    ensures var w := Replay(job, moves);
            && Replay(job, (moves + [Crash]) + [Begin(w.disk.state.authority)])
               == w.(process := if Fits(job.size, w.disk.state) then At(w.disk.state) else Idle)
            && Resumable(job.plan, w.disk.state)
  {
    EveryWorldIsSound(job, moves);
    var w := Replay(job, moves);
    OneMore(job, moves, Crash);
    OneMore(job, moves + [Crash], Begin(w.disk.state.authority));
    ResumesAtRetained(job, w.(process := Idle));
  }

  /** A state too long to read again is never replaced, by any authority: its transaction stays where it stopped. */
  lemma {:induction false} OversizedStateStays(job: Job, disk: Disk, moves: seq<Move>, later: seq<Move>)
    requires Shaped(job.plan)
    requires var w := ReplayFrom(job, disk, moves); w.disk.Retained? && !Fits(job.size, w.disk.state) && w.process.Idle?
    ensures ReplayFrom(job, disk, moves + later) == ReplayFrom(job, disk, moves)
  {
    hide Fits, Argv, Row, Next;
    if later == [] {
      assert moves + later == moves;
    } else {
      var most := later[..|later| - 1];
      OversizedStateStays(job, disk, moves, most);
      assert (moves + later)[..|moves + later| - 1] == moves + most;
    }
  }

  /** What one more action may cost: its receipt is written, whether or not the file it goes into can be read again. */
  lemma NextIsWrittenUnread(job: Job, moves: seq<Move>, seen: Observation, later: seq<Move>)
    requires Shaped(job.plan) && Replay(job, moves).process.At?
    requires var s := Replay(job, moves).process.state; Resumable(job.plan, s) && Next(job, s, seen).Some?
    ensures var next := Next(job, Replay(job, moves).process.state, seen).value;
            var crashed := moves + [Run(Some(seen)), Write, Crash];
            && Replay(job, crashed).disk == Retained(next) && Replay(job, crashed).process.Idle?
            && (!Fits(job.size, next) ==> Replay(job, crashed + later) == Replay(job, crashed))
  {
    hide Next, Argv, Row, Fits;
    var run := moves + [Run(Some(seen))];
    OneMore(job, moves, Run(Some(seen)));
    OneMore(job, run, Write);
    OneMore(job, run + [Write], Crash);
    var crashed := moves + [Run(Some(seen)), Write, Crash];
    assert crashed == run + [Write] + [Crash];
    if !Fits(job.size, Next(job, Replay(job, moves).process.state, seen).value) {
      OversizedStateStays(job, Absent, crashed, later);
    }
  }

  /** For every shaped plan some measure lets its first state be read, but none that holds a receipt: the history stops there. */
  lemma SomeStateOutgrows(job: Job, authority: Authority, seen: Observation, later: seq<Move>) returns (tight: Job)
    requires Shaped(job.plan)
    ensures tight == job.(size := tight.size)
    ensures var begun := [Begin(authority), Write];
            var crashed := begun + [Run(Some(seen)), Write, Crash];
            && Replay(tight, begun).disk == Retained(Initial(tight, authority)) && Fits(tight.size, Initial(tight, authority))
            && Replay(tight, crashed).disk.Retained? && !Replay(tight, crashed).disk.state.result.Terminal()
            && !Fits(tight.size, Replay(tight, crashed).disk.state)
            && Replay(tight, crashed + later) == Replay(tight, crashed)
  {
    tight := job.(size := (s: State) => if s.steps == [] then 0 else MAX_BYTES + 1);
    var first := Initial(tight, authority);
    FirstWrite(tight, authority);
    FirstReceipt(tight, first, seen);
    NextIsWrittenUnread(tight, [Begin(authority), Write], seen, later);
  }

  lemma FirstWrite(job: Job, authority: Authority)
    requires Shaped(job.plan)
    ensures Replay(job, [Begin(authority), Write]) == World(Retained(Initial(job, authority)), [], At(Initial(job, authority)))
  {
    OneMore(job, [], Begin(authority));
    OneMore(job, [Begin(authority)], Write);
    assert [] + [Begin(authority)] == [Begin(authority)];
    assert [Begin(authority)] + [Write] == [Begin(authority), Write];
  }

  /** The first action is no recollection, so its receipt is written whatever was seen. */
  lemma FirstReceipt(job: Job, s: State, seen: Observation)
    requires Shaped(job.plan) && s.result == InProgress && s.steps == []
    ensures var next := Next(job, s, seen); next.Some? && next.value.steps != [] && !next.value.result.Terminal()
  {
    hide Argv;
  }

  /** A terminal state is never rewritten and no later invocation runs a command. */
  lemma {:induction false} TerminalIsAbsorbing(job: Job, moves: seq<Move>, later: seq<Move>)
    requires Shaped(job.plan) && Replay(job, moves).disk.Retained?
    requires Replay(job, moves).disk.state.result.Terminal()
    ensures Replay(job, moves + later).disk == Replay(job, moves).disk
    ensures Replay(job, moves + later).trace == Replay(job, moves).trace
  {
    hide Earned, Stutters, Told, Next, Argv, Row, Valid, Body;
    if later == [] {
      assert moves + later == moves;
    } else {
      var most := later[..|later| - 1];
      TerminalIsAbsorbing(job, moves, most);
      EveryWorldIsSound(job, moves + most);
      assert (moves + later)[..|moves + later| - 1] == moves + most;
    }
  }

  /** The first state written fixes the authority of every later one. */
  lemma {:induction false} OneAuthority(job: Job, moves: seq<Move>, later: seq<Move>)
    requires Shaped(job.plan) && Replay(job, moves).disk.Retained?
    ensures Replay(job, moves + later).disk.Retained?
    ensures Replay(job, moves + later).disk.state.authority == Replay(job, moves).disk.state.authority
  {
    hide Earned, Stutters, Told, Next, Argv, Row, Valid;
    if later == [] {
      assert moves + later == moves;
    } else {
      var most := later[..|later| - 1];
      OneAuthority(job, moves, most);
      EveryWorldIsSound(job, moves + most);
      assert (moves + later)[..|moves + later| - 1] == moves + most;
    }
  }

  /** Commands that may still be needed from a state on: the rest of the plan, then the whole rollback. */
  function Budget(s: State): nat {
    if s.result == InProgress then (if |s.steps| <= 13 then 13 - |s.steps| else 0) + 10
    else if s.result == RollbackInProgress then (if |s.rollbacks| <= 10 then 10 - |s.rollbacks| else 0)
    else 0
  }

  lemma NextSpendsBudget(job: Job, s: State, seen: Observation)
    requires Shaped(job.plan) && Written(job, s) && Resumable(job.plan, s) && Next(job, s, seen).Some?
    ensures Budget(Next(job, s, seen).value) < Budget(s)
    ensures Budget(Next(job, s, seen).value) == 0 <==> Next(job, s, seen).value.result.Terminal()
  {
    hide Next, Read, ReceiptOf, Argv, Row, InOrder, FactsFrom, Body;
    NextIsWritten(job, s, seen);
    NextAppends(job, s, seen);
  }

  // ----- going on from any accepted state ----------------------------------------------

  /** What the executor may rely on in a state that its loader accepts. */
  lemma AcceptedIs(job: Job, authority: Authority, s: State)
    requires Shaped(job.plan) && Accepts(job.plan, authority, s)
    ensures s.authority == authority
    ensures s.result == InProgress ==>
              |s.steps| < 13 && s == Body(job, authority, InProgress, s.steps, [], s.factsFingerprint, s.factsPath, false, false)
    ensures s.result == RollbackInProgress ==>
              |s.rollbacks| < 10 && s == Body(job, authority, RollbackInProgress, s.steps, s.rollbacks, None, None, false, false)
    ensures s.result.Terminal() || Resumable(job.plan, s)
  {
    hide InOrder, AllSucceeded, IsFingerprint;
  }

  lemma ForwardIsAccepted(job: Job, s: State, receipt: Receipt, r: Reading)
    requires Shaped(job.plan) && Accepts(job.plan, s.authority, s) && s.result == InProgress && |s.steps| < 13
    requires ReadingFits(job, false, |s.steps|, r)
    requires receipt.sequence == |s.steps| + 1 && receipt.action == job.plan.actions[|s.steps|]
    requires receipt.returncode == r.result.returncode
    ensures Accepts(job.plan, s.authority, AfterForward(job, s, receipt, r))
  {
    hide IsFingerprint;
  }

  lemma RollbackIsAccepted(job: Job, s: State, receipt: Receipt, r: Reading)
    requires Shaped(job.plan) && Accepts(job.plan, s.authority, s) && s.result == RollbackInProgress && |s.rollbacks| < 10
    requires receipt.sequence == |s.rollbacks| + 1 && receipt.action == job.plan.rollbackActions[|s.rollbacks|]
    ensures Accepts(job.plan, s.authority, AfterRollback(job, s, receipt, r))
  {
    hide IsFingerprint, AllSucceeded;
  }

  /** One more receipt on an accepted state, whoever wrote it, gives an accepted state. */
  lemma NextIsAccepted(job: Job, s: State, seen: Observation)
    requires Shaped(job.plan) && Accepts(job.plan, s.authority, s) && Resumable(job.plan, s) && Next(job, s, seen).Some?
    ensures Accepts(job.plan, s.authority, Next(job, s, seen).value) && Next(job, s, seen).value.authority == s.authority
  {
    hide Accepts, ReadingFits;
    var k := NextIndex(s);
    var raw := Row(job.plan, Rolling(s), k);
    ReadFits(job, Rolling(s), k, seen);
    var r := Read(job, raw, Rolling(s), seen).value;
    var receipt := MakeReceipt(k + 1, raw, Argv(job, raw, Rolling(s)), r.result, r.readback);
    if Rolling(s) {
      RollbackIsAccepted(job, s, receipt, r);
    } else {
      ForwardIsAccepted(job, s, receipt, r);
    }
  }

  /** Each state durable or in hand is accepted, under one authority. */
  predicate AcceptedWorld(job: Job, w: World) {
    && !w.disk.Unreadable?
    && (w.disk.Retained? ==> Accepts(job.plan, w.disk.state.authority, w.disk.state))
    && (w.process.At? ==> w.disk == Retained(w.process.state) && !w.process.state.result.Terminal())
    && (w.process.Writing? ==>
          && Accepts(job.plan, w.process.state.authority, w.process.state)
          && (w.disk.Retained? ==> w.disk.state.authority == w.process.state.authority && !w.disk.state.result.Terminal()))
  }

  lemma MoveKeepsAccepted(job: Job, w: World, move: Move)
    requires Shaped(job.plan) && AcceptedWorld(job, w)
    ensures AcceptedWorld(job, After(job, w, move))
  {
    hide Accepts, Next, Argv, Row, Fits;
    match move
    case Begin(authority) =>
      InitialIsWritten(job, authority);
      WrittenIsAccepted(job, Initial(job, authority));
    case Run(seen) =>
      if w.process.At? && Resumable(job.plan, w.process.state) && seen.Some? && Next(job, w.process.state, seen.value).Some? {
        NextIsAccepted(job, w.process.state, seen.value);
      }
    case Write =>
    case Crash =>
  }

  /** From any accepted state, whoever wrote it, every later durable state is accepted too. */
  lemma {:induction false} AcceptedLeadsToAccepted(job: Job, disk: Disk, moves: seq<Move>)
    requires Shaped(job.plan) && AcceptedWorld(job, World(disk, [], Idle))
    ensures AcceptedWorld(job, ReplayFrom(job, disk, moves))
  {
    if moves != [] {
      AcceptedLeadsToAccepted(job, disk, moves[..|moves| - 1]);
      MoveKeepsAccepted(job, ReplayFrom(job, disk, moves[..|moves| - 1]), moves[|moves| - 1]);
    }
  }

  // ----- exactly the states that histories leave ---------------------------------------

  /** Some observation of the k-th action gives this receipt, whole. */
  ghost predicate Observable(job: Job, rollback: bool, k: nat, receipt: Receipt)
    requires Shaped(job.plan) && k < (if rollback then 10 else 13)
  {
    exists seen :: ReceiptOf(job, rollback, k, seen) == Some(receipt)
  }

  /** Every receipt is one that its own action can give. */
  ghost predicate Genuine(job: Job, s: State)
    requires Shaped(job.plan)
  {
    && |s.steps| <= 13 && |s.rollbacks| <= 10
    && (forall k | 0 <= k < |s.steps| :: Observable(job, false, k, s.steps[k]))
    && (forall k | 0 <= k < |s.rollbacks| :: Observable(job, true, k, s.rollbacks[k]))
  }

  /** What the validator does not compare: where a rollback starts, what its verdict rests on, and whose facts are retained. */
  predicate Consistent(job: Job, s: State) {
    match s.result
    case InProgress => |s.steps| == 12 ==> FactsFrom(job, s, s.steps[11], false)
    case Complete => |s.steps| == 13 ==> FactsFrom(job, s, s.steps[11], false)
    case RollbackInProgress => FailedLast(s.steps)
    case FailedRolledBack =>
      FailedLast(s.steps) && AllSucceeded(s.rollbacks) && (|s.rollbacks| == 10 ==> FactsFrom(job, s, s.rollbacks[9], true))
    case FailedRollbackUnverified =>
      && FailedLast(s.steps) && !AllSucceeded(s.rollbacks)
      && (|s.rollbacks| == 10 ==>
            if s.rollbacks[9].returncode == 0 then FactsFrom(job, s, s.rollbacks[9], true) else NoFacts(s))
    case PhaseCompleteReplanRequired => true
  }

  /** An accepted state is of the written shape exactly when it is consistent. */
  lemma AcceptedAndConsistent(job: Job, s: State)
    requires Shaped(job.plan)
    ensures Written(job, s) <==> Accepts(job.plan, s.authority, s) && Consistent(job, s)
  {
    if Written(job, s) {
      WrittenIsAccepted(job, s);
    }
  }

  /** The state before the last receipt. */
  function Before(job: Job, s: State): State
    requires Shaped(job.plan) && (s.steps != [] || s.rollbacks != [])
  {
    if s.rollbacks != [] then
      Body(job, s.authority, RollbackInProgress, s.steps, s.rollbacks[..|s.rollbacks| - 1], None, None, false, false)
    else
      var steps := s.steps[..|s.steps| - 1];
      var facts := |steps| == 12 && steps[11].readback.FactsFingerprint?;
      Body(job, s.authority, InProgress, steps, [],
           if facts then Some(steps[11].readback.fingerprint) else None,
           if facts then Some(OutputPath(job, false)) else None, false, false)
  }

  /** A successful recollection receipt names the fingerprint that was read. */
  lemma RecollectedReceiptNames(job: Job, rollback: bool, receipt: Receipt)
    requires Shaped(job.plan) && Observable(job, rollback, if rollback then 9 else 11, receipt) && receipt.returncode == 0
    ensures receipt.readback.FactsFingerprint? && IsFingerprint(receipt.readback.fingerprint)
  {
    var k: nat := if rollback then 9 else 11;
    var seen :| ReceiptOf(job, rollback, k, seen) == Some(receipt);
    ReadFits(job, rollback, k, seen);
  }

  lemma BeforeIsWritten(job: Job, s: State)
    requires Shaped(job.plan) && Written(job, s) && Genuine(job, s) && (s.steps != [] || s.rollbacks != [])
    ensures var p := Before(job, s);
            && Written(job, p) && Genuine(job, p) && Resumable(job.plan, p)
            && Rolling(p) == (s.rollbacks != []) && NextIndex(p) == (if Rolling(p) then |s.rollbacks| else |s.steps|) - 1
  {
    hide Observable;
    if s.rollbacks == [] {
      var steps := s.steps[..|s.steps| - 1];
      if |steps| == 12 {
        assert steps[11] == s.steps[11] && steps[11].returncode == 0;
        RecollectedReceiptNames(job, false, steps[11]);
      }
    }
  }

  /** Observing the last receipt again turns the state before it into the state itself. */
  lemma BeforeLeadsOn(job: Job, s: State, seen: Observation)
    requires Shaped(job.plan) && Written(job, s) && Genuine(job, s) && (s.steps != [] || s.rollbacks != [])
    requires Resumable(job.plan, Before(job, s))
    requires var p := Before(job, s);
             && Rolling(p) == (s.rollbacks != []) && NextIndex(p) == (if Rolling(p) then |s.rollbacks| else |s.steps|) - 1
    requires ReceiptOf(job, s.rollbacks != [], if s.rollbacks != [] then |s.rollbacks| - 1 else |s.steps| - 1, seen)
             == Some(if s.rollbacks != [] then s.rollbacks[|s.rollbacks| - 1] else s.steps[|s.steps| - 1])
    ensures Next(job, Before(job, s), seen) == Some(s)
  {
    hide Next, Written, Genuine, Argv, ReceiptOf;
    if s.rollbacks != [] {
      LastRollbackLeadsOn(job, s, seen);
    } else {
      LastStepLeadsOn(job, s, seen);
    }
  }

  lemma LastRollbackLeadsOn(job: Job, s: State, seen: Observation)
    requires Shaped(job.plan) && Written(job, s) && s.rollbacks != [] && Resumable(job.plan, Before(job, s))
    requires ReceiptOf(job, true, |s.rollbacks| - 1, seen) == Some(s.rollbacks[|s.rollbacks| - 1])
    ensures Next(job, Before(job, s), seen) == Some(s)
  {
    hide IsRecollect, Argv, InOrder, FailedLast, DeploymentReady, FirewallReady, ManifestReady, RollbackReady;
    ReadFits(job, true, |s.rollbacks| - 1, seen);
    assert s.rollbacks == s.rollbacks[..|s.rollbacks| - 1] + [s.rollbacks[|s.rollbacks| - 1]];
  }

  lemma LastStepLeadsOn(job: Job, s: State, seen: Observation)
    requires Shaped(job.plan) && Written(job, s) && s.rollbacks == [] && s.steps != [] && Resumable(job.plan, Before(job, s))
    requires ReceiptOf(job, false, |s.steps| - 1, seen) == Some(s.steps[|s.steps| - 1])
    ensures Next(job, Before(job, s), seen) == Some(s)
  {
    hide IsRecollect, Argv, InOrder, DeploymentReady, FirewallReady, ManifestReady, RollbackReady;
    ReadFits(job, false, |s.steps| - 1, seen);
    assert s.steps == s.steps[..|s.steps| - 1] + [s.steps[|s.steps| - 1]];
  }

  /** A history for every genuine state of the written shape: its own receipts, observed one after another. */
  lemma {:induction false} HistoryOf(job: Job, s: State) returns (moves: seq<Move>)
    requires Shaped(job.plan) && Written(job, s) && Genuine(job, s)
    ensures Replay(job, moves).disk == Retained(s)
    ensures Replay(job, moves).process == if s.result.Terminal() then Idle else At(s)
    decreases |s.steps| + |s.rollbacks|
  {
    hide Next, Genuine, Argv, Row, ReceiptOf, InOrder, FactsFrom;
    if s.steps == [] && s.rollbacks == [] {
      moves := [] + [Begin(s.authority)] + [Write];
      OneMore(job, [], Begin(s.authority));
      OneMore(job, [] + [Begin(s.authority)], Write);
    } else {
      var p := Before(job, s);
      BeforeIsWritten(job, s);
      var before := HistoryOf(job, p);
      var seen := ObservationOf(job, s);
      BeforeLeadsOn(job, s, seen);
      OneMore(job, before, Run(Some(seen)));
      OneMore(job, before + [Run(Some(seen))], Write);
      moves := before + [Run(Some(seen))] + [Write];
      StepToWritten(job, Replay(job, before), p, seen, s);
    }
  }

  lemma StepToWritten(job: Job, w: World, p: State, seen: Observation, s: State)
    requires Shaped(job.plan) && w.process == At(p) && Resumable(job.plan, p) && Next(job, p, seen) == Some(s)
    ensures var after := After(job, After(job, w, Run(Some(seen))), Write);
            after.disk == Retained(s) && after.process == if s.result.Terminal() then Idle else At(s)
  {
    hide Next, Argv, Row;
  }

  lemma ObservationOf(job: Job, s: State) returns (seen: Observation)
    requires Shaped(job.plan) && Genuine(job, s) && (s.steps != [] || s.rollbacks != [])
    ensures ReceiptOf(job, s.rollbacks != [], if s.rollbacks != [] then |s.rollbacks| - 1 else |s.steps| - 1, seen)
            == Some(if s.rollbacks != [] then s.rollbacks[|s.rollbacks| - 1] else s.steps[|s.steps| - 1])
  {
    hide ReceiptOf;
    var rollback := s.rollbacks != [];
    var k := if rollback then |s.rollbacks| - 1 else |s.steps| - 1;
    var receipt := if rollback then s.rollbacks[k] else s.steps[k];
    assert Observable(job, rollback, k, receipt);
    seen :| ReceiptOf(job, rollback, k, seen) == Some(receipt);
  }

  /** What a history recorded can be observed again. */
  lemma RecordedIsGenuine(job: Job, trace: seq<Attempt>, s: State)
    requires Shaped(job.plan) && Recorded(job, trace, s) && |s.steps| <= 13 && |s.rollbacks| <= 10
    ensures Genuine(job, s)
  {
    hide ReceiptOf;
    forall k | 0 <= k < |s.steps| ensures Observable(job, false, k, s.steps[k]) {
      assert Seen(job, trace, |trace|, false, k, s.steps[k]);
      var i :| 0 <= i < |trace| && Justifies(job, trace[i], false, k, s.steps[k]);
      assert ReceiptOf(job, false, k, trace[i].seen.value) == Some(s.steps[k]);
    }
    forall k | 0 <= k < |s.rollbacks| ensures Observable(job, true, k, s.rollbacks[k]) {
      assert Seen(job, trace, |trace|, true, k, s.rollbacks[k]);
      var i :| 0 <= i < |trace| && Justifies(job, trace[i], true, k, s.rollbacks[k]);
      assert ReceiptOf(job, true, k, trace[i].seen.value) == Some(s.rollbacks[k]);
    }
  }

  lemma LeftIsGenuine(job: Job, moves: seq<Move>, s: State)
    requires Shaped(job.plan) && Replay(job, moves).disk == Retained(s)
    ensures Written(job, s) && Genuine(job, s)
  {
    hide Replay, Stutters, Earned, Recorded, Aligned;
    EveryWorldIsSound(job, moves);
    assert Told(job, Replay(job, moves).trace, s);
    RecordedIsGenuine(job, Replay(job, moves).trace, s);
  }

  /**
   The validator is wider than the writer. Finished or not, a state is what some history leaves
   exactly when the validator accepts it, each receipt is one that its own action can give, in every
   field, and the state is consistent with its receipts.
   */
  lemma AcceptedVersusWritten(job: Job, s: State)
    requires Shaped(job.plan)
    ensures (exists moves :: Replay(job, moves).disk == Retained(s))
       <==> Accepts(job.plan, s.authority, s) && Genuine(job, s) && Consistent(job, s)
  {
    hide Accepts, Replay, Written, Genuine, Consistent;
    AcceptedAndConsistent(job, s);
    if exists moves :: Replay(job, moves).disk == Retained(s) {
      var moves :| Replay(job, moves).disk == Retained(s);
      LeftIsGenuine(job, moves, s);
    } else if Written(job, s) && Genuine(job, s) {
      var moves := HistoryOf(job, s);
      assert Replay(job, moves).disk == Retained(s);
    }
  }

  /** A rollback whose only forward receipt succeeded: accepted for resumption, yet in no history. */
  lemma AcceptedButNeverWritten(job: Job, authority: Authority, receipt: Receipt)
    requires Shaped(job.plan)
    requires receipt.sequence == 1 && receipt.action == job.plan.actions[0] && receipt.returncode == 0
    ensures var s := Body(job, authority, RollbackInProgress, [receipt], [], None, None, false, false);
            && Accepts(job.plan, authority, s)
            && forall moves :: Replay(job, moves).disk != Retained(s)
  {
    var s := Body(job, authority, RollbackInProgress, [receipt], [], None, None, false, false);
    forall moves ensures Replay(job, moves).disk != Retained(s) {
      EveryWorldIsSound(job, moves);
    }
  }
}
