/**
 The executor of one deployment plan, as it runs (tools/hk_v1_host_apply.py:703-717,
 1335-1560). Its journal field is the file at the state path. Every effect appends one move
 to the ghost list `moves`, and `Valid` says that replaying those moves gives the executor's
 own fields: so all that HostDeploymentRuns proves of histories holds of this code.
 */
module HostExecutor {
  import opened Wrappers
  import opened Text
  import opened HostPlan
  import opened HostJournal
  import opened HostDeployment
  import opened HostReadbacks
  import opened HostDeploymentRuns

  /** The verdict on a retained terminal state, given what the host reads back now (`None`: it cannot be read). */
  function ReplayVerdict(plan: HostPlan, s: State, current: Option<FactsView>): Result<State, Error>
    requires plan.Deployment?
  {
    if s.factsFingerprint.Some? && s.factsPath.None? then Failure(RecollectReadbackInvalid)
    else if s.factsFingerprint.Some? && (current.None? || Some(current.value.fingerprint) != s.factsFingerprint) then
      Failure(RecollectReadbackInvalid)
    else if s.result == Complete
            && (s.factsPath.None? || current.None? || !FirewallReady(current.value)
                || !DeploymentReady(current.value, plan.expectedImages)
                || !ManifestReady(current.value, plan.expectedImages) || !current.value.bootstrapReady) then
      Failure(DeploymentReadbackInvalid)
    else if s.result == FailedRolledBack
            && (s.factsPath.None? || current.None? || !RollbackReady(current.value, plan.predecessorImages)) then
      Failure(RollbackReadbackInvalid)
    else Success(s)
  }

  /** The retained facts are still the ones on the host. */
  predicate FactsStand(s: State, current: Option<FactsView>) {
    s.factsFingerprint.Some? ==> s.factsPath.Some? && current.Some? && current.value.fingerprint == s.factsFingerprint.value
  }

  /** And they still show what the verdict rests on: the launched host, or its predecessors. */
  ghost predicate VerdictStands(plan: HostPlan, s: State, current: Option<FactsView>)
    requires plan.Deployment?
  {
    && (s.result == Complete ==> s.factsPath.Some? && current.Some? && Launched(current.value, plan.expectedImages))
    && (s.result == FailedRolledBack ==>
          s.factsPath.Some? && current.Some? && Restored(current.value.containers, plan.predecessorImages))
  }

  /** A retained verdict is repeated exactly while the host still bears it out. */
  ghost predicate Replays(plan: HostPlan, s: State, current: Option<FactsView>, r: Result<State, Error>)
    requires plan.Deployment?
  {
    if !FactsStand(s, current) then r == Failure(RecollectReadbackInvalid)
    else if VerdictStands(plan, s, current) then r == Success(s)
    else r == Failure(if s.result == Complete then DeploymentReadbackInvalid else RollbackReadbackInvalid)
  }

  lemma VerdictReplays(plan: HostPlan, s: State, current: Option<FactsView>)
    requires plan.Deployment?
    ensures Replays(plan, s, current, ReplayVerdict(plan, s, current))
  {
    hide Launched, Restored, FirewallReady, DeploymentReady, ManifestReady, RollbackReady;
    if current.Some? {
      LaunchedIs(current.value, plan.expectedImages);
      RestoredIs(current.value, plan.predecessorImages);
    }
  }

  /** Commands an invocation can still issue from what is on disk. */
  function DiskBudget(disk: Disk): nat {
    match disk
    case Absent => 23
    case Unreadable => 0
    case Retained(s) => Budget(s)
  }

  /** The move made by a command whose result was read: its receipt is appended and due to be written. */
  lemma RunLeadsOn(job: Job, s: State, seen: Observation, r: Reading)
    requires Resumable(job.plan, s)
    requires Read(job, Row(job.plan, Rolling(s), NextIndex(s)), Rolling(s), seen) == Some(r)
    ensures var raw := Row(job.plan, Rolling(s), NextIndex(s));
            var receipt := MakeReceipt(NextIndex(s) + 1, raw, Argv(job, raw, Rolling(s)), r.result, r.readback);
            Next(job, s, seen) == Some(if Rolling(s) then AfterRollback(job, s, receipt, r) else AfterForward(job, s, receipt, r))
  {
  }

  class Executor {
    const job: Job
    ghost const initial: Disk
    var disk: Disk
    ghost var trace: seq<Attempt>
    ghost var process: Process
    ghost var moves: seq<Move>

    ghost predicate Valid()
      reads this
    {
      Shaped(job.plan) && ReplayFrom(job, initial, moves) == World(disk, trace, process)
    }

    /** An executor over whatever lies at the state path. */
    constructor (job: Job, disk: Disk)
      requires Shaped(job.plan)
      ensures Valid() && this.job == job && initial == disk && this.disk == disk && trace == [] && process.Idle?
    {
      this.job, this.disk, initial := job, disk, disk;
      trace, process, moves := [], Idle, [];
    }

    /** Note one move that leaves the disk alone. */
    ghost method Note(move: Move)
      requires Valid() && After(job, World(disk, trace, process), move).disk == disk
      modifies this`trace, this`process, this`moves
      ensures Valid() && moves == old(moves) + [move]
      ensures World(disk, trace, process) == After(job, World(disk, old(trace), old(process)), move)
    {
      OneMoreFrom(job, initial, moves, move);
      var w := After(job, World(disk, trace, process), move);
      moves, trace, process := moves + [move], w.trace, w.process;
    }

    /** The runner: it may return anything, or raise. */
    method RunCommand(argv: seq<string>) returns (seen: Option<Observation>)
      requires Valid() && process.At? && Resumable(job.plan, process.state)
      requires var s := process.state; argv == Argv(job, Row(job.plan, Rolling(s), NextIndex(s)), Rolling(s))
      modifies this`trace, this`process, this`moves
      ensures Valid() && moves == old(moves) + [Run(seen)]
      ensures World(disk, trace, process) == After(job, World(disk, old(trace), old(process)), Run(seen))
    {
      seen := *;
      Note(Run(seen));
    }

    /** `_write_state`: an atomic replacement, which may fail before it or after it. */
    method WriteState(content: State) returns (ok: bool)
      requires Valid() && process == Writing(content)
      modifies this
      ensures Valid() && trace == old(trace) && old(moves) <= moves
      ensures ok ==> disk == Retained(content) && process == (if content.result.Terminal() then Idle else At(content))
      ensures ok ==> moves == old(moves) + [Write]
      ensures !ok ==> process.Idle? && disk in {old(disk), Retained(content)}
      ensures !ok ==> moves != old(moves) && moves[|moves| - 1] == Crash
    {
      var replaced: bool := *;
      if replaced {
        OneMoreFrom(job, initial, moves, Write);
        moves, disk := moves + [Write], Retained(content);
        process := if content.result.Terminal() then Idle else At(content);
      }
      ok := *;
      ok := ok && replaced;
      if !ok {
        Note(Crash);
      }
    }

    /** `_deployment_action_result` */
    method ActionResult(raw: string, rollback: bool)
      returns (argv: seq<string>, reading: Option<Reading>, ghost seen: Option<Observation>)
      requires Valid() && process.At? && Resumable(job.plan, process.state)
      requires var s := process.state; rollback == Rolling(s) && raw == Row(job.plan, rollback, NextIndex(s))
      modifies this`trace, this`process, this`moves
      ensures Valid() && moves == old(moves) + [Run(seen)]
      ensures World(disk, trace, process) == After(job, World(disk, old(trace), old(process)), Run(seen))
      ensures argv == Argv(job, raw, rollback) == CommandFor(job, rollback, NextIndex(old(process).state))
      ensures reading == if seen.None? then None else Read(job, raw, rollback, seen.value)
      ensures seen.Some? && reading.Some? ==> ReadsWell(job, rollback, NextIndex(old(process).state), seen.value, reading.value)
    {
      hide ReadsWell, CommandFor, Launched, Restored, DeploymentReady, ManifestReady, FirewallReady, RollbackReady, IsFingerprint, Contains;
      CommandIs(job, rollback, NextIndex(process.state));
      forall observed: Observation | Read(job, raw, rollback, observed).Some?
        ensures ReadsWell(job, rollback, NextIndex(process.state), observed, Read(job, raw, rollback, observed).value)
      {
        ReadingAdmits(job, rollback, NextIndex(process.state), observed);
      }
      var outcome: Option<Observation>;
      if !Contains(raw, RECOLLECT) {
        argv := ["/usr/bin/bash", job.repositoryRoot + "/infrastructure/poc/provisioning/90-host-apply.sh",
                 raw, job.stateDirectory];
        outcome := RunCommand(argv);
        seen := outcome;
        if outcome.None? {
          return argv, None, seen;
        }
        var result := outcome.value.result;
        return argv, Some(Reading(result, ActionComplete(result.returncode == 0), None, None)), seen;
      }
      var output := OutputPath(job, rollback);
      argv := [job.repositoryRoot + "/.venv/bin/python", "-m", "tools.v1_poc_collect_host_facts",
               "--acknowledge-read-only-host-inspection", "--output", output];
      outcome := RunCommand(argv);
      seen := outcome;
      if outcome.None? {
        return argv, None, seen;
      }
      var result, facts := outcome.value.result, outcome.value.facts;
      if result.returncode != 0 {
        return argv, Some(Reading(result, FactsNotCollected, None, None)), seen;
      }
      if !IsFingerprint(facts.fingerprint) {
        return argv, None, seen;
      }
      if !rollback && !FirewallReady(facts) {
        var failed := CommandResult(1, result.stdout, "HOST_APPLY_FIREWALL_READBACK_INVALID");
        return argv, Some(Reading(failed, FirewallNotAdmitted, None, None)), seen;
      }
      if !rollback && (!DeploymentReady(facts, job.plan.expectedImages)
                       || !ManifestReady(facts, job.plan.expectedImages) || !facts.bootstrapReady) {
        var failed := CommandResult(1, result.stdout, "HOST_APPLY_DEPLOYMENT_READBACK_INVALID");
        return argv, Some(Reading(failed, DeploymentNotAdmitted, None, None)), seen;
      }
      if rollback && !RollbackReady(facts, job.plan.predecessorImages) {
        var failed := CommandResult(1, result.stdout, "HOST_APPLY_ROLLBACK_READBACK_INVALID");
        return argv, Some(Reading(failed, RollbackNotAdmitted, None, None)), seen;
      }
      return argv, Some(Reading(result, FactsFingerprint(facts.fingerprint), Some(facts.fingerprint), Some(output))), seen;
    }

    /** The invocation stopped because a command raised or a write failed, not for any other reason. */
    ghost predicate Stopped(before: seq<Move>)
      reads this
    {
      && |moves| > |before|
      && process.Idle?
      && (moves[|moves| - 1].Run? || moves[|moves| - 1].Crash?)
    }

    /** `_deployment_rollback` */
    method Rollback(authority: Authority, steps: seq<Receipt>, retained: seq<Receipt>) returns (r: Result<State, Error>)
      requires Valid() && process.At? && disk == Retained(process.state)
      requires process.state == Body(job, authority, RollbackInProgress, steps, retained, None, None, false, false)
      requires |retained| < 10
      modifies this
      ensures Valid() && process.Idle? && old(moves) <= moves
      ensures |trace| <= |old(trace)| + 10 - |retained|
      ensures r.Success? ==> disk == Retained(r.value) && r.value.authority == authority
      ensures r.Success? ==> r.value.result in {FailedRolledBack, FailedRollbackUnverified}
      ensures r.Failure? ==> r.error == Interrupted && Stopped(old(moves))
    {
      hide IsRecollect, Read, Load, ReplayFrom, Argv, InOrder, ReadsWell, CommandFor;
      var rollbacks := retained;
      var recollectedFingerprint, recollectedPath := None, None;
      var sequence := |rollbacks| + 1;
      while sequence <= |job.plan.rollbackActions|
        invariant |retained| + 1 <= sequence == |rollbacks| + 1 <= 11
        invariant Valid() && old(moves) <= moves
        invariant |trace| == |old(trace)| + |rollbacks| - |retained|
        invariant sequence <= 10 ==>
                    && process == At(Body(job, authority, RollbackInProgress, steps, rollbacks, None, None, false, false))
                    && disk == Retained(process.state)
                    && recollectedFingerprint == None && recollectedPath == None
        invariant sequence == 11 ==>
                    var restored := AllSucceeded(rollbacks) && recollectedFingerprint.Some?;
                    process == Writing(Body(job, authority, if restored then FailedRolledBack else FailedRollbackUnverified,
                                            steps, rollbacks, recollectedFingerprint, recollectedPath, restored, false))
      {
        var raw := job.plan.rollbackActions[sequence - 1];
        ghost var s := process.state;
        var argv, reading, seen := ActionResult(raw, true);
        if reading.None? {
          return Failure(Interrupted);
        }
        var observed := reading.value;
        ReadFits(job, true, sequence - 1, seen.value);
        RunLeadsOn(job, s, seen.value, observed);
        rollbacks := rollbacks + [MakeReceipt(sequence, raw, argv, observed.result, observed.readback)];
        if observed.fingerprint.Some? {
          recollectedFingerprint, recollectedPath := observed.fingerprint, observed.path;
        }
        if sequence < |job.plan.rollbackActions| {
          var progress := Body(job, authority, RollbackInProgress, steps, rollbacks, None, None, false, false);
          var ok := WriteState(progress);
          if !ok {
            return Failure(Interrupted);
          }
        }
        sequence := sequence + 1;
      }
      var rollbackComplete := AllSucceeded(rollbacks) && recollectedFingerprint.Some?;
      var name := if rollbackComplete then FailedRolledBack else FailedRollbackUnverified;
      var failed := Body(job, authority, name, steps, rollbacks, recollectedFingerprint, recollectedPath, rollbackComplete, false);
      var ok := WriteState(failed);
      r := if ok then Success(failed) else Failure(Interrupted);
    }

    /** `_apply_deployment_locked` */
    method Apply(authority: Authority, helperPresent: bool, current: Option<FactsView>) returns (r: Result<State, Error>)
      requires Valid() && process.Idle?
      modifies this
      ensures Valid() && process.Idle? && old(moves) <= moves
      ensures r.Success? ==> disk == Retained(r.value) && r.value.result.Terminal() && r.value.authority == authority
      ensures |trace| <= |old(trace)| + DiskBudget(old(disk)) && (old(disk).Absent? ==> |trace| <= |old(trace)| + 23)
      ensures !helperPresent ==> r == Failure(HelperUnavailable) && disk == old(disk) && trace == old(trace)
      ensures var loaded := Load(job.size, old(disk), job.plan, authority);
              && (helperPresent && loaded.Failure? ==> r == Failure(StateInvalid) && disk == old(disk) && trace == old(trace))
              && (helperPresent && loaded.Success? && loaded.value.Some? && loaded.value.value.result.Terminal() ==>
                    && disk == old(disk) && trace == old(trace)
                    && Replays(job.plan, loaded.value.value, current, r))
              && (helperPresent && loaded.Success? && (loaded.value.None? || !loaded.value.value.result.Terminal()) && r.Failure? ==>
                    r.error == Interrupted && Stopped(old(moves)))
    {
      hide IsRecollect, Read, ReplayFrom, Argv, InOrder, AllSucceeded, Accepts, DeploymentReady, FirewallReady, ManifestReady,
        RollbackReady, Next, Replays;
      if !helperPresent {
        return Failure(HelperUnavailable);
      }
      var loaded := Load(job.size, disk, job.plan, authority);
      if loaded.Failure? {
        return Failure(loaded.error);
      }
      Note(Begin(authority));
      var steps, rollbacks := [], [];
      var recollectedFingerprint, recollectedPath := None, None;
      if loaded.value.Some? {
        var retained := loaded.value.value;
        AcceptedIs(job, authority, retained);
        if retained.result.Terminal() {
          r := ReplayVerdict(job.plan, retained, current);
          VerdictReplays(job.plan, retained, current);
          return;
        }
        steps, rollbacks := retained.steps, retained.rollbacks;
        recollectedFingerprint, recollectedPath := retained.factsFingerprint, retained.factsPath;
        if retained.result == RollbackInProgress {
          r := Rollback(authority, steps, rollbacks);
          return;
        }
      } else {
        var initial := Initial(job, authority);
        var ok := WriteState(initial);
        if !ok {
          return Failure(Interrupted);
        }
      }
      r := Forward(authority, steps, recollectedFingerprint, recollectedPath);
    }

    /** The forward loop of `_apply_deployment_locked`. */
    method Forward(authority: Authority, retained: seq<Receipt>, fingerprint: Option<string>, path: Option<string>)
      returns (r: Result<State, Error>)
      requires Valid() && process == At(Body(job, authority, InProgress, retained, [], fingerprint, path, false, false))
      requires disk == Retained(process.state) && |retained| < 13
      modifies this
      ensures Valid() && process.Idle? && old(moves) <= moves
      ensures |trace| <= |old(trace)| + 23 - |retained|
      ensures r.Success? ==> disk == Retained(r.value) && r.value.authority == authority && r.value.result.Terminal()
      ensures r.Failure? ==> r.error == Interrupted && Stopped(old(moves))
    {
      hide IsRecollect, Read, Load, ReplayFrom, Argv, AllSucceeded, InOrder, ReadsWell, CommandFor;
      var steps := retained;
      var recollectedFingerprint, recollectedPath := fingerprint, path;
      var sequence := |steps| + 1;
      while sequence <= |job.plan.actions|
        invariant |retained| + 1 <= sequence == |steps| + 1 <= 13
        invariant Valid() && old(moves) <= moves
        invariant |trace| == |old(trace)| + |steps| - |retained|
        invariant process == At(Body(job, authority, InProgress, steps, [], recollectedFingerprint, recollectedPath, false, false))
        invariant disk == Retained(process.state)
        decreases |job.plan.actions| - sequence
      {
        var raw := job.plan.actions[sequence - 1];
        ghost var s := process.state;
        var argv, reading, seen := ActionResult(raw, false);
        if reading.None? {
          return Failure(Interrupted);
        }
        var observed := reading.value;
        RunLeadsOn(job, s, seen.value, observed);
        steps := steps + [MakeReceipt(sequence, raw, argv, observed.result, observed.readback)];
        if observed.result.returncode != 0 {
          var progress := Body(job, authority, RollbackInProgress, steps, [], None, None, false, false);
          var ok := WriteState(progress);
          if !ok {
            return Failure(Interrupted);
          }
          r := Rollback(authority, steps, []);
          return;
        }
        if observed.fingerprint.Some? {
          recollectedFingerprint, recollectedPath := observed.fingerprint, observed.path;
        }
        if sequence < |job.plan.actions| {
          var progress := Body(job, authority, InProgress, steps, [], recollectedFingerprint, recollectedPath, false, false);
          var ok := WriteState(progress);
          if !ok {
            return Failure(Interrupted);
          }
        } else {
          var complete := Body(job, authority, Complete, steps, [], recollectedFingerprint, recollectedPath, false, true);
          var ok := WriteState(complete);
          r := if ok then Success(complete) else Failure(Interrupted);
          return;
        }
        sequence := sequence + 1;
      }
      assert false;
      r := Failure(StateInvalid);
    }
  }
}
