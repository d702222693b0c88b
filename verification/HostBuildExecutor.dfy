/**
 The executor of one image-build phase, as it runs (tools/hk_v1_host_apply.py:1130-1288,
 1563-1597). Replaying its ghost moves gives its own fields, so what HostBuildRuns proves of
 histories holds of this code.
 */
module HostBuildExecutor {
  import opened Wrappers
  import opened Text
  import opened HostPlan
  import opened HostJournal
  import opened HostGrammar
  import opened HostBuildPhase
  import opened HostBuildRecords
  import opened HostBuildRuns

  /** The verdict on a retained terminal state, given the facts and the results file read back now. */
  function ReplayVerdict(job: BuildJob, s: State, facts: Option<string>, results: Option<ResultsFile>): Result<State, Error>
    requires BuildShaped(job.plan)
  {
    if s.result != PhaseCompleteReplanRequired then Success(s)
    else if facts.None? || facts != s.factsFingerprint then Failure(RecollectReadbackInvalid)
    else if !ValidResults(job, results) || Some(job.digest(results.value)) != s.buildFingerprint
            || Some(ResultsPath(job)) != s.buildPath then Failure(BuildReadbackInvalid)
    else Success(s)
  }

  /** A retained verdict is repeated; a completed phase only while its facts and its results file still stand. */
  predicate Replays(job: BuildJob, s: State, facts: Option<string>, results: Option<ResultsFile>, r: Result<State, Error>)
    requires BuildShaped(job.plan)
  {
    if s.result != PhaseCompleteReplanRequired then r == Success(s)
    else if !(facts.Some? && s.factsFingerprint == facts) then r == Failure(RecollectReadbackInvalid)
    else if Current(job, results) && s.buildFingerprint == Some(job.digest(results.value))
            && s.buildPath == Some(job.repositoryRoot + "/var/hk-v1/host/application-build-results.json") then r == Success(s)
    else r == Failure(BuildReadbackInvalid)
  }

  lemma VerdictReplays(job: BuildJob, s: State, facts: Option<string>, results: Option<ResultsFile>)
    requires BuildShaped(job.plan)
    ensures Replays(job, s, facts, results, ReplayVerdict(job, s, facts, results))
  {
    hide ValidResults, Current;
    CurrentIs(job, results);
    if Current(job, results) {
      CurrentIsThere(job, results);
    }
  }

  lemma CurrentIsThere(job: BuildJob, results: Option<ResultsFile>)
    requires job.plan.BuildPhase? && Current(job, results)
    ensures results.Some?
  {
  }

  /** Commands an invocation can still issue from what is on disk. */
  function DiskBudget(disk: Disk): nat {
    match disk
    case Absent => 7
    case Unreadable => 0
    case Retained(s) => if s.result.Terminal() then 0 else if s.steps == [] then 7 else 6
  }

  /** The k-th attempt from here on is the inspection of the k-th predecessor's own container, and it returned. */
  predicate InspectsAt(job: BuildJob, trace: seq<Attempt>, from: nat, k: nat)
    requires BuildShaped(job.plan) && k < 5
  {
    && from + k < |trace|
    && trace[from + k].command == Inspect(k) && trace[from + k].argv == InspectCommand(job.plan.preserveActions[k].service)
    && trace[from + k].seen.Some?
  }

  /** And it found what the plan preserves. */
  predicate FindsAt(job: BuildJob, trace: seq<Attempt>, from: nat, k: nat)
    requires BuildShaped(job.plan) && k < 5
  {
    InspectsAt(job, trace, from, k) && Preserves(job.plan.preserveActions[k].imageId, trace[from + k].seen.value)
  }

  predicate Inspects(job: BuildJob, trace: seq<Attempt>, from: nat, count: nat)
    requires BuildShaped(job.plan) && count <= 5
  {
    |trace| == from + count && forall k | 0 <= k < count :: InspectsAt(job, trace, from, k)
  }

  predicate Finds(job: BuildJob, trace: seq<Attempt>, from: nat, count: nat)
    requires BuildShaped(job.plan) && count <= 5
  {
    forall k | 0 <= k < count :: FindsAt(job, trace, from, k)
  }

  lemma OneMoreInspects(job: BuildJob, trace: seq<Attempt>, from: nat, count: nat, a: Attempt)
    requires BuildShaped(job.plan) && count < 5 && Inspects(job, trace, from, count)
    requires a.command == Inspect(count) && a.argv == InspectCommand(job.plan.preserveActions[count].service) && a.seen.Some?
    ensures Inspects(job, trace + [a], from, count + 1)
    ensures Finds(job, trace + [a], from, count + 1)
       <==> Finds(job, trace, from, count) && Preserves(job.plan.preserveActions[count].imageId, a.seen.value)
  {
    hide InspectCommand, Preserves;
    forall k | 0 <= k < count
      ensures InspectsAt(job, trace + [a], from, k)
      ensures FindsAt(job, trace + [a], from, k) <==> FindsAt(job, trace, from, k)
    {
      assert InspectsAt(job, trace, from, k);
      assert (trace + [a])[from + k] == trace[from + k];
    }
    assert FindsAt(job, trace + [a], from, count) <==> Preserves(job.plan.preserveActions[count].imageId, a.seen.value);
  }

  class BuildExecutor {
    const job: BuildJob
    ghost const initial: Disk
    ghost const initialResults: Option<ResultsFile>
    var disk: Disk
    var results: Option<ResultsFile>
    ghost var trace: seq<Attempt>
    ghost var process: Process
    ghost var moves: seq<Move>

    ghost predicate Valid()
      reads this
    {
      Good(job) && ReplayFrom(job, initial, initialResults, moves) == World(disk, results, trace, process)
    }

    /** An executor over whatever lies at the two paths. */
    constructor (job: BuildJob, disk: Disk, results: Option<ResultsFile>)
      requires Good(job)
      ensures Valid() && this.job == job && initial == disk && initialResults == results
      ensures this.disk == disk && this.results == results && trace == [] && process.Idle?
    {
      this.job, this.disk, this.results, initial, initialResults := job, disk, results, disk, results;
      trace, process, moves := [], Idle, [];
    }

    /** Note one move, to a world with the same files. */
    ghost method Note(move: Move, w: World)
      requires Valid() && w == After(job, World(disk, results, trace, process), move) && w.disk == disk && w.results == results
      modifies this`trace, this`process, this`moves
      ensures Valid() && moves == old(moves) + [move] && trace == w.trace && process == w.process
    {
      hide After;
      OneMoreFrom(job, initial, initialResults, moves, move);
      moves, trace, process := moves + [move], w.trace, w.process;
    }

    /** The runner: it may return anything, or raise. */
    method RunCommand(command: Command, argv: seq<string>) returns (seen: Option<Seen>)
      requires Valid() && CommandDue(process) && command == DueCommand(process) && argv == ArgvOf(job, command)
      modifies this`trace, this`process, this`moves
      ensures Valid() && old(moves) <= moves
      ensures trace == old(trace) + [Attempt(command, argv, ReadOf(old(process)), seen)]
      ensures process == if seen.None? then Idle else Returned(job, old(process), seen.value)
    {
      hide Returned, ArgvOf;
      seen := *;
      Note(Run(seen), Ran(job, World(disk, results, trace, process), seen));
    }

    /** `_retained_build_results`; another executor may have replaced the file in the meantime. */
    method ReadResults() returns (file: Option<ResultsFile>)
      requires Valid() && (process.Rereading? || process.Reading?)
      modifies this`results, this`trace, this`process, this`moves
      ensures Valid() && old(moves) <= moves && trace == old(trace)
      ensures file.Some? ==> ValidResults(job, file)
      ensures file.None? ==> process.Idle?
      ensures file.Some? ==>
                var p := old(process);
                process == if p.Rereading? then Writing(Body(job, p.authority, InProgress, p.steps, [], None, Some(job.digest(file.value))))
                           else CollectDue(p.authority, p.steps, file.value)
    {
      hide ValidRows, Body;
      var others: bool := *;
      if others {
        var replaced: Option<ResultsFile> := *;
        OneMoreFrom(job, initial, initialResults, moves, Replace(replaced));
        results, moves := replaced, moves + [Replace(replaced)];
      }
      file := if ValidResults(job, results) then results else None;
      Note(Look, Looked(job, World(disk, results, trace, process)));
    }

    /** `_write_state` on the journal: an atomic replacement, which may be stopped before it or after it. */
    method WriteState(content: State) returns (ok: bool)
      requires Valid() && process == Writing(content)
      modifies this
      ensures Valid() && old(moves) <= moves && trace == old(trace) && results == old(results)
      ensures ok ==> disk == Retained(content)
      ensures ok ==> process == if content.result.Terminal() then Idle else Continue(content.authority, content.steps)
      ensures !ok ==> process.Idle?
    {
      var replaced: bool := *;
      if replaced {
        OneMoreFrom(job, initial, initialResults, moves, Write);
        disk := Retained(content);
        moves := moves + [Write];
        process := if content.result.Terminal() then Idle else Continue(content.authority, content.steps);
      }
      ok := *;
      ok := ok && replaced;
      if !ok {
        Note(Crash, World(disk, results, trace, Idle));
      }
    }

    /** `_write_state` on the results file. */
    method StoreResults(file: ResultsFile) returns (ok: bool)
      requires Valid() && process.Storing? && process.file == file
      modifies this
      ensures Valid() && old(moves) <= moves && trace == old(trace) && disk == old(disk)
      ensures ok ==> process == Rereading(old(process).authority, old(process).steps)
      ensures !ok ==> process.Idle?
    {
      var replaced: bool := *;
      if replaced {
        OneMoreFrom(job, initial, initialResults, moves, Write);
        results := Some(file);
        moves, process := moves + [Write], Rereading(process.authority, process.steps);
      }
      ok := *;
      ok := ok && replaced;
      if !ok {
        Note(Crash, World(disk, results, trace, Idle));
      }
    }

    /** `_rollback` and `_failed_execution`: inspect the five containers in turn, then write the verdict. */
    method FailedExecution(authority: Authority, steps: seq<Receipt>) returns (r: Result<State, Error>)
      requires Valid() && process == Inspecting(authority, steps, [])
      modifies this
      ensures Valid() && process.Idle? && old(moves) <= moves && |trace| <= |old(trace)| + 5
      ensures r.Success? ==> disk == Retained(r.value) && r.value.authority == authority
      ensures r.Success? ==> old(trace) <= trace && Inspects(job, trace, |old(trace)|, 5) && r.value.steps == steps
      ensures r.Success? ==> r.value.result == if Finds(job, trace, |old(trace)|, 5) then FailedRolledBack else FailedRollbackUnverified
      ensures r.Failure? ==> r.error == Interrupted
    {
      hide ArgvOf, Matched, InspectCommand, Preserves, InspectsAt, FindsAt;
      var receipts: seq<Receipt> := [];
      var complete := true;
      var k := 0;
      while k < 5
        invariant 0 <= k <= 5 && |receipts| == k
        invariant Valid() && old(moves) <= moves && |trace| == |old(trace)| + k
        invariant complete == AllPreserved(receipts)
        invariant old(trace) <= trace && Inspects(job, trace, |old(trace)|, k)
        invariant complete == Finds(job, trace, |old(trace)|, k)
        invariant k < 5 ==> process == Inspecting(authority, steps, receipts)
        invariant k == 5 ==> process == Writing(FailedState(job, authority, steps, receipts))
      {
        var action := job.plan.preserveActions[k];
        var argv := ArgvOf(job, Inspect(k));
        ghost var before := trace;
        var seen := RunCommand(Inspect(k), argv);
        if seen.None? {
          return Failure(Interrupted);
        }
        var matched := Matched(action, seen.value);
        MatchedIs(action, seen.value);
        InspectIsSpelt(job, k);
        OneMoreInspects(job, before, |old(trace)|, k, trace[|trace| - 1]);
        complete := complete && matched;
        ghost var told := receipts;
        receipts := receipts + [MakeReceipt(action.sequence, action.raw, argv, seen.value.result, PredecessorPreserved(matched))];
        OneMorePreserved(told, receipts[k]);
        k := k + 1;
      }
      var failed := Body(job, authority, if complete then FailedRolledBack else FailedRollbackUnverified, steps, receipts, None, None);
      var ok := WriteState(failed);
      r := if ok then Success(failed) else Failure(Interrupted);
    }

    /** `_execute_build`: the receipts to go on with, or the verdict of a failed build. */
    method ExecuteBuild(authority: Authority) returns (steps: seq<Receipt>, ended: Option<Result<State, Error>>)
      requires Valid() && process == BuildDue(authority)
      modifies this
      ensures Valid() && old(moves) <= moves
      ensures |trace| <= |old(trace)| + (if ended.None? then 1 else 6)
      ensures ended.None? ==> |steps| == 5 && process == Reading(authority, steps)
      ensures ended.Some? ==> process.Idle?
      ensures ended.Some? && ended.value.Success? ==>
                && disk == Retained(ended.value.value) && ended.value.value.authority == authority
                && ended.value.value.result in {FailedRolledBack, FailedRollbackUnverified}
      ensures ended.Some? && ended.value.Failure? ==> ended.value.error in {Interrupted, BuildReadbackInvalid}
    {
      hide ArgvOf, Body, ValidRows, ValidResults, ReplayFrom;
      steps := [];
      var seen := RunCommand(Build, ArgvOf(job, Build));
      if seen.None? {
        return steps, Some(Failure(Interrupted));
      }
      if seen.value.result.returncode != 0 {
        steps := FailedSteps(job, seen.value.result);
        var failed := FailedExecution(authority, steps);
        return steps, Some(failed);
      }
      if seen.value.rows.None? || !ValidRows(seen.value.rows.value) {
        return steps, Some(Failure(BuildReadbackInvalid));
      }
      steps := BuiltSteps(job, seen.value.result, seen.value.rows.value);
      ended := RetainBuild(authority, steps, ResultsFile(job.plan.imageInputs, seen.value.rows.value));
    }

    /** `_write_build_results` and the checkpoint that names what is then read back. */
    method RetainBuild(authority: Authority, steps: seq<Receipt>, built: ResultsFile) returns (ended: Option<Result<State, Error>>)
      requires Valid() && process == Storing(authority, steps, built) && |steps| == 5
      modifies this
      ensures Valid() && old(moves) <= moves && trace == old(trace)
      ensures ended.None? ==> process == Reading(authority, steps)
      ensures ended.Some? ==> process.Idle? && ended.value.Failure? && ended.value.error in {Interrupted, BuildReadbackInvalid}
    {
      hide ArgvOf, ValidRows, BuiltSteps, FailedSteps, ReplayFrom;
      var stored := StoreResults(built);
      if !stored {
        return Some(Failure(Interrupted));
      }
      var file := ReadResults();
      if file.None? {
        return Some(Failure(BuildReadbackInvalid));
      }
      var progress := Body(job, authority, InProgress, steps, [], None, Some(job.digest(file.value)));
      var ok := WriteState(progress);
      ended := if ok then None else Some(Failure(Interrupted));
    }

    /** `_execute_recollect` */
    method ExecuteRecollect(authority: Authority, steps: seq<Receipt>) returns (r: Result<State, Error>)
      requires Valid() && process == Reading(authority, steps)
      modifies this
      ensures Valid() && process.Idle? && old(moves) <= moves && |trace| <= |old(trace)| + 6
      ensures r.Success? ==> disk == Retained(r.value) && r.value.authority == authority && r.value.result.Terminal()
      ensures r.Failure? ==> r.error in {Interrupted, BuildReadbackInvalid, RecollectReadbackInvalid}
    {
      hide ArgvOf, ReplayFrom, ValidRows;
      var file := ReadResults();
      if file.None? {
        return Failure(BuildReadbackInvalid);
      }
      var seen := RunCommand(Recollect, ArgvOf(job, Recollect));
      if seen.None? {
        return Failure(Interrupted);
      }
      var collected := steps + [RecollectReceipt(job, seen.value)];
      if seen.value.result.returncode != 0 {
        r := FailedExecution(authority, collected);
        return;
      }
      if !IsFingerprint(seen.value.facts) {
        return Failure(RecollectReadbackInvalid);
      }
      var complete := Body(job, authority, PhaseCompleteReplanRequired, collected, [], Some(seen.value.facts), Some(job.digest(file.value)));
      var ok := WriteState(complete);
      r := if ok then Success(complete) else Failure(Interrupted);
    }

    /** `_apply_locked` for a build plan, with the facts fingerprint that a replay would read back. */
    method Apply(authority: Authority, facts: Option<string>) returns (r: Result<State, Error>)
      requires Valid() && process.Idle?
      modifies this
      ensures Valid() && process.Idle? && old(moves) <= moves
      ensures |trace| <= |old(trace)| + DiskBudget(old(disk)) && (old(disk).Absent? ==> |trace| <= |old(trace)| + 7)
      ensures r.Success? ==> disk == Retained(r.value) && r.value.result.Terminal() && r.value.authority == authority
      ensures var loaded := Load(job.size, old(disk), job.plan, authority);
              && (loaded.Failure? ==> r == Failure(StateInvalid) && disk == old(disk) && trace == old(trace))
              && (loaded.Success? && loaded.value.Some? && loaded.value.value.result.Terminal() ==>
                    && disk == old(disk) && trace == old(trace)
                    && Replays(job, loaded.value.value, facts, results, r))
    {
      hide Replays, ArgvOf, InOrder, ReplayFrom, ValidRows, Accepts;
      var loaded := Load(job.size, disk, job.plan, authority);
      if loaded.Failure? {
        return Failure(loaded.error);
      }
      Note(Begin(authority), Begun(job, World(disk, results, trace, process), authority));
      var steps := [];
      if loaded.value.Some? {
        var retained := loaded.value.value;
        AcceptedIs(job, authority, retained);
        if retained.result.Terminal() {
          r := ReplayVerdict(job, retained, facts, results);
          VerdictReplays(job, retained, facts, results);
          return;
        }
        steps := retained.steps;
      } else {
        var begun := WriteState(Initial(job, authority));
        if !begun {
          return Failure(Interrupted);
        }
      }
      if steps == [] {
        var ended;
        steps, ended := ExecuteBuild(authority);
        if ended.Some? {
          return ended.value;
        }
      }
      r := ExecuteRecollect(authority, steps);
    }
  }

  lemma InspectIsSpelt(job: BuildJob, k: nat)
    requires BuildShaped(job.plan) && k < 5
    ensures ArgvOf(job, Inspect(k)) == InspectCommand(job.plan.preserveActions[k].service)
  {
  }

  lemma OneMorePreserved(receipts: seq<Receipt>, receipt: Receipt)
    ensures AllPreserved(receipts + [receipt]) <==> AllPreserved(receipts) && receipt.readback == PredecessorPreserved(true)
  {
    var more := receipts + [receipt];
    assert more[|receipts|] == receipt;
    if AllPreserved(more) {
      forall k | 0 <= k < |receipts| ensures receipts[k].readback == PredecessorPreserved(true) {
        assert more[k] == receipts[k];
      }
    }
  }

  /** A state to go on from holds no receipt or all five. */
  lemma AcceptedIs(job: BuildJob, authority: Authority, s: State)
    requires BuildShaped(job.plan) && Accepts(job.plan, authority, s)
    ensures s.authority == authority
    ensures s.result.Terminal() || (s.result == InProgress && |s.steps| in {0, 5})
  {
  }
}
