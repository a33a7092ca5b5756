/**
 The CI job orchestrator ci_check of src/main.py.

 For one push event it either skips, or posts a pending status, creates the job's
 workspace, runs clone, checkout, setup, lint and test, and in its finally phase removes
 the workspace, writes the job record and posts the final status. The calls it makes to
 its collaborators are recorded as a trace of events; what each collaborator does (a
 step returning or raising, a notification or the log write raising) is an input.
 */
module Orchestrator {
  import opened Wrappers
  import opened Types
  import opened Actions
  import Paths
  import Utils

  /** How the collaborators behave in one run. */
  datatype Collaborators = Collaborators(
    clone: HardOutcome,
    checkout: HardOutcome,
    setup: HardOutcome,
    lint: SoftOutcome,
    test: SoftOutcome,
    pendingStatusRaises: bool,
    writeLogRaises: bool,
    finalStatusRaises: bool)

  /** A call to a collaborator. A call that raises is still recorded. */
  datatype Event =
    | AddCommitStatus(owner: string, repo: string, sha: string, state: Status, jobId: string)
    | CreateFolder(folder: string)
    | CloneRepo(url: string, destination: string)
    | CheckoutRef(target: string, ref: string)
    | SetupDependencies(target: string)
    | RunLinterCheck(target: string)
    | RunTests(target: string)
    | RemoveFolder(folder: string)
    | WriteJobLog(jobId: string, metadata: JobMetadata)

  /** How ci_check ends: it returns, or an exception escapes it. */
  datatype Exit = Returned | Raised

  /** The calls of one run of ci_check, in order, and how it ended. */
  datatype Run = Run(trace: seq<Event>, exit: Exit)

  // ---------------------------------------------------------------- job ids and workspaces

  predicate IsHexDigit(c: char) {
    '0' <= c <= '9' || 'a' <= c <= 'f'
  }

  /** The text of a version-4 UUID as str(uuid4()) writes it: 8-4-4-4-12 lower-case hex digits. */
  predicate IsUuid4(s: string): (b: bool)
    ensures b ==> '/' !in s && s != "" && s != "."
  {
    && |s| == 36
    && (forall i :: 0 <= i < |s| ==>
          if i == 8 || i == 13 || i == 18 || i == 23 then s[i] == '-' else IsHexDigit(s[i]))
    && s[14] == '4'
    && s[19] in "89ab"
  }

  /** The job's ephemeral workspace, "./temp/<id>/". */
  function WorkspaceFolder(uuid: string): (w: string)
    ensures |w| == |uuid| + 8 && w[..7] == "./temp/" && w[7..7 + |uuid|] == uuid && w[|w| - 1] == '/'
  {
    "./temp/" + uuid + "/"
  }

  lemma TempPrefix(rest: string)
    ensures "./temp/" + rest == "." + "/" + ("temp" + "/" + rest)
  {
  }

  /** The repository folder is the workspace string followed by the repository name. */
  lemma {:induction false} PathInWorkspace(uuid: string, name: string)
    requires IsUuid4(uuid)
    ensures Paths.ParsePath(WorkspaceFolder(uuid) + name) == ["temp", uuid] + Paths.ParsePath(name)
  {
    var rest := uuid + "/" + name;
    WorkspaceString(uuid, name);
    IdSegment(uuid, name);
    BelowTemp(rest);
    Paths.ParsePathAppend(".", "temp" + "/" + rest);
    FixedSegments();
  }

  lemma WorkspaceString(uuid: string, name: string)
    ensures WorkspaceFolder(uuid) + name == "." + "/" + ("temp" + "/" + (uuid + "/" + name))
  {
    assert WorkspaceFolder(uuid) + name == "./temp/" + (uuid + "/" + name);
    TempPrefix(uuid + "/" + name);
  }

  lemma IdSegment(uuid: string, name: string)
    requires IsUuid4(uuid)
    ensures Paths.ParsePath(uuid + "/" + name) == [uuid] + Paths.ParsePath(name)
  {
    Paths.ParsePathAppend(uuid, name);
    Paths.ParsePathSegment(uuid);
  }

  lemma BelowTemp(rest: string)
    ensures Paths.ParsePath("temp" + "/" + rest) == ["temp"] + Paths.ParsePath(rest)
  {
    Paths.ParsePathAppend("temp", rest);
    FixedSegments();
  }

  lemma FixedSegments()
    ensures Paths.ParsePath("temp") == ["temp"] && Paths.ParsePath(".") == []
  {
    Paths.ParsePathSegment("temp");
    Paths.SplitSegment(".");
  }

  /** The workspace string names the folder temp/<id> below the working directory. */
  lemma WorkspacePath(uuid: string)
    requires IsUuid4(uuid)
    ensures Paths.ParsePath(WorkspaceFolder(uuid)) == ["temp", uuid]
  {
    PathInWorkspace(uuid, "");
    assert WorkspaceFolder(uuid) + "" == WorkspaceFolder(uuid);
    Paths.SplitSegment("");
  }

  /** Distinct job ids give distinct workspace strings. */
  lemma WorkspaceFolderInjective(a: string, b: string)
    ensures WorkspaceFolder(a) == WorkspaceFolder(b) ==> a == b
  {
    if WorkspaceFolder(a) == WorkspaceFolder(b) {
      assert |a| == |b|;
      assert a == WorkspaceFolder(a)[7..7 + |a|];
      assert b == WorkspaceFolder(b)[7..7 + |b|];
    }
  }

  /** Workspaces of distinct jobs are disjoint: neither lies inside the other. */
  lemma WorkspacesDisjoint(a: string, b: string)
    requires IsUuid4(a) && IsUuid4(b) && a != b
    ensures var wa, wb := Paths.ParsePath(WorkspaceFolder(a)), Paths.ParsePath(WorkspaceFolder(b));
      !(wa <= wb) && !(wb <= wa)
  {
    WorkspacePath(a);
    WorkspacePath(b);
    var wa, wb := ["temp", a], ["temp", b];
    assert wa[1] != wb[1];
  }

  /** Removing one job's workspace leaves every path of another job's workspace as it was. */
  lemma RemovingWorkspaceSparesOthers(t: Utils.Tree, a: string, b: string)
    requires Utils.WellFormed(t) && IsUuid4(a) && IsUuid4(b) && a != b
    ensures var r := Utils.RmTree(t, ["temp", a]).tree;
      forall q :: q in t && ["temp", b] <= q ==> q in r && r[q] == t[q]
  {
    var wa, wb := ["temp", a], ["temp", b];
    forall q | q in t && wb <= q ensures !(wa <= q) {
      assert q[1] == b;
    }
  }

  // ---------------------------------------------------------------- the pipeline steps

  /** The log segment step i returns (0 clone, 1 checkout, 2 setup, 3 lint, 4 test), None when it raises. */
  function StepLog(env: Collaborators, i: nat): (segment: Option<string>)
    requires i < 5
  {
    if i == 0 then env.clone.Returned()
    else if i == 1 then env.checkout.Returned()
    else if i == 2 then env.setup.Returned()
    else if i == 3 then env.lint.Returned()
    else env.test.Returned()
  }

  /** The number of steps, from step i on, that return before the first one that raises. */
  function Completed(env: Collaborators, i: nat): (n: nat)
    requires i <= 5
    ensures i <= n <= 5
    ensures forall j :: i <= j < n ==> StepLog(env, j).Some?
    ensures n < 5 ==> StepLog(env, n).None?
    decreases 5 - i
  {
    if i < 5 && StepLog(env, i).Some? then Completed(env, i + 1) else i
  }

  /** The five step calls, in the order ci_check makes them. */
  function StepCalls(url: string, folder: string, repoFolder: string, sha: string): (calls: seq<Event>) {
    [CloneRepo(url, folder), CheckoutRef(repoFolder, sha), SetupDependencies(repoFolder),
     RunLinterCheck(repoFolder), RunTests(repoFolder)]
  }

  /** What the try block leaves once the workspace is bound: its calls, the logs, the status. */
  datatype Attempt = Attempt(calls: seq<Event>, logs: seq<string>, status: Status)

  /**
   The try block from the creation of the workspace on, with its except clause: a step
   that raises stops the block, and the status is then ERROR; otherwise it is decided by
   the two checks. The reference definition is Completed: the logs are the segments of
   the steps that returned, and the calls are those steps plus the one that raised.
   */
  function TryBlock(url: string, folder: string, repoName: string, sha: string, env: Collaborators, workspaceErr: bool): (r: Attempt)
    ensures r.status.IsTerminal()
    ensures workspaceErr ==> r == Attempt([CreateFolder(folder)], [], Error)
    ensures !workspaceErr ==>
      var n := Completed(env, 0);
      && |r.logs| == n
      && (forall i :: 0 <= i < n ==> StepLog(env, i) == Some(r.logs[i]))
      && r.calls == [CreateFolder(folder)] + StepCalls(url, folder, folder + repoName, sha)[..if n < 5 then n + 1 else 5]
      && r.status == (if n < 5 then Error else if env.lint.passed && env.test.passed then Success else Failure)
  {
    var repoFolder := folder + repoName;
    var calls := StepCalls(url, folder, repoFolder, sha);
    var create := [CreateFolder(folder)];
    if workspaceErr then Attempt(create, [], Error)
    else
      match env.clone
      case HardRaise => Attempt(create + calls[..1], [], Error)
      case Ok(log1) =>
        match env.checkout
        case HardRaise => Attempt(create + calls[..2], [log1], Error)
        case Ok(log2) =>
          match env.setup
          case HardRaise => Attempt(create + calls[..3], [log1, log2], Error)
          case Ok(log3) =>
            match env.lint
            case SoftRaise => Attempt(create + calls[..4], [log1, log2, log3], Error)
            case Done(linterPassed, log4) =>
              match env.test
              case SoftRaise => Attempt(create + calls, [log1, log2, log3, log4], Error)
              case Done(testsPassed, log5) =>
                Attempt(create + calls, [log1, log2, log3, log4, log5],
                        if linterPassed && testsPassed then Success else Failure)
  }

  // ---------------------------------------------------------------- the orchestrator

  /** A branch creation that pushes no commits is skipped. */
  predicate IsSkipped(p: PushEventPayload) {
    p.created && p.commits == []
  }

  predicate HasRepositoryFields(r: Repository) {
    r.ownerLogin.Some? && r.name.Some? && r.cloneUrl.Some?
  }

  /**
   The run reaches the binding of the workspace name: it is not skipped, the repository
   lookups succeed and the pending status is posted without raising.
   */
  predicate WorkspaceBound(p: PushEventPayload, env: Collaborators) {
    !IsSkipped(p) && HasRepositoryFields(p.repository) && !env.pendingStatusRaises
  }

  /** A status post for the pushed commit, carrying the job id. */
  function StatusPost(p: PushEventPayload, state: Status, uuid: string): (e: Event)
    requires HasRepositoryFields(p.repository)
    ensures e.AddCommitStatus? && e.state == state && e.jobId == uuid && e.sha == p.after
    ensures Some(e.owner) == p.repository.ownerLogin && Some(e.repo) == p.repository.name
  {
    AddCommitStatus(p.repository.ownerLogin.value, p.repository.name.value, p.after, state, uuid)
  }

  /** The job record the finally phase builds. */
  function JobRecord(p: PushEventPayload, uuid: string, timeStarted: int, timeEnded: int, a: Attempt): (m: JobMetadata)
    requires HasRepositoryFields(p.repository)
    ensures m.id == uuid && m.status == a.status && m.logs == a.logs
    ensures Some(m.repoUrl) == p.repository.cloneUrl && m.ref == p.ref && m.headCommit == p.after && m.author == p.pusher.name
    ensures m.timeStarted == timeStarted && m.timeEnded == timeEnded
  {
    JobMetadata(uuid, a.status, p.repository.cloneUrl.value, p.ref, p.after, p.pusher.name,
                timeStarted, timeEnded, a.logs)
  }

  /** The try block of a run whose workspace name is bound. */
  function Attempted(p: PushEventPayload, uuid: string, env: Collaborators, workspaceErr: bool): (a: Attempt)
    requires HasRepositoryFields(p.repository)
  {
    TryBlock(p.repository.cloneUrl.value, WorkspaceFolder(uuid), p.repository.name.value, p.after, env, workspaceErr)
  }

  /**
   ci_check as a function of its inputs: the job id, the two timestamps, the behaviour
   of the collaborators and whether creating the workspace raises.

   An exception before the workspace name is bound (a missing repository key, or the
   pending status post raising) makes the finally block itself fail on that unbound
   name, so nothing is removed, written or posted afterwards.
   */
  function CiCheckRun(p: PushEventPayload, uuid: string, timeStarted: int, timeEnded: int, env: Collaborators, workspaceErr: bool): (r: Run)
    ensures r == Run([], Returned) <==> IsSkipped(p)
    ensures !WorkspaceBound(p, env) ==>
      |r.trace| <= 1 && forall i :: 0 <= i < |r.trace| ==> r.trace[i].AddCommitStatus? && r.trace[i].state == Pending
    ensures WorkspaceBound(p, env) ==>
      |r.trace| >= 2 && r.trace[0] == StatusPost(p, Pending, uuid) && r.trace[1] == CreateFolder(WorkspaceFolder(uuid))
    ensures r.exit == Returned <==> IsSkipped(p) || (WorkspaceBound(p, env) && !env.writeLogRaises && !env.finalStatusRaises)
  {
    if IsSkipped(p) then Run([], Returned)
    else if !HasRepositoryFields(p.repository) then Run([], Raised)
    else
      var pending := StatusPost(p, Pending, uuid);
      if env.pendingStatusRaises then Run([pending], Raised)
      else
        var a := Attempted(p, uuid, env, workspaceErr);
        var record := JobRecord(p, uuid, timeStarted, timeEnded, a);
        var upToWrite := [pending] + a.calls + [RemoveFolder(WorkspaceFolder(uuid)), WriteJobLog(uuid, record)];
        if env.writeLogRaises then Run(upToWrite, Raised)
        else Run(upToWrite + [StatusPost(p, a.status, uuid)], if env.finalStatusRaises then Raised else Returned)
  }

  /** The records written by the write_job_log calls of a trace, in order. */
  function Records(trace: seq<Event>): (r: seq<JobMetadata>)
    ensures |r| <= |trace|
    ensures r == [] <==> forall i :: 0 <= i < |trace| ==> !trace[i].WriteJobLog?
    decreases |trace|
  {
    if trace == [] then []
    else (if trace[0].WriteJobLog? then [trace[0].metadata] else []) + Records(trace[1..])
  }

  lemma {:induction false} RecordsAppend(a: seq<Event>, b: seq<Event>)
    ensures Records(a + b) == Records(a) + Records(b)
    decreases |a|
  {
    if a == [] {
      assert a + b == b;
    } else {
      assert (a + b)[0] == a[0];
      assert (a + b)[1..] == a[1..] + b;
      RecordsAppend(a[1..], b);
    }
  }

  /**
   The steps of the try block and its except clause, run imperatively: each step runs
   only while nothing has raised, a returned log segment is appended to logs, and the
   status is decided at the end.
   */
  method RunSteps(cloneUrl: string, ephemeralFolder: string, repoName: string, commitSha: string, env: Collaborators, workspaceErr: bool)
    returns (logs: seq<string>, status: Status, ghost calls: seq<Event>)
    ensures logs == TryBlock(cloneUrl, ephemeralFolder, repoName, commitSha, env, workspaceErr).logs
    ensures status == TryBlock(cloneUrl, ephemeralFolder, repoName, commitSha, env, workspaceErr).status
    ensures [CreateFolder(ephemeralFolder)] + calls == TryBlock(cloneUrl, ephemeralFolder, repoName, commitSha, env, workspaceErr).calls
  {
    logs, calls := [], [];
    var raised := workspaceErr;
    var repoFolder := ephemeralFolder + repoName;
    var linterPassed, testsPassed := false, false;
    if !raised {
      calls := calls + [CloneRepo(cloneUrl, ephemeralFolder)];
      match env.clone
      case HardRaise => raised := true;
      case Ok(log) => logs := logs + [log];
    }
    if !raised {
      calls := calls + [CheckoutRef(repoFolder, commitSha)];
      match env.checkout
      case HardRaise => raised := true;
      case Ok(log) => logs := logs + [log];
    }
    if !raised {
      calls := calls + [SetupDependencies(repoFolder)];
      match env.setup
      case HardRaise => raised := true;
      case Ok(log) => logs := logs + [log];
    }
    if !raised {
      calls := calls + [RunLinterCheck(repoFolder)];
      match env.lint
      case SoftRaise => raised := true;
      case Done(passed, log) => linterPassed := passed; logs := logs + [log];
    }
    if !raised {
      calls := calls + [RunTests(repoFolder)];
      match env.test
      case SoftRaise => raised := true;
      case Done(passed, log) => testsPassed := passed; logs := logs + [log];
    }
    if !raised {
      status := if linterPassed && testsPassed then Success else Failure;
    } else {
      // except Exception:
      status := Error;
    }
  }

  /** The try block never writes a record. */
  lemma TryBlockWritesNothing(url: string, folder: string, repoName: string, sha: string, env: Collaborators, workspaceErr: bool)
    ensures Records(TryBlock(url, folder, repoName, sha, env, workspaceErr).calls) == []
  {
    var calls := TryBlock(url, folder, repoName, sha, env, workspaceErr).calls;
    var c := [CreateFolder(folder)] + StepCalls(url, folder, folder + repoName, sha);
    assert calls == c[..|calls|];
  }

  /**
   Exactly one record is written once the workspace name is bound, and none otherwise.
   It carries the job id, the provenance fields of the push event, the two timestamps,
   a terminal status and the logs of the steps that returned.
   */
  lemma RecordWrittenOnce(p: PushEventPayload, uuid: string, timeStarted: int, timeEnded: int, env: Collaborators, workspaceErr: bool)
    ensures var r := CiCheckRun(p, uuid, timeStarted, timeEnded, env, workspaceErr);
      |Records(r.trace)| == (if WorkspaceBound(p, env) then 1 else 0)
    ensures var r := CiCheckRun(p, uuid, timeStarted, timeEnded, env, workspaceErr);
      forall m :: m in Records(r.trace) ==>
        && m.id == uuid
        && m.status.IsTerminal()
        && Some(m.repoUrl) == p.repository.cloneUrl
        && m.ref == p.ref
        && m.headCommit == p.after
        && m.author == p.pusher.name
        && m.timeStarted == timeStarted
        && m.timeEnded == timeEnded
        && m.logs == Attempted(p, uuid, env, workspaceErr).logs
  {
    var r := CiCheckRun(p, uuid, timeStarted, timeEnded, env, workspaceErr);
    if WorkspaceBound(p, env) {
      var a := Attempted(p, uuid, env, workspaceErr);
      var record := JobRecord(p, uuid, timeStarted, timeEnded, a);
      var pending := StatusPost(p, Pending, uuid);
      var fin := [RemoveFolder(WorkspaceFolder(uuid)), WriteJobLog(uuid, record)];
      TryBlockWritesNothing(p.repository.cloneUrl.value, WorkspaceFolder(uuid), p.repository.name.value, p.after, env, workspaceErr);
      RecordsAppend([pending], a.calls);
      RecordsAppend([pending] + a.calls, fin);
      assert Records(fin) == [record] by {
        assert fin[1..][1..] == [];
      }
      if !env.writeLogRaises {
        var post := [StatusPost(p, a.status, uuid)];
        RecordsAppend([pending] + a.calls + fin, post);
      }
      assert Records(r.trace) == [record];
    } else {
      assert Records(r.trace) == [] by {
        if r.trace != [] {
          assert r.trace[1..] == [];
        }
      }
    }
  }

  /** The try block makes only the workspace and step calls. */
  lemma TryBlockCalls(url: string, folder: string, repoName: string, sha: string, env: Collaborators, workspaceErr: bool)
    ensures var calls := TryBlock(url, folder, repoName, sha, env, workspaceErr).calls;
      && 1 <= |calls| <= 6
      && forall i :: 0 <= i < |calls| ==> !calls[i].RemoveFolder? && !calls[i].WriteJobLog? && !calls[i].AddCommitStatus?
  {
    var calls := TryBlock(url, folder, repoName, sha, env, workspaceErr).calls;
    var c := [CreateFolder(folder)] + StepCalls(url, folder, folder + repoName, sha);
    assert calls == c[..|calls|];
  }

  /**
   Once the workspace name is bound, the run ends with its finally phase, in this order:
   the workspace removal, exactly one write of the job record, and, unless that write
   raises, one final status post for the same commit and job id. None of these calls
   happens earlier, and the pending post is the only earlier status post.
   */
  lemma FinalPhase(p: PushEventPayload, uuid: string, timeStarted: int, timeEnded: int, env: Collaborators, workspaceErr: bool)
    requires WorkspaceBound(p, env)
    ensures var r := CiCheckRun(p, uuid, timeStarted, timeEnded, env, workspaceErr);
      var a := Attempted(p, uuid, env, workspaceErr);
      var fin := [RemoveFolder(WorkspaceFolder(uuid)), WriteJobLog(uuid, JobRecord(p, uuid, timeStarted, timeEnded, a))]
                 + (if env.writeLogRaises then [] else [StatusPost(p, a.status, uuid)]);
      && |fin| < |r.trace|
      && r.trace[|r.trace| - |fin|..] == fin
      && forall i :: 0 <= i < |r.trace| - |fin| ==>
           && !r.trace[i].RemoveFolder?
           && !r.trace[i].WriteJobLog?
           && (r.trace[i].AddCommitStatus? ==> i == 0 && r.trace[i].state == Pending)
  {
    var r := CiCheckRun(p, uuid, timeStarted, timeEnded, env, workspaceErr);
    var a := Attempted(p, uuid, env, workspaceErr);
    var fin := [RemoveFolder(WorkspaceFolder(uuid)), WriteJobLog(uuid, JobRecord(p, uuid, timeStarted, timeEnded, a))]
               + (if env.writeLogRaises then [] else [StatusPost(p, a.status, uuid)]);
    var pending := StatusPost(p, Pending, uuid);
    TryBlockCalls(p.repository.cloneUrl.value, WorkspaceFolder(uuid), p.repository.name.value, p.after, env, workspaceErr);
    assert r.trace == [pending] + a.calls + fin;
    forall i | 1 <= i < |r.trace| - |fin| ensures r.trace[i] == a.calls[i - 1] {
    }
  }

  /**
   The status of a job whose workspace name is bound: SUCCESS exactly when the workspace
   was created, every step returned and both checks passed; FAILURE exactly when every
   step returned but a check failed; ERROR exactly when something raised.
   */
  lemma StatusDecision(p: PushEventPayload, uuid: string, env: Collaborators, workspaceErr: bool)
    requires HasRepositoryFields(p.repository)
    ensures var allReturned := !workspaceErr && env.clone.Ok? && env.checkout.Ok? && env.setup.Ok? && env.lint.Done? && env.test.Done?;
      var status := Attempted(p, uuid, env, workspaceErr).status;
      && (status == Success <==> allReturned && env.lint.passed && env.test.passed)
      && (status == Failure <==> allReturned && !(env.lint.passed && env.test.passed))
      && (status == Error <==> !allReturned)
  {
    var n := Completed(env, 0);
    if n == 5 {
      assert StepLog(env, 0).Some? && StepLog(env, 1).Some? && StepLog(env, 2).Some? && StepLog(env, 3).Some? && StepLog(env, 4).Some?;
    }
  }

  /** When every step returns, the logs are the five segments in execution order. */
  lemma FiveSegments(p: PushEventPayload, uuid: string, env: Collaborators)
    requires HasRepositoryFields(p.repository)
    requires env.clone.Ok? && env.checkout.Ok? && env.setup.Ok? && env.lint.Done? && env.test.Done?
    ensures Attempted(p, uuid, env, false).logs == [env.clone.log, env.checkout.log, env.setup.log, env.lint.log, env.test.log]
  {
    var logs := Attempted(p, uuid, env, false).logs;
    assert Completed(env, 0) == 5 by {
      assert StepLog(env, 0).Some? && StepLog(env, 1).Some? && StepLog(env, 2).Some? && StepLog(env, 3).Some? && StepLog(env, 4).Some?;
    }
    assert StepLog(env, 0) == Some(logs[0]);
    assert StepLog(env, 1) == Some(logs[1]);
    assert StepLog(env, 2) == Some(logs[2]);
    assert StepLog(env, 3) == Some(logs[3]);
    assert StepLog(env, 4) == Some(logs[4]);
  }

  /**
   Once setup has returned, the linter runs, and the tests run whenever the linter
   returns, whether or not it passed.
   */
  lemma ChecksBothRun(p: PushEventPayload, uuid: string, env: Collaborators)
    requires HasRepositoryFields(p.repository)
    requires env.clone.Ok? && env.checkout.Ok? && env.setup.Ok?
    ensures var calls := Attempted(p, uuid, env, false).calls;
      var repoFolder := WorkspaceFolder(uuid) + p.repository.name.value;
      && RunLinterCheck(repoFolder) in calls
      && (env.lint.Done? <==> RunTests(repoFolder) in calls)
  {
    var calls := Attempted(p, uuid, env, false).calls;
    var repoFolder := WorkspaceFolder(uuid) + p.repository.name.value;
    var n := Completed(env, 0);
    assert n >= 3 by {
      assert StepLog(env, 0).Some? && StepLog(env, 1).Some? && StepLog(env, 2).Some?;
    }
    assert calls[4] == RunLinterCheck(repoFolder);
    if env.lint.Done? {
      assert n >= 4 by {
        assert StepLog(env, 3).Some?;
      }
      assert calls[5] == RunTests(repoFolder);
    } else {
      assert StepLog(env, 3).None?;
      assert n == 3;
      assert |calls| == 5;
      assert forall i :: 0 <= i < 5 ==> calls[i] != RunTests(repoFolder);
    }
  }

  /**
   A step that raises stops the pipeline: the logs hold only the segments of the steps
   before it, no later step is called, and the status is ERROR.
   */
  lemma RaisingStepStops(p: PushEventPayload, uuid: string, env: Collaborators, k: nat)
    requires HasRepositoryFields(p.repository)
    requires k < 5 && StepLog(env, k).None?
    requires forall j :: 0 <= j < k ==> StepLog(env, j).Some?
    ensures var a := Attempted(p, uuid, env, false);
      var steps := StepCalls(p.repository.cloneUrl.value, WorkspaceFolder(uuid),
                             WorkspaceFolder(uuid) + p.repository.name.value, p.after);
      && |a.logs| == k
      && (forall j :: 0 <= j < k ==> StepLog(env, j) == Some(a.logs[j]))
      && a.calls == [CreateFolder(WorkspaceFolder(uuid))] + steps[..k + 1]
      && (forall j :: k < j < 5 ==> steps[j] !in a.calls)
      && a.status == Error
  {
    var n := Completed(env, 0);
    assert n == k;
    var a := Attempted(p, uuid, env, false);
    var steps := StepCalls(p.repository.cloneUrl.value, WorkspaceFolder(uuid),
                           WorkspaceFolder(uuid) + p.repository.name.value, p.after);
    forall j | k < j < 5 ensures steps[j] !in a.calls {
      assert forall i :: 0 <= i < |a.calls| ==> a.calls[i] != steps[j];
    }
  }

  /**
   The filesystem after a run whose workspace name is bound: create_folder on temp/<id>
   followed, in the finally phase, by remove_folder on it. The workspace and everything
   in it is gone (unless temp/<id> was a file to begin with), every other path is as
   before, and the folder temp remains, created by the run if it was missing.
   */
  function JobFilesystem(t: Utils.Tree, uuid: string): (r: Utils.Tree)
    requires Utils.WellFormed(t)
    ensures Utils.WellFormed(r)
    ensures !Utils.IsFile(t, ["temp", uuid]) ==> forall q :: q in r ==> !(["temp", uuid] <= q)
    ensures forall q :: !(["temp", uuid] <= q) ==>
      (q in r <==> q in t || (q == ["temp"] && !Utils.Blocked(t, ["temp", uuid])))
    ensures forall q :: q in r ==> if q in t then r[q] == t[q] else r[q] == Utils.Dir
  {
    var ws := ["temp", uuid];
    var made := Utils.MakeDirs(t, ws).tree;
    forall q | q in Utils.Prefixes(ws) ensures q == [] || q == ["temp"] || q == ws {
      assert q == ws[..|q|];
    }
    forall q | q in made && ws <= q ensures ws in made {
      Utils.ExistsAbove(made, ws, q);
    }
    if Utils.IsFolder(made, ws) then Utils.RmTree(made, ws).tree else made
  }

  /**
   ci_check itself, over the process's filesystem. Its calls and how it ends are those of
   CiCheckRun, where the workspace creation raises exactly when some prefix of temp/<id>
   is a file. The filesystem is unchanged if the workspace name is never bound, and is
   JobFilesystem of the old one otherwise.
   */
  method CiCheck(fs: Utils.FileSystem, payload: PushEventPayload, uuid: string, timeStarted: int, timeEnded: int, env: Collaborators)
    returns (exit: Exit, ghost trace: seq<Event>)
    requires fs.Valid() && IsUuid4(uuid)
    modifies fs
    ensures fs.Valid()
    ensures Run(trace, exit) == CiCheckRun(payload, uuid, timeStarted, timeEnded, env, Utils.Blocked(old(fs.tree), ["temp", uuid]))
    ensures fs.tree == if WorkspaceBound(payload, env) then JobFilesystem(old(fs.tree), uuid) else old(fs.tree)
  {
    ghost var workspaceErr := Utils.Blocked(fs.tree, ["temp", uuid]);
    trace := [];
    if payload.created && payload.commits == [] {
      exit := Returned;
      return;
    }
    var status := Pending;
    var logs: seq<string> := [];

    // try:
    var repository := payload.repository;
    if repository.ownerLogin.None? || repository.name.None? || repository.cloneUrl.None? {
      // A KeyError before ephemeral_folder is bound; the finally block then fails on that name.
      exit := Raised;
      return;
    }
    var repoOwner, repoName, cloneUrl := repository.ownerLogin.value, repository.name.value, repository.cloneUrl.value;
    var commitSha, author, ref := payload.after, payload.pusher.name, payload.ref;

    trace := [AddCommitStatus(repoOwner, repoName, commitSha, status, uuid)];
    if env.pendingStatusRaises {
      // Raised before ephemeral_folder is bound: the finally block fails in the same way.
      exit := Raised;
      return;
    }

    var ephemeralFolder := WorkspaceFolder(uuid);
    ghost var attempt := Attempted(payload, uuid, env, workspaceErr);
    ghost var tryCalls;
    logs, status, tryCalls := TryWorkspace(fs, cloneUrl, ephemeralFolder, repoName, commitSha, env, uuid);
    trace := trace + tryCalls;

    // finally:
    CleanWorkspace(fs, ephemeralFolder, uuid);
    var jobMetadata := JobMetadata(uuid, status, cloneUrl, ref, commitSha, author, timeStarted, timeEnded, logs);
    assert jobMetadata == JobRecord(payload, uuid, timeStarted, timeEnded, attempt);
    trace := trace + [RemoveFolder(ephemeralFolder), WriteJobLog(uuid, jobMetadata)];
    BoundRun(payload, uuid, timeStarted, timeEnded, env, workspaceErr);
    if env.writeLogRaises {
      exit := Raised;
      return;
    }
    trace := trace + [AddCommitStatus(repoOwner, repoName, commitSha, status, uuid)];
    exit := if env.finalStatusRaises then Raised else Returned;
  }

  /**
   The try block of ci_check once ephemeral_folder is bound: creating the workspace,
   then the five steps. Creating the workspace raises exactly when some prefix of
   temp/<id> is a file.
   */
  method TryWorkspace(fs: Utils.FileSystem, cloneUrl: string, ephemeralFolder: string, repoName: string,
                      commitSha: string, env: Collaborators, ghost uuid: string)
    returns (logs: seq<string>, status: Status, ghost calls: seq<Event>)
    requires fs.Valid() && IsUuid4(uuid) && ephemeralFolder == WorkspaceFolder(uuid)
    modifies fs
    ensures fs.Valid()
    ensures fs.tree == Utils.MakeDirs(old(fs.tree), ["temp", uuid]).tree
    ensures Attempt(calls, logs, status)
      == TryBlock(cloneUrl, ephemeralFolder, repoName, commitSha, env, Utils.Blocked(old(fs.tree), ["temp", uuid]))
  {
    WorkspacePath(uuid);
    var workspace := Paths.ParsePath(ephemeralFolder);
    var createErr := fs.CreateFolder(workspace);
    var raised := createErr.Some?;
    ghost var steps;
    logs, status, steps := RunSteps(cloneUrl, ephemeralFolder, repoName, commitSha, env, raised);
    calls := [CreateFolder(ephemeralFolder)] + steps;
  }

  /** The finally block's remove_folder of the workspace, which never raises. */
  method CleanWorkspace(fs: Utils.FileSystem, ephemeralFolder: string, ghost uuid: string)
    requires fs.Valid() && IsUuid4(uuid) && ephemeralFolder == WorkspaceFolder(uuid)
    modifies fs
    ensures fs.Valid()
    ensures fs.tree == if Utils.IsFolder(old(fs.tree), ["temp", uuid]) then Utils.RmTree(old(fs.tree), ["temp", uuid]).tree
                       else old(fs.tree)
  {
    WorkspacePath(uuid);
    var workspace := Paths.ParsePath(ephemeralFolder);
    var removeErr := fs.RemoveFolder(workspace);
  }

  /** CiCheckRun unfolded for a run whose workspace name is bound. */
  lemma BoundRun(p: PushEventPayload, uuid: string, timeStarted: int, timeEnded: int, env: Collaborators, workspaceErr: bool)
    requires WorkspaceBound(p, env)
    ensures var a := Attempted(p, uuid, env, workspaceErr);
      var upToWrite := [StatusPost(p, Pending, uuid)] + a.calls
        + [RemoveFolder(WorkspaceFolder(uuid)), WriteJobLog(uuid, JobRecord(p, uuid, timeStarted, timeEnded, a))];
      CiCheckRun(p, uuid, timeStarted, timeEnded, env, workspaceErr)
        == if env.writeLogRaises then Run(upToWrite, Raised)
           else Run(upToWrite + [StatusPost(p, a.status, uuid)], if env.finalStatusRaises then Raised else Returned)
  {
  }
}
