# ci_check: a Dafny model of the CI job orchestrator

This project models the CI service's job orchestrator `ci_check` (src/main.py) and the libraries it relies on:

- the `Status` enumeration and the `JobMetadata` and `PushEventPayload` records (src/modules/types.py);
- the workspace helpers over the filesystem (src/modules/utils.py).

For one GitHub push event, `ci_check` does one of two things. It skips a branch creation that pushes no commits. Otherwise it:

1. posts a pending commit status carrying a fresh job id;
2. creates the workspace `./temp/<id>/`;
3. runs the five pipeline steps: clone, checkout, setup, lint and test;
4. removes the workspace in its `finally` phase;
5. writes one job record;
6. posts the final status.

The model has these modules:

- `Types`: the enumeration and the records, restricted to the fields `ci_check` reads or writes.
- `Utils`: the filesystem is a map from a location to a directory or a file. A location is the sequence of directory names below the working directory.
  - The operating-system primitives are pure functions from one filesystem to the next, plus the error they raise. These are `MakeDirs` (`os.makedirs` with `exist_ok`), `RmTree` (`shutil.rmtree`), `OpenWrite` and `Unlink` (`os.remove`).
  - The helpers of utils.py are the methods of class `FileSystem`, which updates its tree in place.
- `Paths`: how a path string such as `./temp/<id>/` names a location. Empty and `.` segments are dropped.
- `Actions`: the outcome of each pipeline step. A hard step (clone, checkout, setup) returns its log or raises. A check (lint, test) returns whether it passed with its log, or raises.
- `Orchestrator`: `ci_check` itself.
  - `CiCheck` is an imperative method over a `FileSystem`. It records every collaborator call it attempts in a ghost trace of events.
  - `CiCheckRun` is the function that specifies the trace and how the run ends.
  - `TryBlock` and `Completed` are the reference definitions of the try block.
  - `JobFilesystem` specifies the filesystem the run leaves behind.

Several inputs are parameters:

- the job id, which must be a canonical version-4 uuid string, as `str(uuid4())` produces;
- the two timestamps;
- the behaviour of each collaborator: whether a step returns or raises, and whether a notification or the log write raises.

The code of `ci_check` has one quirk, and the model keeps it. An exception raised before `ephemeral_folder` is bound makes the `finally` block fail on that unbound name. Such an exception is a missing repository key, or the pending status post raising. In that case nothing is removed or written and no final status is posted. The run ends with the `NameError`, and the filesystem is unchanged.

The documentation of `JobMetadata.logs` names four log sections. The code writes up to five, one per step, and the model follows the code.

## Model

| member | source | states |
|---|---|---|
| Types.AllStatuses | src/modules/types.py:113-117 | Every status is one of a closed set of exactly four values. |
| Types.StatusValue | src/modules/types.py:113-117 | Parsing a status's wire string gives that status back, and no other string parses to it. |
| Types.StatusFromValue | src/modules/types.py:113-117 | A string parses to a status exactly when it is one of "success", "failure", "pending" or "error". |
| Types.StatusValueInjective | src/modules/types.py:113-117 | Distinct statuses have distinct wire strings. |
| Actions.HardOutcome.Returned | src/modules/actions.py:7-8 | A hard step contributes a log segment exactly when it returns instead of raising, and that segment is the CLI log it returned. |
| Actions.SoftOutcome.Returned | src/modules/actions.py:44-45 | A check contributes a log segment exactly when it returns instead of raising, and that segment is the CLI log it returned. |
| Paths.ParsePath | src/main.py:84-90 | The location a path string names is a sequence of proper directory names: none is empty, none is ".", and none contains '/'. |
| Utils.IsFolder | src/modules/utils.py:5-9 | check_if_folder_exists: the path exists and is a directory. FolderOrFile relates it to IsFile. |
| Utils.IsFile | src/modules/utils.py:12-16 | check_if_file_exists: the path exists and is a regular file. FolderOrFile relates it to IsFolder. |
| Utils.FolderOrFile | src/modules/utils.py:5-16 | A path exists exactly when it is a folder or a file, and no path is both. |
| Utils.MakeDirs | src/modules/utils.py:19-25 | The call fails exactly when some prefix of the path is a file. The error is FileExists for the path itself and NotADirectory for an ancestor, and a failed call leaves the tree unchanged. On success the path and all its ancestors are folders, the only new entries are those prefixes, and they are directories. Existing entries are kept unchanged and the tree stays well formed. |
| Utils.CreateFolderIdempotent | src/modules/utils.py:19-25 | Creating an existing folder changes nothing and raises nothing. |
| Utils.RmTree | src/modules/utils.py:48-49 | Removing a folder deletes exactly that folder and everything below it, keeps every other entry unchanged, and leaves the tree well formed. A path that is not a folder leaves the tree unchanged and raises. |
| Utils.OpenWrite | src/modules/utils.py:38-39 | Opening for writing succeeds exactly when the path is not a folder and its parent is a folder. The file then holds exactly the content and every other path is untouched. A failed open leaves the tree unchanged. |
| Utils.Unlink | src/modules/utils.py:58-59 | Removing a path succeeds exactly when it is a file. Only that path disappears and everything else is unchanged. |
| Utils.FileSystem.CreateFolder | src/modules/utils.py:19-25 | The new tree and the error are those of MakeDirs. On success the path is a folder, and an existing folder leaves the tree as it was. |
| Utils.FileSystem.WriteToFile | src/modules/utils.py:28-39 | Writing succeeds exactly when the path is not a folder and no prefix of its parent is a file. On success the missing parents are created, the file holds exactly the content (replacing any previous content), and the tree is MakeDirs of the parent with the file set. On failure the tree is unchanged. |
| Utils.FileSystem.RemoveFolder | src/modules/utils.py:42-49 | A path that is not a folder is a no-op. Otherwise the result is RmTree's: nothing at or below the folder remains, every path outside it is kept with the same entry, and no error is raised below the working directory. |
| Utils.FileSystem.RemoveFile | src/modules/utils.py:52-59 | A file is deleted and nothing else changes. A missing path or a folder leaves the tree unchanged. The call never raises. |
| Orchestrator.IsUuid4 | src/main.py:64 | A job id, as str(uuid4()) writes it, is a single directory name: it is not empty, not ".", and contains no '/'. |
| Orchestrator.WorkspaceFolder | src/main.py:84 | The workspace string is "./temp/", then the job id, then "/". |
| Orchestrator.PathInWorkspace | src/main.py:84-90 | The workspace string followed by a name denotes that name's location inside temp/<id>. |
| Orchestrator.WorkspacePath | src/main.py:84-85 | The workspace string names the folder temp/<id> below the working directory. |
| Orchestrator.WorkspaceFolderInjective | src/main.py:84 | Distinct job ids give distinct workspace strings. |
| Orchestrator.WorkspacesDisjoint | src/main.py:84 | The workspaces of two distinct jobs are disjoint: neither lies inside the other. |
| Orchestrator.RemovingWorkspaceSparesOthers | src/main.py:84-116 | Removing one job's workspace leaves every entry of another job's workspace as it was. |
| Orchestrator.Completed | src/main.py:89-104 | Counts the steps that return before the first one that raises: every step before the count returned, and the step at the count raised. |
| Orchestrator.TryBlock | src/main.py:84-112 | The try block ends with a terminal status. If creating the workspace raises, its only call is that creation, it has no logs and its status is ERROR. Otherwise its logs are exactly the segments of the steps that returned, in order. Its calls are the creation followed by those steps and the one that raised. Its status is ERROR if a step raised, and otherwise SUCCESS or FAILURE by the two checks. |
| Orchestrator.RunSteps | src/main.py:89-112 | The imperative step sequence, with the growing logs list and the status variable, ends with exactly the calls, logs and status of TryBlock. |
| Orchestrator.IsSkipped | src/main.py:60-61 | A push is skipped when it creates the ref and carries no commits. CiCheckRun makes no call and returns exactly for these pushes. |
| Orchestrator.StatusPost | src/main.py:81-136 | A status post carries the repository owner and name looked up in the payload, the pushed head commit, the given state and the job id. |
| Orchestrator.JobRecord | src/main.py:121-131 | The job record carries the job id, the try block's status and logs, clone_url, ref, the pushed head commit, the pusher's name and the two timestamps. |
| Orchestrator.Records | src/main.py:132 | The records written by a trace's write_job_log calls, in order. There are none exactly when the trace has no such call. |
| Orchestrator.CiCheckRun | src/main.py:54-136 | A run makes no call and returns exactly when it is skipped. A run that fails before the workspace name is bound makes at most the pending post. Otherwise the run begins with the pending post, immediately followed by the workspace creation. It returns exactly when it is skipped, or when the workspace name is bound and neither the log write nor the final post raises. |
| Orchestrator.TryBlockWritesNothing | src/main.py:84-112 | The try block writes no job record. |
| Orchestrator.TryBlockCalls | src/main.py:84-112 | The try block makes between one and six calls, none of them a removal, a record write or a status post. |
| Orchestrator.RecordWrittenOnce | src/main.py:114-132 | Exactly one record is written once the workspace name is bound, and none otherwise. The record carries the job id, clone_url, ref, the head commit, the pusher's name, both timestamps, a terminal status (never PENDING) and the logs of the steps that returned. |
| Orchestrator.FinalPhase | src/main.py:114-136 | Once the workspace name is bound, the run ends with, in order: the workspace removal, one record write, and (unless that write raises) one final status post for the same owner, repository, commit and job id. None of these calls happens earlier, and the only earlier status post is the pending one, first in the trace. |
| Orchestrator.StatusDecision | src/main.py:100-112 | The status is SUCCESS exactly when every step returned and both checks passed. It is FAILURE exactly when every step returned and a check failed. It is ERROR exactly when something raised. |
| Orchestrator.FiveSegments | src/main.py:89-104 | When every step returns, the logs are exactly the five segments, in the order clone, checkout, setup, lint, test. |
| Orchestrator.ChecksBothRun | src/main.py:100-104 | Once setup returns, the linter runs. The tests run exactly when the linter returns, whether or not it passed. |
| Orchestrator.RaisingStepStops | src/main.py:89-112 | When step k raises, the logs hold only the segments of the steps before it, no later step is called, and the status is ERROR. |
| Orchestrator.JobFilesystem | src/main.py:84-116 | After a run whose workspace name is bound, the workspace and everything in it is gone, unless temp/<id> was a file from the start. Every path outside the workspace keeps its entry. The only possible new entry is the folder temp, and the tree stays well formed. |
| Orchestrator.TryWorkspace | src/main.py:84-112 | Creating the workspace and running the steps leaves MakeDirs's tree and exactly TryBlock's calls, logs and status. |
| Orchestrator.CleanWorkspace | src/main.py:116 | The finally phase's removal deletes the workspace folder if there is one, and otherwise changes nothing. |
| Orchestrator.CiCheck | src/main.py:54-136 | The method's calls and exit are exactly those of CiCheckRun, where creating the workspace raises exactly when some prefix of temp/<id> is a file. The filesystem is unchanged unless the workspace name is bound, in which case it becomes JobFilesystem of the old one. |

## Left out

- The HTTP layer is not modelled: the FastAPI app, its endpoints, and starting the server with uvicorn.
- Queueing ci_check as a background task, and any concurrency between jobs, are not modelled. The model covers one run at a time. `WorkspacesDisjoint` and `RemovingWorkspaceSparesOthers` state only what separates the workspaces of two jobs.
- src/modules/actions.py is not modelled as code. Its bodies are placeholders around git, pip, flake8 and the test runner, so each step's outcome is an input, shaped after its documented return value and exception.
- src/modules/notifications.py and src/modules/logs.py are not part of this model. `add_commit_status` and `write_job_log` are trace events whose raising is an input, and no log store is modelled.
- `uuid4()` and `time.time()` are parameters of the run (the job id and the two timestamps). Logging calls are left out because they have no effect on the outcome.
- Pydantic validation and serialisation are left out. Only the payload fields ci_check reads are modelled (after, ref, created, commits, pusher.name and the repository's owner login, name and clone_url). A missing repository key is modelled as a failed lookup.
- The effects of the pipeline steps on the filesystem (the cloned repository, the virtual environment) are not modelled. The workspace removal deletes whatever is below the workspace.
- Paths: `..` segments, absolute paths and symbolic links are not interpreted.
- Utils.FileSystem.WriteToFile: a bare file name, whose dirname is the empty string, is treated as directly below the working directory. write_to_file would call `os.makedirs("")` on it, which raises.
- Permission errors and other operating-system failures of makedirs, rmtree, open and remove are not modelled. Only the errors that follow from what is already in the tree are.
- Utils.FileSystem.RemoveFolder: removing the working directory itself is modelled as deleting its contents and then failing. ci_check never asks for this, because its workspace is always two levels below the working directory.
- The fields of the payload and commit records that ci_check does not read are not modelled. A commit therefore has no fields, because ci_check only compares the list of commits with the empty list.
- Orchestrator.CiCheckRun: the repository's owner login, name and clone_url are assumed to be strings, since the payload's repository is an untyped dictionary. Other values are not modelled. In the source, a non-string name makes `ephemeral_folder + repo_name` (src/main.py:90) raise a TypeError once the clone has returned, so checkout never runs, the status is ERROR and the record holds one segment. A non-string owner login or clone_url is passed on to add_commit_status, clone_repo and the JobMetadata constructor, whose validation is not modelled.
