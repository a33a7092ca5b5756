/**
 The records and the status enumeration of src/modules/types.py, restricted to the
 fields that the CI job orchestrator reads or writes.
 */
module Types {
  import opened Wrappers

  /** The commit status: a closed set of four values, each with its wire string. */
  datatype Status = Success | Failure | Pending | Error {

    /** Every status other than PENDING: the outcome of a finished job. */
    predicate IsTerminal() {
      this != Pending
    }
  }

  /** Every status, as a set: there are exactly four of them. */
  function AllStatuses(): (r: set<Status>)
    ensures forall s: Status :: s in r
    ensures |r| == 4
  {
    var r := {Success, Failure, Pending, Error};
    assert r == {Success} + {Failure} + {Pending} + {Error};
    EveryStatusListed(r);
    r
  }

  lemma EveryStatusListed(r: set<Status>)
    requires r == {Success, Failure, Pending, Error}
    ensures forall s: Status :: s in r
  {
    forall s: Status ensures s in r {
      match s
      case Success =>
      case Failure =>
      case Pending =>
      case Error =>
    }
  }

  /** The string value of a status, as the enumeration declares it. */
  function StatusValue(s: Status): (w: string)
    ensures StatusFromValue(w) == Some(s)
    ensures forall v :: StatusFromValue(v) == Some(s) ==> v == w
  {
    match s
    case Success => "success"
    case Failure => "failure"
    case Pending => "pending"
    case Error => "error"
  }

  /** Looking a status up by its value; an unknown value is rejected (the enumeration raises). */
  function StatusFromValue(w: string): (r: Option<Status>)
    ensures r.None? <==> w !in {"success", "failure", "pending", "error"}
  {
    if w == "success" then Some(Success)
    else if w == "failure" then Some(Failure)
    else if w == "pending" then Some(Pending)
    else if w == "error" then Some(Error)
    else None
  }

  /** Distinct statuses have distinct wire strings. */
  lemma StatusValueInjective(s: Status, t: Status)
    ensures StatusValue(s) == StatusValue(t) ==> s == t
  {
  }

  /** The git identity of the pusher; only its name is read. */
  datatype Author = Author(name: string)

  /** A pushed commit; the orchestrator only asks whether the list of them is empty. */
  datatype Commit = Commit

  /**
   The repository object of the push event, a plain dictionary in types.py. A lookup that
   fails (a missing key) is None.
   */
  datatype Repository = Repository(ownerLogin: Option<string>, name: Option<string>, cloneUrl: Option<string>)

  /** The fields of the push event that the orchestrator reads. */
  datatype PushEventPayload = PushEventPayload(
    after: string,
    ref: string,
    created: bool,
    commits: seq<Commit>,
    pusher: Author,
    repository: Repository)

  /** The durable record of one job. */
  datatype JobMetadata = JobMetadata(
    id: string,
    status: Status,
    repoUrl: string,
    ref: string,
    headCommit: string,
    author: string,
    timeStarted: int,
    timeEnded: int,
    logs: seq<string>)
}
