/**
 The pipeline steps of src/modules/actions.py, seen from the orchestrator: each either
 returns its CLI log (and, for the two checks, whether the check passed) or raises.
 Which of these happens depends on git, pip, flake8 and the test runner, so the
 outcome of each step is an input of the model.
 */
module Actions {
  import opened Wrappers

  /** clone_repo, checkout_ref and setup_dependencies: the CLI log, or an exception. */
  datatype HardOutcome = HardRaise | Ok(log: string) {

    /** The log segment the step contributes, if it returns. */
    function Returned(): (r: Option<string>)
      ensures r.Some? <==> Ok?
      ensures Ok? ==> r == Some(log)
    {
      if Ok? then Some(log) else None
    }
  }

  /**
   run_linter_check and run_tests: whether the check passed together with the CLI log,
   or an exception (a missing target folder).
   */
  datatype SoftOutcome = SoftRaise | Done(passed: bool, log: string) {

    function Returned(): (r: Option<string>)
      ensures r.Some? <==> Done?
      ensures Done? ==> r == Some(log)
    {
      if Done? then Some(log) else None
    }
  }
}
