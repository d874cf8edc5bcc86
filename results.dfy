/** The part of NUnit's result interface that the summary reads: the coarse
    status of a result, its result state (status plus name), and the
    result tree in which suites hold their children in execution order. */
module Results {

  /** NUnit's coarse outcome of a test or suite. */
  datatype TestStatus = Inconclusive | Skipped | Passed | Failed

  /** The name `Enum.ToString()` gives each status. Only Skipped is named
      "Skipped", and no status is named "Warning", so the display rename of
      Skipped cannot be confused with another status. */
  function StatusName(s: TestStatus): (name: string)
    ensures name == "Skipped" <==> s == Skipped
    ensures name != "Warning"
  {
    match s
    case Inconclusive => "Inconclusive"
    case Skipped => "Skipped"
    case Passed => "Passed"
    case Failed => "Failed"
  }

  /** A result state: a status refined by a name. Two result states are
      equal when both parts are equal. */
  datatype ResultState = ResultState(status: TestStatus, name: string)

  /** The predefined result states the summary compares against. */
  const Failure := ResultState(Failed, "")
  const NotRunnable := ResultState(Failed, "Invalid")
  const Ignored := ResultState(Skipped, "Ignored")
  const Explicit := ResultState(Skipped, "Explicit")

  /** A node of the result tree. `Suite` is a result whose test is a suite:
      it has its own (aggregated) state and its children in order. `Leaf`
      is the result of a single test case. */
  datatype Result =
    | Suite(state: ResultState, children: seq<Result>)
    | Leaf(state: ResultState)
}
