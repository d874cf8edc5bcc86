/** The view-model helper that summarises a test run: a class with the
    nine counters and the overall result string, filled in once, at
    construction, by a recursive walk of the result tree. */
module ViewModel {
  import opened Results
  import Summary

  class ResultSummary {
    /** The result this summary was created with; it is never changed. */
    const TestResult: Result

    /** The overall result of the run, as displayed. */
    var OverallResult: string

    var TestCount: int
    var PassCount: int
    var FailureCount: int
    var ErrorCount: int
    var InconclusiveCount: int
    var InvalidCount: int
    var SkipCount: int
    var IgnoreCount: int
    var ExplicitCount: int

    /** The nine counters as one record. */
    function Counters(): Summary.Counts
      reads this
    {
      Summary.Counts(TestCount, PassCount, FailureCount, ErrorCount, InconclusiveCount,
        SkipCount, IgnoreCount, ExplicitCount, InvalidCount)
    }

    /** The state every summary is in once constructed: the counters are
        those of the stored result, and the overall result is its root's. */
    ghost predicate Valid()
      reads this
    {
      Counters() == Summary.Tally(TestResult) &&
      OverallResult == Summary.OverallResult(TestResult)
    }

    /** The number of test cases actually run. */
    function RunCount(): int
      reads this
    {
      PassCount + FailureCount + ErrorCount + InconclusiveCount
    }

    /** The number of test cases not run, for any reason. */
    function NotRunCount(): int
      reads this
    {
      IgnoreCount + ExplicitCount + InvalidCount + SkipCount
    }

    /** Summarises `result`: every counter holds the number of test cases
        of the tree that go to it, and the overall result is the root's
        status name with Skipped shown as "Warning". */
    constructor (result: Result)
      ensures TestResult == result
      ensures Counters() == Summary.Tally(result)
      ensures OverallResult == Summary.OverallResult(result)
      ensures Valid()
    {
      TestResult := result;
      new;
      InitializeCounters();
      Summarize(result);

      OverallResult := StatusName(result.state.status);
      if OverallResult == "Skipped" {
        OverallResult := "Warning";
      }
    }

    /** Sets every counter to zero. */
    method InitializeCounters()
      modifies this
      ensures Counters() == Summary.Zero
      ensures OverallResult == old(OverallResult)
    {
      TestCount := 0;
      PassCount := 0;
      FailureCount := 0;
      ErrorCount := 0;
      InconclusiveCount := 0;
      SkipCount := 0;
      IgnoreCount := 0;
      ExplicitCount := 0;
      InvalidCount := 0;
    }

    /** Adds the counters of `result` to the current ones: a suite is only
        descended into, child by child; a test case adds one to the test
        count and one to the counter its state goes to. */
    method Summarize(result: Result)
      modifies this
      ensures Counters() == old(Counters()).Add(Summary.Tally(result))
      ensures OverallResult == old(OverallResult)
      decreases result
    {
      if result.Suite? {
        var children := result.children;
        var i := 0;
        while i < |children|
          invariant 0 <= i <= |children|
          invariant Counters() == old(Counters()).Add(Summary.TallyAll(children[..i]))
          invariant OverallResult == old(OverallResult)
        {
          Summarize(children[i]);
          Summary.TallyAllExtend(children, i);
          Summary.AddAssociative(old(Counters()), Summary.TallyAll(children[..i]), Summary.Tally(children[i]));
          i := i + 1;
        }
        assert children[..i] == children;
      } else {
        assert Summary.Tally(result) == Summary.Unit(Summary.BucketOf(result.state));
        TestCount := TestCount + 1;
        match result.state.status
        case Passed =>
          PassCount := PassCount + 1;
        case Failed =>
          if result.state == Failure {
            FailureCount := FailureCount + 1;
          } else if result.state == NotRunnable {
            InvalidCount := InvalidCount + 1;
          } else {
            ErrorCount := ErrorCount + 1;
          }
        case Skipped =>
          if result.state == Ignored {
            IgnoreCount := IgnoreCount + 1;
          } else if result.state == Explicit {
            ExplicitCount := ExplicitCount + 1;
          } else {
            SkipCount := SkipCount + 1;
          }
        case Inconclusive =>
          InconclusiveCount := InconclusiveCount + 1;
      }
    }

    /** Every test case is either run or not run: the two derived counts
        add up to the test count, and neither is negative. */
    lemma RunAndNotRunPartition()
      requires Valid()
      ensures RunCount() + NotRunCount() == TestCount
      ensures 0 <= RunCount() <= TestCount && 0 <= NotRunCount() <= TestCount
    {
      Summary.SumLaw(TestResult);
      Summary.CountersBounded(TestResult, Summary.PassCount);
      Summary.CountersBounded(TestResult, Summary.FailureCount);
      Summary.CountersBounded(TestResult, Summary.ErrorCount);
      Summary.CountersBounded(TestResult, Summary.InconclusiveCount);
      Summary.CountersBounded(TestResult, Summary.SkipCount);
      Summary.CountersBounded(TestResult, Summary.IgnoreCount);
      Summary.CountersBounded(TestResult, Summary.ExplicitCount);
      Summary.CountersBounded(TestResult, Summary.InvalidCount);
    }

    /** What the counters mean: the test count is the number of test cases
        of the stored result, and each outcome counter the number of those
        whose state goes to it. */
    lemma CountersCountTestCases()
      requires Valid()
      ensures TestCount == |Summary.Leaves(TestResult)|
      ensures forall b :: Counters().Get(b) == Summary.Occurrences(Summary.Leaves(TestResult), b)
    {
      Summary.TallyCountsLeaves(TestResult);
    }

    /** `RunCount` is the number of test cases of the stored result that
        were run: passed, failed, errored or inconclusive. */
    lemma RunCountCountsRunTests()
      requires Valid()
      ensures RunCount() == Summary.CountRun(Summary.Leaves(TestResult), true)
    {
      Summary.TallyCountsLeaves(TestResult);
      Summary.CountRunByBuckets(Summary.Leaves(TestResult));
      assert PassCount == Counters().Get(Summary.PassCount);
      assert FailureCount == Counters().Get(Summary.FailureCount);
      assert ErrorCount == Counters().Get(Summary.ErrorCount);
      assert InconclusiveCount == Counters().Get(Summary.InconclusiveCount);
    }

    /** `NotRunCount` is the number of test cases of the stored result that
        were not run: ignored, explicit, not runnable or otherwise skipped. */
    lemma NotRunCountCountsNotRunTests()
      requires Valid()
      ensures NotRunCount() == Summary.CountRun(Summary.Leaves(TestResult), false)
    {
      Summary.TallyCountsLeaves(TestResult);
      Summary.CountRunByBuckets(Summary.Leaves(TestResult));
      assert IgnoreCount == Counters().Get(Summary.IgnoreCount);
      assert ExplicitCount == Counters().Get(Summary.ExplicitCount);
      assert InvalidCount == Counters().Get(Summary.InvalidCount);
      assert SkipCount == Counters().Get(Summary.SkipCount);
    }
  }
}
