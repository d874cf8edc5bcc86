/** Worked examples of summaries of small result trees. Counters are
    written in the order test, pass, failure, error, inconclusive, skip,
    ignore, explicit, invalid. */
module Scenarios {
  import opened Results
  import opened Summary
  import ViewModel

  lemma {:induction false} TallyOne(a: Result)
    ensures TallyAll([a]) == Tally(a)
  {
    var cs := [a];
    assert cs[..0] == [] && cs[0] == a;
    AddZero(Tally(a));
  }

  lemma {:induction false} TallyTwo(a: Result, b: Result)
    ensures TallyAll([a, b]) == Tally(a).Add(Tally(b))
  {
    assert [a, b][..1] == [a] && [a, b][1] == b;
    TallyOne(a);
  }

  lemma {:induction false} TallyThree(a: Result, b: Result, c: Result)
    ensures TallyAll([a, b, c]) == Tally(a).Add(Tally(b)).Add(Tally(c))
  {
    assert [a, b, c][..2] == [a, b] && [a, b, c][2] == c;
    TallyTwo(a, b);
  }

  /** A single passing test case. */
  lemma SinglePass(p: ResultState)
    requires p.status == Passed
    ensures Tally(Leaf(p)) == Counts(1, 1, 0, 0, 0, 0, 0, 0, 0)
    ensures OverallResult(Leaf(p)) == "Passed"
  {
  }

  /** A suite of a passing, a failing and a not-runnable test case. */
  lemma {:induction false} MixedSuite(root: ResultState, p: ResultState, f: ResultState, n: ResultState)
    requires p.status == Passed && f == Failure && n == NotRunnable
    ensures Tally(Suite(root, [Leaf(p), Leaf(f), Leaf(n)]))
      == Counts(3, 1, 1, 0, 0, 0, 0, 0, 1)
  {
    var pc, fc, nc := Tally(Leaf(p)), Tally(Leaf(f)), Tally(Leaf(n));
    assert pc == Unit(PassCount) == Counts(1, 1, 0, 0, 0, 0, 0, 0, 0);
    assert fc == Unit(FailureCount) == Counts(1, 0, 1, 0, 0, 0, 0, 0, 0);
    assert nc == Unit(InvalidCount) == Counts(1, 0, 0, 0, 0, 0, 0, 0, 1);
    assert pc.Add(fc) == Counts(2, 1, 1, 0, 0, 0, 0, 0, 0);
    TallyThree(Leaf(p), Leaf(f), Leaf(n));
  }

  /** A failure with a state other than Failure, such as an unexpected
      exception, is an error. */
  lemma UnexpectedException(e: ResultState)
    requires e.status == Failed && e != Failure && e != NotRunnable
    ensures Tally(Leaf(e)) == Counts(1, 0, 0, 1, 0, 0, 0, 0, 0)
  {
  }

  /** An explicit test case, under a root reported as Skipped, which is
      displayed as "Warning". */
  lemma {:induction false} ExplicitUnderSkippedRoot(root: ResultState)
    requires root.status == Skipped
    ensures Tally(Suite(root, [Leaf(Explicit)])) == Counts(1, 0, 0, 0, 0, 0, 0, 1, 0)
    ensures OverallResult(Suite(root, [Leaf(Explicit)])) == "Warning"
  {
    var x := Leaf(Explicit);
    assert BucketOf(Explicit) == ExplicitCount;
    assert Tally(x) == Unit(ExplicitCount);
    assert Unit(ExplicitCount) == Counts(1, 0, 0, 0, 0, 0, 0, 1, 0);
    TallyOne(x);
  }

  /** Four inconclusive test cases spread over three nested suites. */
  lemma {:induction false} NestedInconclusive(u: ResultState)
    requires u.status == Inconclusive
    ensures Tally(Suite(u, [Leaf(u), Suite(u, [Leaf(u), Suite(u, [Leaf(u), Leaf(u)])])]))
      == Counts(4, 0, 0, 0, 4, 0, 0, 0, 0)
  {
    var inner := Suite(u, [Leaf(u), Leaf(u)]);
    var middle := Suite(u, [Leaf(u), inner]);
    TallyTwo(Leaf(u), Leaf(u));
    TallyTwo(Leaf(u), inner);
    TallyTwo(Leaf(u), middle);
  }

  /** The summary object of a single passing test case: one test run,
      none not run, overall "Passed". */
  method SinglePassSummary(p: ResultState) returns (s: ViewModel.ResultSummary)
    requires p.status == Passed
    ensures s.TestCount == 1 && s.PassCount == 1
    ensures s.RunCount() == 1 && s.NotRunCount() == 0
    ensures s.OverallResult == "Passed"
  {
    s := new ViewModel.ResultSummary(Leaf(p));
    SinglePass(p);
  }

  /** The summary object of the nested inconclusive suites: four tests
      run, none not run, overall "Inconclusive". */
  method NestedInconclusiveSummary(u: ResultState) returns (s: ViewModel.ResultSummary)
    requires u.status == Inconclusive
    ensures s.TestCount == 4 && s.InconclusiveCount == 4
    ensures s.RunCount() == 4 && s.NotRunCount() == 0
    ensures s.OverallResult == "Inconclusive"
  {
    s := new ViewModel.ResultSummary(Suite(u, [Leaf(u), Suite(u, [Leaf(u), Suite(u, [Leaf(u), Leaf(u)])])]));
    NestedInconclusive(u);
  }
}
