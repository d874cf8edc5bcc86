# ResultSummary: a verified model of the NUnit Xamarin runner's run summary

The Xamarin test runner of NUnit shows a summary of each test run. The `ResultSummary` view-model class builds it once, in its constructor. It resets nine counters. Then it walks the result tree recursively. A suite is only descended into, child by child. A test case adds one to `TestCount` and one to exactly one of eight outcome counters. The counter is chosen first by the coarse status (Passed, Failed, Skipped, Inconclusive). Within Failed and Skipped it is chosen by comparing the whole result state with `ResultState.Failure` / `NotRunnable` and `Ignored` / `Explicit`, in that order. Finally `OverallResult` is set to the name of the root's own status, with "Skipped" shown as "Warning". `RunCount` and `NotRunCount` are sums of stored counters.

The project has four modules:

- `Results` (`results.dfy`): the NUnit types the summary reads. There is a four-valued `TestStatus`, with `StatusName` standing in for `Enum.ToString()`. A `ResultState` is a (status, name) pair. The four predefined states are constants with NUnit's names: Failure = (Failed, ""), NotRunnable = (Failed, "Invalid"), Ignored = (Skipped, "Ignored"), Explicit = (Skipped, "Explicit"). A result tree is `Suite(state, children)` or `Leaf(state)`.
- `Summary` (`summary.dfy`): the pure specification. `BucketOf` classifies a test case. `Tally` folds a tree into a `Counts` record. `Leaves` and `Occurrences` give an independent reference: the test cases of a tree, in order, and how many go to each counter. It also holds `OverallResult`, `CountRun` (how many test cases are run or not run) and the lemmas.
- `ViewModel` (`view_model.dfy`): the class `ResultSummary`, whose fields are the source's counter properties. `InitializeCounters` and the recursive `Summarize` (a loop over the children) update them in place. The constructor's postcondition says the counters are exactly `Tally` of the input and `OverallResult` is `Summary.OverallResult` of the input. The class lemmas carry the properties over to the object.
- `Scenarios` (`scenarios.dfy`): worked examples over small trees.

Three points where the code does something other than a reader might expect; the model follows the code:

- The overall result is read from the root's own state. Wrapping a tree in single-child suites leaves every counter unchanged. It leaves the overall result unchanged only when the wrappers report the root's status (`WrapTransparent`).
- The doc comment on `InvalidCount` (ResultSummary.cs:115-118) says not-runnable tests "are also counted as Errors". The code counts them only in `InvalidCount`, which is part of `NotRunCount` (`BucketOf`, `RunIff`).
- The doc comment on `TestCount` (ResultSummary.cs:74-78) says tests excluded by the Explicit attribute are not counted. The code counts every leaf in the tree it is given, explicit ones included (`ExplicitUnderSkippedRoot`).

## Model

| member | source | states |
|---|---|---|
| `Summary.BucketOf` | src/runner/nunit.runner/ViewModel/ResultSummary.cs:163-187 | the full if-and-only-if table: Passed goes to Pass and Inconclusive to Inconclusive. A Failed case goes to Failure iff its state equals `Failure`, else to Invalid iff it equals `NotRunnable`, else to Error. A Skipped case goes to Ignore iff its state equals `Ignored`, else to Explicit iff it equals `Explicit`, else to Skip |
| `Summary.RunIff` | src/runner/nunit.runner/ViewModel/ResultSummary.cs:84-92 | a test case counts in `RunCount` iff it passed, was inconclusive, or failed other than as not runnable |
| `Summary.Unit` | src/runner/nunit.runner/ViewModel/ResultSummary.cs:162-187 | one test case adds exactly 1 to the test count, exactly 1 to its own bucket and 0 to every other bucket |
| `Summary.TallyCountsLeaves` | src/runner/nunit.runner/ViewModel/ResultSummary.cs:153-189 | after the walk, `TestCount` is the number of test cases (leaves) of the tree, and each outcome counter is the number of those test cases whose state goes to it |
| `Summary.TallyAllCountsLeaves` | src/runner/nunit.runner/ViewModel/ResultSummary.cs:155-158 | the same for a sequence of children, whose test cases are concatenated in order |
| `Summary.OccurrencesAppend` | src/runner/nunit.runner/ViewModel/ResultSummary.cs:157-158 | counts of concatenated test-case lists add up |
| `Summary.SumLaw` | src/runner/nunit.runner/ViewModel/ResultSummary.cs:162-187 | `TestCount` equals the sum of the eight outcome counters, for every tree |
| `Summary.SumLawAll` | src/runner/nunit.runner/ViewModel/ResultSummary.cs:155-158 | the sum law for a sequence of children |
| `Summary.CountRunByBuckets` | src/runner/nunit.runner/ViewModel/ResultSummary.cs:84-92 | the test cases that are run are exactly those in the pass, failure, error and inconclusive counters; those not run are exactly those in the ignore, explicit, invalid and skip counters |
| `Summary.CountersBounded` | src/runner/nunit.runner/ViewModel/ResultSummary.cs:140-151 | every counter is non-negative and at most the test count, which is the number of test cases |
| `Summary.AddingNeverDecreases` | src/runner/nunit.runner/ViewModel/ResultSummary.cs:162-186 | adding the summary of any tree to a set of counters never lowers a counter, since counters are only incremented |
| `Summary.SingleChild` | src/runner/nunit.runner/ViewModel/ResultSummary.cs:155-158 | a suite with one child has that child's counters and test cases |
| `Summary.TallyAllAppend` | src/runner/nunit.runner/ViewModel/ResultSummary.cs:155-158 | summarising children `xs + ys` gives the summary of `xs` plus the summary of `ys` |
| `Summary.SuiteSplits` | src/runner/nunit.runner/ViewModel/ResultSummary.cs:155-158 | a suite contributes nothing itself: splitting its children splits its counters |
| `Summary.WrapTransparent` | src/runner/nunit.runner/ViewModel/ResultSummary.cs:155-158 | wrapping a tree in any number of single-child suites changes no counter and no test case; with wrappers of the root's status, the overall result is unchanged too |
| `Summary.OverallResult` | src/runner/nunit.runner/ViewModel/ResultSummary.cs:47-49 | the overall result is "Warning" iff the root status is Skipped; otherwise it is the status's own name, unaltered |
| `Summary.OverallResultOfRoot` | src/runner/nunit.runner/ViewModel/ResultSummary.cs:47 | the overall result depends only on the root's state, not on its children or their counters |
| `Results.StatusName` | src/runner/nunit.runner/ViewModel/ResultSummary.cs:47 | a status's name is "Skipped" iff the status is Skipped, and no status is named "Warning", so the test on "Skipped" is a test on the status |
| `ViewModel.ResultSummary.constructor` | src/runner/nunit.runner/ViewModel/ResultSummary.cs:41-50 | keeps the input unchanged as `TestResult`; afterwards the counters are exactly `Tally` of the input and `OverallResult` is the root's displayed status name |
| `ViewModel.ResultSummary.InitializeCounters` | src/runner/nunit.runner/ViewModel/ResultSummary.cs:140-151 | all nine counters are zero; the overall result is untouched |
| `ViewModel.ResultSummary.Summarize` | src/runner/nunit.runner/ViewModel/ResultSummary.cs:153-189 | the new counters are the old counters plus `Tally` of the visited tree; the overall result is untouched |
| `ViewModel.ResultSummary.RunAndNotRunPartition` | src/runner/nunit.runner/ViewModel/ResultSummary.cs:84-92 | on a constructed summary, `RunCount + NotRunCount == TestCount`, and both lie between 0 and `TestCount` |
| `ViewModel.ResultSummary.RunCountCountsRunTests` | src/runner/nunit.runner/ViewModel/ResultSummary.cs:84 | on a constructed summary, `RunCount` is the number of test cases of `TestResult` that were run |
| `ViewModel.ResultSummary.NotRunCountCountsNotRunTests` | src/runner/nunit.runner/ViewModel/ResultSummary.cs:89-92 | on a constructed summary, `NotRunCount` is the number of test cases of `TestResult` that were not run |
| `ViewModel.ResultSummary.CountersCountTestCases` | src/runner/nunit.runner/ViewModel/ResultSummary.cs:79-134 | on a constructed summary, `TestCount` is the number of test cases of `TestResult`, and each counter is the number of its test cases in that outcome |
| `Scenarios.SinglePass` | src/runner/nunit.runner/ViewModel/ResultSummary.cs:41-50 | a single passing test case gives test count 1, pass count 1, all else 0, overall "Passed" |
| `Scenarios.MixedSuite` | src/runner/nunit.runner/ViewModel/ResultSummary.cs:165-175 | a suite of a passed, a `Failure` and a `NotRunnable` test case gives 3 tests: 1 pass, 1 failure, 1 invalid, 0 errors |
| `Scenarios.UnexpectedException` | src/runner/nunit.runner/ViewModel/ResultSummary.cs:168-174 | a Failed test case whose state is neither `Failure` nor `NotRunnable` is an error, not a failure |
| `Scenarios.ExplicitUnderSkippedRoot` | src/runner/nunit.runner/ViewModel/ResultSummary.cs:176-183 | an explicit test case counts in the explicit counter; a Skipped root shows "Warning" |
| `Scenarios.NestedInconclusive` | src/runner/nunit.runner/ViewModel/ResultSummary.cs:155-158 | four inconclusive test cases in three nested suites give test count 4 and inconclusive count 4 |
| `Scenarios.SinglePassSummary` | src/runner/nunit.runner/ViewModel/ResultSummary.cs:41-50 | the summary object of a single passing test case has test and pass count 1, `RunCount` 1, `NotRunCount` 0 and overall result "Passed" |
| `Scenarios.NestedInconclusiveSummary` | src/runner/nunit.runner/ViewModel/ResultSummary.cs:84-92 | the summary object of the nested inconclusive suites has test and inconclusive count 4, `RunCount` 4, `NotRunCount` 0 and overall result "Inconclusive" |

## Left out

- `OverallResultColor` (ResultSummary.cs:69-72): it maps the result to a Xamarin.Forms colour through an extension method that is not part of this model. It is user-interface work.
- `TestStatus` has the four values the `switch` handles. The `switch` has no default branch, so a fifth status, as later NUnit versions add, would raise `TestCount` alone and break the sum law. Such a value is not modelled.
- `ResultState` equality is modelled as equality of (status, name). NUnit also compares a failure site, which is not modelled. A `Failure` state with a non-default site would count as an error in NUnit.
- Counters are unbounded integers. C#'s 32-bit `int` wrap-around on `++` is not modelled; it needs more than 2^31 test cases.
- Null or cyclic result trees cannot arise: the `Result` datatype is finite and has no null.
- `TestResult` is kept as a `const` of the class. Datatype values are immutable, which models that the input tree is not modified. Its later use by the user interface is not modelled.
- Idempotence is not a separate lemma. Every constructor postcondition fixes the counters and `OverallResult` as functions of the input alone, so two summaries of the same tree agree.
