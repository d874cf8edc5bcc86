/** The specification of a result summary: which counter a test case goes
    to, the record of counters a result tree adds up to, and the overall
    result string. The imperative class in module ViewModel is proved to
    compute exactly these values. */
module Summary {
  import opened Results

  /** The eight counters a test case can be counted in, one per outcome. */
  datatype Bucket =
    | PassCount | FailureCount | ErrorCount | InconclusiveCount
    | SkipCount | IgnoreCount | ExplicitCount | InvalidCount

  /** The counter a test case with state `s` goes to: the coarse status
      decides first; within Failed, Failure is tested before NotRunnable
      and anything else is an error; within Skipped, Ignored is tested
      before Explicit and anything else is a plain skip. */
  function BucketOf(s: ResultState): (b: Bucket)
    ensures b == PassCount <==> s.status == Passed
    ensures b == InconclusiveCount <==> s.status == Inconclusive
    ensures b == FailureCount <==> s == Failure
    ensures b == InvalidCount <==> s == NotRunnable
    ensures b == ErrorCount <==> s.status == Failed && s != Failure && s != NotRunnable
    ensures b == IgnoreCount <==> s == Ignored
    ensures b == ExplicitCount <==> s == Explicit
    ensures b == SkipCount <==> s.status == Skipped && s != Ignored && s != Explicit
  {
    match s.status
    case Passed => PassCount
    case Failed =>
      if s == Failure then FailureCount
      else if s == NotRunnable then InvalidCount
      else ErrorCount
    case Skipped =>
      if s == Ignored then IgnoreCount
      else if s == Explicit then ExplicitCount
      else SkipCount
    case Inconclusive => InconclusiveCount
  }

  /** The counters whose sum is the run count. */
  predicate IsRun(b: Bucket) {
    b == PassCount || b == FailureCount || b == ErrorCount || b == InconclusiveCount
  }

  /** A test case counts as run exactly when it passed, was inconclusive,
      or failed other than by being not runnable: a not-runnable test has
      the Failed status but is counted among the tests not run. */
  lemma RunIff(s: ResultState)
    ensures IsRun(BucketOf(s)) <==>
      s.status == Passed || s.status == Inconclusive || (s.status == Failed && s != NotRunnable)
  {
  }

  /** How many of the states `ss` are run (`run`) or not run (`!run`). */
  function CountRun(ss: seq<ResultState>, run: bool): nat {
    if ss == [] then 0
    else (if IsRun(BucketOf(ss[0])) == run then 1 else 0) + CountRun(ss[1..], run)
  }

  /** The test cases that are run are those in the four run counters; the
      remaining four counters hold exactly the test cases not run. */
  lemma {:induction false} CountRunByBuckets(ss: seq<ResultState>)
    ensures CountRun(ss, true) == Occurrences(ss, PassCount) + Occurrences(ss, FailureCount)
      + Occurrences(ss, ErrorCount) + Occurrences(ss, InconclusiveCount)
    ensures CountRun(ss, false) == Occurrences(ss, IgnoreCount) + Occurrences(ss, ExplicitCount)
      + Occurrences(ss, InvalidCount) + Occurrences(ss, SkipCount)
  {
    if ss != [] {
      CountRunByBuckets(ss[1..]);
    }
  }

  /** The test count and the eight outcome counters. */
  datatype Counts = Counts(
    test: int, pass: int, failure: int, error: int, inconclusive: int,
    skip: int, ignore: int, explicit: int, invalid: int)
  {
    /** The value of one outcome counter. */
    function Get(b: Bucket): int {
      match b
      case PassCount => pass
      case FailureCount => failure
      case ErrorCount => error
      case InconclusiveCount => inconclusive
      case SkipCount => skip
      case IgnoreCount => ignore
      case ExplicitCount => explicit
      case InvalidCount => invalid
    }

    /** Counter-wise sum. */
    function Add(o: Counts): Counts {
      Counts(test + o.test, pass + o.pass, failure + o.failure, error + o.error,
        inconclusive + o.inconclusive, skip + o.skip, ignore + o.ignore,
        explicit + o.explicit, invalid + o.invalid)
    }

    /** The sum law: the test count is the sum of the eight outcome counters. */
    predicate Balanced() {
      test == pass + failure + error + inconclusive + skip + ignore + explicit + invalid
    }
  }

  /** All counters at zero. */
  const Zero := Counts(0, 0, 0, 0, 0, 0, 0, 0, 0)

  lemma AddZero(c: Counts)
    ensures Zero.Add(c) == c && c.Add(Zero) == c
  {
  }

  lemma AddAssociative(a: Counts, b: Counts, c: Counts)
    ensures a.Add(b).Add(c) == a.Add(b.Add(c))
  {
  }

  lemma AddGet(c: Counts, d: Counts, b: Bucket)
    ensures c.Add(d).Get(b) == c.Get(b) + d.Get(b)
  {
  }

  /** What one test case adds: one to the test count and one to bucket `b`. */
  function Unit(b: Bucket): (c: Counts)
    ensures c.test == 1
    ensures forall b' :: c.Get(b') == if b' == b then 1 else 0
  {
    match b
    case PassCount => Zero.(test := 1, pass := 1)
    case FailureCount => Zero.(test := 1, failure := 1)
    case ErrorCount => Zero.(test := 1, error := 1)
    case InconclusiveCount => Zero.(test := 1, inconclusive := 1)
    case SkipCount => Zero.(test := 1, skip := 1)
    case IgnoreCount => Zero.(test := 1, ignore := 1)
    case ExplicitCount => Zero.(test := 1, explicit := 1)
    case InvalidCount => Zero.(test := 1, invalid := 1)
  }

  /** The counters a result tree adds up to: a test case counts once in its
      bucket; a suite contributes nothing itself and adds up its children
      in order. */
  function Tally(r: Result): Counts
    decreases r
  {
    match r
    case Leaf(s) => Unit(BucketOf(s))
    case Suite(_, cs) => TallyAll(cs)
  }

  /** The counters of a sequence of results, added left to right. */
  function TallyAll(cs: seq<Result>): Counts
    decreases cs
  {
    if cs == [] then Zero else TallyAll(cs[..|cs| - 1]).Add(Tally(cs[|cs| - 1]))
  }

  /** Extending a prefix of the children by one adds that child's counters. */
  lemma TallyAllExtend(cs: seq<Result>, i: nat)
    requires i < |cs|
    ensures TallyAll(cs[..i + 1]) == TallyAll(cs[..i]).Add(Tally(cs[i]))
  {
    var p := cs[..i + 1];
    assert p[..|p| - 1] == cs[..i] && p[|p| - 1] == cs[i];
  }

  // ---------------------------------------------------------------------
  // An independent reference: the test cases of a tree, in order.

  /** The states of the test cases (leaves) of `r`, left to right. */
  function Leaves(r: Result): seq<ResultState>
    decreases r
  {
    match r
    case Leaf(s) => [s]
    case Suite(_, cs) => LeavesAll(cs)
  }

  function LeavesAll(cs: seq<Result>): seq<ResultState>
    decreases cs
  {
    if cs == [] then [] else LeavesAll(cs[..|cs| - 1]) + Leaves(cs[|cs| - 1])
  }

  /** How many of the states `ss` go to bucket `b`. */
  function Occurrences(ss: seq<ResultState>, b: Bucket): nat {
    if ss == [] then 0
    else (if BucketOf(ss[0]) == b then 1 else 0) + Occurrences(ss[1..], b)
  }

  lemma {:induction false} OccurrencesAppend(xs: seq<ResultState>, ys: seq<ResultState>, b: Bucket)
    ensures Occurrences(xs + ys, b) == Occurrences(xs, b) + Occurrences(ys, b)
  {
    if xs != [] {
      assert (xs + ys)[0] == xs[0];
      assert (xs + ys)[1..] == xs[1..] + ys;
      OccurrencesAppend(xs[1..], ys, b);
    } else {
      assert xs + ys == ys;
    }
  }

  lemma {:induction false} OccurrencesBound(ss: seq<ResultState>, b: Bucket)
    ensures Occurrences(ss, b) <= |ss|
  {
    if ss != [] {
      OccurrencesBound(ss[1..], b);
    }
  }

  /** The main characterisation: the test count is the number of test
      cases in the tree, and every outcome counter is the number of those
      test cases whose state goes to that counter. */
  lemma {:induction false} TallyCountsLeaves(r: Result)
    ensures Tally(r).test == |Leaves(r)|
    ensures forall b :: Tally(r).Get(b) == Occurrences(Leaves(r), b)
    decreases r
  {
    match r
    case Leaf(s) =>
      forall b ensures Tally(r).Get(b) == Occurrences(Leaves(r), b) {
        assert Leaves(r)[1..] == [];
      }
    case Suite(_, cs) =>
      TallyAllCountsLeaves(cs);
  }

  lemma {:induction false} TallyAllCountsLeaves(cs: seq<Result>)
    ensures TallyAll(cs).test == |LeavesAll(cs)|
    ensures forall b :: TallyAll(cs).Get(b) == Occurrences(LeavesAll(cs), b)
    decreases cs
  {
    if cs != [] {
      var init, last := cs[..|cs| - 1], cs[|cs| - 1];
      TallyAllCountsLeaves(init);
      TallyCountsLeaves(last);
      forall b ensures TallyAll(cs).Get(b) == Occurrences(LeavesAll(cs), b) {
        OccurrencesAppend(LeavesAll(init), Leaves(last), b);
      }
    }
  }

  /** Sum law: every test case is counted in exactly one of the eight
      outcome counters, so the test count is their sum. */
  lemma {:induction false} SumLaw(r: Result)
    ensures Tally(r).Balanced()
    decreases r
  {
    match r
    case Leaf(_) =>
    case Suite(_, cs) => SumLawAll(cs);
  }

  lemma {:induction false} SumLawAll(cs: seq<Result>)
    ensures TallyAll(cs).Balanced()
    decreases cs
  {
    if cs != [] {
      SumLawAll(cs[..|cs| - 1]);
      SumLaw(cs[|cs| - 1]);
    }
  }

  /** Counters start at zero and only grow, so each is at least zero and
      at most the number of test cases in the tree. */
  lemma CountersBounded(r: Result, b: Bucket)
    ensures 0 <= Tally(r).Get(b) <= Tally(r).test == |Leaves(r)|
  {
    TallyCountsLeaves(r);
    OccurrencesBound(Leaves(r), b);
  }

  /** Summarising a suite adds the summaries of its children in order:
      splitting the children of a suite splits its counters. */
  lemma {:induction false} TallyAllAppend(xs: seq<Result>, ys: seq<Result>)
    ensures TallyAll(xs + ys) == TallyAll(xs).Add(TallyAll(ys))
    decreases |ys|
  {
    if ys == [] {
      assert xs + ys == xs;
      AddZero(TallyAll(xs));
    } else {
      var zs, init, last := xs + ys, ys[..|ys| - 1], ys[|ys| - 1];
      assert zs[..|zs| - 1] == xs + init && zs[|zs| - 1] == last;
      assert TallyAll(zs) == TallyAll(xs + init).Add(Tally(last));
      assert TallyAll(ys) == TallyAll(init).Add(Tally(last));
      TallyAllAppend(xs, init);
      AddAssociative(TallyAll(xs), TallyAll(init), Tally(last));
    }
  }

  lemma SuiteSplits(st: ResultState, xs: seq<Result>, ys: seq<Result>)
    ensures Tally(Suite(st, xs + ys)) == Tally(Suite(st, xs)).Add(Tally(Suite(st, ys)))
  {
    TallyAllAppend(xs, ys);
  }

  /** Adding the summary of a tree never lowers a counter: counters are
      only ever incremented. */
  lemma AddingNeverDecreases(c: Counts, r: Result)
    ensures c.Add(Tally(r)).test >= c.test
    ensures forall b :: c.Add(Tally(r)).Get(b) >= c.Get(b)
  {
    CountersBounded(r, PassCount);
    forall b ensures c.Add(Tally(r)).Get(b) >= c.Get(b) {
      CountersBounded(r, b);
      AddGet(c, Tally(r), b);
    }
  }

  /** A suite with a single child adds up to what the child does. */
  lemma {:induction false} SingleChild(st: ResultState, r: Result)
    ensures Tally(Suite(st, [r])) == Tally(r)
    ensures Leaves(Suite(st, [r])) == Leaves(r)
  {
    var cs := [r];
    assert cs[..0] == [] && cs[0] == r;
    AddZero(Tally(r));
    assert TallyAll(cs) == TallyAll(cs[..0]).Add(Tally(cs[0]));
    assert LeavesAll(cs) == LeavesAll(cs[..0]) + Leaves(cs[0]);
  }

  /** `r` wrapped in `k` single-child suites whose state is `st`. */
  function Wrap(r: Result, st: ResultState, k: nat): Result {
    if k == 0 then r else Suite(st, [Wrap(r, st, k - 1)])
  }

  /** Suite transparency: wrapping a tree in single-child suites changes no
      counter and no test case; when every wrapper reports the root's own
      status, the overall result is unchanged too. */
  lemma {:induction false} WrapTransparent(r: Result, st: ResultState, k: nat)
    ensures Tally(Wrap(r, st, k)) == Tally(r)
    ensures Leaves(Wrap(r, st, k)) == Leaves(r)
    ensures st.status == r.state.status ==> OverallResult(Wrap(r, st, k)) == OverallResult(r)
  {
    if k > 0 {
      WrapTransparent(r, st, k - 1);
      SingleChild(st, Wrap(r, st, k - 1));
    }
  }

  /** The overall result of a run: the name of the root's own status,
      except that Skipped is shown as "Warning". It is never computed from
      the counters. */
  function OverallResult(root: Result): (name: string)
    ensures name == "Warning" <==> root.state.status == Skipped
    ensures root.state.status != Skipped ==> name == StatusName(root.state.status)
  {
    var n := StatusName(root.state.status);
    if n == "Skipped" then "Warning" else n
  }

  /** The overall result depends on the root's own status alone: neither
      on its children nor on the counters they add up to. */
  lemma OverallResultOfRoot(st: ResultState, cs: seq<Result>, ds: seq<Result>)
    ensures OverallResult(Suite(st, cs)) == OverallResult(Suite(st, ds)) == OverallResult(Leaf(st))
  {
  }
}
