/**
 * The check manipulator: configured tests become queries with an expected result, the
 * queries are run against the corpus, and the tests whose count falls outside the
 * expectation are reported. The corpus storage is the `store` parameter: it gives the
 * matches of a query or fails.
 */
module Check {
  import opened Wrappers
  import opened Strings

  /**
   * The expected result of a query. The upper bound of a semi-open interval is a
   * floating-point number; here it is already its rounded-up magnitude, or None when it
   * is infinite or not a number.
   */
  datatype Expected =
    | Numeric(n: nat)
    | Query(alt: string)
    | ClosedInterval(lower: nat, upper: nat)
    | SemiOpenInterval(from: nat, below: Option<nat>)

  /** A configured test: one query, or a check of the values of whole layers. */
  datatype Test =
    | QueryTest(query: string, expected: Expected, description: string)
    | LayerTest(layers: seq<Layer>, edge: Option<string>)

  /** One checked layer: the annotation's name and the values it may take. */
  datatype Layer = Layer(anno: string, values: seq<string>)

  datatype AqlTest = AqlTest(query: string, expected: Expected, description: string)

  datatype TestResult = Passed | Failed(query: string, matches: seq<string>) | ProcessingError(error: string)

  // ---------------------------------------------------------------- expanding tests

  /** The query that finds an annotation of `anno` whose value is none of `values`. */
  function InvalidValueQuery(anno: string, values: seq<string>): string
  {
    anno + "!=/" + Join(values, "|") + "/"
  }

  /** A node query put on the target of an edge: `node <edge>[<q>] node`. */
  function OnEdge(edge: string, q: string): string
  {
    "node " + edge + "[" + q + "] node"
  }

  function ExistenceTest(anno: string, edge: Option<string>): AqlTest
  {
    AqlTest(if edge.Some? then OnEdge(edge.value, anno + "=/.*/") else anno,
            SemiOpenInterval(1, None), "Layer `" + anno + "` exists")
  }

  function ValueTest(anno: string, values: seq<string>, edge: Option<string>): AqlTest
  {
    var frag := InvalidValueQuery(anno, values);
    AqlTest(if edge.Some? then OnEdge(edge.value, frag) else frag, Numeric(0), "Check layer `" + anno + "` for invalid values.")
  }

  /** Two items for each of the first k elements of `xs`, in order: `first` of it, then `second` of it. */
  function Interleave<T, U>(xs: seq<T>, first: T -> U, second: T -> U, k: nat): seq<U>
    requires k <= |xs|
  {
    if k == 0 then [] else Interleave(xs, first, second, k - 1) + [first(xs[k - 1]), second(xs[k - 1])]
  }

  /** The tests of the first k layers: for each, its existence and then the absence of other values. */
  function LayerTests(layers: seq<Layer>, edge: Option<string>, k: nat): seq<AqlTest>
    requires k <= |layers|
  {
    Interleave(layers, (l: Layer) => ExistenceTest(l.anno, edge), (l: Layer) => ValueTest(l.anno, l.values, edge), k)
  }

  function TestsOf(t: Test): seq<AqlTest>
  {
    match t
    case QueryTest(q, e, d) => [AqlTest(q, e, d)]
    case LayerTest(layers, edge) => LayerTests(layers, edge, |layers|)
  }

  /** `From<&Test> for Vec<AQLTest>`: a query test is one test; a layer test is built in a loop over the layers. */
  method Expand(t: Test) returns (tests: seq<AqlTest>)
    ensures tests == TestsOf(t)
  {
    match t
    case QueryTest(q, e, d) =>
      tests := [AqlTest(q, e, d)];
    case LayerTest(layers, edge) =>
      tests := [];
      for k := 0 to |layers|
        invariant tests == LayerTests(layers, edge, k)
      {
        var Layer(anno, values) := layers[k];
        tests := tests + [ExistenceTest(anno, edge), ValueTest(anno, values, edge)];
      }
  }

  /** Interleaving gives two items per element: `first` of element i at 2i, `second` of it at 2i+1. */
  lemma {:induction false} InterleaveShape<T, U>(xs: seq<T>, first: T -> U, second: T -> U, k: nat)
    requires k <= |xs|
    ensures |Interleave(xs, first, second, k)| == 2 * k
    ensures forall i :: 0 <= i < k ==>
      Interleave(xs, first, second, k)[2 * i] == first(xs[i]) && Interleave(xs, first, second, k)[2 * i + 1] == second(xs[i])
  {
    if k > 0 {
      InterleaveShape(xs, first, second, k - 1);
      var prev := Interleave(xs, first, second, k - 1);
      var both := [first(xs[k - 1]), second(xs[k - 1])];
      forall i | 0 <= i < k
        ensures Interleave(xs, first, second, k)[2 * i] == first(xs[i])
        ensures Interleave(xs, first, second, k)[2 * i + 1] == second(xs[i])
      {
        if i < k - 1 {
          assert (prev + both)[2 * i] == prev[2 * i];
          assert (prev + both)[2 * i + 1] == prev[2 * i + 1];
        } else {
          assert (prev + both)[2 * i] == both[0];
          assert (prev + both)[2 * i + 1] == both[1];
        }
      }
    }
  }

  /** A layer test gives two tests per layer: first its existence (at least one match), then no invalid value (no match). */
  lemma LayerTestsShape(layers: seq<Layer>, edge: Option<string>, k: nat)
    requires k <= |layers|
    ensures |LayerTests(layers, edge, k)| == 2 * k
    ensures forall i :: 0 <= i < k ==>
      LayerTests(layers, edge, k)[2 * i] == ExistenceTest(layers[i].anno, edge) &&
      LayerTests(layers, edge, k)[2 * i + 1] == ValueTest(layers[i].anno, layers[i].values, edge)
  {
    InterleaveShape(layers, (l: Layer) => ExistenceTest(l.anno, edge), (l: Layer) => ValueTest(l.anno, l.values, edge), k);
  }

  /** With an edge both queries look at the edge's target node; without one they are the bare annotation queries. */
  lemma LayerQueries(anno: string, values: seq<string>, edge: Option<string>)
    ensures edge.Some? ==>
      ExistenceTest(anno, edge).query == OnEdge(edge.value, anno + "=/.*/") &&
      ValueTest(anno, values, edge).query == OnEdge(edge.value, InvalidValueQuery(anno, values))
    ensures edge.None? ==> ExistenceTest(anno, edge).query == anno && ValueTest(anno, values, edge).query == InvalidValueQuery(anno, values)
  {
  }

  /** The invalid-value query names the layer and lists exactly its values, separated by `|`. */
  lemma InvalidValueQueryLists(anno: string, values: seq<string>)
    requires forall i :: 0 <= i < |values| ==> '|' !in values[i] && '/' !in values[i]
    ensures var q := InvalidValueQuery(anno, values);
      q[..|anno|] == anno && q[|anno|..|anno| + 3] == "!=/" && q[|q| - 1] == '/' &&
      Split(q[|anno| + 3..|q| - 1], '|') == (if values == [] then [""] else values)
  {
    var q := InvalidValueQuery(anno, values);
    var joined := Join(values, "|");
    assert q == anno + "!=/" + joined + "/";
    assert q[|anno| + 3..|q| - 1] == joined;
    SplitJoin(values, '|');
  }

  // ---------------------------------------------------------------- running tests

  /** Whether n matches meet the expectation; an alternative query must succeed with the same count. */
  function Passes(store: string -> Result<seq<string>>, expected: Expected, n: nat): bool
  {
    match expected
    case Numeric(m) => n == m
    case Query(alt) => store(alt).Ok? && |store(alt).value| == n
    case ClosedInterval(lower, upper) => lower <= n && n <= upper
    case SemiOpenInterval(from, below) => if below.None? then from <= n else from <= n && n < below.value
  }

  /** `run_test`: a failing query is a processing error; otherwise the count decides. */
  function RunTest(store: string -> Result<seq<string>>, t: AqlTest): (r: TestResult)
    ensures r.ProcessingError? <==> store(t.query).Err?
    ensures r.Failed? ==> r.query == t.query && r.matches == store(t.query).value
  {
    var result := store(t.query);
    if result.Err? then ProcessingError(result.msg)
    else if Passes(store, t.expected, |result.value|) then Passed
    else Failed(t.query, result.value)
  }

  /** The pass criteria of the four expectations. */
  lemma PassCriteria(store: string -> Result<seq<string>>, t: AqlTest)
    requires store(t.query).Ok?
    ensures var n := |store(t.query).value|;
      (RunTest(store, t) == Passed) <==>
        match t.expected
        case Numeric(m) => n == m
        case Query(alt) => store(alt).Ok? && |store(alt).value| == n
        case ClosedInterval(lower, upper) => lower <= n <= upper
        case SemiOpenInterval(from, below) => from <= n && (below.Some? ==> n < below.value)
  {
  }

  /** A layer passes its two tests exactly when it has an annotation and none with an unlisted value. */
  lemma LayerTestsPass(store: string -> Result<seq<string>>, anno: string, values: seq<string>, edge: Option<string>)
    ensures RunTest(store, ExistenceTest(anno, edge)) == Passed <==>
      store(ExistenceTest(anno, edge).query).Ok? && |store(ExistenceTest(anno, edge).query).value| >= 1
    ensures RunTest(store, ValueTest(anno, values, edge)) == Passed <==>
      store(ValueTest(anno, values, edge).query).Ok? && store(ValueTest(anno, values, edge).query).value == []
  {
  }

  /** The results of all tests of the first k configured tests, in order. */
  function Results(store: string -> Result<seq<string>>, tests: seq<Test>, k: nat): seq<(string, TestResult)>
    requires k <= |tests|
  {
    if k == 0 then []
    else Results(store, tests, k - 1) + ResultsOf(store, TestsOf(tests[k - 1]), |TestsOf(tests[k - 1])|)
  }

  function ResultsOf(store: string -> Result<seq<string>>, aql: seq<AqlTest>, j: nat): seq<(string, TestResult)>
    requires j <= |aql|
  {
    if j == 0 then [] else ResultsOf(store, aql, j - 1) + [(aql[j - 1].description, RunTest(store, aql[j - 1]))]
  }

  /** The tests of one configured test, run in order. */
  method RunAll(store: string -> Result<seq<string>>, aql: seq<AqlTest>) returns (results: seq<(string, TestResult)>)
    ensures results == ResultsOf(store, aql, |aql|)
  {
    results := [];
    for j := 0 to |aql|
      invariant results == ResultsOf(store, aql, j)
    {
      results := results + [(aql[j].description, RunTest(store, aql[j]))];
    }
  }

  /** `run_tests`: every configured test is expanded and every resulting test is run, in order. */
  method RunTests(store: string -> Result<seq<string>>, tests: seq<Test>) returns (results: seq<(string, TestResult)>)
    ensures results == Results(store, tests, |tests|)
  {
    results := [];
    for k := 0 to |tests|
      invariant results == Results(store, tests, k)
    {
      var aql := Expand(tests[k]);
      var r := RunAll(store, aql);
      results := results + r;
    }
  }

  /** Every expanded test has one result, under its description. */
  lemma {:induction false} ResultsOfShape(store: string -> Result<seq<string>>, aql: seq<AqlTest>, j: nat)
    requires j <= |aql|
    ensures |ResultsOf(store, aql, j)| == j
    ensures forall i :: 0 <= i < j ==> ResultsOf(store, aql, j)[i] == (aql[i].description, RunTest(store, aql[i]))
  {
    if j > 0 {
      ResultsOfShape(store, aql, j - 1);
    }
  }

  // ---------------------------------------------------------------- the verdict

  datatype FailurePolicy = Warn | Fail

  datatype Status = Warning(text: string) | ChecksFailed(failedChecks: seq<string>)

  /** The descriptions of the tests that did not pass, in order. */
  function FailedChecks(results: seq<(string, TestResult)>): seq<string>
  {
    if results == [] then []
    else (if results[0].1 != Passed then [results[0].0] else []) + FailedChecks(results[1..])
  }

  /** The status sent after the tests: nothing if all passed, else a warning or a failure, by policy. */
  function Verdict(policy: FailurePolicy, results: seq<(string, TestResult)>): Option<Status>
  {
    var failed := FailedChecks(results);
    if failed == [] then None
    else if policy == Warn then Some(Warning("One or more checks failed:\n" + Join(failed, "\n")))
    else Some(ChecksFailed(failed))
  }

  /** There is no verdict exactly when every test passed; a failure lists exactly the failed tests' descriptions. */
  lemma {:induction false} FailedChecksIff(results: seq<(string, TestResult)>)
    ensures FailedChecks(results) == [] <==> forall i :: 0 <= i < |results| ==> results[i].1 == Passed
    ensures forall d :: d in FailedChecks(results) <==> exists i :: 0 <= i < |results| && results[i].0 == d && results[i].1 != Passed
  {
    if results != [] {
      FailedChecksIff(results[1..]);
      assert forall i :: 1 <= i < |results| ==> results[i] == results[1..][i - 1];
      forall d | d in FailedChecks(results)
        ensures exists i :: 0 <= i < |results| && results[i].0 == d && results[i].1 != Passed
      {
        if !(results[0].1 != Passed && d == results[0].0) {
          var i :| 0 <= i < |results[1..]| && results[1..][i].0 == d && results[1..][i].1 != Passed;
          assert results[i + 1].0 == d;
        }
      }
    }
  }

  lemma VerdictIff(policy: FailurePolicy, results: seq<(string, TestResult)>)
    ensures Verdict(policy, results).None? <==> forall i :: 0 <= i < |results| ==> results[i].1 == Passed
    ensures policy == Fail && Verdict(policy, results).Some? ==> Verdict(policy, results).value == ChecksFailed(FailedChecks(results))
  {
    FailedChecksIff(results);
  }
}
