/** The records a run produces (Results, TestResult, AssertionResult, Metadata) and the
    totals Run accumulates over them. */
module RunResults {
  import opened Values

  /** `kind` is the assertion's type; `expected` and `actual` are Null where Go leaves them nil. */
  datatype AssertionResult = AssertionResult(
    kind: string,
    expected: Value,
    actual: Value,
    passed: bool,
    score: real,
    message: string)

  /** A test's outcome; `status` is "passed" or "failed" and `error` is "" when there was none. */
  datatype TestResult = TestResult(
    name: string,
    promptFile: string,
    provider: string,
    variables: map<string, Value>,
    response: string,
    assertions: seq<AssertionResult>,
    cost: real,
    status: string,
    error: string)

  datatype Metadata = Metadata(timestamp: string, commitSha: string, prNumber: string, branch: string, version: string)

  datatype Results = Results(
    total: int,
    passed: int,
    failed: int,
    skipped: int,
    totalCost: real,
    testResults: seq<TestResult>,
    metadata: Metadata)
  {
    /** Results.HasFailures. */
    predicate HasFailures() {
      failed > 0
    }
  }

  /** How many results carry `status`. */
  function CountStatus(rs: seq<TestResult>, status: string): (n: nat)
    ensures n <= |rs|
  {
    if rs == [] then 0
    else CountStatus(rs[..|rs| - 1], status) + (if rs[|rs| - 1].status == status then 1 else 0)
  }

  /** The sum of the results' costs. */
  function SumCost(rs: seq<TestResult>): real {
    if rs == [] then 0.0 else SumCost(rs[..|rs| - 1]) + rs[|rs| - 1].cost
  }

  lemma {:induction false} CountStatusAppend(a: seq<TestResult>, b: seq<TestResult>, status: string)
    ensures CountStatus(a + b, status) == CountStatus(a, status) + CountStatus(b, status)
    ensures SumCost(a + b) == SumCost(a) + SumCost(b)
    decreases |b|
  {
    if b == [] {
      assert a + b == a;
    } else {
      assert (a + b)[..|a + b| - 1] == a + b[..|b| - 1];
      CountStatusAppend(a, b[..|b| - 1], status);
    }
  }

  /** Counting by status and summing costs do not depend on the order in which results
      arrive: any rearrangement of the same results gives the same totals. */
  lemma {:induction false} TotalsOfPermutation(a: seq<TestResult>, b: seq<TestResult>, status: string)
    requires multiset(a) == multiset(b)
    ensures CountStatus(a, status) == CountStatus(b, status)
    ensures SumCost(a) == SumCost(b)
    decreases |a|
  {
    if a == [] {
      assert |b| == |multiset(b)| == 0;
    } else {
      var n := |a| - 1;
      var x := a[n];
      assert a == a[..n] + [x];
      assert x in multiset(b);
      var j :| 0 <= j < |b| && b[j] == x;
      var rest := b[..j] + b[j + 1..];
      assert b == b[..j] + [x] + b[j + 1..];
      assert multiset(b) == multiset(rest) + multiset{x} by {
        assert multiset(b) == multiset(b[..j]) + multiset{x} + multiset(b[j + 1..]);
        assert multiset(rest) == multiset(b[..j]) + multiset(b[j + 1..]);
      }
      assert multiset(a) == multiset(a[..n]) + multiset{x};
      assert multiset(a[..n]) == multiset(a) - multiset{x};
      assert multiset(rest) == multiset(b) - multiset{x};
      TotalsOfPermutation(a[..n], rest, status);
      CountStatusAppend(a[..n], [x], status);
      CountStatusAppend(b[..j] + [x], b[j + 1..], status);
      CountStatusAppend(b[..j], [x], status);
      CountStatusAppend(b[..j], b[j + 1..], status);
      assert [x][..0] == [];
    }
  }

  /** When every result is "passed" or "failed", those two counters partition the results
      and nothing is counted as skipped. */
  lemma {:induction false} StatusPartition(rs: seq<TestResult>)
    requires forall k :: 0 <= k < |rs| ==> rs[k].status == "passed" || rs[k].status == "failed"
    ensures CountStatus(rs, "passed") + CountStatus(rs, "failed") == |rs|
    ensures CountStatus(rs, "skipped") == 0
  {
    if rs != [] {
      StatusPartition(rs[..|rs| - 1]);
    }
  }

  /** A status is counted at least once exactly when some result carries it. */
  lemma {:induction false} CountPositive(rs: seq<TestResult>, status: string)
    ensures CountStatus(rs, status) > 0 <==> exists k :: 0 <= k < |rs| && rs[k].status == status
  {
    if rs != [] {
      var front := rs[..|rs| - 1];
      CountPositive(front, status);
      if exists k :: 0 <= k < |front| && front[k].status == status {
        var k :| 0 <= k < |front| && front[k].status == status;
        assert rs[k] == front[k];
      }
      if exists k :: 0 <= k < |rs| && rs[k].status == status {
        var k :| 0 <= k < |rs| && rs[k].status == status;
        if k < |front| {
          assert front[k] == rs[k];
        }
      }
    }
  }
}
