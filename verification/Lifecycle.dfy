/** The test runner `Unit.testClass`: classify the methods of a class, then
    run the class-level set-up methods, for every test a fresh instance with
    its set-up methods, the test itself and its tear-down methods, and
    finally the class-level tear-down methods. A test that throws is
    recorded; anything else that throws aborts the whole run. */
module Lifecycle {
  import opened Wrappers
  import opened Classifier
  import opened Runs
  import opened Sequences

  /** The five classified method lists, each sorted by name. */
  datatype Plan = Plan(
    beforeClass: seq<MethodRecord>,
    afterClass: seq<MethodRecord>,
    before: seq<MethodRecord>,
    after: seq<MethodRecord>,
    tests: seq<MethodRecord>)

  /** `ms` is what classifying `declared` for annotation `a` returns. */
  predicate Selected(declared: seq<MethodRecord>, a: Annotation, ms: seq<MethodRecord>)
  {
    SortedByName(ms) && DistinctNames(ms) && multiset(ms) == multiset(Annotated(declared, a))
  }

  predicate ClassifiedAs(declared: seq<MethodRecord>, p: Plan)
  {
    Selected(declared, BeforeClass, p.beforeClass) &&
    Selected(declared, AfterClass, p.afterClass) &&
    Selected(declared, Before, p.before) &&
    Selected(declared, After, p.after) &&
    Selected(declared, Test, p.tests)
  }

  // ---------------------------------------------------------------------------
  // The call script of a plan

  function StaticCalls(ms: seq<MethodRecord>): seq<Call>
  {
    seq(|ms|, q requires 0 <= q < |ms| => StaticCall(ms[q].name))
  }

  function InstanceCalls(ms: seq<MethodRecord>, id: nat): seq<Call>
  {
    seq(|ms|, q requires 0 <= q < |ms| => InstanceCall(ms[q].name, id))
  }

  /** Everything done for test `k`: a fresh instance, the set-up methods on
      it, the test, the tear-down methods on it. */
  function TestBlock(p: Plan, k: nat): seq<Call>
    requires k < |p.tests|
  {
    [NewInstance(k)] + InstanceCalls(p.before, k) + [TestCall(p.tests[k].name, k)] + InstanceCalls(p.after, k)
  }

  /** The script up to the start of block `n`: the class-level set-up calls
      and the blocks of the first `n` tests. */
  function ScriptUpTo(p: Plan, n: nat): seq<Call>
    requires n <= |p.tests|
  {
    if n == 0 then StaticCalls(p.beforeClass) else ScriptUpTo(p, n - 1) + TestBlock(p, n - 1)
  }

  /** Every call a run of `p` makes when nothing aborts it, in order. */
  function Script(p: Plan): seq<Call>
  {
    ScriptUpTo(p, |p.tests|) + StaticCalls(p.afterClass)
  }

  function BlockWidth(p: Plan): nat
  {
    |p.before| + |p.after| + 2
  }

  /** Where the block of test `k` starts in the script. */
  function Offset(p: Plan, k: nat): nat
  {
    if k == 0 then |p.beforeClass| else Offset(p, k - 1) + BlockWidth(p)
  }

  /** Where test `k` itself is called. */
  function TestPosition(p: Plan, k: nat): nat
  {
    Offset(p, k) + 1 + |p.before|
  }

  lemma {:induction false} OffsetMonotone(p: Plan, k: nat, n: nat)
    requires k <= n
    ensures Offset(p, k) <= Offset(p, n)
    decreases n
  {
    if k < n {
      OffsetMonotone(p, k, n - 1);
    }
  }

  lemma {:induction false} ScriptUpToLength(p: Plan, n: nat)
    requires n <= |p.tests|
    ensures |ScriptUpTo(p, n)| == Offset(p, n)
  {
    if n > 0 {
      ScriptUpToLength(p, n - 1);
    }
  }

  lemma {:induction false} ScriptUpToBlock(p: Plan, n: nat, k: nat)
    requires k < n <= |p.tests|
    ensures Offset(p, k + 1) <= Offset(p, n) == |ScriptUpTo(p, n)|
    ensures ScriptUpTo(p, n)[Offset(p, k)..Offset(p, k + 1)] == TestBlock(p, k)
    decreases n
  {
    var init := ScriptUpTo(p, n - 1);
    var last := TestBlock(p, n - 1);
    assert ScriptUpTo(p, n) == init + last;
    ScriptUpToLength(p, n - 1);
    assert |last| == BlockWidth(p);
    var lo, hi := Offset(p, k), Offset(p, k + 1);
    if k < n - 1 {
      ScriptUpToBlock(p, n - 1, k);
      SliceOfLeft(init, last, lo, hi);
    } else {
      SliceOfRight(init, last);
    }
  }

  /** `script` has the shape of the plan's script: the class-level set-up
      calls first, the blocks of the tests laid out one after another, the
      class-level tear-down calls last. */
  predicate Shaped(script: seq<Call>, p: Plan)
  {
    |script| == Offset(p, |p.tests|) + |p.afterClass| &&
    |p.beforeClass| <= |script| && script[0..|p.beforeClass|] == StaticCalls(p.beforeClass) &&
    script[Offset(p, |p.tests|)..] == StaticCalls(p.afterClass) &&
    forall k :: 0 <= k < |p.tests| ==> LaidOut(script, p, k)
  }

  /** The plan's script has its shape: the class-level set-up calls come first and
      the class-level tear-down calls last, after one block per test. */
  lemma ScriptEnds(p: Plan)
    ensures Shaped(Script(p), p)
  {
    forall k | 0 <= k < |p.tests| ensures LaidOut(Script(p), p, k) {
      ScriptBlock(p, k);
    }
    var body := ScriptUpTo(p, |p.tests|);
    ScriptUpToLength(p, |p.tests|);
    ScriptUpToStart(p, |p.tests|);
    assert (body + StaticCalls(p.afterClass))[..|p.beforeClass|] == body[..|p.beforeClass|];
  }

  lemma {:induction false} ScriptUpToStart(p: Plan, n: nat)
    requires n <= |p.tests|
    ensures |p.beforeClass| <= |ScriptUpTo(p, n)|
    ensures ScriptUpTo(p, n)[..|p.beforeClass|] == StaticCalls(p.beforeClass)
  {
    if n > 0 {
      ScriptUpToStart(p, n - 1);
      var init := ScriptUpTo(p, n - 1);
      var last := TestBlock(p, n - 1);
      assert ScriptUpTo(p, n) == init + last;
      assert (init + last)[..|p.beforeClass|] == init[..|p.beforeClass|];
    }
  }

  /** Block `k` of `script` is in place: fresh instance `k` at `Offset(p, k)`,
      then the set-up calls on it, test `k` at `TestPosition(p, k)`, then the
      tear-down calls on it, ending where block `k + 1` starts. */
  predicate LaidOut(script: seq<Call>, p: Plan, k: nat)
    requires k < |p.tests|
  {
    Offset(p, k + 1) == TestPosition(p, k) + 1 + |p.after| <= |script| &&
    script[Offset(p, k)] == NewInstance(k) &&
    script[Offset(p, k) + 1..TestPosition(p, k)] == InstanceCalls(p.before, k) &&
    script[TestPosition(p, k)] == TestCall(p.tests[k].name, k) &&
    script[TestPosition(p, k) + 1..Offset(p, k + 1)] == InstanceCalls(p.after, k)
  }

  lemma TestBlockPieces(p: Plan, k: nat)
    requires k < |p.tests|
    ensures var block := TestBlock(p, k);
      |block| == BlockWidth(p) &&
      block[0] == NewInstance(k) &&
      block[1..1 + |p.before|] == InstanceCalls(p.before, k) &&
      block[1 + |p.before|] == TestCall(p.tests[k].name, k) &&
      block[2 + |p.before|..] == InstanceCalls(p.after, k)
  {
    var block := TestBlock(p, k);
    var head := [NewInstance(k)] + InstanceCalls(p.before, k);
    assert block == head + [TestCall(p.tests[k].name, k)] + InstanceCalls(p.after, k);
    assert block[1..1 + |p.before|] == head[1..];
  }

  /** A script holding test `k`'s block at `Offset(p, k)` has it laid out. */
  lemma BlockInPlace(script: seq<Call>, p: Plan, k: nat)
    requires k < |p.tests|
    requires Offset(p, k + 1) <= |script| && script[Offset(p, k)..Offset(p, k + 1)] == TestBlock(p, k)
    ensures LaidOut(script, p, k)
  {
    TestBlockPieces(p, k);
    var o, t := Offset(p, k), TestPosition(p, k);
    assert Offset(p, k + 1) == o + BlockWidth(p);
    var block := script[o..Offset(p, k + 1)];
    assert script[o] == block[0];
    assert forall i :: o + 1 <= i < t ==> script[i] == block[i - o];
    assert script[o + 1..t] == block[1..1 + |p.before|];
    assert script[t] == block[1 + |p.before|];
    assert script[t + 1..Offset(p, k + 1)] == block[2 + |p.before|..];
  }

  /** The shape of the script: block `k` (fresh instance `k`, the set-up calls
      on it, test `k`, the tear-down calls on it) sits at `Offset(p, k)`. */
  lemma ScriptBlock(p: Plan, k: nat)
    requires k < |p.tests|
    ensures LaidOut(Script(p), p, k)
  {
    ScriptUpToBlock(p, |p.tests|, k);
    var body := ScriptUpTo(p, |p.tests|);
    var lo, hi := Offset(p, k), Offset(p, k + 1);
    SliceOfLeft(body, StaticCalls(p.afterClass), lo, hi);
    BlockInPlace(Script(p), p, k);
  }

  // ---------------------------------------------------------------------------
  // testClass

  /** What `testClass` returns: for every test, `None` if it passed and the
      cause if it threw; or the run aborts with an exception. */
  datatype SuiteResult = Completed(results: map<string, Option<string>>) | Aborted

  function Verdict(o: Outcome): Option<string>
  {
    if o.Ok? then None else Some(o.cause)
  }

  /** The five classifications at the start of `Unit.testClass`, sharing one
      seen set; the first that throws aborts the run. */
  method Classify(declared: seq<MethodRecord>) returns (plan: Option<Plan>)
    ensures plan.None? <==> !Classifiable(declared)
    ensures plan.Some? ==> ClassifiedAs(declared, plan.value)
  {
    StagesInOrder(declared);
    var res, seen := GetMethods(declared, BeforeClass, true, {});
    if res.Failure? { return None; }
    var beforeClass := res.value;
    assert seen == Names(Annotated(declared, BeforeClass));
    res, seen := GetMethods(declared, AfterClass, true, seen);
    if res.Failure? { return None; }
    var afterClass := res.value;
    res, seen := GetMethods(declared, Before, false, seen);
    if res.Failure? { return None; }
    var before := res.value;
    res, seen := GetMethods(declared, After, false, seen);
    if res.Failure? { return None; }
    var after := res.value;
    res, seen := GetMethods(declared, Test, false, seen);
    if res.Failure? { return None; }
    plan := Some(Plan(beforeClass, afterClass, before, after, res.value));
  }

  /** `Classifiable` spelled out stage by stage, in the order `testClass` classifies. */
  lemma StagesInOrder(declared: seq<MethodRecord>)
    ensures var n0 := Names(Annotated(declared, BeforeClass));
            var n1 := n0 + Names(Annotated(declared, AfterClass));
            var n2 := n1 + Names(Annotated(declared, Before));
            var n3 := n2 + Names(Annotated(declared, After));
            Classifiable(declared) <==>
              Admissible(declared, BeforeClass, true, {}) &&
              Admissible(declared, AfterClass, true, n0) &&
              Admissible(declared, Before, false, n1) &&
              Admissible(declared, After, false, n2) &&
              Admissible(declared, Test, false, n3)
  {
    var n0 := Names(Annotated(declared, BeforeClass));
    var n1 := n0 + Names(Annotated(declared, AfterClass));
    var n2 := n1 + Names(Annotated(declared, Before));
    var n3 := n2 + Names(Annotated(declared, After));
    assert Stage(0) == (BeforeClass, true) && SeenBefore(declared, 0) == {};
    assert Stage(1) == (AfterClass, true) && SeenBefore(declared, 1) == n0;
    assert Stage(2) == (Before, false) && SeenBefore(declared, 2) == n1;
    assert Stage(3) == (After, false) && SeenBefore(declared, 3) == n2;
    assert Stage(4) == (Test, false) && SeenBefore(declared, 4) == n3;
    var a0 := Admissible(declared, BeforeClass, true, {});
    var a1 := Admissible(declared, AfterClass, true, n0);
    var a2 := Admissible(declared, Before, false, n1);
    var a3 := Admissible(declared, After, false, n2);
    var a4 := Admissible(declared, Test, false, n3);
    if a0 && a1 && a2 && a3 && a4 {
      forall k | 0 <= k < 5 ensures Admissible(declared, Stage(k).0, Stage(k).1, SeenBefore(declared, k)) {
        assert k == 0 || k == 1 || k == 2 || k == 3 || k == 4;
      }
    }
    if Classifiable(declared) {
      assert Admissible(declared, Stage(0).0, Stage(0).1, SeenBefore(declared, 0));
      assert Admissible(declared, Stage(1).0, Stage(1).1, SeenBefore(declared, 1));
      assert Admissible(declared, Stage(2).0, Stage(2).1, SeenBefore(declared, 2));
      assert Admissible(declared, Stage(3).0, Stage(3).1, SeenBefore(declared, 3));
      assert Admissible(declared, Stage(4).0, Stage(4).1, SeenBefore(declared, 4));
    }
  }

  /** The start of one pass of the loop over the tests: a fresh instance
      and the set-up methods on it. */
  method SetUp(p: Plan, k: nat, trace: seq<Event>, oracle: Oracle, ghost script: seq<Call>)
    returns (traceOut: seq<Event>, ok: bool)
    requires k < |p.tests| && LaidOut(script, p, k)
    requires RunUpTo(script, Offset(p, k), oracle) == Progress(trace, false)
    ensures |trace| <= |traceOut| && traceOut[..|trace|] == trace
    ensures ok ==> RunUpTo(script, TestPosition(p, k), oracle) == Progress(traceOut, false)
    ensures !ok ==> Run(script, oracle) == Progress(traceOut, true)
  {
    ghost var o := Offset(p, k);
    var made;
    traceOut, made := Make(NewInstance(k), trace, oracle, script, o);
    if made.Threw? {
      AbortedStays(script, o + 1, |script|, oracle);
      return traceOut, false;
    }
    ghost var built := traceOut;
    traceOut, ok := BeforeEach(p, k, traceOut, oracle, script);
    PrefixOfPrefix(trace, built, traceOut);
  }

  /** The set-up methods of the `k`-th test, on its fresh instance. */
  method BeforeEach(p: Plan, k: nat, trace: seq<Event>, oracle: Oracle, ghost script: seq<Call>)
    returns (traceOut: seq<Event>, ok: bool)
    requires k < |p.tests| && LaidOut(script, p, k)
    requires RunUpTo(script, Offset(p, k) + 1, oracle) == Progress(trace, false)
    ensures |trace| <= |traceOut| && traceOut[..|trace|] == trace
    ensures ok ==> RunUpTo(script, TestPosition(p, k), oracle) == Progress(traceOut, false)
    ensures !ok ==> Run(script, oracle) == Progress(traceOut, true)
  {
    var before := InstanceCalls(p.before, k);
    assert Offset(p, k) + 1 + |before| == TestPosition(p, k);
    traceOut, ok := Perform(before, trace, oracle, script, Offset(p, k) + 1);
  }

  /** The tear-down methods of the `k`-th test, on its instance. */
  method TearDown(p: Plan, k: nat, trace: seq<Event>, oracle: Oracle, ghost script: seq<Call>)
    returns (traceOut: seq<Event>, ok: bool)
    requires k < |p.tests| && LaidOut(script, p, k)
    requires RunUpTo(script, TestPosition(p, k) + 1, oracle) == Progress(trace, false)
    ensures |trace| <= |traceOut| && traceOut[..|trace|] == trace
    ensures ok ==> RunUpTo(script, Offset(p, k + 1), oracle) == Progress(traceOut, false)
    ensures !ok ==> Run(script, oracle) == Progress(traceOut, true)
  {
    var after := InstanceCalls(p.after, k);
    assert TestPosition(p, k) + 1 + |after| == Offset(p, k + 1);
    traceOut, ok := Perform(after, trace, oracle, script, TestPosition(p, k) + 1);
  }

  /** One pass of the loop over the tests: a fresh instance, the set-up
      methods on it, the test (whatever it throws is its verdict), the
      tear-down methods on it. */
  method RunTest(p: Plan, k: nat, trace: seq<Event>, oracle: Oracle, ghost script: seq<Call>)
    returns (traceOut: seq<Event>, verdict: Outcome, ok: bool)
    requires k < |p.tests| && LaidOut(script, p, k)
    requires RunUpTo(script, Offset(p, k), oracle) == Progress(trace, false)
    ensures |trace| <= |traceOut| && traceOut[..|trace|] == trace
    ensures ok ==> RunUpTo(script, Offset(p, k + 1), oracle) == Progress(traceOut, false) &&
                   TestPosition(p, k) < |traceOut| &&
                   traceOut[TestPosition(p, k)] == Event(TestCall(p.tests[k].name, k), verdict)
    ensures !ok ==> Run(script, oracle) == Progress(traceOut, true)
  {
    traceOut, ok := SetUp(p, k, trace, oracle, script);
    verdict := Ok;
    if !ok { return; }
    ghost var t := TestPosition(p, k);
    ghost var beforeTest := traceOut;
    traceOut, verdict := Make(TestCall(p.tests[k].name, k), traceOut, oracle, script, t);
    ghost var atTest := traceOut;
    PrefixOfPrefix(trace, beforeTest, atTest);

    traceOut, ok := TearDown(p, k, traceOut, oracle, script);
    PrefixOfPrefix(trace, atTest, traceOut);
    assert traceOut[t] == traceOut[..|atTest|][t];
  }

  /** The first `k` tests are recorded: each was called at its position in
      the trace, and `results` maps exactly their names, each to the verdict
      of its call. */
  predicate Recorded(p: Plan, k: nat, trace: seq<Event>, results: map<string, Option<string>>)
    requires k <= |p.tests|
  {
    results.Keys == Names(p.tests[..k]) &&
    forall q :: 0 <= q < k ==>
      TestPosition(p, q) < |trace| &&
      trace[TestPosition(p, q)].call == TestCall(p.tests[q].name, q) &&
      results[p.tests[q].name] == Verdict(trace[TestPosition(p, q)].outcome)
  }

  /** Extending the trace keeps what is recorded. */
  lemma RecordedExtends(p: Plan, k: nat, trace: seq<Event>, longer: seq<Event>, results: map<string, Option<string>>)
    requires k <= |p.tests| && Recorded(p, k, trace, results)
    requires |trace| <= |longer| && longer[..|trace|] == trace
    ensures Recorded(p, k, longer, results)
  {
    forall q | 0 <= q < k ensures longer[TestPosition(p, q)] == trace[TestPosition(p, q)] {
      assert longer[..|trace|][TestPosition(p, q)] == trace[TestPosition(p, q)];
    }
  }

  /** Recording test `k`'s verdict keeps the earlier ones, as test names are distinct. */
  lemma RecordStep(p: Plan, k: nat, trace: seq<Event>, results: map<string, Option<string>>, verdict: Outcome)
    requires k < |p.tests| && DistinctNames(p.tests) && Recorded(p, k, trace, results)
    requires TestPosition(p, k) < |trace| && trace[TestPosition(p, k)] == Event(TestCall(p.tests[k].name, k), verdict)
    ensures Recorded(p, k + 1, trace, results[p.tests[k].name := Verdict(verdict)])
  {
    var updated := results[p.tests[k].name := Verdict(verdict)];
    forall q | 0 <= q < k + 1
      ensures TestPosition(p, q) < |trace| && trace[TestPosition(p, q)].call == TestCall(p.tests[q].name, q)
      ensures p.tests[q].name in updated && updated[p.tests[q].name] == Verdict(trace[TestPosition(p, q)].outcome)
    {
      if q < k {
        assert p.tests[q].name != p.tests[k].name;
      }
    }
    KeysStep(p.tests, k, results, Verdict(verdict));
  }

  /** Recording the `k`-th test adds its name to the recorded ones. */
  lemma KeysStep(tests: seq<MethodRecord>, k: nat, results: map<string, Option<string>>, v: Option<string>)
    requires k < |tests| && results.Keys == Names(tests[..k])
    ensures results[tests[k].name := v].Keys == Names(tests[..k + 1])
  {
    assert tests[..k + 1] == tests[..k] + [tests[k]];
    NamesAppend(tests[..k], tests[k]);
  }

  /** After test `k` ran in a longer trace, the first `k + 1` tests are recorded. */
  lemma RecordNext(p: Plan, k: nat, trace: seq<Event>, longer: seq<Event>,
                   results: map<string, Option<string>>, verdict: Outcome)
    requires k < |p.tests| && DistinctNames(p.tests) && Recorded(p, k, trace, results)
    requires |trace| <= |longer| && longer[..|trace|] == trace
    requires TestPosition(p, k) < |longer| && longer[TestPosition(p, k)] == Event(TestCall(p.tests[k].name, k), verdict)
    ensures Recorded(p, k + 1, longer, results[p.tests[k].name := Verdict(verdict)])
  {
    RecordedExtends(p, k, trace, longer, results);
    RecordStep(p, k, longer, results, verdict);
  }

  /** The state of the loop over the tests after the first `k` of them: the
      script ran without aborting up to block `k`, and their verdicts are recorded. */
  predicate Reached(p: Plan, k: nat, script: seq<Call>, oracle: Oracle,
                    trace: seq<Event>, results: map<string, Option<string>>)
  {
    k <= |p.tests| && Offset(p, k) <= |script| &&
    RunUpTo(script, Offset(p, k), oracle) == Progress(trace, false) &&
    Recorded(p, k, trace, results)
  }

  /** One pass of the loop over the tests, with its verdict recorded. */
  method RunAndRecord(p: Plan, k: nat, trace: seq<Event>, results: map<string, Option<string>>,
                      oracle: Oracle, ghost script: seq<Call>)
    returns (traceOut: seq<Event>, resultsOut: map<string, Option<string>>, ok: bool)
    requires k < |p.tests| && DistinctNames(p.tests)
    requires forall j :: 0 <= j < |p.tests| ==> LaidOut(script, p, j)
    requires Reached(p, k, script, oracle, trace, results)
    ensures ok ==> Reached(p, k + 1, script, oracle, traceOut, resultsOut)
    ensures !ok ==> Run(script, oracle) == Progress(traceOut, true)
  {
    var verdict;
    traceOut, verdict, ok := RunTest(p, k, trace, oracle, script);
    resultsOut := results;
    if ok {
      RecordNext(p, k, trace, traceOut, results, verdict);
      resultsOut := results[p.tests[k].name := Verdict(verdict)];
    }
  }

  /** The loop over the tests, from the end of the class-level set-up to
      the start of the class-level tear-down. */
  method RunTests(p: Plan, trace: seq<Event>, oracle: Oracle, ghost script: seq<Call>)
    returns (traceOut: seq<Event>, results: map<string, Option<string>>, ok: bool)
    requires DistinctNames(p.tests)
    requires forall k :: 0 <= k < |p.tests| ==> LaidOut(script, p, k)
    requires Reached(p, 0, script, oracle, trace, map[])
    ensures ok ==> Reached(p, |p.tests|, script, oracle, traceOut, results)
    ensures !ok ==> Run(script, oracle) == Progress(traceOut, true)
  {
    traceOut := trace;
    results := map[];
    var k := 0;
    while k < |p.tests|
      invariant Reached(p, k, script, oracle, traceOut, results)
    {
      traceOut, results, ok := RunAndRecord(p, k, traceOut, results, oracle, script);
      if !ok { return; }
      k := k + 1;
    }
    ok := true;
  }

  /** The runs after a successful classification. */
  method RunPlan(p: Plan, oracle: Oracle, ghost script: seq<Call>) returns (r: SuiteResult, trace: seq<Event>)
    requires DistinctNames(p.tests) && Shaped(script, p)
    ensures Run(script, oracle) == Progress(trace, r.Aborted?)
    ensures r.Completed? ==> Recorded(p, |p.tests|, trace, r.results)
  {
    var ok;
    trace, ok := Perform(StaticCalls(p.beforeClass), [], oracle, script, 0);
    if !ok { return Aborted, trace; }
    var results;
    trace, results, ok := RunTests(p, trace, oracle, script);
    if !ok { return Aborted, trace; }
    ghost var atEnd := trace;
    trace, ok := Perform(StaticCalls(p.afterClass), trace, oracle, script, Offset(p, |p.tests|));
    if !ok { return Aborted, trace; }
    RecordedExtends(p, |p.tests|, atEnd, trace, results);
    r := Completed(results);
  }

  /** `Unit.testClass` on a class whose declared methods are `declared`. The
      run aborts without calling anything iff the methods cannot be
      classified; otherwise it follows the plan's script until something
      other than a test throws. A completed run maps every test's name to the
      verdict of its call. */
  method TestClass(declared: seq<MethodRecord>, oracle: Oracle)
    returns (r: SuiteResult, trace: seq<Event>, plan: Option<Plan>)
    ensures plan.None? <==> !Classifiable(declared)
    ensures plan.None? ==> r == Aborted && trace == []
    ensures plan.Some? ==> ClassifiedAs(declared, plan.value)
    ensures plan.Some? ==> Run(Script(plan.value), oracle) == Progress(trace, r.Aborted?)
    ensures r.Completed? ==> plan.Some? && Recorded(plan.value, |plan.value.tests|, trace, r.results)
  {
    var classified := Classify(declared);
    if classified.None? {
      return Aborted, [], None;
    }
    plan := classified;
    ScriptEnds(classified.value);
    r, trace := RunPlan(classified.value, oracle, Script(classified.value));
  }
}
