/** The property checker of `Unit.java` (`quickCheckClass`): every method
    carrying `@Property` is evaluated, in name order, on at most
    `TestMaxNumber` of its parameter combinations until one of them yields
    `false` or throws; the result maps each property name to that
    counterexample, or to nothing when every evaluation held. */
module QuickCheck {
  import opened Wrappers
  import opened Domains
  import opened Classifier

  /** At most this many combinations are tried per property, and at most this
      many property names are reported. */
  const TestMaxNumber := 100

  /** What one invocation of a property method comes to: `true`, `false`, or
      a throwable (a failed cast of its result included). */
  datatype PropertyOutcome = Holds | Falsified | Threw

  datatype Evaluation = Evaluation(property: string, arguments: seq<Value>, outcome: PropertyOutcome)

  /** Invoking a property on the one shared instance; the outcome may depend
      on every evaluation made on that instance before. */
  type PropertyOracle = (seq<Evaluation>, string, seq<Value>) -> PropertyOutcome

  /** The map `quickCheckClass` returns (`None` for a `null` entry), or the
      `RuntimeException` it throws instead. */
  datatype CheckResult = Checked(failures: map<string, Option<seq<Value>>>) | CheckAborted

  /** `Math.min(size, TEST_MAX_NUMBER)`. */
  function Bound(n: nat): nat
  {
    if n < TestMaxNumber then n else TestMaxNumber
  }

  // ---------------------------------------------------------------------------
  // One property

  /** `evals` are the evaluations of `name` on the first `|evals|` candidates,
      each with the outcome the oracle gives after everything before it. */
  predicate InOrder(name: string, candidates: seq<seq<Value>>, history: seq<Evaluation>,
                    oracle: PropertyOracle, evals: seq<Evaluation>)
  {
    |evals| <= |candidates| &&
    forall i :: 0 <= i < |evals| ==>
      evals[i] == Evaluation(name, candidates[i], oracle(history + evals[..i], name, candidates[i]))
  }

  predicate AllHold(evals: seq<Evaluation>)
  {
    forall i :: 0 <= i < |evals| ==> evals[i].outcome == Holds
  }

  /** The reference for one property: its candidates evaluated in order, each
      after everything before it, up to and including the first evaluation
      that is falsified or throws. */
  function FailFast(name: string, candidates: seq<seq<Value>>, history: seq<Evaluation>, oracle: PropertyOracle)
    : seq<Evaluation>
    decreases |candidates|
  {
    if candidates == [] then []
    else
      var e := Evaluation(name, candidates[0], oracle(history, name, candidates[0]));
      if e.outcome != Holds then [e] else [e] + FailFast(name, candidates[1..], history + [e], oracle)
  }

  /** The counterexample a run of evaluations ends with, if it ends with a failure. */
  function Counterexample(evals: seq<Evaluation>): Option<seq<Value>>
  {
    if evals != [] && evals[|evals| - 1].outcome != Holds then Some(evals[|evals| - 1].arguments) else None
  }

  /** `evals` evaluates the candidates in order, each after everything
      before it, and stops at the first that is false or throws, whose
      arguments are the counterexample; there is none iff every candidate
      was evaluated and held. */
  predicate StopsAtFirstFailure(name: string, candidates: seq<seq<Value>>, history: seq<Evaluation>,
                                oracle: PropertyOracle, evals: seq<Evaluation>, counterexample: Option<seq<Value>>)
  {
    InOrder(name, candidates, history, oracle, evals) &&
    (counterexample.None? <==> |evals| == |candidates| && AllHold(evals)) &&
    (counterexample.Some? ==>
       evals != [] && AllHold(evals[..|evals| - 1]) &&
       evals[|evals| - 1].outcome != Holds && counterexample.value == evals[|evals| - 1].arguments)
  }

  /** `FailFast` evaluates the candidates in order and stops exactly at the
      first failure: it has no counterexample iff every candidate was
      evaluated and held, and otherwise its last evaluation is the first that failed. */
  lemma {:induction false} FailFastMeaning(name: string, candidates: seq<seq<Value>>, history: seq<Evaluation>,
                                           oracle: PropertyOracle)
    ensures var evals := FailFast(name, candidates, history, oracle);
            StopsAtFirstFailure(name, candidates, history, oracle, evals, Counterexample(evals))
  {
    FailFastInOrder(name, candidates, history, oracle);
    FailFastOutcome(name, candidates, history, oracle);
  }

  /** The fail-fast block evaluates the candidates in order, each after everything before it. */
  lemma {:induction false} FailFastInOrder(name: string, candidates: seq<seq<Value>>, history: seq<Evaluation>,
                                           oracle: PropertyOracle)
    ensures InOrder(name, candidates, history, oracle, FailFast(name, candidates, history, oracle))
    decreases |candidates|
  {
    if candidates != [] {
      var e := Evaluation(name, candidates[0], oracle(history, name, candidates[0]));
      var evals := FailFast(name, candidates, history, oracle);
      if e.outcome != Holds {
        assert history + evals[..0] == history;
      } else {
        var rest := FailFast(name, candidates[1..], history + [e], oracle);
        FailFastInOrder(name, candidates[1..], history + [e], oracle);
        assert evals == [e] + rest;
        forall i | 0 <= i < |evals|
          ensures evals[i] == Evaluation(name, candidates[i], oracle(history + evals[..i], name, candidates[i]))
        {
          if i == 0 {
            assert history + evals[..0] == history;
          } else {
            assert evals[i] == rest[i - 1];
            assert (history + [e]) + rest[..i - 1] == history + evals[..i];
          }
        }
      }
    }
  }

  /** The fail-fast block has no counterexample iff it covers every candidate
      and all held; otherwise it ends at its first failure, whose arguments
      are the counterexample. */
  lemma {:induction false} FailFastOutcome(name: string, candidates: seq<seq<Value>>, history: seq<Evaluation>,
                                           oracle: PropertyOracle)
    ensures var evals := FailFast(name, candidates, history, oracle);
            |evals| <= |candidates| &&
            (Counterexample(evals).None? <==> |evals| == |candidates| && AllHold(evals)) &&
            (Counterexample(evals).Some? ==>
               evals != [] && AllHold(evals[..|evals| - 1]) && evals[|evals| - 1].outcome != Holds &&
               Counterexample(evals).value == evals[|evals| - 1].arguments)
    decreases |candidates|
  {
    if candidates != [] {
      var e := Evaluation(name, candidates[0], oracle(history, name, candidates[0]));
      var evals := FailFast(name, candidates, history, oracle);
      if e.outcome != Holds {
        assert evals == [e];
      } else {
        var rest := FailFast(name, candidates[1..], history + [e], oracle);
        FailFastOutcome(name, candidates[1..], history + [e], oracle);
        assert evals == [e] + rest;
        if rest != [] {
          assert evals[|evals| - 1] == rest[|rest| - 1];
          assert evals[..|evals| - 1] == [e] + rest[..|rest| - 1];
        }
      }
    }
  }

  /** The inner loop of `quickCheckClass`: evaluate the candidates in order and
      stop at the first one that is falsified or throws; that one is the
      counterexample, and there is none iff every candidate was evaluated and held. */
  method CheckProperty(name: string, candidates: seq<seq<Value>>, history: seq<Evaluation>, oracle: PropertyOracle)
    returns (counterexample: Option<seq<Value>>, evals: seq<Evaluation>)
    ensures StopsAtFirstFailure(name, candidates, history, oracle, evals, counterexample)
    ensures evals == FailFast(name, candidates, history, oracle) && counterexample == Counterexample(evals)
  {
    evals, counterexample := [], None;
    var i := 0;
    FailFastStart(name, candidates, history, oracle);
    while i < |candidates|
      invariant 0 <= i <= |candidates|
      invariant FailFast(name, candidates, history, oracle) ==
                evals + FailFast(name, candidates[i..], history + evals, oracle)
      invariant counterexample.None? && (evals == [] || evals[|evals| - 1].outcome == Holds)
    {
      var outcome := oracle(history + evals, name, candidates[i]);
      FailFastAdvance(name, candidates, history, oracle, evals, i);
      evals := evals + [Evaluation(name, candidates[i], outcome)];
      if outcome != Holds {
        counterexample := Some(candidates[i]);
        break;
      }
      i := i + 1;
    }
    if counterexample.None? {
      FailFastEnd(name, candidates, history, oracle, evals);
    }
    assert counterexample == Counterexample(evals);
    FailFastFacts(name, candidates, history, oracle, evals);
  }

  /** Before the first candidate, the whole reference is still ahead. */
  lemma FailFastStart(name: string, candidates: seq<seq<Value>>, history: seq<Evaluation>, oracle: PropertyOracle)
    ensures FailFast(name, candidates, history, oracle) == [] + FailFast(name, candidates[0..], history + [], oracle)
  {
    assert candidates[0..] == candidates && history + [] == history;
  }

  /** After the last candidate, nothing of the reference is left. */
  lemma FailFastEnd(name: string, candidates: seq<seq<Value>>, history: seq<Evaluation>, oracle: PropertyOracle,
                    evals: seq<Evaluation>)
    requires FailFast(name, candidates, history, oracle) ==
             evals + FailFast(name, candidates[|candidates|..], history + evals, oracle)
    ensures FailFast(name, candidates, history, oracle) == evals
  {
    assert candidates[|candidates|..] == [];
    assert evals + [] == evals;
  }

  /** `FailFastMeaning`, for evaluations known to be the reference's. */
  lemma FailFastFacts(name: string, candidates: seq<seq<Value>>, history: seq<Evaluation>, oracle: PropertyOracle,
                      evals: seq<Evaluation>)
    requires evals == FailFast(name, candidates, history, oracle)
    ensures StopsAtFirstFailure(name, candidates, history, oracle, evals, Counterexample(evals))
  {
    FailFastMeaning(name, candidates, history, oracle);
  }

  /** Evaluating candidate `i` extends the evaluations made so far by one
      step of the reference, which ends there iff that candidate fails. */
  lemma FailFastAdvance(name: string, candidates: seq<seq<Value>>, history: seq<Evaluation>, oracle: PropertyOracle,
                        evals: seq<Evaluation>, i: nat)
    requires i < |candidates|
    requires FailFast(name, candidates, history, oracle) ==
             evals + FailFast(name, candidates[i..], history + evals, oracle)
    ensures var e := Evaluation(name, candidates[i], oracle(history + evals, name, candidates[i]));
            FailFast(name, candidates, history, oracle) ==
              if e.outcome != Holds then evals + [e]
              else (evals + [e]) + FailFast(name, candidates[i + 1..], history + (evals + [e]), oracle)
  {
    FailFastStep(name, candidates, history, oracle, evals, i);
    var e := Evaluation(name, candidates[i], oracle(history + evals, name, candidates[i]));
    if e.outcome == Holds {
      Regroup(evals, [e], FailFast(name, candidates[i + 1..], history + (evals + [e]), oracle));
    }
  }

  lemma Regroup<T>(a: seq<T>, b: seq<T>, c: seq<T>)
    ensures a + (b + c) == (a + b) + c
  {
  }

  /** One step of `FailFast` from candidate `i` on. */
  lemma FailFastStep(name: string, candidates: seq<seq<Value>>, history: seq<Evaluation>, oracle: PropertyOracle,
                     evals: seq<Evaluation>, i: nat)
    requires i < |candidates|
    ensures var e := Evaluation(name, candidates[i], oracle(history + evals, name, candidates[i]));
            FailFast(name, candidates[i..], history + evals, oracle) ==
              if e.outcome != Holds then [e]
              else [e] + FailFast(name, candidates[i + 1..], history + (evals + [e]), oracle)
  {
    assert candidates[i..][0] == candidates[i];
    assert candidates[i..][1..] == candidates[i + 1..];
    var e := Evaluation(name, candidates[i], oracle(history + evals, name, candidates[i]));
    assert (history + evals) + [e] == history + (evals + [e]);
  }

  /** The names of the methods carrying `@Property`. */
  function PropertyNames(ms: seq<MethodRecord>): set<string>
  {
    Names(Annotated(ms, Property))
  }

  /** Some property's parameter combinations cannot be computed. */
  predicate Unresolvable(ms: seq<MethodRecord>, generators: Generators)
    decreases |ms|
  {
    ms != [] &&
    (Unresolvable(ms[..|ms| - 1], generators) ||
     (Property in ms[|ms| - 1].annotations && Combinations(ms[|ms| - 1].parameters, generators).Failure?))
  }

  lemma PropertyNamesMember(ms: seq<MethodRecord>, n: string)
    ensures n in PropertyNames(ms) <==> exists m :: m in ms && Property in m.annotations && m.name == n
  {
    AnnotatedNames(ms, Property, n);
    if exists m :: m in ms && Property in m.annotations && m.name == n {
      var m :| m in ms && Property in m.annotations && m.name == n;
      var j :| 0 <= j < |ms| && ms[j] == m;
    }
  }

  lemma {:induction false} UnresolvableMember(ms: seq<MethodRecord>, generators: Generators)
    ensures Unresolvable(ms, generators) <==>
            exists m :: m in ms && Property in m.annotations && Combinations(m.parameters, generators).Failure?
    decreases |ms|
  {
    if ms != [] {
      UnresolvableMember(ms[..|ms| - 1], generators);
      assert ms == ms[..|ms| - 1] + [ms[|ms| - 1]];
    }
  }

  /** The candidates a property is tried on: `subList(0, min(size, 100))`. */
  function Tried(combinations: seq<seq<Value>>): seq<seq<Value>>
  {
    combinations[..Bound(|combinations|)]
  }

  /** `e` evaluates a property method on one of the candidates it is tried on. */
  predicate Belongs(e: Evaluation, ms: seq<MethodRecord>, generators: Generators)
  {
    exists m :: m in ms && Property in m.annotations && m.name == e.property &&
      Combinations(m.parameters, generators).Success? &&
      e.arguments in Tried(Combinations(m.parameters, generators).value)
  }

  predicate Failed(trace: seq<Evaluation>, n: string)
  {
    exists i :: 0 <= i < |trace| && trace[i].property == n && trace[i].outcome != Holds
  }

  predicate Witnessed(trace: seq<Evaluation>, n: string, arguments: seq<Value>)
  {
    exists i :: 0 <= i < |trace| && trace[i].property == n && trace[i].arguments == arguments &&
      trace[i].outcome != Holds
  }

  /** Every reported name maps to a counterexample iff one of its evaluations
      failed, and a reported counterexample is the arguments of such an evaluation. */
  predicate Faithful(failures: map<string, Option<seq<Value>>>, trace: seq<Evaluation>)
  {
    forall n :: n in failures ==>
      (failures[n].Some? <==> Failed(trace, n)) &&
      (failures[n].Some? ==> Witnessed(trace, n, failures[n].value))
  }

  /** The two `put`s after a property: its counterexample, if any, replaces the
      entry; otherwise `null` is entered only when the name has no entry yet. */
  function Record(failures: map<string, Option<seq<Value>>>, name: string, counterexample: Option<seq<Value>>)
    : map<string, Option<seq<Value>>>
  {
    if counterexample.Some? then failures[name := counterexample]
    else if name in failures then failures
    else failures[name := None]
  }

  /** Recording a property's outcome keeps the map faithful to the longer trace;
      overloads share a name, so an entry of an earlier overload may be kept or replaced. */
  lemma RecordKeepsFaithful(failures: map<string, Option<seq<Value>>>, trace: seq<Evaluation>,
                            name: string, counterexample: Option<seq<Value>>, evals: seq<Evaluation>)
    requires Faithful(failures, trace)
    requires forall i :: 0 <= i < |trace| ==> trace[i].property in failures
    requires forall i :: 0 <= i < |evals| ==> evals[i].property == name
    requires counterexample.None? ==> AllHold(evals)
    requires counterexample.Some? ==>
               evals != [] && evals[|evals| - 1].outcome != Holds &&
               counterexample.value == evals[|evals| - 1].arguments
    ensures Faithful(Record(failures, name, counterexample), trace + evals)
    ensures forall i :: 0 <= i < |trace + evals| ==> (trace + evals)[i].property in Record(failures, name, counterexample)
  {
    var next := Record(failures, name, counterexample);
    var all := trace + evals;
    forall n | n in next
      ensures (next[n].Some? <==> Failed(all, n)) && (next[n].Some? ==> Witnessed(all, n, next[n].value))
    {
      if next[n].Some? {
        Concatenated(trace, evals, n, next[n].value);
      } else {
        Concatenated(trace, evals, n, []);
      }
      if n == name && counterexample.Some? {
        assert Witnessed(evals, n, next[n].value) by {
          assert evals[|evals| - 1].property == n;
        }
      } else if n == name && name !in failures {
        assert !Failed(trace, n);
      }
    }
    forall i | 0 <= i < |all| ensures all[i].property in next {
      if i >= |trace| { assert all[i] == evals[i - |trace|]; }
    }
  }

  /** A failure of a property in a concatenation is one in either part. */
  lemma Concatenated(trace: seq<Evaluation>, evals: seq<Evaluation>, n: string, arguments: seq<Value>)
    ensures Failed(trace + evals, n) <==> Failed(trace, n) || Failed(evals, n)
    ensures Witnessed(trace + evals, n, arguments) <==> Witnessed(trace, n, arguments) || Witnessed(evals, n, arguments)
  {
    var all := trace + evals;
    if Failed(all, n) {
      var i :| 0 <= i < |all| && all[i].property == n && all[i].outcome != Holds;
      if i >= |trace| { assert evals[i - |trace|] == all[i]; }
    }
    if Failed(evals, n) {
      var i :| 0 <= i < |evals| && evals[i].property == n && evals[i].outcome != Holds;
      assert all[|trace| + i] == evals[i];
    }
    if Witnessed(all, n, arguments) {
      var i :| 0 <= i < |all| && all[i].property == n && all[i].arguments == arguments && all[i].outcome != Holds;
      if i >= |trace| { assert evals[i - |trace|] == all[i]; }
    }
    if Witnessed(evals, n, arguments) {
      var i :| 0 <= i < |evals| && evals[i].property == n && evals[i].arguments == arguments && evals[i].outcome != Holds;
      assert all[|trace| + i] == evals[i];
    }
    if Failed(trace, n) {
      var i :| 0 <= i < |trace| && trace[i].property == n && trace[i].outcome != Holds;
      assert all[i] == trace[i];
    }
    if Witnessed(trace, n, arguments) {
      var i :| 0 <= i < |trace| && trace[i].property == n && trace[i].arguments == arguments && trace[i].outcome != Holds;
      assert all[i] == trace[i];
    }
  }

  lemma SameMembers(a: seq<MethodRecord>, b: seq<MethodRecord>)
    requires multiset(a) == multiset(b)
    ensures forall x :: x in a <==> x in b
  {
    forall x ensures x in a <==> x in b {
      assert x in a <==> x in multiset(a);
      assert x in b <==> x in multiset(b);
    }
  }

  /** Everything the properties of `a` select, those of `b` select too. */
  lemma Included(a: seq<MethodRecord>, b: seq<MethodRecord>, generators: Generators)
    requires forall x :: x in a ==> x in b
    ensures PropertyNames(a) <= PropertyNames(b)
    ensures Unresolvable(a, generators) ==> Unresolvable(b, generators)
  {
    forall n | n in PropertyNames(a) ensures n in PropertyNames(b) {
      PropertyNamesMember(a, n);
      PropertyNamesMember(b, n);
    }
    UnresolvableMember(a, generators);
    UnresolvableMember(b, generators);
  }

  lemma {:induction false} SubsetSize<T>(a: set<T>, b: set<T>)
    requires a <= b
    ensures |a| <= |b|
    decreases |a|
  {
    if a != {} {
      var x :| x in a;
      SubsetSize(a - {x}, b - {x});
    }
  }

  lemma PrefixStep(sorted: seq<MethodRecord>, j: nat, generators: Generators)
    requires j < |sorted|
    ensures PropertyNames(sorted[..j + 1]) ==
            PropertyNames(sorted[..j]) + (if Property in sorted[j].annotations then {sorted[j].name} else {})
    ensures Unresolvable(sorted[..j + 1], generators) <==>
            Unresolvable(sorted[..j], generators) ||
            (Property in sorted[j].annotations && Combinations(sorted[j].parameters, generators).Failure?)
  {
    assert sorted[..j + 1][..j] == sorted[..j];
    AnnotatedStep(sorted, Property, j);
    if Property in sorted[j].annotations {
      NamesAppend(Annotated(sorted[..j], Property), sorted[j]);
    }
  }

  /** Every evaluation so far is of a reported name. */
  predicate Reported(trace: seq<Evaluation>, failures: map<string, Option<seq<Value>>>)
  {
    forall i :: 0 <= i < |trace| ==> trace[i].property in failures
  }

  /** Every evaluation so far tries a property of `methods` on one of its tried candidates. */
  predicate AllBelong(trace: seq<Evaluation>, methods: seq<MethodRecord>, generators: Generators)
  {
    forall i :: 0 <= i < |trace| ==> Belongs(trace[i], methods, generators)
  }

  /** Evaluations of property `m` on its tried candidates belong to `methods`. */
  lemma TriedBelong(m: MethodRecord, trace: seq<Evaluation>, evals: seq<Evaluation>,
                    methods: seq<MethodRecord>, generators: Generators)
    requires m in methods && Property in m.annotations && Combinations(m.parameters, generators).Success?
    requires AllBelong(trace, methods, generators)
    requires forall i :: 0 <= i < |evals| ==>
               evals[i].property == m.name && evals[i].arguments in Tried(Combinations(m.parameters, generators).value)
    ensures AllBelong(trace + evals, methods, generators)
  {
    forall i | 0 <= i < |trace + evals| ensures Belongs((trace + evals)[i], methods, generators) {
      if i >= |trace| {
        assert (trace + evals)[i] == evals[i - |trace|];
      }
    }
  }

  /** Checking property `name` fail-fast and recording the outcome keeps a
      faithful map faithful; every evaluation tries `name` on a candidate. */
  lemma FailFastRecorded(failures: map<string, Option<seq<Value>>>, trace: seq<Evaluation>, name: string,
                         candidates: seq<seq<Value>>, oracle: PropertyOracle)
    requires Faithful(failures, trace) && Reported(trace, failures)
    ensures var evals := FailFast(name, candidates, trace, oracle);
            var f := Record(failures, name, Counterexample(evals));
            f.Keys == failures.Keys + {name} &&
            Faithful(f, trace + evals) && Reported(trace + evals, f) &&
            forall i :: 0 <= i < |evals| ==> evals[i].property == name && evals[i].arguments in candidates
  {
    var evals := FailFast(name, candidates, trace, oracle);
    FailFastMeaning(name, candidates, trace, oracle);
    forall i | 0 <= i < |evals| ensures evals[i].property == name && evals[i].arguments in candidates {
      assert evals[i] == Evaluation(name, candidates[i], oracle(trace + evals[..i], name, candidates[i]));
    }
    RecordKeepsFaithful(failures, trace, name, Counterexample(evals), evals);
  }

  // ---------------------------------------------------------------------------
  // The loop over the methods

  /** Where the loop of `quickCheckClass` stands: whether it has thrown, the
      map built so far, and the evaluations made so far. */
  datatype Scan = Scan(stopped: bool, failures: map<string, Option<seq<Value>>>, trace: seq<Evaluation>)

  /** The reference for one turn of the loop over the methods: a method
      without `@Property`, or any method once the loop has thrown, changes
      nothing; otherwise its combinations are computed (a failure throws),
      it is checked fail-fast on the tried ones, its outcome is recorded, and
      the loop throws when more than `TestMaxNumber` names are recorded. */
  function StepScan(m: MethodRecord, s: Scan, generators: Generators, oracle: PropertyOracle): Scan
  {
    if s.stopped || Property !in m.annotations then s
    else
      match Combinations(m.parameters, generators)
      case Failure(_) => Scan(true, s.failures, s.trace)
      case Success(cs) =>
        var evals := FailFast(m.name, Tried(cs), s.trace, oracle);
        var f := Record(s.failures, m.name, Counterexample(evals));
        Scan(|f| > TestMaxNumber, f, s.trace + evals)
  }

  /** The reference for the loop over the first `j` methods of `sorted`. */
  function ScanUpTo(sorted: seq<MethodRecord>, j: nat, generators: Generators, oracle: PropertyOracle): Scan
    requires j <= |sorted|
  {
    if j == 0 then Scan(false, map[], [])
    else StepScan(sorted[j - 1], ScanUpTo(sorted, j - 1, generators, oracle), generators, oracle)
  }

  /** The state of the loop of `quickCheckClass` after the first `j` methods
      of `sorted`: none of them aborted the run, the reported names are the
      names of their properties, and the map is faithful to the evaluations. */
  predicate Scanned(sorted: seq<MethodRecord>, j: nat, failures: map<string, Option<seq<Value>>>,
                    trace: seq<Evaluation>, methods: seq<MethodRecord>, generators: Generators)
  {
    j <= |sorted| &&
    !Unresolvable(sorted[..j], generators) &&
    failures.Keys == PropertyNames(sorted[..j]) && |failures| <= TestMaxNumber &&
    Faithful(failures, trace) && Reported(trace, failures) && AllBelong(trace, methods, generators)
  }

  /** One turn for a `@Property` method keeps the map faithful and every
      evaluation belonging to a property; it throws iff the method's
      combinations cannot be computed or its name would make more than
      `TestMaxNumber` names. */
  lemma StepMeaning(m: MethodRecord, s: Scan, methods: seq<MethodRecord>, generators: Generators, oracle: PropertyOracle)
    requires m in methods && Property in m.annotations && !s.stopped
    requires Faithful(s.failures, s.trace) && Reported(s.trace, s.failures) && AllBelong(s.trace, methods, generators)
    ensures var t := StepScan(m, s, generators, oracle);
            AllBelong(t.trace, methods, generators) &&
            (t.stopped <==> Combinations(m.parameters, generators).Failure? ||
                            |s.failures.Keys + {m.name}| > TestMaxNumber) &&
            (!t.stopped ==> t.failures.Keys == s.failures.Keys + {m.name} &&
                            Faithful(t.failures, t.trace) && Reported(t.trace, t.failures))
  {
    match Combinations(m.parameters, generators)
    case Failure(_) =>
    case Success(cs) =>
      var evals := FailFast(m.name, Tried(cs), s.trace, oracle);
      var f := Record(s.failures, m.name, Counterexample(evals));
      FailFastRecorded(s.failures, s.trace, m.name, Tried(cs), oracle);
      TriedBelong(m, s.trace, evals, methods, generators);
      assert |f| == |f.Keys|;
  }

  /** Where the loop stands after the first `j` methods: every evaluation
      belongs to a property; once it has thrown, some property cannot be
      resolved or there are more than `TestMaxNumber` property names; and
      until then the map reports exactly the properties seen, faithfully. */
  lemma {:induction false} ScanMeaning(sorted: seq<MethodRecord>, j: nat, methods: seq<MethodRecord>,
                                       generators: Generators, oracle: PropertyOracle)
    requires j <= |sorted| && forall x :: x in sorted ==> x in methods
    ensures var s := ScanUpTo(sorted, j, generators, oracle);
            AllBelong(s.trace, methods, generators) &&
            (s.stopped ==> Unresolvable(sorted, generators) || |PropertyNames(sorted)| > TestMaxNumber) &&
            (!s.stopped ==> Scanned(sorted, j, s.failures, s.trace, methods, generators))
    decreases j
  {
    if j == 0 {
      assert sorted[..0] == [];
    } else {
      ScanMeaning(sorted, j - 1, methods, generators, oracle);
      var s := ScanUpTo(sorted, j - 1, generators, oracle);
      var m := sorted[j - 1];
      PrefixStep(sorted, j - 1, generators);
      if !s.stopped && Property in m.annotations {
        StepMeaning(m, s, methods, generators, oracle);
        if ScanUpTo(sorted, j, generators, oracle).stopped {
          Included(sorted[..j], sorted, generators);
          if !Combinations(m.parameters, generators).Failure? {
            SubsetSize(PropertyNames(sorted[..j]), PropertyNames(sorted));
          }
        }
      }
    }
  }

  /** Once the loop has thrown, the later methods change nothing. */
  lemma {:induction false} StoppedStays(sorted: seq<MethodRecord>, j: nat, k: nat, generators: Generators,
                                        oracle: PropertyOracle)
    requires j <= k <= |sorted| && ScanUpTo(sorted, j, generators, oracle).stopped
    ensures ScanUpTo(sorted, k, generators, oracle) == ScanUpTo(sorted, j, generators, oracle)
    decreases k
  {
    if k > j {
      StoppedStays(sorted, j, k - 1, generators, oracle);
    }
  }

  /** The loop only ever appends to the evaluations. */
  lemma {:induction false} TraceGrows(sorted: seq<MethodRecord>, j: nat, k: nat, generators: Generators,
                                      oracle: PropertyOracle)
    requires j <= k <= |sorted|
    ensures var a, b := ScanUpTo(sorted, j, generators, oracle).trace, ScanUpTo(sorted, k, generators, oracle).trace;
            |a| <= |b| && b[..|a|] == a
    decreases k
  {
    if k > j {
      TraceGrows(sorted, j, k - 1, generators, oracle);
      var a := ScanUpTo(sorted, j, generators, oracle).trace;
      var b := ScanUpTo(sorted, k - 1, generators, oracle).trace;
      var c := ScanUpTo(sorted, k, generators, oracle).trace;
      assert |b| <= |c| && c[..|b|] == b;
      assert c[..|a|] == b[..|a|];
    }
  }

  lemma StepKeepsEntry(m: MethodRecord, s: Scan, n: string, generators: Generators, oracle: PropertyOracle)
    requires n in s.failures && (Property in m.annotations ==> m.name != n)
    ensures n in StepScan(m, s, generators, oracle).failures
    ensures StepScan(m, s, generators, oracle).failures[n] == s.failures[n]
  {
  }

  /** An entry is only touched by the methods carrying its name. */
  lemma {:induction false} EntryStays(sorted: seq<MethodRecord>, j: nat, k: nat, n: string, generators: Generators,
                                      oracle: PropertyOracle)
    requires j <= k <= |sorted| && n in ScanUpTo(sorted, j, generators, oracle).failures
    requires forall i :: j <= i < k && Property in sorted[i].annotations ==> sorted[i].name != n
    ensures n in ScanUpTo(sorted, k, generators, oracle).failures
    ensures ScanUpTo(sorted, k, generators, oracle).failures[n] == ScanUpTo(sorted, j, generators, oracle).failures[n]
    decreases k
  {
    if k > j {
      EntryStays(sorted, j, k - 1, n, generators, oracle);
      StepKeepsEntry(sorted[k - 1], ScanUpTo(sorted, k - 1, generators, oracle), n, generators, oracle);
    }
  }

  /** A name no earlier property carries is not yet reported. */
  lemma {:induction false} NameAbsent(sorted: seq<MethodRecord>, j: nat, n: string, generators: Generators,
                                      oracle: PropertyOracle)
    requires j <= |sorted|
    requires forall i :: 0 <= i < j && Property in sorted[i].annotations ==> sorted[i].name != n
    ensures n !in ScanUpTo(sorted, j, generators, oracle).failures
    decreases j
  {
    if j > 0 {
      NameAbsent(sorted, j - 1, n, generators, oracle);
    }
  }

  /** In a run that does not throw, the turn of a `@Property` method appends
      its fail-fast block and records the block's counterexample. */
  lemma PropertyStep(sorted: seq<MethodRecord>, j: nat, generators: Generators, oracle: PropertyOracle)
    requires j < |sorted| && Property in sorted[j].annotations
    requires !ScanUpTo(sorted, |sorted|, generators, oracle).stopped
    ensures Combinations(sorted[j].parameters, generators).Success?
    ensures var m, s := sorted[j], ScanUpTo(sorted, j, generators, oracle);
            var block := FailFast(m.name, Tried(Combinations(m.parameters, generators).value), s.trace, oracle);
            ScanUpTo(sorted, j + 1, generators, oracle) ==
              Scan(false, Record(s.failures, m.name, Counterexample(block)), s.trace + block)
  {
    if ScanUpTo(sorted, j, generators, oracle).stopped {
      StoppedStays(sorted, j, |sorted|, generators, oracle);
    }
    if ScanUpTo(sorted, j + 1, generators, oracle).stopped {
      StoppedStays(sorted, j + 1, |sorted|, generators, oracle);
    }
  }

  /** In a run that does not throw, a property whose name no other property
      carries is reported with the counterexample of its own block. */
  lemma PropertyEntry(sorted: seq<MethodRecord>, j: nat, generators: Generators, oracle: PropertyOracle)
    requires j < |sorted| && Property in sorted[j].annotations
    requires !ScanUpTo(sorted, |sorted|, generators, oracle).stopped
    requires forall i :: 0 <= i < |sorted| && i != j && Property in sorted[i].annotations ==> sorted[i].name != sorted[j].name
    ensures Combinations(sorted[j].parameters, generators).Success?
    ensures var m, s := sorted[j], ScanUpTo(sorted, j, generators, oracle);
            var block := FailFast(m.name, Tried(Combinations(m.parameters, generators).value), s.trace, oracle);
            var final := ScanUpTo(sorted, |sorted|, generators, oracle);
            m.name in final.failures && final.failures[m.name] == Counterexample(block)
  {
    PropertyStep(sorted, j, generators, oracle);
    NameAbsent(sorted, j, sorted[j].name, generators, oracle);
    EntryStays(sorted, j + 1, |sorted|, sorted[j].name, generators, oracle);
  }

  /** In a run that does not throw, the evaluations of the earlier methods
      followed by the fail-fast block of `sorted[j]` begin the final trace. */
  lemma BlockInTrace(sorted: seq<MethodRecord>, j: nat, generators: Generators, oracle: PropertyOracle)
    requires j < |sorted| && Property in sorted[j].annotations
    requires !ScanUpTo(sorted, |sorted|, generators, oracle).stopped
    ensures Combinations(sorted[j].parameters, generators).Success?
    ensures var m, before := sorted[j], ScanUpTo(sorted, j, generators, oracle).trace;
            var block := FailFast(m.name, Tried(Combinations(m.parameters, generators).value), before, oracle);
            var final := ScanUpTo(sorted, |sorted|, generators, oracle).trace;
            |before| + |block| <= |final| && final[..|before| + |block|] == before + block
  {
    PropertyStep(sorted, j, generators, oracle);
    TraceGrows(sorted, j + 1, |sorted|, generators, oracle);
  }

  /** What the run promises about one `@Property` method `sorted[j]` when it
      does not throw: the evaluations hold, right after those of the earlier
      methods, a block that evaluates the property on its tried combinations
      in order, each after everything before it, up to and including the
      first that is false or throws; and when no other property shares its
      name, its entry is that block's counterexample, which is `null` iff
      the block covers every tried combination and all of them held. */
  lemma PropertyBlock(sorted: seq<MethodRecord>, j: nat, generators: Generators, oracle: PropertyOracle)
    requires j < |sorted| && Property in sorted[j].annotations
    requires !ScanUpTo(sorted, |sorted|, generators, oracle).stopped
    ensures Combinations(sorted[j].parameters, generators).Success?
    ensures var m := sorted[j];
            var tried := Tried(Combinations(m.parameters, generators).value);
            var before := ScanUpTo(sorted, j, generators, oracle).trace;
            var block := FailFast(m.name, tried, before, oracle);
            var final := ScanUpTo(sorted, |sorted|, generators, oracle);
            |before| + |block| <= |final.trace| && final.trace[..|before| + |block|] == before + block &&
            StopsAtFirstFailure(m.name, tried, before, oracle, block, Counterexample(block)) &&
            ((forall i :: 0 <= i < |sorted| && i != j && Property in sorted[i].annotations ==>
                sorted[i].name != m.name) ==>
               m.name in final.failures && final.failures[m.name] == Counterexample(block))
  {
    BlockInTrace(sorted, j, generators, oracle);
    var m, s := sorted[j], ScanUpTo(sorted, j, generators, oracle);
    FailFastMeaning(m.name, Tried(Combinations(m.parameters, generators).value), s.trace, oracle);
    if forall i :: 0 <= i < |sorted| && i != j && Property in sorted[i].annotations ==> sorted[i].name != m.name {
      PropertyEntry(sorted, j, generators, oracle);
    }
  }

  // ---------------------------------------------------------------------------
  // The source's methods

  /** Check property `name` on `candidates` and record the outcome. */
  method CheckAndRecord(name: string, candidates: seq<seq<Value>>, failures: map<string, Option<seq<Value>>>,
                        trace: seq<Evaluation>, oracle: PropertyOracle)
    returns (failuresOut: map<string, Option<seq<Value>>>, counterexample: Option<seq<Value>>, evals: seq<Evaluation>)
    ensures StopsAtFirstFailure(name, candidates, trace, oracle, evals, counterexample)
    ensures evals == FailFast(name, candidates, trace, oracle) && counterexample == Counterexample(evals)
    ensures failuresOut == Record(failures, name, counterexample)
    ensures failuresOut.Keys == failures.Keys + {name}
    ensures forall i :: 0 <= i < |evals| ==> evals[i].property == name && evals[i].arguments in candidates
    ensures Faithful(failures, trace) && Reported(trace, failures) ==>
              Faithful(failuresOut, trace + evals) && Reported(trace + evals, failuresOut)
  {
    counterexample, evals := CheckProperty(name, candidates, trace, oracle);
    failuresOut := Record(failures, name, counterexample);
    if Faithful(failures, trace) && Reported(trace, failures) {
      FailFastRecorded(failures, trace, name, candidates, oracle);
    } else {
      FailFastMeaning(name, candidates, trace, oracle);
    }
  }

  /** The body of the loop of `quickCheckClass` for one `@Property` method `m`:
      compute its combinations (a failure aborts), check it on the tried
      ones, record the outcome, and abort when more than `TestMaxNumber`
      names are reported. */
  method CheckMethod(m: MethodRecord, failures: map<string, Option<seq<Value>>>, trace: seq<Evaluation>,
                     generators: Generators, oracle: PropertyOracle)
    returns (aborted: bool, failuresOut: map<string, Option<seq<Value>>>, traceOut: seq<Evaluation>)
    requires Property in m.annotations
    ensures Scan(aborted, failuresOut, traceOut) == StepScan(m, Scan(false, failures, trace), generators, oracle)
  {
    var combinations := AllParameterCombinations(m.parameters, generators);
    if combinations.Failure? {
      return true, failures, trace;
    }
    var counterexample, evals;
    failuresOut, counterexample, evals := CheckAndRecord(m.name, Tried(combinations.value), failures, trace, oracle);
    traceOut := trace + evals;
    aborted := |failuresOut| > TestMaxNumber;
  }

  /** One turn of the loop of `quickCheckClass`: method `j` is checked when it
      carries `@Property` and skipped otherwise. */
  method CheckNext(sorted: seq<MethodRecord>, j: nat, failures: map<string, Option<seq<Value>>>,
                   trace: seq<Evaluation>, generators: Generators, oracle: PropertyOracle)
    returns (stop: bool, failuresOut: map<string, Option<seq<Value>>>, traceOut: seq<Evaluation>)
    requires j < |sorted| && ScanUpTo(sorted, j, generators, oracle) == Scan(false, failures, trace)
    ensures ScanUpTo(sorted, j + 1, generators, oracle) == Scan(stop, failuresOut, traceOut)
    ensures Property !in sorted[j].annotations ==> !stop && failuresOut == failures && traceOut == trace
  {
    var m := sorted[j];
    if Property in m.annotations {
      stop, failuresOut, traceOut := CheckMethod(m, failures, trace, generators, oracle);
    } else {
      stop, failuresOut, traceOut := false, failures, trace;
    }
  }

  /** The loop of `quickCheckClass` over the methods in the order given: it
      aborts iff some property's combinations cannot be computed or more than
      `TestMaxNumber` names would be reported. */
  method CheckInOrder(sorted: seq<MethodRecord>, generators: Generators, oracle: PropertyOracle,
                      ghost methods: seq<MethodRecord>)
    returns (aborted: bool, failures: map<string, Option<seq<Value>>>, trace: seq<Evaluation>)
    requires forall x :: x in sorted ==> x in methods
    ensures ScanUpTo(sorted, |sorted|, generators, oracle) == Scan(aborted, failures, trace)
    ensures aborted <==> Unresolvable(sorted, generators) || |PropertyNames(sorted)| > TestMaxNumber
    ensures !aborted ==> failures.Keys == PropertyNames(sorted) && Faithful(failures, trace)
    ensures AllBelong(trace, methods, generators)
  {
    failures, trace := map[], [];
    var j := 0;
    while j < |sorted|
      invariant j <= |sorted| && ScanUpTo(sorted, j, generators, oracle) == Scan(false, failures, trace)
    {
      var stop;
      stop, failures, trace := CheckNext(sorted, j, failures, trace, generators, oracle);
      if stop {
        StoppedStays(sorted, j + 1, |sorted|, generators, oracle);
        aborted := true;
        break;
      }
      j := j + 1;
    }
    if j == |sorted| {
      aborted := false;
    }
    ScanMeaning(sorted, |sorted|, methods, generators, oracle);
    if !aborted {
      assert sorted[..|sorted|] == sorted;
      assert |failures.Keys| == |failures|;
    }
  }

  /** `quickCheckClass`: build one instance (failure aborts), take the methods
      in name order, and check each `@Property` method on the first
      `TestMaxNumber` of its parameter combinations. The run is the loop over
      the methods in name order (`order`); it aborts iff the instance cannot
      be built, some property's combinations cannot be computed, or more than
      `TestMaxNumber` names would be reported; otherwise every property name
      is reported, faithfully to the evaluations made, and every evaluation
      tries a property on one of its tried candidates. */
  method QuickCheckClass(methods: seq<MethodRecord>, instantiable: bool, generators: Generators, oracle: PropertyOracle)
    returns (r: CheckResult, trace: seq<Evaluation>, ghost order: seq<MethodRecord>)
    ensures r.CheckAborted? <==>
              !instantiable || Unresolvable(methods, generators) || |PropertyNames(methods)| > TestMaxNumber
    ensures r.Checked? ==> r.failures.Keys == PropertyNames(methods) && Faithful(r.failures, trace)
    ensures AllBelong(trace, methods, generators)
    ensures !instantiable ==> trace == []
    ensures instantiable ==> SortedByName(order) && multiset(order) == multiset(methods)
    ensures instantiable ==>
              var s := ScanUpTo(order, |order|, generators, oracle);
              trace == s.trace && r == if s.stopped then CheckAborted else Checked(s.failures)
  {
    trace := [];
    if !instantiable {
      return CheckAborted, trace, [];
    }
    var sorted := SortByName(methods);
    order := sorted;
    SameMembers(sorted, methods);
    Included(methods, sorted, generators);
    Included(sorted, methods, generators);
    assert PropertyNames(methods) == PropertyNames(sorted);
    var aborted, failures;
    aborted, failures, trace := CheckInOrder(sorted, generators, oracle, methods);
    r := if aborted then CheckAborted else Checked(failures);
  }
}
