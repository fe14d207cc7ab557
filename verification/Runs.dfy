/** Making the reflective calls of a run one after another: every call is
    made unless an earlier non-test call threw, which aborts the run. The
    behaviour of the user's code is an oracle on the calls made so far. */
module Runs {
  import opened Sequences

  /** One reflective step of a run. Instance `k` is the fresh object built
      for the `k`-th test. */
  datatype Call =
    | StaticCall(name: string)
    | NewInstance(id: nat)
    | InstanceCall(name: string, id: nat)
    | TestCall(name: string, id: nat)

  datatype Outcome = Ok | Threw(cause: string)

  datatype Event = Event(call: Call, outcome: Outcome)

  /** The behaviour of the user's class: the outcome of a call, given all the
      calls made before it (static state may carry over between tests). */
  type Oracle = (seq<Event>, Call) -> Outcome

  datatype Progress = Progress(trace: seq<Event>, aborted: bool)

  /** An event that aborts the run: a call other than a test threw. */
  predicate Fatal(e: Event)
  {
    e.outcome.Threw? && !e.call.TestCall?
  }

  /** What happens when the first `n` calls are made in order: each is made
      unless an earlier one aborted the run; a throwing test does not abort it. */
  function RunUpTo(calls: seq<Call>, n: nat, oracle: Oracle): Progress
    requires n <= |calls|
  {
    if n == 0 then Progress([], false)
    else
      var sofar := RunUpTo(calls, n - 1, oracle);
      if sofar.aborted then sofar
      else
        var e := Event(calls[n - 1], oracle(sofar.trace, calls[n - 1]));
        Progress(sofar.trace + [e], Fatal(e))
  }

  function Run(calls: seq<Call>, oracle: Oracle): Progress
  {
    RunUpTo(calls, |calls|, oracle)
  }

  /** `t` makes the first `|t|` calls in order, each with the outcome the
      oracle gives after the events before it. */
  predicate Follows(calls: seq<Call>, t: seq<Event>, oracle: Oracle)
  {
    |t| <= |calls| &&
    forall i :: 0 <= i < |t| ==> t[i] == Event(calls[i], oracle(t[..i], calls[i]))
  }

  /** A run makes the calls of the script in order, each with the outcome
      the oracle gives after the earlier ones. */
  lemma {:induction false} RunFollowsScript(calls: seq<Call>, n: nat, oracle: Oracle)
    requires n <= |calls|
    ensures |RunUpTo(calls, n, oracle).trace| <= n
    ensures Follows(calls, RunUpTo(calls, n, oracle).trace, oracle)
  {
    if n > 0 {
      RunFollowsScript(calls, n - 1, oracle);
      var sofar := RunUpTo(calls, n - 1, oracle);
      if sofar.aborted {
        assert RunUpTo(calls, n, oracle) == sofar;
      } else {
        RunLength(calls, n - 1, oracle);
        RunStep(calls, n, oracle);
        FollowsStep(calls, sofar.trace, oracle);
      }
    }
  }

  /** The `n`-th call of a run that has not aborted is made after the events so far. */
  lemma RunStep(calls: seq<Call>, n: nat, oracle: Oracle)
    requires 0 < n <= |calls| && !RunUpTo(calls, n - 1, oracle).aborted
    requires |RunUpTo(calls, n - 1, oracle).trace| == n - 1
    ensures var t := RunUpTo(calls, n - 1, oracle).trace;
      var e := Event(calls[|t|], oracle(t, calls[|t|]));
      RunUpTo(calls, n, oracle) == Progress(t + [e], Fatal(e))
  {
  }

  /** One more call, with the outcome the oracle gives after the events so far. */
  lemma FollowsStep(calls: seq<Call>, t: seq<Event>, oracle: Oracle)
    requires |t| < |calls| && Follows(calls, t, oracle)
    ensures Follows(calls, t + [Event(calls[|t|], oracle(t, calls[|t|]))], oracle)
  {
    var t' := t + [Event(calls[|t|], oracle(t, calls[|t|]))];
    forall i | 0 <= i < |t'| ensures t'[i] == Event(calls[i], oracle(t'[..i], calls[i])) {
      if i < |t| {
        assert t'[..i] == t[..i];
      } else {
        assert t'[..i] == t;
      }
    }
  }

  /** A run stops right after the first fatal event: it is aborted iff its
      last event is fatal, and no earlier event is. */
  lemma {:induction false} RunStopsAtFirstFatal(calls: seq<Call>, n: nat, oracle: Oracle)
    requires n <= |calls|
    ensures var r := RunUpTo(calls, n, oracle);
      (forall i :: 0 <= i < |r.trace| - 1 ==> !Fatal(r.trace[i])) &&
      (r.aborted <==> r.trace != [] && Fatal(r.trace[|r.trace| - 1]))
  {
    if n > 0 {
      RunStopsAtFirstFatal(calls, n - 1, oracle);
      var sofar := RunUpTo(calls, n - 1, oracle);
      if !sofar.aborted {
        var r := RunUpTo(calls, n, oracle);
        assert forall i :: 0 <= i < |sofar.trace| ==> r.trace[i] == sofar.trace[i];
      }
    }
  }

  lemma {:induction false} RunLength(calls: seq<Call>, n: nat, oracle: Oracle)
    requires n <= |calls|
    ensures !RunUpTo(calls, n, oracle).aborted ==> |RunUpTo(calls, n, oracle).trace| == n
  {
    if n > 0 {
      RunLength(calls, n - 1, oracle);
    }
  }

  /** A run that is not aborted made every call of the script, in order, and
      nothing in it threw except possibly tests. */
  lemma CompletedRun(calls: seq<Call>, oracle: Oracle)
    requires !Run(calls, oracle).aborted
    ensures var r := Run(calls, oracle);
      |r.trace| == |calls| &&
      (forall i :: 0 <= i < |calls| ==> r.trace[i].call == calls[i]) &&
      (forall i :: 0 <= i < |calls| ==> r.trace[i].outcome.Threw? ==> calls[i].TestCall?)
  {
    RunLength(calls, |calls|, oracle);
    RunFollowsScript(calls, |calls|, oracle);
    RunStopsAtFirstFatal(calls, |calls|, oracle);
    var r := Run(calls, oracle);
    forall i | 0 <= i < |calls| ensures r.trace[i].outcome.Threw? ==> calls[i].TestCall? {
      assert !Fatal(r.trace[i]);
    }
  }

  /** Once the run has aborted, the remaining calls change nothing. */
  lemma {:induction false} AbortedStays(calls: seq<Call>, m: nat, n: nat, oracle: Oracle)
    requires m <= n <= |calls|
    requires RunUpTo(calls, m, oracle).aborted
    ensures RunUpTo(calls, n, oracle) == RunUpTo(calls, m, oracle)
    decreases n
  {
    if m < n {
      AbortedStays(calls, m, n - 1, oracle);
    }
  }

  /** One reflective call, the one at position `at` of the script, made on a
      run that has not aborted. */
  method Make(call: Call, trace: seq<Event>, oracle: Oracle, ghost script: seq<Call>, ghost at: nat)
    returns (traceOut: seq<Event>, outcome: Outcome)
    requires at < |script| && script[at] == call
    requires RunUpTo(script, at, oracle) == Progress(trace, false)
    ensures |trace| == at && traceOut == trace + [Event(call, outcome)]
    ensures RunUpTo(script, at + 1, oracle) == Progress(traceOut, Fatal(Event(call, outcome)))
  {
    RunLength(script, at, oracle);
    RunStep(script, at + 1, oracle);
    outcome := oracle(trace, call);
    traceOut := trace + [Event(call, outcome)];
  }

  /** The loops that invoke the lifecycle methods one after another, here the
      calls `script[from..from + |calls|]`; the first one that throws aborts. */
  method Perform(calls: seq<Call>, trace: seq<Event>, oracle: Oracle, ghost script: seq<Call>, ghost from: nat)
    returns (traceOut: seq<Event>, ok: bool)
    requires from + |calls| <= |script| && script[from..from + |calls|] == calls
    requires RunUpTo(script, from, oracle) == Progress(trace, false)
    requires forall q :: 0 <= q < |calls| ==> !calls[q].TestCall?
    ensures |trace| <= |traceOut| && traceOut[..|trace|] == trace
    ensures ok ==> RunUpTo(script, from + |calls|, oracle) == Progress(traceOut, false)
    ensures !ok ==> Run(script, oracle) == Progress(traceOut, true)
  {
    traceOut := trace;
    var i := 0;
    while i < |calls|
      invariant 0 <= i <= |calls|
      invariant |trace| <= |traceOut| && traceOut[..|trace|] == trace
      invariant RunUpTo(script, from + i, oracle) == Progress(traceOut, false)
    {
      assert script[from + i] == calls[i] && !calls[i].TestCall?;
      ghost var before := traceOut;
      var o;
      traceOut, o := Make(calls[i], traceOut, oracle, script, from + i);
      assert RunUpTo(script, from + i + 1, oracle).aborted == o.Threw?;
      PrefixOfPrefix(trace, before, traceOut);
      if o.Threw? {
        AbortedStays(script, from + i + 1, |script|, oracle);
        return traceOut, false;
      }
      i := i + 1;
    }
    ok := true;
  }
}
