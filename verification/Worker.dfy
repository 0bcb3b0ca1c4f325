/**
 The memory-worker benchmark (benchmarks/memory_worker_runner.py: `_ExtractCall`,
 `run_benchmark`).

 Every call of `extract` runs in a thread of its own. A step is one action of the
 runner or of one of those threads; they interleave freely, and the runner's waits
 may time out at any moment, also when what they wait for has just happened.
 */
module Worker {
  import opened Options

  type Text = string
  type Record = string
  type Parser = Text -> Option<seq<Record>>
  datatype Case = Case(id: string, input: Text)

  const DEADLINE_EXCEEDED := "deadline_exceeded"

  /** How `extract` ends: a value, an exception of that class, or one that is not an
      `Exception` (`SystemExit` and the like). */
  datatype Outcome = Output(text: Text) | Failure(name: string) | Exit

  /** What the runner sees of a call. */
  datatype Seen = Ended(outcome: Outcome) | TimedOut

  datatype CaseResult = CaseResult(id: string, raw: Text, valid: bool, predicted: seq<Record>, error: Option<string>)

  // ----- one case -----

  /** `_ExtractCall.result`: output and error type, or `None` where it raises. */
  function ResultOf(seen: Seen): Option<(Text, Option<string>)> {
    match seen
    case TimedOut => Some(("", Some(DEADLINE_EXCEEDED)))
    case Ended(Output(text)) => Some((text, None))
    case Ended(Failure(name)) => Some(("", Some(name)))
    case Ended(Exit) => None
  }

  function Score(c: Case, raw: Text, error: Option<string>, parse: Parser): CaseResult {
    var predicted := parse(raw);
    CaseResult(c.id, raw, predicted.Some?, if predicted.Some? then predicted.value else [], error)
  }

  /** Whether the runner waits for the call's thread to be gone. */
  predicate Waits(error: Option<string>) {
    error == Some(DEADLINE_EXCEEDED)
  }

  /** A case's result is right: a value is scored as it is, anything else as nothing. */
  ghost predicate Right(c: Case, seen: Seen, r: CaseResult, parse: Parser) {
    r.id == c.id
    && match seen
       case Ended(Output(text)) =>
         r.raw == text && r.error.None? && (r.valid <==> parse(text).Some?)
         && r.predicted == (if parse(text).Some? then parse(text).value else [])
       case Ended(Failure(name)) => r.raw == "" && r.predicted == [] && !r.valid && r.error == Some(name)
       case Ended(Exit) => false
       case TimedOut => r.raw == "" && r.predicted == [] && !r.valid && r.error == Some(DEADLINE_EXCEEDED)
  }

  /** The empty text is not JSON. */
  ghost predicate Sane(parse: Parser) {
    parse("") == None
  }

  /** The environment of one case: what is seen by the deadline, and whether the
      thread is gone one more deadline later. */
  datatype Behaviour = Behaviour(seen: Seen, gone: bool)

  ghost predicate Stops(b: Behaviour) {
    b.seen == Ended(Exit) || (!b.gone && (b.seen.TimedOut? || b.seen == Ended(Failure(DEADLINE_EXCEEDED))))
  }

  ghost predicate Returns(cases: seq<Case>, behave: seq<Behaviour>, parse: Parser, report: Option<seq<CaseResult>>)
    requires |behave| == |cases|
  {
    && (report.None? <==> cases == [] || exists i :: 0 <= i < |cases| && Stops(behave[i]))
    && (report.Some? ==>
          && |report.value| == |cases|
          && forall i :: 0 <= i < |cases| ==> Right(cases[i], behave[i].seen, report.value[i], parse))
  }

  /** `run_benchmark`: a report, with the right result for every case in order, or
      none (an exception) exactly if a case stops the run or there are no cases. */
  method RunBenchmark(cases: seq<Case>, behave: seq<Behaviour>, parse: Parser) returns (report: Option<seq<CaseResult>>)
    requires |behave| == |cases| && Sane(parse)
    ensures Returns(cases, behave, parse, report)
  {
    var results: seq<CaseResult> := [];
    for i := 0 to |cases|
      invariant |results| == i
      invariant forall j :: 0 <= j < i ==> !Stops(behave[j]) && Right(cases[j], behave[j].seen, results[j], parse)
    {
      var got := ResultOf(behave[i].seen);
      if got.None? || (Waits(got.value.1) && !behave[i].gone) {
        assert Stops(behave[i]);
        return None;
      }
      results := results + [Score(cases[i], got.value.0, got.value.1, parse)];
    }
    if results == [] {
      return None;
    }
    return Some(results);
  }

  // ----- the runner and the threads -----

  /** A thread: executing `extract`, or over with it; then `_finished` is set, then it
      is gone. */
  datatype Stage = Returned | Signalled | Dead
  datatype Call = Running(task: Case) | Over(task: Case, outcome: Outcome, stage: Stage)

  datatype Phase = Ready | Waiting | Joining | Raised | Reported
  datatype State = State(phase: Phase, calls: seq<Call>, results: seq<CaseResult>, pending: Option<string>)

  const START := State(Ready, [], [], None)

  datatype Step =
    | Begin                             // the runner starts the next case's thread
    | SeeFinished | TimeOut             // `_finished.wait` returns
    | Joined | Stuck                    // the thread is gone, or still there, after `join`
    | Finish                            // all cases are done
    | Interrupt                         // any other exception in the runner
    | Return(call: nat, outcome: Outcome)
    | Signal(call: nat)
    | Die(call: nat)

  function Last(s: State): Call
    requires s.calls != []
  {
    s.calls[|s.calls| - 1]
  }

  predicate Enabled(s: State, cases: seq<Case>, step: Step) {
    match step
    case Begin => s.phase.Ready? && |s.calls| < |cases|
    case SeeFinished => s.phase.Waiting? && s.calls != [] && Last(s).Over? && !Last(s).stage.Returned?
    case TimeOut => s.phase.Waiting? && s.calls != []
    case Joined => s.phase.Joining? && s.calls != [] && Last(s).Over? && Last(s).stage.Dead?
    case Stuck => s.phase.Joining? && s.calls != [] && !(Last(s).Over? && Last(s).stage.Dead?)
    case Finish => s.phase.Ready? && |s.calls| == |cases|
    case Interrupt => !s.phase.Raised? && !s.phase.Reported?
    case Return(n, _) => n < |s.calls| && s.calls[n].Running?
    case Signal(n) => n < |s.calls| && s.calls[n].Over? && s.calls[n].stage.Returned?
    case Die(n) => n < |s.calls| && s.calls[n].Over? && s.calls[n].stage.Signalled?
  }

  /** The case is over: its result is recorded. */
  function Recorded(s: State, raw: Text, error: Option<string>, parse: Parser): State
    requires s.calls != []
  {
    s.(phase := Ready, results := s.results + [Score(Last(s).task, raw, error, parse)])
  }

  /** After `result()`. */
  function Resulted(s: State, seen: Seen, parse: Parser): State
    requires s.calls != []
  {
    match ResultOf(seen)
    case None => s.(phase := Raised)
    case Some((raw, error)) =>
      if Waits(error) then s.(phase := Joining, pending := error) else Recorded(s, raw, error, parse)
  }

  function Apply(s: State, cases: seq<Case>, parse: Parser, step: Step): State
    requires Enabled(s, cases, step)
  {
    match step
    case Begin => s.(phase := Waiting, calls := s.calls + [Running(cases[|s.calls|])])
    case SeeFinished => Resulted(s, Ended(Last(s).outcome), parse)
    case TimeOut => Resulted(s, TimedOut, parse)
    case Joined => Recorded(s, "", s.pending, parse)
    case Stuck => s.(phase := Raised)
    case Finish => s.(phase := if s.results == [] then Raised else Reported)
    case Interrupt => s.(phase := Raised)
    case Return(n, outcome) => s.(calls := s.calls[n := Over(s.calls[n].task, outcome, Returned)])
    case Signal(n) => s.(calls := s.calls[n := s.calls[n].(stage := Signalled)])
    case Die(n) => s.(calls := s.calls[n := s.calls[n].(stage := Dead)])
  }

  ghost predicate IsRun(states: seq<State>, cases: seq<Case>, parse: Parser, steps: seq<Step>) {
    |states| == |steps| + 1 && states[0] == START
    && forall i :: 0 <= i < |steps| ==>
         Enabled(states[i], cases, steps[i]) && states[i + 1] == Apply(states[i], cases, parse, steps[i])
  }

  // ----- what every step keeps -----

  /** All calls but the last have ended, and the last one too between two cases. */
  ghost predicate Quiet(s: State) {
    forall n :: 0 <= n < |s.calls| && (n < |s.calls| - 1 || s.phase.Ready? || s.phase.Reported?) ==> s.calls[n].Over?
  }

  ghost predicate Aligned(s: State, cases: seq<Case>) {
    |s.results| <= |s.calls| <= |cases|
    && (s.phase.Ready? || s.phase.Reported? ==> |s.calls| == |s.results|)
    && (s.phase.Waiting? || s.phase.Joining? ==> |s.calls| == |s.results| + 1)
    && (s.phase.Reported? ==> |s.results| == |cases| > 0)
    && (s.phase.Joining? ==> s.pending == Some(DEADLINE_EXCEEDED))
    && (forall n :: 0 <= n < |s.calls| ==> s.calls[n].task == cases[n])
  }

  /** At step `j` the wait for the call of case `n` returned, with what was seen then. */
  ghost predicate SawAt(states: seq<State>, steps: seq<Step>, j: nat, n: nat, seen: Seen) {
    j < |steps| && |states| == |steps| + 1 && |states[j].calls| == n + 1
    && match steps[j]
       case TimeOut => seen == TimedOut
       case SeeFinished => Last(states[j]).Over? && seen == Ended(Last(states[j]).outcome)
       case _ => false
  }

  /** Once `seen` was seen of case `n`: its result is exactly that, or is still to be
      recorded after the join, or the run was stopped. */
  ghost predicate Follows(s: State, cases: seq<Case>, parse: Parser, n: nat, seen: Seen) {
    n < |s.calls| && n < |cases|
    && if n < |s.results| then Right(cases[n], seen, s.results[n], parse)
       else s.phase.Raised?
            || (s.phase.Joining? && n == |s.results| && ResultOf(seen) == Some(("", Some(DEADLINE_EXCEEDED))))
  }

  lemma StepKeeps(s: State, cases: seq<Case>, parse: Parser, step: Step)
    requires Enabled(s, cases, step) && Quiet(s) && Aligned(s, cases)
    ensures var t := Apply(s, cases, parse, step); Quiet(t) && Aligned(t, cases)
  {
  }

  lemma SeeingSettles(s: State, cases: seq<Case>, parse: Parser, step: Step, seen: Seen)
    requires Enabled(s, cases, step) && Aligned(s, cases) && Sane(parse)
    requires (step.TimeOut? && seen == TimedOut) || (step.SeeFinished? && seen == Ended(Last(s).outcome))
    ensures Follows(Apply(s, cases, parse, step), cases, parse, |s.calls| - 1, seen)
  {
  }

  lemma StepFollows(s: State, cases: seq<Case>, parse: Parser, step: Step, n: nat, seen: Seen)
    requires Enabled(s, cases, step) && Aligned(s, cases) && Sane(parse) && Follows(s, cases, parse, n, seen)
    ensures Follows(Apply(s, cases, parse, step), cases, parse, n, seen)
  {
  }

  lemma {:induction false} RunKeeps(states: seq<State>, cases: seq<Case>, parse: Parser, steps: seq<Step>, k: nat)
    requires IsRun(states, cases, parse, steps) && k <= |steps|
    ensures Quiet(states[k]) && Aligned(states[k], cases)
  {
    if k > 0 {
      RunKeeps(states, cases, parse, steps, k - 1);
      StepKeeps(states[k - 1], cases, parse, steps[k - 1]);
    }
  }

  /** What the runner saw of a case decides its result for good, whatever the call does
      afterwards: after a time-out no output, after an end that very outcome. */
  lemma {:induction false} SeenIsReported(
      states: seq<State>, cases: seq<Case>, parse: Parser, steps: seq<Step>, j: nat, n: nat, seen: Seen, k: nat)
    requires IsRun(states, cases, parse, steps) && j < k <= |steps| && Sane(parse) && SawAt(states, steps, j, n, seen)
    ensures Follows(states[k], cases, parse, n, seen)
    decreases k
  {
    RunKeeps(states, cases, parse, steps, k - 1);
    if j < k - 1 {
      SeenIsReported(states, cases, parse, steps, j, n, seen, k - 1);
      StepFollows(states[k - 1], cases, parse, steps[k - 1], n, seen);
    } else {
      SeeingSettles(states[j], cases, parse, steps[j], seen);
    }
  }

  /** A case is recorded, or being joined, only after its wait returned. */
  lemma {:induction false} WasSeen(states: seq<State>, cases: seq<Case>, parse: Parser, steps: seq<Step>, k: nat, n: nat)
      returns (j: nat, seen: Seen)
    requires IsRun(states, cases, parse, steps) && k <= |steps|
    requires n < |states[k].results| || (states[k].phase.Joining? && n == |states[k].results|)
    ensures j < k && SawAt(states, steps, j, n, seen)
    decreases k
  {
    var s, step := states[k - 1], steps[k - 1];
    RunKeeps(states, cases, parse, steps, k - 1);
    if n < |s.results| || (s.phase.Joining? && n == |s.results|) {
      j, seen := WasSeen(states, cases, parse, steps, k - 1, n);
    } else {
      j, seen := k - 1, if step.TimeOut? then TimedOut else Ended(Last(s).outcome);
    }
  }

  /** Whatever the timing, two calls of `extract` never execute at the same moment, and
      none does when the next one starts or the report is made. */
  lemma CallsNeverOverlap(states: seq<State>, cases: seq<Case>, parse: Parser, steps: seq<Step>, k: nat, m: nat, n: nat)
    requires IsRun(states, cases, parse, steps) && k <= |steps| && m < |states[k].calls| && n < |states[k].calls|
    ensures states[k].calls[m].Running? && states[k].calls[n].Running? ==> m == n
    ensures k < |steps| && steps[k].Begin? ==> states[k].calls[n].Over?
    ensures states[k].phase.Reported? ==> states[k].calls[n].Over?
  {
    RunKeeps(states, cases, parse, steps, k);
  }

  /** The wait for the call of a case returns only once. */
  lemma SeenOnce(states: seq<State>, cases: seq<Case>, parse: Parser, steps: seq<Step>,
                 i: nat, j: nat, n: nat, seen: Seen, other: Seen)
    requires IsRun(states, cases, parse, steps) && Sane(parse)
    requires SawAt(states, steps, i, n, seen) && SawAt(states, steps, j, n, other)
    ensures i == j && seen == other
  {
    RunKeeps(states, cases, parse, steps, i);
    RunKeeps(states, cases, parse, steps, j);
    if i < j { SeenIsReported(states, cases, parse, steps, i, n, seen, j); }
    if j < i { SeenIsReported(states, cases, parse, steps, j, n, other, i); }
  }

  /** A report has the result of every case, in order. For each the runner's wait had
      returned exactly once, and the result is right for what was seen then: its own
      call's output as it is, and no predictions after a failure or a time-out, also
      when the call returned an output later. */
  lemma ReportIsComplete(states: seq<State>, cases: seq<Case>, parse: Parser, steps: seq<Step>, k: nat, n: nat)
      returns (j: nat, seen: Seen)
    requires IsRun(states, cases, parse, steps) && k <= |steps| && Sane(parse)
    requires states[k].phase.Reported? && n < |cases|
    ensures |states[k].results| == |cases| > 0
    ensures j < k && SawAt(states, steps, j, n, seen) && Right(cases[n], seen, states[k].results[n], parse)
    ensures forall i: nat, other :: SawAt(states, steps, i, n, other) ==> i == j && other == seen
  {
    RunKeeps(states, cases, parse, steps, k);
    j, seen := WasSeen(states, cases, parse, steps, k, n);
    SeenIsReported(states, cases, parse, steps, j, n, seen, k);
    forall i: nat, other | SawAt(states, steps, i, n, other) ensures i == j && other == seen {
      SeenOnce(states, cases, parse, steps, i, j, n, other, seen);
    }
  }

  /** A run is stopped by exactly four things: another exception in the runner, a thread
      still there after the join, an end that is not an `Exception`, and an empty list of
      cases. Any other return of a wait, and every join in time, goes on. */
  lemma RaisedIff(states: seq<State>, cases: seq<Case>, parse: Parser, steps: seq<Step>, k: nat)
    requires IsRun(states, cases, parse, steps) && k < |steps|
    ensures var s, t, step := states[k], states[k + 1], steps[k];
            && (t.phase.Raised? <==>
                  || s.phase.Raised? || step.Interrupt? || step.Stuck?
                  || (step.SeeFinished? && Last(s).Over? && Last(s).outcome.Exit?)
                  || (step.Finish? && cases == []))
            && (step.Begin? ==> t.phase.Waiting? && |t.calls| == |s.calls| + 1 && Last(t) == Running(cases[|s.calls|]))
            && (step.TimeOut? ==> t.phase.Joining?)
            && (step.SeeFinished? && !t.phase.Raised? ==>
                  if Last(s).outcome == Failure(DEADLINE_EXCEEDED) then t.phase.Joining?
                  else t.phase.Ready? && |t.results| == |s.results| + 1)
            && (step.Joined? ==> t.phase.Ready? && |t.results| == |s.results| + 1)
            && (step.Finish? && cases != [] ==> t.phase.Reported?)
  {
    RunKeeps(states, cases, parse, steps, k);
  }

  lemma RightIsUnique(c: Case, seen: Seen, a: CaseResult, b: CaseResult, parse: Parser)
    requires Right(c, seen, a, parse) && Right(c, seen, b, parse)
    ensures a == b
  {
  }

  /** What the runner saw of the first `n` cases, each thread gone in time. */
  lemma {:induction false} WhatWasSeen(
      states: seq<State>, cases: seq<Case>, parse: Parser, steps: seq<Step>, k: nat, n: nat) returns (behave: seq<Behaviour>)
    requires IsRun(states, cases, parse, steps) && k <= |steps| && Sane(parse)
    requires states[k].phase.Reported? && n <= |cases|
    ensures |behave| == n && |states[k].results| == |cases| > 0
    ensures forall i :: 0 <= i < n ==> AsSeen(states, cases, parse, steps, k, i, behave[i])
  {
    RunKeeps(states, cases, parse, steps, k);
    if n == 0 {
      behave := [];
    } else {
      var before := WhatWasSeen(states, cases, parse, steps, k, n - 1);
      var j, seen := ReportIsComplete(states, cases, parse, steps, k, n - 1);
      behave := before + [Behaviour(seen, true)];
      assert SawAt(states, steps, j, n - 1, seen);
    }
  }

  ghost predicate AsSeen(
      states: seq<State>, cases: seq<Case>, parse: Parser, steps: seq<Step>, k: nat, n: nat, b: Behaviour)
    requires k < |states| && n < |cases| && n < |states[k].results|
  {
    b.gone && (exists j: nat :: j < k && SawAt(states, steps, j, n, b.seen))
    && Right(cases[n], b.seen, states[k].results[n], parse)
  }

  /** The loop and the threads agree: the results of a reported run are what
      `run_benchmark` returns, and all it can return, on what was seen in that run. */
  lemma MachineIsLoop(states: seq<State>, cases: seq<Case>, parse: Parser, steps: seq<Step>, k: nat)
      returns (behave: seq<Behaviour>)
    requires IsRun(states, cases, parse, steps) && k <= |steps| && Sane(parse) && states[k].phase.Reported?
    ensures |behave| == |cases| == |states[k].results|
    ensures forall n :: 0 <= n < |cases| ==> AsSeen(states, cases, parse, steps, k, n, behave[n])
    ensures forall report :: Returns(cases, behave, parse, report) <==> report == Some(states[k].results)
  {
    var results := states[k].results;
    behave := WhatWasSeen(states, cases, parse, steps, k, |cases|);
    forall n | 0 <= n < |cases| ensures !Stops(behave[n]) && Right(cases[n], behave[n].seen, results[n], parse) {
      assert AsSeen(states, cases, parse, steps, k, n, behave[n]);
    }
    forall report | Returns(cases, behave, parse, report) ensures report == Some(results) {
      forall n | 0 <= n < |cases| ensures report.value[n] == results[n] {
        RightIsUnique(cases[n], behave[n].seen, report.value[n], results[n], parse);
      }
      assert report.value == results;
    }
  }
}
