/** The pipeline run that `test/test_pipeline.py` asserts: a pipeline holds a name, a
    parsed schedule and a list of steps; a run hands `None` to the first step and each
    step's result to the next, attempts a step that raises again with the same input up
    to a fixed number of times, and fails as soon as a step has used them all. Each call
    of a step's `perform` is recorded, as the test's spies do. */
module Engine {
  import opened Wrappers
  import opened Steps
  import opened Cron

  /** What one call of a step's `perform` does: return a payload or raise an exception. */
  datatype Attempt = Returned(value: Payload) | Threw

  /** A step's behaviour, given the number of earlier attempts on the same input and
      the input. */
  type Behaviour = (nat, Payload) -> Attempt

  /** One recorded call: which step, with which payload. */
  datatype Call = Call(step: nat, input: Payload)

  datatype Outcome = Completed(result: Payload) | Failed(step: nat)

  /** The attempts on one step from attempt `a` on: the result of the first attempt that
      returns, if any does, and the calls made. */
  datatype StepRun = StepRun(result: Option<Payload>, calls: seq<Call>)

  datatype Trace = Trace(outcome: Outcome, calls: seq<Call>)

  function Attempts(f: Behaviour, k: nat, input: Payload, a: nat, tries: nat): (r: StepRun)
    decreases tries - a
  {
    if a >= tries then StepRun(None, [])
    else match f(a, input)
      case Returned(v) => StepRun(Some(v), [Call(k, input)])
      case Threw =>
        var rest := Attempts(f, k, input, a + 1, tries);
        StepRun(rest.result, [Call(k, input)] + rest.calls)
  }

  /** The run from step `k` on, with `input` handed to step `k`. */
  function RunFrom(steps: seq<Behaviour>, tries: nat, k: nat, input: Payload): (r: Trace)
    requires k <= |steps|
    decreases |steps| - k
  {
    if k == |steps| then Trace(Completed(input), [])
    else
      var s := Attempts(steps[k], k, input, 0, tries);
      match s.result
      case None => Trace(Failed(k), s.calls)
      case Some(out) =>
        var rest := RunFrom(steps, tries, k + 1, out);
        Trace(rest.outcome, s.calls + rest.calls)
  }

  /** `calls` made before a run `r`. */
  function After(calls: seq<Call>, r: Trace): Trace {
    Trace(r.outcome, calls + r.calls)
  }

  // ---- What the attempts on one step do ----

  /** A step that returns is called at least once and at most once per remaining
      attempt, always with the same input. */
  lemma {:induction false} AttemptsReturned(f: Behaviour, k: nat, input: Payload, a: nat, tries: nat)
    requires a <= tries && Attempts(f, k, input, a, tries).result.Some?
    ensures 1 <= |Attempts(f, k, input, a, tries).calls| <= tries - a
    ensures forall c :: c in Attempts(f, k, input, a, tries).calls ==> c == Call(k, input)
    decreases tries - a
  {
    if a < tries && f(a, input).Threw? {
      AttemptsReturned(f, k, input, a + 1, tries);
    }
  }

  /** A step that never returns is called once per remaining attempt, always with the
      same input. */
  lemma {:induction false} AttemptsExhausted(f: Behaviour, k: nat, input: Payload, a: nat, tries: nat)
    requires a <= tries && Attempts(f, k, input, a, tries).result.None?
    ensures Attempts(f, k, input, a, tries).calls == seq(tries - a, _ => Call(k, input))
    decreases tries - a
  {
    if a < tries {
      AttemptsExhausted(f, k, input, a + 1, tries);
    }
  }

  /** A step that raises on every attempt with its input never returns. */
  lemma {:induction false} AlwaysRaisingExhausts(f: Behaviour, k: nat, input: Payload, a: nat, tries: nat)
    requires forall n :: f(n, input) == Threw
    ensures Attempts(f, k, input, a, tries).result.None?
    decreases tries - a
  {
    if a < tries {
      AlwaysRaisingExhausts(f, k, input, a + 1, tries);
    }
  }

  // ---- What a run does ----

  /** A failed run has called no step after the one that failed. */
  lemma {:induction false} FailedRunStops(steps: seq<Behaviour>, tries: nat, k: nat, input: Payload)
    requires k <= |steps| && RunFrom(steps, tries, k, input).outcome.Failed?
    ensures var r := RunFrom(steps, tries, k, input);
      && k <= r.outcome.step < |steps|
      && (forall c :: c in r.calls ==> k <= c.step <= r.outcome.step)
    decreases |steps| - k
  {
    var s := Attempts(steps[k], k, input, 0, tries);
    if s.result.None? {
      AttemptsExhausted(steps[k], k, input, 0, tries);
    } else {
      AttemptsReturned(steps[k], k, input, 0, tries);
      var rest := RunFrom(steps, tries, k + 1, s.result.value);
      FailedRunStops(steps, tries, k + 1, s.result.value);
      forall c | c in s.calls + rest.calls ensures k <= c.step <= rest.outcome.step {
        if c in s.calls { assert c == Call(k, input); }
      }
    }
  }

  /** The last `tries` calls of a failed run are the failed step's, each with the same
      input. */
  lemma {:induction false} FailedRunEndsWithAttempts(steps: seq<Behaviour>, tries: nat, k: nat, input: Payload)
    requires k <= |steps| && RunFrom(steps, tries, k, input).outcome.Failed?
    ensures var r := RunFrom(steps, tries, k, input);
      && |r.calls| >= tries
      && exists x :: r.calls[|r.calls| - tries..] == seq(tries, _ => Call(r.outcome.step, x))
    decreases |steps| - k
  {
    var s := Attempts(steps[k], k, input, 0, tries);
    if s.result.None? {
      AttemptsExhausted(steps[k], k, input, 0, tries);
      assert s.calls[|s.calls| - tries..] == s.calls;
    } else {
      var rest := RunFrom(steps, tries, k + 1, s.result.value);
      FailedRunEndsWithAttempts(steps, tries, k + 1, s.result.value);
      var x :| rest.calls[|rest.calls| - tries..] == seq(tries, _ => Call(rest.outcome.step, x));
      var all := s.calls + rest.calls;
      assert all[|all| - tries..] == rest.calls[|rest.calls| - tries..];
    }
  }

  /** Some recorded call is to step `j`. */
  predicate Called(calls: seq<Call>, j: nat) {
    exists i :: 0 <= i < |calls| && calls[i].step == j
  }

  /** Every step of a run that completes was called. */
  lemma {:induction false} CompletedRunCallsEveryStep(steps: seq<Behaviour>, tries: nat, k: nat, input: Payload)
    requires k <= |steps| && RunFrom(steps, tries, k, input).outcome.Completed?
    ensures forall j :: k <= j < |steps| ==> Called(RunFrom(steps, tries, k, input).calls, j)
    decreases |steps| - k
  {
    if k < |steps| {
      var s := Attempts(steps[k], k, input, 0, tries);
      AttemptsReturned(steps[k], k, input, 0, tries);
      var rest := RunFrom(steps, tries, k + 1, s.result.value);
      CompletedRunCallsEveryStep(steps, tries, k + 1, s.result.value);
      var all := s.calls + rest.calls;
      assert all[0] == s.calls[0] && s.calls[0] in s.calls;
      forall j | k < j < |steps| ensures Called(all, j) {
        assert Called(rest.calls, j);
        var i :| 0 <= i < |rest.calls| && rest.calls[i].step == j;
        assert all[|s.calls| + i] == rest.calls[i];
      }
    }
  }

  /** The payloads handed to steps `k`, `k + 1`, ... when every step returns on its
      first attempt, ending with the last step's result. */
  function Threaded(steps: seq<Behaviour>, k: nat, input: Payload): (ps: seq<Payload>)
    requires k <= |steps|
    requires forall j, x :: k <= j < |steps| ==> steps[j](0, x).Returned?
    ensures |ps| == |steps| - k + 1 && ps[0] == input
    decreases |steps| - k
  {
    if k == |steps| then [input]
    else [input] + Threaded(steps, k + 1, steps[k](0, input).value)
  }

  /** When every step returns on its first attempt, each step is called exactly once,
      with the previous step's result, and the run completes with the last result. */
  lemma {:induction false} FirstTrySucceedsOnce(steps: seq<Behaviour>, tries: nat, k: nat, input: Payload)
    requires k <= |steps| && tries >= 1
    requires forall j, x :: k <= j < |steps| ==> steps[j](0, x).Returned?
    ensures var ps := Threaded(steps, k, input);
      RunFrom(steps, tries, k, input)
        == Trace(Completed(ps[|ps| - 1]), seq(|steps| - k, i requires 0 <= i < |steps| - k => Call(k + i, ps[i])))
    ensures var ps := Threaded(steps, k, input);
      forall i :: 0 <= i < |steps| - k ==> ps[i + 1] == steps[k + i](0, ps[i]).value
    decreases |steps| - k
  {
    if k < |steps| {
      var out := steps[k](0, input).value;
      FirstTrySucceedsOnce(steps, tries, k + 1, out);
      var ps := Threaded(steps, k, input);
      var qs := Threaded(steps, k + 1, out);
      assert ps == [input] + qs;
      var rest := RunFrom(steps, tries, k + 1, out);
      assert rest.calls == seq(|steps| - k - 1, i requires 0 <= i < |steps| - k - 1 => Call(k + 1 + i, qs[i]));
      assert RunFrom(steps, tries, k, input).calls == [Call(k, input)] + rest.calls;
    }
  }

  /** A pipeline whose steps before step `j` all return on their first attempt and whose
      step `j` always raises fails at step `j`, after calling it `tries` times with the
      payload the earlier steps produced. */
  lemma {:induction false} FailingStepExhausts(steps: seq<Behaviour>, tries: nat, k: nat, j: nat, input: Payload)
    requires k <= j < |steps| && tries >= 1
    requires forall i, x :: k <= i < j ==> steps[i](0, x).Returned?
    requires forall n, x :: steps[j](n, x) == Threw
    ensures RunFrom(steps, tries, k, input).outcome == Failed(j)
    ensures forall c :: c in RunFrom(steps, tries, k, input).calls ==> c.step <= j
    ensures |RunFrom(steps, tries, k, input).calls| == j - k + tries
    decreases j - k
  {
    if k == j {
      AlwaysRaisingExhausts(steps[j], j, input, 0, tries);
      AttemptsExhausted(steps[j], j, input, 0, tries);
    } else {
      var out := steps[k](0, input).value;
      FailingStepExhausts(steps, tries, k + 1, j, out);
      AttemptsReturned(steps[k], k, input, 0, tries);
    }
    FailedRunStops(steps, tries, k, input);
  }

  /** The retry loop of a run: step `k` is attempted with the same input until it
      returns or has used all `tries` attempts. */
  method AttemptStep(f: Behaviour, k: nat, data: Payload, tries: nat) returns (result: Option<Payload>, stepCalls: seq<Call>)
    ensures StepRun(result, stepCalls) == Attempts(f, k, data, 0, tries)
  {
    var attempt := 0;
    result := None;
    stepCalls := [];
    while attempt < tries && result.None?
      invariant attempt <= tries
      invariant result.None? ==>
        Attempts(f, k, data, 0, tries)
          == StepRun(Attempts(f, k, data, attempt, tries).result,
                     stepCalls + Attempts(f, k, data, attempt, tries).calls)
      invariant result.Some? ==> Attempts(f, k, data, 0, tries) == StepRun(result, stepCalls)
      decreases tries - attempt, if result.None? then 1 else 0
    {
      stepCalls := stepCalls + [Call(k, data)];
      match f(attempt, data) {
        case Returned(v) => result := Some(v);
        case Threw =>
          assert [Call(k, data)] + Attempts(f, k, data, attempt + 1, tries).calls
              == Attempts(f, k, data, attempt, tries).calls;
          attempt := attempt + 1;
      }
    }
  }

  /** A pipeline: its name, its parsed schedule, its steps, and how many times a step is
      attempted before the run gives up. */
  class Pipeline {
    const name: string
    const schedule: Schedule
    const steps: seq<Behaviour>
    const tryCount: nat

    constructor (name: string, schedule: Schedule, steps: seq<Behaviour>, tryCount: nat)
      requires tryCount >= 1
      ensures this.name == name && this.schedule == schedule
      ensures this.steps == steps && this.tryCount == tryCount
    {
      this.name := name;
      this.schedule := schedule;
      this.steps := steps;
      this.tryCount := tryCount;
    }

    /** `run`: the steps in order, each attempted until it returns or has used all its
        attempts; a step that used them all ends the run. */
    method Run() returns (outcome: Outcome, calls: seq<Call>)
      ensures Trace(outcome, calls) == RunFrom(steps, tryCount, 0, Null)
    {
      var data := Null;
      calls := [];
      var k := 0;
      while k < |steps|
        invariant 0 <= k <= |steps|
        invariant RunFrom(steps, tryCount, 0, Null) == After(calls, RunFrom(steps, tryCount, k, data))
      {
        var result, stepCalls := AttemptStep(steps[k], k, data, tryCount);
        calls := calls + stepCalls;
        if result.None? {
          return Failed(k), calls;
        }
        data := result.value;
        k := k + 1;
      }
      outcome := Completed(data);
    }
  }

  /** The pipeline of the tests, with the schedule text parsed by the constructor. */
  method NewPipeline(name: string, scheduleText: string, steps: seq<Behaviour>, tryCount: nat)
    returns (r: Result<Pipeline, ScheduleError>)
    requires tryCount >= 1
    ensures ParseSchedule(scheduleText).Err? ==> r == Err(ParseSchedule(scheduleText).error)
    ensures ParseSchedule(scheduleText).Ok? ==>
      && r.Ok? && fresh(r.value)
      && r.value.name == name && r.value.schedule == ParseSchedule(scheduleText).value
      && r.value.steps == steps && r.value.tryCount == tryCount
  {
    var schedule := NewSchedule(scheduleText);
    if schedule.Err? {
      return Err(schedule.error);
    }
    var p := new Pipeline(name, schedule.value, steps, tryCount);
    r := Ok(p);
  }

  // ---- The fixtures and cases of `test/test_pipeline.py` ----

  /** `DoNothing`: returns its input. */
  const DoNothing: Behaviour := (n, x) => Returned(x)

  /** `ProduceText`: returns its text whatever it is given. */
  function ProduceText(text: string): Behaviour {
    (n, x) => Returned(Text(text))
  }

  /** The step of `test_pipeline_step_fails` that always raises. */
  const FailingStep: Behaviour := (n, x) => Threw

  const Hello := Text("Hello test!")

  /** `test_pipeline`: the first step is called once with `None`, the others once each
      with the text the first produced. */
  lemma PipelineExample(tries: nat)
    requires tries >= 1
    ensures RunFrom([ProduceText("Hello test!"), DoNothing, DoNothing], tries, 0, Null)
         == Trace(Completed(Hello), [Call(0, Null), Call(1, Hello), Call(2, Hello)])
  {
    var steps := [ProduceText("Hello test!"), DoNothing, DoNothing];
    FirstTrySucceedsOnce(steps, tries, 0, Null);
    var ps := Threaded(steps, 0, Null);
    assert ps[1] == Hello && ps[2] == Hello && ps[3] == Hello;
  }

  /** `test_pipeline_step_fails`: the failing step is called `tries` times with the
      text, the step after it never. */
  lemma PipelineFailureExample(tries: nat)
    requires tries >= 1
    ensures var r := RunFrom([ProduceText("Hello test!"), FailingStep, DoNothing], tries, 0, Null);
      && r.outcome == Failed(1)
      && r.calls == [Call(0, Null)] + seq(tries, _ => Call(1, Hello))
      && forall c :: c in r.calls ==> c.step != 2
  {
    var steps := [ProduceText("Hello test!"), FailingStep, DoNothing];
    FailingStepExhausts(steps, tries, 0, 1, Null);
    AlwaysRaisingExhausts(FailingStep, 1, Hello, 0, tries);
    AttemptsExhausted(FailingStep, 1, Hello, 0, tries);
  }
}
