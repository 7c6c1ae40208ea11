/** The loop of `PipelineRunner.run` in `pipeliner/pipeline_runner.py`, one tick at a
    time. A tick sees the current time and whether a run, if one is started, succeeds;
    the runner evaluates the pipeline's schedule against that time, and remembers the
    minute of the previous tick and whether a failed run is waiting to be retried. */
module Runner {
  import opened Cron
  import CronProperties

  /** What one pass of the loop observes: `datetime.now()` and the outcome of
      `pipeline.run()`, were it called. */
  datatype Tick = Tick(now: DateTime, runSucceeds: bool)

  /** The loop's two local variables. */
  datatype TickState = TickState(beforeMinute: nat, shouldRetry: bool)

  predicate MinutePassing(s: TickState, t: Tick) {
    t.now.minute != s.beforeMinute
  }

  /** `should_run` is evaluated only when the minute changed; the tick raises when that
      evaluation raises, before the retry flag is looked at. */
  predicate Raises(sch: Schedule, s: TickState, t: Tick) {
    MinutePassing(s, t) && ShouldRun(sch, t.now) == DivisionByZero
  }

  /** A tick runs the pipeline when the minute changed and the schedule matches, or when
      a retry is pending. */
  predicate Fires(sch: Schedule, s: TickState, t: Tick) {
    (MinutePassing(s, t) && ShouldRun(sch, t.now) == Answer(true)) || s.shouldRetry
  }

  /** The state after a tick that does not raise: a run that fails schedules a retry,
      one that succeeds clears it, and the minute is remembered whether or not anything
      ran. */
  function Next(sch: Schedule, s: TickState, t: Tick): TickState {
    TickState(t.now.minute, if Fires(sch, s, t) then !t.runSucceeds else s.shouldRetry)
  }

  /** The state before tick `i` of a sequence, had none of the earlier ticks raised. */
  function StateAt(sch: Schedule, s: TickState, ticks: seq<Tick>, i: nat): TickState
    requires i <= |ticks|
  {
    if i == 0 then s else Next(sch, StateAt(sch, s, ticks, i - 1), ticks[i - 1])
  }

  /** Which ticks of a sequence run the pipeline, had none of the earlier ticks raised. */
  function Runs(sch: Schedule, s: TickState, ticks: seq<Tick>): (ran: seq<bool>)
    ensures |ran| == |ticks|
  {
    seq(|ticks|, i requires 0 <= i < |ticks| => Fires(sch, StateAt(sch, s, ticks, i), ticks[i]))
  }

  function CompletedFrom(sch: Schedule, s: TickState, ticks: seq<Tick>, i: nat): (n: nat)
    requires i <= |ticks|
    ensures i <= n <= |ticks|
    decreases |ticks| - i
  {
    if i == |ticks| || Raises(sch, StateAt(sch, s, ticks, i), ticks[i]) then i
    else CompletedFrom(sch, s, ticks, i + 1)
  }

  /** How many ticks of a sequence pass before one raises and ends the thread. */
  function Completed(sch: Schedule, s: TickState, ticks: seq<Tick>): (n: nat)
    ensures n <= |ticks|
  {
    CompletedFrom(sch, s, ticks, 0)
  }

  // ---- Sequences of ticks ----

  // One more tick of the loop: its run is appended, and a tick that does not raise
  // leaves the count of completed ticks where it was.
  lemma RunsStep(sch: Schedule, s: TickState, ticks: seq<Tick>, i: nat)
    requires i < |ticks|
    ensures Runs(sch, s, ticks)[..i + 1] == Runs(sch, s, ticks)[..i] + [Fires(sch, StateAt(sch, s, ticks, i), ticks[i])]
    ensures !Raises(sch, StateAt(sch, s, ticks, i), ticks[i]) ==> CompletedFrom(sch, s, ticks, i + 1) == CompletedFrom(sch, s, ticks, i)
    ensures Raises(sch, StateAt(sch, s, ticks, i), ticks[i]) ==> CompletedFrom(sch, s, ticks, i) == i
  {
  }

  /** `Completed` counts the ticks before the first that raises: none of them raises,
      and the tick it stops at, if any, does. */
  lemma {:induction false} CompletedFromStopsAtRaise(sch: Schedule, s: TickState, ticks: seq<Tick>, i: nat)
    requires i <= |ticks|
    requires forall j :: 0 <= j < i ==> !Raises(sch, StateAt(sch, s, ticks, j), ticks[j])
    ensures var n := CompletedFrom(sch, s, ticks, i);
      && (forall j :: 0 <= j < n ==> !Raises(sch, StateAt(sch, s, ticks, j), ticks[j]))
      && (n < |ticks| ==> Raises(sch, StateAt(sch, s, ticks, n), ticks[n]))
    decreases |ticks| - i
  {
    if i < |ticks| && !Raises(sch, StateAt(sch, s, ticks, i), ticks[i]) {
      CompletedFromStopsAtRaise(sch, s, ticks, i + 1);
    }
  }

  lemma CompletedStopsAtRaise(sch: Schedule, s: TickState, ticks: seq<Tick>)
    ensures var n := Completed(sch, s, ticks);
      && (forall j :: 0 <= j < n ==> !Raises(sch, StateAt(sch, s, ticks, j), ticks[j]))
      && (n < |ticks| ==> Raises(sch, StateAt(sch, s, ticks, n), ticks[n]))
  {
    CompletedFromStopsAtRaise(sch, s, ticks, 0);
  }

  // A schedule without `*/0` never raises, so the loop sees every tick.
  lemma {:induction false} EvaluableNeverRaises(sch: Schedule, s: TickState, ticks: seq<Tick>, i: nat)
    requires Evaluable(sch) && i <= |ticks|
    ensures CompletedFrom(sch, s, ticks, i) == |ticks|
    decreases |ticks| - i
  {
    if i < |ticks| {
      ShouldRunNeverRaises(sch, ticks[i].now);
      EvaluableNeverRaises(sch, s, ticks, i + 1);
    }
  }

  lemma ShouldRunNeverRaises(sch: Schedule, when: DateTime)
    requires Evaluable(sch)
    ensures ShouldRun(sch, when) != DivisionByZero
  {
    CronProperties.ShouldRunTrueIffAllFieldsTrue(sch, when);
  }

  lemma {:induction false} StateAtMinute(sch: Schedule, s: TickState, ticks: seq<Tick>, i: nat)
    requires 0 < i <= |ticks|
    ensures StateAt(sch, s, ticks, i).beforeMinute == ticks[i - 1].now.minute
  {
  }

  /** While the minute stays the one seen when the loop started, nothing runs and
      nothing raises: the starting minute never evaluates the schedule. */
  lemma {:induction false} NoRunInStartingMinute(sch: Schedule, minute: nat, ticks: seq<Tick>)
    requires forall i :: 0 <= i < |ticks| ==> ticks[i].now.minute == minute
    ensures forall i :: 0 <= i < |ticks| ==> !Runs(sch, TickState(minute, false), ticks)[i]
    ensures Completed(sch, TickState(minute, false), ticks) == |ticks|
  {
    var s := TickState(minute, false);
    forall i | 0 <= i < |ticks| ensures !Runs(sch, s, ticks)[i] {
      NoRetryInStartingMinute(sch, minute, ticks, i);
    }
    NoRaiseInStartingMinute(sch, minute, ticks, 0);
  }

  lemma {:induction false} NoRetryInStartingMinute(sch: Schedule, minute: nat, ticks: seq<Tick>, i: nat)
    requires i <= |ticks| && forall j :: 0 <= j < |ticks| ==> ticks[j].now.minute == minute
    ensures StateAt(sch, TickState(minute, false), ticks, i) == TickState(minute, false)
  {
    if i > 0 {
      NoRetryInStartingMinute(sch, minute, ticks, i - 1);
    }
  }

  lemma {:induction false} NoRaiseInStartingMinute(sch: Schedule, minute: nat, ticks: seq<Tick>, i: nat)
    requires i <= |ticks| && forall j :: 0 <= j < |ticks| ==> ticks[j].now.minute == minute
    ensures CompletedFrom(sch, TickState(minute, false), ticks, i) == |ticks|
    decreases |ticks| - i
  {
    if i < |ticks| {
      NoRetryInStartingMinute(sch, minute, ticks, i);
      NoRaiseInStartingMinute(sch, minute, ticks, i + 1);
    }
  }

  /** Once a retry is pending, every tick the loop reaches runs the pipeline for as long
      as the runs fail. */
  lemma {:induction false} FailuresRetryEveryTick(sch: Schedule, s: TickState, ticks: seq<Tick>, i: nat)
    requires s.shouldRetry && i < |ticks|
    requires forall j :: 0 <= j < |ticks| ==> !ticks[j].runSucceeds
    ensures StateAt(sch, s, ticks, i).shouldRetry && Runs(sch, s, ticks)[i]
  {
    if i > 0 {
      FailuresRetryEveryTick(sch, s, ticks, i - 1);
    }
  }

  /** Two ticks in the same minute with no retry pending after the first: the second
      does not run, so a schedule fires at most once in a minute. */
  lemma AtMostOncePerMinute(sch: Schedule, s: TickState, ticks: seq<Tick>, i: nat)
    requires i + 1 < |ticks| && ticks[i].now.minute == ticks[i + 1].now.minute
    requires !StateAt(sch, s, ticks, i + 1).shouldRetry
    ensures !Runs(sch, s, ticks)[i + 1]
  {
    StateAtMinute(sch, s, ticks, i + 1);
  }

  /** A successful run clears a pending retry. */
  lemma SuccessClearsRetry(sch: Schedule, s: TickState, ticks: seq<Tick>, i: nat)
    requires i < |ticks| && Runs(sch, s, ticks)[i] && ticks[i].runSucceeds
    ensures !StateAt(sch, s, ticks, i + 1).shouldRetry
  {
  }

  class PipelineRunner {
    var running: bool
    var beforeMinute: nat
    var shouldRetry: bool
    const schedule: Schedule

    constructor (schedule: Schedule)
      ensures !running && this.schedule == schedule
    {
      running := false;
      beforeMinute := 0;
      shouldRetry := false;
      this.schedule := schedule;
    }

    function State(): TickState
      reads this
    {
      TickState(beforeMinute, shouldRetry)
    }

    /** `start`, with the first two lines of `run`: the loop begins in the current minute
        with no retry pending. */
    method Start(minute: nat)
      modifies this
      ensures running && State() == TickState(minute, false)
    {
      running := true;
      beforeMinute := minute;
      shouldRetry := false;
    }

    /** `stop`: the loop ends before its next tick. */
    method Stop()
      modifies this
      ensures !running && State() == old(State())
    {
      running := false;
    }

    /** One pass of the loop body. When evaluating the schedule raises, the pass ends
        there and nothing is updated. */
    method Tick(t: Tick) returns (ran: bool, raised: bool)
      modifies this
      ensures raised == Raises(schedule, old(State()), t)
      ensures raised ==> !ran && State() == old(State())
      ensures !raised ==> ran == Fires(schedule, old(State()), t) && State() == Next(schedule, old(State()), t)
      ensures running == old(running)
    {
      ran, raised := false, false;
      var isMinutePassing := t.now.minute != beforeMinute;
      var shouldRun := false;
      if isMinutePassing {
        var outcome := ShouldRun(schedule, t.now);
        if outcome == DivisionByZero {
          raised := true;
          return;
        }
        shouldRun := outcome.holds;
      }
      if shouldRun || shouldRetry {
        ran := true;
        if t.runSucceeds {
          shouldRetry := false;
        } else {
          shouldRetry := true;
        }
      }
      beforeMinute := t.now.minute;
    }

    /** The loop over a sequence of ticks, with `stop` requested after the last. The
        ticks before the first that raises run the pipeline as `Runs` predicts; a raise
        ends the thread with `_running` still set, and otherwise the loop leaves the
        runner stopped. */
    method Loop(ticks: seq<Tick>) returns (ran: seq<bool>, raised: bool)
      requires running
      modifies this
      ensures var n := Completed(schedule, old(State()), ticks);
        && ran == Runs(schedule, old(State()), ticks)[..n]
        && State() == StateAt(schedule, old(State()), ticks, n)
        && (raised <==> n < |ticks|)
      ensures running == raised
    {
      ghost var start := State();
      ran := [];
      var i := 0;
      while i < |ticks|
        invariant 0 <= i <= |ticks| && running
        invariant State() == StateAt(schedule, start, ticks, i)
        invariant ran == Runs(schedule, start, ticks)[..i]
        invariant CompletedFrom(schedule, start, ticks, i) == Completed(schedule, start, ticks)
      {
        RunsStep(schedule, start, ticks, i);
        var r, stopped := Tick(ticks[i]);
        if stopped {
          return ran, true;
        }
        ran := ran + [r];
        i := i + 1;
      }
      running := false;
      raised := false;
    }
  }
}
