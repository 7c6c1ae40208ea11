# pipeliner in Dafny

pipeliner runs small data pipelines on a cron-like schedule. A pipeline is a list of steps and a
time string of five fields. A background runner checks the schedule every second and runs the
pipeline once when a new minute matches. A failed run is retried on the next tick. Steps are
looked up by class name in a namespace that holds the built-in steps and a user-supplied
module of custom steps.

This project models the core of that system and proves properties of the model:

- `Cron` (`cron.dfy`) is the schedule parser and matcher of `pipeliner/schedule.py`. A time
  string is split on whitespace. Each field is tried against the value types in a fixed order:
  number, `*/n`, `*`, `a-b`, comma list. Every literal is checked against the field's bounds.
  `CronProperties` (`cron_properties.dfy`) proves:
  - the first value type that does not decline a token decides it;
  - a literal out of bounds raises without falling back to a later type;
  - what a parse produces stays inside the field's bounds;
  - a printer for schedules inverts the parser, and every parsed schedule lies in its domain;
  - what a match means, and that `match` and `should_run`, evaluated in Python's order, agree
    with it wherever they do not reach a `*/0`.
  `CronExamples` (`cron_examples.dfy`) proves every case of `test/test_schedule.py`.
- `Text` (`text.dfy`) holds the string operations the parser relies on, with their laws:
  - `str.split` on one character, and the join that inverts it;
  - `re.split(r"\s+", ...)`;
  - decimal digits and `int()`.
- `Steps` (`steps.dfy`) holds what both factories share:
  - payloads;
  - step classes and module namespaces;
  - the step configuration;
  - the export selection (`__all__`, or every public name);
  - the `Step` object whose successor a factory sets.
- `Registry` (`registry.dfy`) is `StepsFactoryWithCustomSteps` of `pipeliner/steps_factory.py`.
  The factory gets no new state after its constructor, so the model is a value built by
  `NewFactory`, plus `CreateStep` and `Create` over it.
- `ChainFactory` (`chain_factory.dfy`) is `StepFactory` of `pipeliner/step_factory.py`. It is a
  class whose namespace `create` updates. It checks every name, builds the steps and links the
  steps into a chain.
- `Compare` (`compare.dfy`) is the `CompareWithPrevious` step. It is a class that remembers the
  last payload and routes each payload to its successor, its "same" branch or its
  "different" branch. The functions `Route`, `Routes` and `ForwardedTo` specify it.
- `Engine` (`engine.dfy`) is the pipeline: a name, a parsed schedule and a list of steps. A run
  hands `None` to the first step and each result to the next. A step that raises is attempted
  again with the same input up to the try count. The run fails once a step has used all its
  attempts. `RunFrom` specifies `Pipeline.Run`.
- `Runner` (`runner.dfy`) is the loop of `PipelineRunner.run` in `pipeliner/pipeline_runner.py`,
  as one tick at a time. The runner holds the pipeline's schedule and evaluates `Cron.ShouldRun`
  on each tick's time when the minute has changed. `Next`, `StateAt` and `Completed` specify
  `PipelineRunner.Tick` and `PipelineRunner.Loop`.

Where the model departs from a description of the system rather than from its code, it follows
the code:

- **`*/0`.** It is not refused. For the minute, hour and day-of-week fields, whose bounds start
  at 0, it parses (`CronProperties.ZeroStepParsing`). Matching it raises `ZeroDivisionError`,
  but only when evaluation reaches it: a list stops at its first part that matches, and
  `should_run` stops at its first field that does not. `Cron.Match` and `Cron.ShouldRun` follow
  that order and give `DivisionByZero` when they reach a `*/0`
  (`CronExamples.ZeroStepMatchExamples`). `Cron.Matches` is what a match means for values
  without `*/0`, and `CronProperties.MatchAgrees` shows that the two agree there. In the runner
  the error escapes the `try` and ends the thread; `Runner.PipelineRunner.Loop` models that stop.
- **The order of value types.** The code tries number, `*/n`, `*`, range, list. Apart from
  the list, these shapes never compete for a token (`CronProperties.SimpleShapesExclusive`),
  so the order of the others cannot change a result.
- **Ranges.** A range whose start is after its end parses and matches nothing.
- **Day of week.** It is matched against Python's `weekday() + 1`: Monday is 1 and Sunday is 7.
  A day of week written 0 passes the bounds check but never matches
  (`CronProperties.DayOfWeekConvention`).
- **The pipeline.** `pipeliner/pipeline.py` stores the schedule text and a single
  beginning step. `test/test_pipeline.py` builds a pipeline from a list of steps, expects a
  parsed `Schedule`, and expects a failing step to be retried `STEP_REPEAT_TRY_COUNT` times.
  `Engine` models the pipeline the tests describe. The try count is a parameter of at least 1,
  because `pipeliner/pipeline.py` does not define it.
- **Copies of the input.** Each retry gets an equal input; payloads are values, so no copy is
  needed.

## Model

| member | source | states |
|---|---|---|
| Text.DigitsValueOfDecimal | pipeliner/schedule.py:46 | reading the decimal text of a number with `int()` gives the number back |
| Text.JoinSplitAt | pipeliner/schedule.py:110 | joining the parts of `token.split(",")` with commas gives the token back |
| Text.SplitAtJoin | pipeliner/schedule.py:110 | splitting a comma join of comma-free parts gives those parts back |
| Text.SplitWhitespaceNoWhitespace | pipeliner/schedule.py:129 | no field of `re.split(r"\s+", s)` holds whitespace |
| Text.SplitWhitespaceInnerParts | pipeliner/schedule.py:129 | only the first and last fields of the split can be empty, and the first is empty when the string starts with whitespace |
| Text.SplitWhitespaceJoin | pipeliner/schedule.py:129 | splitting non-empty whitespace-free tokens joined by spaces gives the tokens back |
| Text.SplitAt | pipeliner/schedule.py:110 | `str.split` on one character: every separator starts a new part, so there is always at least one part, possibly empty |
| Text.SplitAtSeparatorParts | pipeliner/schedule.py:110 | a token splits into more than one part exactly when it holds the separator |
| Text.SplitWhitespace | pipeliner/schedule.py:129 | `re.split(r"\s+", s)`: every maximal run of whitespace separates two fields, so there is always at least one field |
| Text.DigitsValue | pipeliner/schedule.py:46 | `int()` of a string of ASCII digits, most significant digit first |
| Cron.MakeValue | pipeliner/schedule.py:25-37 | the loop over value types returns the first non-declining type's value or error, and `InvalidValue` when all decline |
| Cron.NewSchedule | pipeliner/schedule.py:128-137 | the constructor refuses a string that is not five fields and makes the fields in order, the first refused field refusing the string |
| Cron.ParseAs | pipeliner/schedule.py:44-116 | each value type's `parse`: it declines a token of another shape, raises `OutOfRange` for a literal outside the bounds, and accepts otherwise; the list type splits at commas and makes every part |
| Cron.Make | pipeliner/schedule.py:25-37 | `Value.make`: the first type that does not decline decides, and a token every type declines is `InvalidValue` |
| Cron.MakeAll | pipeliner/schedule.py:108-116 | the list comprehension: every part is made with the inner types in order, and the first refused part refuses the list |
| Cron.ParseSchedule | pipeliner/schedule.py:128-137 | `Schedule(time_string)`: a five-field check on the whitespace split, then the five fields made in order with their bounds |
| Cron.Matches | pipeliner/schedule.py:52-122 | what a match means for a value without `*/0`: a number matches itself, `*/n` the multiples of n, `a-b` the values from a to b, a list the values any part matches |
| Cron.Match | pipeliner/schedule.py:52-122 | `match` evaluated as Python does: `*/0` raises, and a list asks its parts in order, stopping at the first that matches or raises |
| Cron.MatchAny | pipeliner/schedule.py:118-122 | `any()` over a list's parts: false for no part, otherwise the first part's outcome unless it is false |
| Cron.ShouldRun | pipeliner/schedule.py:139-150 | `should_run`: the five fields in order, returning at the first that does not answer true, with day of week against `weekday() + 1` |
| CronProperties.FirstNonDecliningTypeDecides | pipeliner/schedule.py:25-37 | the first value type that does not decline a token decides the result: its value, or the error it raised |
| CronProperties.AllDecliningIsInvalidValue | pipeliner/schedule.py:36-37 | a token every value type declines is an invalid value |
| CronProperties.ListNeverDeclines | pipeliner/schedule.py:108-116 | the comma list takes every token, so a whole field never reaches the invalid-value fallback |
| CronProperties.SimpleShapesExclusive | pipeliner/schedule.py:44-95 | at most one of the number, `*/n`, `*` and range types accepts a given token |
| CronProperties.CommaTokenIsList | pipeliner/schedule.py:44-95 | every type but the list declines a token holding a comma |
| CronProperties.OutOfRangeLiteralRaises | pipeliner/schedule.py:44-95 | a number, `*/n` or range token with a literal outside the bounds raises `OutOfRange` for a field and for a list part, with no later type tried |
| CronProperties.StarRefusedInList | pipeliner/schedule.py:103 | a bare `*` is an invalid value inside a comma list |
| CronProperties.ParseAsSimpleSound | pipeliner/schedule.py:44-95 | a non-list type accepts only in-bounds flat values and raises only `OutOfRange` |
| CronProperties.MakeSimpleSound | pipeliner/schedule.py:25-37 | making a list part gives an in-bounds flat value and never a format error |
| CronProperties.MakeAllSound | pipeliner/schedule.py:108-116 | a list gets one flat in-bounds value per part |
| CronProperties.MakeSound | pipeliner/schedule.py:25-37 | every value made keeps its literals in the field's bounds, and a refusal is never a format error |
| CronProperties.ParseScheduleSound | pipeliner/schedule.py:128-137 | a time string is refused as malformed exactly when it does not split into five fields; a parsed schedule is within every field's bounds |
| CronProperties.InBoundsNonZero | pipeliner/schedule.py:135-136 | a field whose bounds start at 1 can never hold `*/0` |
| CronProperties.ZeroStepParsing | pipeliner/schedule.py:60-69 | `*/0` parses for minute, hour and day of week, is out of range for day of month and month, and is outside `NonZeroSteps` |
| CronProperties.ParsedScheduleEvaluable | pipeliner/schedule.py:133-137 | `Evaluable`, the condition of the all-fields equivalence, holds of a parsed schedule exactly when its minute, hour and day-of-week fields hold no `*/0` |
| CronProperties.ParseAsRenderPart | pipeliner/schedule.py:44-95 | each non-list type reads the text of a value of its own shape back as that value, and declines any other shape |
| CronProperties.MakeAllRenderParts | pipeliner/schedule.py:108-116 | the inner types read the texts of in-bounds parts back as those parts |
| CronProperties.ParseAsListRender | pipeliner/schedule.py:108-116 | the list type reads the comma join of the parts' texts back as the list |
| CronProperties.ParseRenderField | pipeliner/schedule.py:25-37 | parsing the text of any well-formed field value gives the value back |
| CronProperties.ParseRenderSchedule | pipeliner/schedule.py:128-137 | parsing the printed form of any well-formed schedule gives the schedule back |
| CronProperties.SinglePartListRefused | pipeliner/schedule.py:108-116 | a comma-free token that the four simple types decline is refused by the list type as well |
| CronProperties.MakeWellFormed | pipeliner/schedule.py:25-37 | a value made for a whole field can be printed back: literals in bounds, and a list of at least two flat parts |
| CronProperties.ParseScheduleWellFormed | pipeliner/schedule.py:128-137 | every schedule the parser returns lies in the printer's domain |
| CronProperties.ParsePrintParsed | pipeliner/schedule.py:128-137 | printing a parsed schedule and parsing the text again gives the same schedule |
| CronProperties.EveryNthMatchesMultiples | pipeliner/schedule.py:68-69 | `*/n` matches exactly the multiples of n |
| CronProperties.ListMatchesAnyPart | pipeliner/schedule.py:118-122 | a list matches exactly the values one of its parts matches |
| CronProperties.MatchAgrees | pipeliner/schedule.py:52-122 | on a value without `*/0`, evaluating `match` gives an answer, and the answer is what the match means |
| CronProperties.MatchAnyAgrees | pipeliner/schedule.py:118-122 | on parts without `*/0`, `any()` answers whether some part matches |
| CronProperties.ListFirstDecides | pipeliner/schedule.py:118-122 | a list's outcome is that of its first part that does not answer false, and false when every part answers false |
| CronProperties.ShouldRunIffAllFieldsMatch | pipeliner/schedule.py:139-150 | on a schedule without `*/0`, `should_run` answers, and answers true exactly when all five fields match, day of week against `weekday() + 1` |
| CronProperties.ShouldRunTrueIffAllFieldsTrue | pipeliner/schedule.py:139-150 | on any schedule, `should_run` is true exactly when each of the five fields answers true, and it raises only if some field holds `*/0` |
| CronProperties.DayOfWeekConvention | pipeliner/schedule.py:148 | with a day of week of 0 `should_run` is never true, and with 7 it is true only on Sunday |
| CronExamples.ValueTypeExamples | test/test_schedule.py:18-33 | the single value types parse `10`, `*/10`, `*` and `10-20`, and over 0..100 match exactly {10}, the multiples of 10, everything and 10..20 |
| CronExamples.ListExample | test/test_schedule.py:35-36 | `1,2,3,5-7,*/20,10` parses as a list of its six parts |
| CronExamples.ListMatchesParts | test/test_schedule.py:35-37 | that list matches 1, 2, 3, 5 to 7, multiples of 20 and 10 |
| CronExamples.ListMatchExample | test/test_schedule.py:35-37 | over 0..100 that list matches exactly the set the test expects |
| CronExamples.TimeFormatExamples | test/test_schedule.py:40-45 | `hello there` and `* * * *` are malformed time strings |
| CronExamples.NegativeExample | test/test_schedule.py:48-50 | `-1 -1 0 0 0` is refused: `-1` has no accepted shape |
| CronExamples.OutOfRangeExample | test/test_schedule.py:52-53 | `60 24 32 13 8` is refused as out of range |
| CronExamples.WildcardExample | test/test_schedule.py:57-58 | `* * * * *` matches every time |
| CronExamples.FixedMinuteExample | test/test_schedule.py:60-61 | `0 * * * *` does not match 11:53 |
| CronExamples.NewYearExample | test/test_schedule.py:63-64 | `0 0 1 1 *` matches midnight on 1 January |
| CronExamples.FixedTimeExample | test/test_schedule.py:66-67 | `4 3 2 1 *` matches 03:04 on 2 January |
| CronExamples.StepExample | test/test_schedule.py:69-73 | `4 */3 2 1 *` matches hours 3, 6 and 9 and not hour 4 |
| CronExamples.HourRangeExample | test/test_schedule.py:76-81 | `* 9-14 * * *` matches exactly the hours 9 to 14 |
| CronExamples.HourListExample | test/test_schedule.py:84-85 | `* 1,2,3 * * *` parses with an hour list of three numbers |
| CronExamples.HourListMatchExample | test/test_schedule.py:84-90 | that schedule matches exactly the hours 1, 2 and 3 |
| CronExamples.ZeroStepParseExamples | pipeliner/schedule.py:60-65 | `*/1,*/0 * * * *`, `5-3 */0 * * *` and `0 */0 * * *` parse, each holding a `*/0` |
| CronExamples.ZeroStepMatchExamples | pipeliner/schedule.py:118-150 | the first runs at every time and the second at none, without raising; the third does not run at 11:53 and raises at minute 0 |
| Steps.FirstMissing | pipeliner/steps_factory.py:52-55 | the first name the module lacks, in `__all__` order, or none when it lacks none |
| Steps.Exports | pipeliner/steps_factory.py:44-55 | without `__all__` the export set is every public name; with it, exactly the names listed, an error naming a listed name the module lacks, and values as the module binds them |
| Registry.NewFactory | pipeliner/steps_factory.py:36-55 | the custom module is imported before the built-in one, either import's error refuses the factory, a built-in export wins over a custom one, and a custom export wins over an older binding |
| Registry.CreateStep | pipeliner/steps_factory.py:57-66 | an unregistered name is refused, a name bound to a step class is built with the configured params or none, and the factory is passed exactly to factory-aware classes |
| Registry.Create | pipeliner/steps_factory.py:30-34 | every configuration is built in order, or the first refusal is returned |
| Registry.BuiltinShadowsCustom | pipeliner/steps_factory.py:36-39 | a built-in step class is built even when the custom module exports the same name |
| Registry.CustomStepRegistered | pipeliner/steps_factory.py:52-55 | a custom step class that no built-in shadows is built |
| Registry.UnknownNameRefusesList | pipeliner/steps_factory.py:58-59 | an unknown name after buildable ones refuses the whole list with that name |
| Registry.FactoryExample | test/test_pipeline.py:11-36 | the configuration of the test builds three steps, the first with the configured text |
| ChainFactory.FirstUnknown | pipeliner/step_factory.py:15-17 | the index of the first configured name the namespace lacks |
| ChainFactory.FirstNotClass | pipeliner/step_factory.py:19-22 | the index of the first configured name bound to something that cannot be called |
| ChainFactory.FindUnknown | pipeliner/step_factory.py:15-17 | the validation loop stops at the first configured name the namespace lacks |
| ChainFactory.Build | pipeliner/step_factory.py:19-22 | the steps are built in configuration order, new and distinct, with their class and params, unless a name is bound to something that cannot be called |
| ChainFactory.Link | pipeliner/step_factory.py:23-24 | each step's successor is the next step, and the last step has none |
| ChainFactory.StepFactory.constructor | pipeliner/step_factory.py:8-10 | the factory's namespace starts as the one it is given, and it remembers the custom steps module |
| ChainFactory.StepFactory.ImportCustomSteps | pipeliner/step_factory.py:28-42 | the custom exports overwrite the namespace's same-named bindings; a failing import leaves it unchanged |
| ChainFactory.StepFactory.Create | pipeliner/step_factory.py:12-26 | the import error, the first unknown name, the first uncallable name or the empty list refuses the chain: no chain is returned and no step is linked; otherwise new distinct steps are built in order, each linked to the next, and the first is returned |
| Steps.Step.SetNextStep | pipeliner/step_factory.py:23-24 | the step's successor becomes the given step |
| Compare.Route | pipeliner/steps/compare_with_previous.py:35-41 | the successor when nothing is remembered, the same branch for an equal payload, and the different branch otherwise |
| Compare.Routes | pipeliner/steps/compare_with_previous.py:35-43 | the branches of a run of calls, each payload compared with the one before it and the first with what was remembered |
| Compare.ForwardedTo | pipeliner/steps/compare_with_previous.py:35-44 | the payloads a run of calls forwards to one branch, in order |
| Compare.ForwardedToRoutes | pipeliner/steps/compare_with_previous.py:35-44 | the payloads forwarded to a branch are exactly those at the calls `Routes` sends to it, in order |
| Compare.PickPartition | pipeliner/steps/compare_with_previous.py:35-44 | picking the payloads of each of the three branches from one run distributes the run's payloads among them |
| Compare.RoutesCompareWithPrevious | pipeliner/steps/compare_with_previous.py:35-43 | in a run of calls, each payload is compared with the payload before it, and the first with what was remembered |
| Compare.ForwardedPartition | pipeliner/steps/compare_with_previous.py:35-44 | the three receivers together get the run's payloads, each exactly as often as it occurs in the run |
| Compare.SuccessorOnlyAfterNone | pipeliner/steps/compare_with_previous.py:36-37 | a call goes to the original successor only right after a `None` payload |
| Compare.CompareWithPrevious.constructor | pipeliner/steps/compare_with_previous.py:15-24 | a new step remembers nothing and has no successor |
| Compare.CompareWithPrevious.SetNextStep | pipeliner/steps/compare_with_previous.py:26-33 | the successor is recorded as the original one and both branch steps are chained to it |
| Compare.CompareWithPrevious.Perform | pipeliner/steps/compare_with_previous.py:35-44 | the call forwards to the receiver `Route` chooses and remembers the payload |
| Compare.CompareWithPrevious.PerformAll | pipeliner/steps/compare_with_previous.py:35-44 | a run of calls takes the branches of `Routes`, forwards to each branch the payloads at the positions of that branch, and remembers the last payload |
| Compare.CompareExample | test/test_steps.py:23-42 | the test's five payloads go to the successor, twice to the same branch, then twice to the different branch, with the payloads the test expects |
| Compare.CompareScenario | test/test_steps.py:23-42 | a new step called with the test's payloads takes exactly those branches |
| Engine.AttemptsReturned | test/test_pipeline.py:39-53 | attempts that end in a returned value made between one and the remaining number of calls, all with the same input |
| Engine.Attempts | test/test_pipeline.py:56-80 | the attempts of one step on one input: called again with the same input while it raises and tries remain |
| Engine.RunFrom | test/test_pipeline.py:39-80 | a run from step k: each step attempted with the previous result, the run failing at the first step whose attempts all raise |
| Engine.AttemptsExhausted | test/test_pipeline.py:74-79 | attempts that all raise call the step once per remaining attempt, each with the same input |
| Engine.AlwaysRaisingExhausts | test/test_pipeline.py:56-59 | a step that always raises never returns a value |
| Engine.FailedRunStops | test/test_pipeline.py:71-80 | a failed run failed at a step of the list and called no step after that one |
| Engine.FailedRunEndsWithAttempts | test/test_pipeline.py:74-79 | the last calls of a failed run are the failing step's attempts, one per try, all with the same input |
| Engine.CompletedRunCallsEveryStep | test/test_pipeline.py:49-53 | a completed run called every step |
| Engine.FirstTrySucceedsOnce | test/test_pipeline.py:49-53 | when every step returns on the first try, each is called once, in order, with the previous result, and the run returns the last result |
| Engine.FailingStepExhausts | test/test_pipeline.py:71-80 | a step that always raises after steps that return fails the run after exactly its attempts, and no later step is called |
| Engine.AttemptStep | test/test_pipeline.py:56-80 | the retry loop attempts a step with one input until it returns or has used all its tries, making the calls `Attempts` specifies |
| Engine.Pipeline.constructor | pipeliner/pipeline.py:5-8 | the pipeline keeps its name, schedule, steps and try count |
| Engine.Pipeline.Run | pipeliner/pipeline.py:10-11 | the run's outcome and calls are those of `RunFrom` from the first step with `None` |
| Engine.NewPipeline | test/test_pipeline.py:46-48 | a schedule text that does not parse refuses the pipeline; otherwise the pipeline holds the parsed schedule |
| Engine.PipelineExample | test/test_pipeline.py:39-53 | the first step is called once with `None`, the other two once each with the produced text |
| Engine.PipelineFailureExample | test/test_pipeline.py:56-80 | the failing step is called once per attempt with the produced text, and the step after it never is |
| Runner.StateAtMinute | pipeliner/pipeline_runner.py:44 | after a tick, the remembered minute is that tick's minute |
| Runner.Raises | pipeliner/pipeline_runner.py:33-34 | a tick raises when the minute changed and evaluating `should_run` raises; the retry flag is not consulted first |
| Runner.Fires | pipeliner/pipeline_runner.py:33-36 | a tick runs the pipeline when the minute changed and the schedule answers true, or a retry is pending |
| Runner.Next | pipeliner/pipeline_runner.py:36-44 | after a tick that does not raise: the minute is remembered, and a run sets the retry flag to whether it failed |
| Runner.StateAt | pipeliner/pipeline_runner.py:27-46 | the loop state before each tick of a sequence |
| Runner.Runs | pipeliner/pipeline_runner.py:27-46 | which ticks of a sequence run the pipeline |
| Runner.Completed | pipeliner/pipeline_runner.py:31-34 | how many ticks pass before one raises |
| Runner.CompletedStopsAtRaise | pipeliner/pipeline_runner.py:31-34 | no tick before `Completed` raises, and the tick at `Completed`, if any, does |
| Runner.EvaluableNeverRaises | pipeliner/pipeline_runner.py:33-34 | with a schedule without `*/0`, no tick raises, so the loop sees every tick |
| Runner.NoRetryInStartingMinute | pipeliner/pipeline_runner.py:28-44 | while the minute stays the starting one, the state stays the starting state |
| Runner.NoRunInStartingMinute | pipeliner/pipeline_runner.py:28-36 | in the minute the loop began in, no run starts and the schedule is never evaluated, so no tick raises |
| Runner.FailuresRetryEveryTick | pipeliner/pipeline_runner.py:36-42 | once a retry is pending and runs keep failing, every tick runs the pipeline |
| Runner.AtMostOncePerMinute | pipeliner/pipeline_runner.py:33-36 | with no retry pending, a second tick in the same minute does not run the pipeline |
| Runner.SuccessClearsRetry | pipeliner/pipeline_runner.py:37-39 | a successful run clears a pending retry |
| Runner.PipelineRunner.constructor | pipeliner/pipeline_runner.py:14-17 | a new runner is not running and holds the pipeline's schedule |
| Runner.PipelineRunner.Start | pipeliner/pipeline_runner.py:19-21 | the runner is running, in the current minute, with no retry pending |
| Runner.PipelineRunner.Stop | pipeliner/pipeline_runner.py:23-25 | the runner is no longer running and its loop state is unchanged |
| Runner.PipelineRunner.Tick | pipeliner/pipeline_runner.py:32-44 | a tick raises exactly when `Raises` holds, and then changes nothing; otherwise it runs the pipeline exactly when `Fires` holds and moves to the `Next` state |
| Runner.PipelineRunner.Loop | pipeliner/pipeline_runner.py:27-46 | the loop passes the first `Completed` ticks, running the pipeline on exactly those `Runs` predicts, and ends in the state `StateAt` gives; it reports a raise exactly when a tick raised, and then leaves `_running` set, and otherwise leaves the runner stopped |

## Left out

- Threads, `time.sleep`, `join` and `datetime.now()`: the runner takes each tick's time and run outcome as inputs, and `Start`, `Stop` and `Loop` run in one thread, with `stop` requested after the last tick.
- The pipeline run inside the runner: its success or failure is an input of each tick; `Engine.Pipeline.Run` is not called from `Runner`.
- The calendar: `weekday()` is an input of `DateTime`, not computed from the date.
- Logging in the schedule, the runner and the steps.
- `importlib`, `sys.path` and file paths: each steps module is given as a value holding its namespace and its optional `__all__`.
- The module globals that all `StepsFactoryWithCustomSteps` instances share: each factory is built from the namespace it starts with.
- `Registry.NewFactory`: when the custom import succeeds and the built-in import fails, the source has already merged the custom exports into the shared globals; the model returns only the error.
- Constructor errors of step classes, such as a `TypeError` for unexpected params, and a configuration without the `class` key (`KeyError`).
- ChainFactory.StepFactory.constructor: the source's namespace is the module's `globals()`, one namespace shared by every `StepFactory` (`pipeliner/step_factory.py:16,20,39`); here each instance starts from the namespace it is given and does not see the custom steps another instance imported.
- `ChainFactory.StepFactory.Create`: a name bound to something callable that is not a step class is treated as not callable.
- `ChainFactory.StepFactory.Create`: `set_next_step` is assumed on every built step; `pipeliner/steps/step.py` defines only `perform`, and `BasicStep`, which holds the successor, is not part of this model.
- `CompareWithPrevious` steps inside a `ChainFactory` chain: a chain holds `Step` objects only.
- `Compare.CompareWithPrevious.constructor`: the source builds both branch steps with a `StepFactory` configured from `config.custom_steps`, through a `create_step` method that `pipeliner/step_factory.py` does not define; the model takes the two branch steps as arguments.
- `Compare.CompareWithPrevious.Perform`: the call into the chosen receiver (`super().perform`) is not modelled; the receiver's identity is returned instead.
- Step behaviours are pure functions of the attempt number and the input. The network, HTML, e-mail and messaging steps, random choice, `pipeline_factory.py` and `__main__.py` are not part of this model.
- `Cron.ParseAs`: Unicode digits that `\d` and `int()` also accept, and a trailing line break that `$` lets through, are not modelled; ASCII digits only, and tokens from the whitespace split hold no line break.
- The try count of a pipeline is a parameter of at least 1; `pipeliner/pipeline.py` does not define the constant `STEP_REPEAT_TRY_COUNT` the tests read.
