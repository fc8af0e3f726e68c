# clean-tests `Suite`, modelled in Dafny

This project models the `Suite` class of clean-tests (`index.ts`), the
engine that declares tests, resolves them, expands them into test units
(repeats, retries, skips), runs the units with bounded concurrency,
records every end in a run result and renders TAP output.

The model follows the class method by method:

- **Declaring a suite** (`declaration.dfy`, module `Declaration`):
  - the settings the constructor stores;
  - the partial test `addTest` records for each of its four call shapes;
  - `getTest`, which resolves a partial test against the run options and
    the suite;
  - `addFunctionToScope` and its errors.
- **Selecting tests and producing units** (`units.dfy`, module `Units`):
  - the `only` tests or the `filterTests` verdicts;
  - the `getTestUnits` generator as a class `TestUnits` whose `Next`
    follows the source's loop, with its retry queue;
  - a pure specification of the units it yields (`Pull`, `Stream`,
    `SerialRun`, `Chains`), with the lemmas that connect the two.
- **The run result** (`results.dfy`, module `Results`):
  - `getInitialRunResult` and `updateRunResult` on a class `RunResult`;
  - the history of records behind it;
  - the counters and run status as functions of that history.
- **Ending units and running bodies** (`execution.dfy`, module
  `Execution`):
  - `endTest` with its `isEnded` guard, its hook events and their
    numbering;
  - `runTestUnit`;
  - a class `Task` for an asynchronous body: its one-shot `onEnd`, the
    timer and the promise settling (possibly after the unit ended).
- **The runner** (`scheduler.dfy`, module `Scheduler`): `getRunner` as a
  class `Runner`, which:
  - queues units (`unshift`/`pop`);
  - starts tasks while below `concurrency`;
  - drops ended tasks;
  - on interruption ends its tasks as interrupted and its queue as not run
    in time.
- **TAP text** (`tap.dfy`, module `Tap`):
  - `escapeTapOutput`;
  - the test point, directive and YAML block of `getTestTapOutput`;
  - the plan line and bail-out of `getRunResultTapOutput`.
- **The suite and its run** (`suite.dfy`, module `Suites`):
  - the class `Suite` with `addTest`, `addFunctionToScope` and `run`;
  - `run`'s steps: `onSuiteStart`, the selection, the loop with
    `maxFailures`, the race with the run timeout and the abort signal,
    the interruption, the drain of the generator, the TAP output and
    `onSuiteEnd`.

User code (test bodies, hooks, `filterTests`), the clock, the run timer
and the abort signal are not visible to the model. They are choices the
methods make nondeterministically (`:|`, `if *`), so every property holds
for every behaviour of that code. A hook that throws adds one error to the
list the source pushes it onto.

## Model

| member | source | states |
|---|---|---|
| `Suites.Suite.constructor` | index.ts:72-83 | no tests, an empty scope; the settings are the class defaults overridden by the positional name and then by the options object |
| `Declaration.SuiteSettingsPrecedence` | index.ts:72-83 | a name in the options object beats the positional name, which beats `'anonymous'`; every other setting, `signal` and `filterTests` included, is the option's value or the class default (concurrency 1, maxFailures Infinity, repeats 1, retries 0, testTimeout 10000) |
| `Types.ConfigurePrecedence` | index.ts:612-620 | each run option that is given wins over the suite field, and the suite field is used whenever the option is `undefined`; this covers `signal`, `filterTests`, `concurrency`, `maxFailures` and `name` |
| `Suites.Suite.AddTest` | index.ts:117-150 | the call, in any of its four shapes, appends exactly one partial test (`Declare`) to `tests` |
| `Declaration.DeclareOptionsWin` | index.ts:124-135 | `addTest(name, options, body)`: the name and body given positionally are kept only where the options object has no such key; every other key comes from the options unchanged |
| `Declaration.DeclareBodyOnly` | index.ts:136-137 | `addTest(body)`: the partial test has only the body, whatever else is passed |
| `Declaration.DeclareOptionsFirst` | index.ts:138-147 | `addTest(options, body)`: the positional body is kept only where the options object has no `body` key; the rest is the options object |
| `Declaration.GetTestPrecedence` | index.ts:339-375 | `repeats`, `retries` and `timeout` come from the test, else from the run option, else from the suite field |
| `Declaration.GetTestSpelled` | index.ts:346-372 | a partial test that gives every key resolves to exactly that test, whatever the options and suite |
| `Declaration.GetTestUndefinedIsAbsent` | index.ts:346-358 | a key given as `undefined` resolves exactly like a missing key (destructuring defaults) |
| `Declaration.GetTestDefaults` | index.ts:339-372 | a test declared with a body only, in a default suite run without options, resolves to fail false, name `'anonymous'`, only false, no parameters, repeats 1, retries 0, skip false, timeout 10000, todo false |
| `Declaration.AddToScope` | index.ts:85-104 | the key is the given name or the function's own name. The result is an error iff another function holds the key, or the key is new and not an identifier; the error says which. On success the key maps to the function and every other entry is kept. The same function under the same key leaves the scope as it is |
| `Declaration.AddToScopeIdempotent` | index.ts:90-93 | adding a function that was just added succeeds and changes nothing |
| `Suites.Suite.AddFunctionToScope` | index.ts:85-104 | the scope becomes `AddToScope`'s new scope, or stays unchanged while the error is returned |
| `Units.OnlyTests` | index.ts:452-460 | the `only` tests are exactly those of all tests with `only` set, no more of them than tests |
| `Units.OnlyInOrder` | index.ts:452-462 | the `only` tests are the tests with `only` set, at strictly increasing indices: declaration order, none missed, none added |
| `Units.KeptInOrder` | index.ts:464-474 | the filtered tests are the tests whose verdict is keep, at strictly increasing indices: declaration order, and no dropped or throwing test |
| `Units.KeptShape` | index.ts:464-474 | as many tests are kept as there are keep verdicts and as many errors as throws; every throwing test is recorded with its error, and every error comes from a throwing test |
| `Units.SelectSpec` | index.ts:448-474 | there are `only` tests iff some test has `only`. Then the selection is exactly those tests in order, the filter is not consulted and there are no errors. Otherwise it is exactly the kept tests in order, and the errors are exactly the throwing tests' |
| `Suites.Choose` | index.ts:449-474 | the selection is `Select` of the verdicts, one per test; without a filter of the user's, every verdict is keep |
| `Units.TestUnits.constructor` | index.ts:448-491 | the generator holds the selection, no retries, test index 0 and repeat index 1, and has yielded nothing |
| `Units.TestUnits.Next` | index.ts:493-554 | after it has returned, nothing more comes. At the bare end-of-tests yield anything but `'isRunning'` makes it return. Otherwise its new state and what it yields are `Pull` of its old state, and a yielded unit is a fresh, not ended object appended to `yielded` |
| `Units.PullRetry` | index.ts:494-507 | a queued retry is yielded before any new unit, and it is the oldest one queued (`pop` from the back of an array retries are `unshift`-ed onto); the stream of new units still to come is unchanged |
| `Units.PullFresh` | index.ts:509-554 | without retries, the unit pulled is the head of the stream still to come (for each selected test in order, one skip unit or its repeats 1..`repeats`), and nothing is pulled exactly when the stream is empty |
| `Units.PulledShape` | index.ts:521-545 | only skip units carry a status (`skipped`); they have repeat and retry index 0 and no retry callback |
| `Units.TestUnits.OnEnd` | index.ts:478-488 | the retry queue becomes `Requeue`: a failing or timed-out unit whose next retry index is within `retries` goes in front of it; otherwise the queue is unchanged |
| `Units.RequeueWork` | index.ts:478-488 | ending a unit never adds more work than the unit carried: the retries it queues are paid for by the unit's own weight |
| `Units.PullPending` | index.ts:493-554 | each unit pulled takes exactly its weight off the work still pending, and when nothing is pulled none is pending |
| `Units.SerialRunIsChains` | index.ts:493-554 | run one unit at a time with every unit failing, the generator yields each unit of the stream followed at once by its chain of retries |
| `Units.ChainOfRepeat` | index.ts:478-488 | the chain of a repeat is the unit and its retries 1..`retries`, all with the same repeat index and test |
| `Units.RepeatsShape` | index.ts:537-550 | the repeats of a test from index `from` are the units with repeat indices `from`..`repeats`, in order |
| `Units.ChainsOfRepeats` | index.ts:537-550 | the repeats with their chains number (`repeats` − `from` + 1) × (`retries` + 1) units, all of that test |
| `Units.SerialRunOfOneTest` | index.ts:493-554 | one test run serially with every unit failing gives one skip unit if it is skipped, else `repeats` × (`retries` + 1) units, all of that test |
| `Results.RunResult.constructor` | index.ts:229-248 | the initial run result: status passed, all counters 0, no tests in run, no errors, the bail-out TAP text for the run's name |
| `Results.RunResult.Update` | index.ts:883-906 | the record is appended; the unit's status counter and `testsInRun` go up by one; the run status becomes failed exactly when it was passed and the unit failed or timed out with `todo` exactly `false` |
| `Results.TallyCounts` | index.ts:903-905 | each counter of a run result equals the number of records with that status, and `testsInRun` the number of records |
| `Results.VerdictSpec` | index.ts:895-901 | updates alone leave the run status failed iff some record is a failure or timeout of a test whose `todo` is exactly `false`, and passed otherwise |
| `Results.TallyFailuresGrow` | index.ts:663-666 | `failed + timedOut` never decreases as records are added, so `maxFailures` once reached stays reached |
| `Results.SoundDistinct` | index.ts:173-177 | thanks to the `isEnded` guard no unit is recorded twice, and a unit is recorded iff it has ended |
| `Results.SoundEnd` | index.ts:173-206 | ending a unit not yet ended records it once and keeps the history in step with the set of ended units |
| `Results.RunResult.MarkInterrupted` | index.ts:686-687 | the run status becomes interrupted by the cause, whatever it was |
| `Execution.RecordsYielded` | index.ts:172-219 | every unit `endTest` recorded is one the generator yielded, so there are no more records than units yielded |
| `Execution.EndTest` | index.ts:172-219 | a unit already ended changes nothing. Otherwise the unit ends and its record is appended with the result `endTest` builds: interrupted, not started, or the settled result. The run status moves as `updateRunResult` says, and the unit's retry callback runs |
| `Execution.Conclude` | index.ts:184-216 | `onTestStart` runs only for a unit that was not started, and `onTestEnd` runs for every unit. The error each one throws is recorded, at most once, with its event |
| `Execution.Report` | index.ts:206-216 | the end event given to `onTestEnd` carries the unit's result and the TAP text numbered by the new `testsInRun` |
| `Execution.NumberedAppend` | index.ts:206-210 | after an end, the end events stay in step with the records: event i has the TAP text of record i numbered i + 1 |
| `Execution.NumberedAt` | index.ts:394-410 | the i-th end event is the i-th record's, with test number i + 1 |
| `Execution.SyncStatus` | index.ts:800 | a body that did not time out passes iff whether it threw equals `fail`, and otherwise fails |
| `Execution.RunTestUnit` | index.ts:717-859 | a unit with a status ends with that status, and a unit without a body ends as `hasNoBody`. A synchronous body ends its unit as passed/failed per `fail`, appending exactly one record. Only an asynchronous body yields a fresh running task, with the history untouched |
| `Execution.Task.constructor` | index.ts:856-858 | a task for the unit, running, its handler not run |
| `Execution.Task.OnEnd` | index.ts:796-808 | the status becomes the timeout or passed/failed per `fail`; the closure is spent and the timer cleared; the unit ends through `endTest`, which changes nothing if the unit had already ended |
| `Execution.Task.Resolve` | index.ts:850 | a resolved body ends its unit as passed, or failed for a `fail` test, with no error |
| `Execution.Task.Reject` | index.ts:850-854 | a rejected body ends its unit with the error, as failed, or passed for a `fail` test |
| `Execution.Task.TimeOut` | index.ts:841-844 | the timer ends the unit as timed out, the body still unsettled |
| `Execution.Task.Settle` | index.ts:841-854 | whichever comes first of resolve, reject and timer ends the unit, with exactly one record |
| `Execution.Task.LateSettle` | index.ts:796-808 | a body that settles after its `onEnd` was spent or its unit ended (by timeout or interruption) changes nothing in the run result or the retry queue |
| `Execution.Task.Clear` | index.ts:846-848 | the timer is cleared |
| `Execution.Task.Handle` | index.ts:304-307 | the runner's handler marks the task ended |
| `Scheduler.Runner.constructor` | index.ts:250-254 | no tasks, an empty queue |
| `Scheduler.Survivors` | index.ts:269-273 | the tasks kept are exactly those not marked ended, in order |
| `Scheduler.Runner.Cleanup` | index.ts:269-275 | the task list becomes its unended tasks, and every unit given to the runner is still ended, queued or run by a task |
| `Scheduler.Runner.Take` | index.ts:281-283 | the unit goes in front of the queue |
| `Scheduler.Runner.Pop` | index.ts:290 | the unit taken is the one at the back of the queue, the oldest given |
| `Scheduler.Runner.StartedInOrder` | index.ts:281-290 | units are started in the order they were given to the runner, and the back of the queue is the next one |
| `Scheduler.Runner.Start` | index.ts:296-300 | the unit either ends at once (no task, less work left) or becomes a fresh running task |
| `Scheduler.Runner.Push` | index.ts:302-309 | the task is appended and its handler is still to run |
| `Scheduler.Runner.Launch` | index.ts:290-309 | one unit leaves the back of the queue and is started; a task, if any, is appended |
| `Scheduler.Runner.Fill` | index.ts:286-309 | units are started from the back of the queue until `concurrency` tasks run or the queue is empty; none is lost |
| `Scheduler.Runner.Receive` | index.ts:267-283 | the ended tasks are dropped and the unit `run` sends, if any, is queued |
| `Scheduler.Runner.Resume` | index.ts:256-310 | after a resume it yields `isAtMaxConcurrency` iff `concurrency` tasks run, and `nextTestEnd` iff a task runs. The queue is empty unless the runner is at its limit. Every unit given is ended, queued or running |
| `Scheduler.Runner.InterruptTask` | index.ts:312-315 | the task's timer is cleared and its unit ends as interrupted, with no error, unless it had already ended |
| `Scheduler.Runner.InterruptTasks` | index.ts:312-315 | every task's timer is cleared and its unit ended; the records added are interrupted ends of those units, at most one per task |
| `Scheduler.Runner.DropQueue` | index.ts:317-319 | every queued unit ends, in queue order, as not run in time |
| `Scheduler.Runner.Halt` | index.ts:312-319 | the running units end as interrupted, then the queued ones as not run in time; the run status is unchanged |
| `Scheduler.Runner.Stop` | index.ts:269-319 | `runner.next('interrupted')`: ended tasks are dropped, then as `Halt`; afterwards every unit the runner was given has ended |
| `Scheduler.Runner.Settle` | index.ts:841-854 | a running task's body settles or its timer fires: its unit ends, its handler is still to run, and less work is left |
| `Scheduler.Runner.HandleEnd` | index.ts:304-309 | a finished task's handler runs: the task is marked ended, no handler of it is left to run, and less work is left |
| `Scheduler.Runner.SettleLate` | index.ts:796-808 | a task's body settling after its unit ended changes nothing in the run result |
| `Scheduler.Runner.NextEvent` | index.ts:675-677 | each event of the race (a body settling, a timer, a handler, a late settle) leaves less to do or fewer unsettled bodies |
| `Scheduler.Runner.Await` | index.ts:675-677 | the race ends when a handler resolves `nextTestEnd`, leaving less to do, or when the run timeout or an abort of the signal comes first |
| `Tap.EscapeIsCharwise` | index.ts:221-223 | the three chained replacements escape each character on its own: whitespace becomes a space, `\` becomes `\\`, `#` becomes `\#` |
| `Tap.UnescapeEscape` | index.ts:221-223 | un-escaping an escaped message gives back the message with every whitespace character replaced by a space |
| `Tap.EscapedIsOneLine` | index.ts:221-223 | an escaped text holds no line break or other whitespace but spaces |
| `Tap.NatToString` | index.ts:334 | a number is rendered as at least one decimal digit |
| `Tap.ParseNatToString` | index.ts:334 | the decimal rendering of a number reads back as that number |
| `Tap.TestPointStart` | index.ts:410 | a test point starts with `ok ` for an ok unit and `not ok ` for a failing one |
| `Tap.DirectivePrefersSkip` | index.ts:396-408 | a truthy `skip` gives a ` # skip` directive even when `todo` is set, a truthy `todo` alone ` # todo`, neither no directive |
| `Tap.FieldsInOrder` | index.ts:416-445 | the YAML block lists each key exactly when the source writes it, in the order duration, error, parameters, repeatIndex, retryIndex, status |
| `Tap.TestTapOutputShape` | index.ts:377-446 | the output is empty iff the unit was interrupted or not run in time. Otherwise it starts with `not ok ` exactly for a failure or timeout, and it is the bare test point exactly for an ok unit with one-line output |
| `Tap.CounterPartsEmpty` | index.ts:329-332 | no counter part is listed iff every counter among the keys is zero, and no listed part is empty |
| `Tap.CounterPartsListed` | index.ts:329-332 | the part `status: count` of a counter is listed iff its status is among the keys and its count is positive |
| `Tap.NoCounters` | index.ts:329-334 | the counters list is empty iff the run recorded no unit |
| `Tap.BailOutStart` | index.ts:325-328 | an interrupted run gets a `Bail out!` line, and a passed or failed run none |
| `Tap.PlanLineStart` | index.ts:334 | the plan line starts with `1..<testsInRun> # ` |
| `Tap.RunResultTapOutputShape` | index.ts:322-337 | the run's TAP text starts with `Bail out!` iff the run was interrupted, and otherwise with the plan line; `no tests were run` is written iff no unit was recorded |
| `Suites.StartSuite` | index.ts:627-655 | an already aborted signal sets the cause to the signal; `onSuiteStart` adds at most one error; while it is awaited the run timeout or an abort may set the cause, and the first cause set stays |
| `Suites.Prepare` | index.ts:645-660 | a fresh run result for the suite, the generator over the selection, and a runner with no task, before either is resumed |
| `Suites.Offer` | index.ts:668-669 | a unit pulled from the generator, if any, goes to the runner, which yields as `Resume` says; pulling a unit leaves less to do |
| `Suites.Turn` | index.ts:663-677 | a turn is taken only while failed + timedOut is below `maxFailures`. It is over iff the offer found neither a unit nor a running task. A cause comes only from awaiting the race, which happens only when the runner was at its limit or had no unit, and had a running task. A turn that neither ends the loop nor meets a cause leaves less to do |
| `Suites.Step` | index.ts:662-678 | one pass of the loop: the cause is `maxFailures` exactly when failed + timedOut had reached `maxFailures` before the pass, and then no turn is taken. Otherwise the turn's guarantees hold, and a signal not aborted at the start may be aborted by the code the turn ran |
| `Suites.Drive` | index.ts:662-678 | the loop runs `Step` until a cause or the end of the units, so no turn starts once failed + timedOut reaches `maxFailures`. The loop ends on `maxFailures` reached, or on a run timeout or an abort of the signal, or with no task running and, for a positive `concurrency`, nothing queued |
| `Suites.Interrupt` | index.ts:686-689 | the run status names the cause, the running units end as interrupted and the queued ones as not run in time; failures never decrease |
| `Suites.InterruptedHistory` | index.ts:312-319 | what an interruption appends only adds failures, and is nothing when no task runs and no unit is queued |
| `Suites.Drain` | index.ts:691-695 | the generator runs to its end, and every unit it still yields ends, in order, as not run in time |
| `Suites.AllRecorded` | index.ts:691-695 | units recorded stay recorded, and the units drained after them are recorded as not run in time |
| `Suites.Report` | index.ts:697-708 | the TAP text is the one `getRunResultTapOutput` renders from the final counters, and `onSuiteEnd` adds at most one error |
| `Suites.WindUp` | index.ts:680-710 | after the loop every unit the generator yielded is recorded exactly once, when the run was interrupted or `concurrency` is positive. Every record is for a yielded unit, so `testsInRun` is at most the number of units yielded. The TAP text matches the final counters |
| `Suites.Execute` | index.ts:605-713 | the body of `run`, with the same guarantees as `Suite.Run` for a given configuration and list of resolved tests |
| `Suites.Suite.Run` | index.ts:605-713 | `run` returns a fresh run result, which becomes the suite's. Every unit the generator yielded belongs to a selected test and is recorded exactly once, when interrupted or `concurrency` is positive. Every record is for a yielded unit, so `testsInRun` is at most the number of units yielded. The TAP text matches the counters. An interruption is recorded with its cause, and a `maxFailures` cause means the bound was reached. A signal aborted at the start records every unit as not run. There is at most one suite-start and one suite-end error |

## Left out

- JavaScript numbers are modelled as Dafny integers: `repeats`, `retries`,
  `timeout`, `testTimeout`, `concurrency`, `maxFailures` (Infinity aside)
  and durations. `NaN`, fractions and a numeric `Infinity` other than the
  `maxFailures` default are not representable. `setTimeout` clamping
  (Infinity or over 2^31 − 1 ms fires after 1 ms) is not modelled.
- `Execution.RunTestUnit` and `Execution.Task.Reject` carry a thrown value
  in `Thrown`, so a body that throws or rejects with `undefined` cannot be
  expressed. The source then has `hasError` true with `error` undefined.
  The model always has an error value.
- `Declaration.GetTest` drops the `...rest` extension fields of a partial
  test: only the ten known keys of a test are carried.
- Clock readings are not modelled as arithmetic. `startTime`,
  `runResult.duration` and a unit's `duration` (`now() - start`,
  `Date.now() - startTime`) are arbitrary naturals chosen at each end. The
  timer's delay `test.timeout - timePassed` is not computed: the timer may
  fire at any point while the body is unsettled.
- `Scheduler.Runner.Await` returns after the first handler that resolves
  `nextTestEnd`. It does not model other microtasks of the same tick that
  run before the loop resumes, such as further handlers or settles.
- `Suites.StartSuite` lets the run timeout arrive during `onSuiteStart`
  even when the hook returns no thenable. In the source the timer can fire
  only while a returned promise is awaited. An abort, by contrast, can
  also come synchronously: the listener of index.ts:636-641 sets the run
  status at once when the hook aborts the signal.
- A body that settles after its task has left the runner (dropped as ended,
  or still pending when the run is over) is not offered as an event.
  Settles while the task is still listed are (`Runner.SettleLate`), and
  they change nothing.
- A signal aborted while a run is under way is modelled at the points
  where the run's own code gives way: in the race of `Await`, and after
  each turn of the loop (a body or hook that aborts it synchronously).
- `Suites.Suite.AddFunctionToScope` takes the identifier grammar check of
  `assertFunctionName` as a parameter `isIdentifier`. The regular
  expression and `new Function` test are not modelled.
- Binding bodies to the scope (`cachedBodiesCreator`, `bodiesCache`,
  `eval`) and its `Cannot parse body` error are not modelled. A body is an
  opaque function value that behaves nondeterministically.
- An options key given as `undefined` is treated as a missing key for run
  options and suite options. In the source `Object.assign` would store
  `undefined` on the suite.
- A body returning an iterator (`result.next()`) is covered only through
  its outcome: a thenable or not, throwing or not.
- The list of filter errors is named `filterTestErrors` (the spelling of
  the run result type); `index.ts` pushes onto `filterTestsErrors`.
- The selection (`only` tests, `filterTests`) is made when the generator
  is built. The source makes it at the generator's first `next`, which
  `run` always calls before it uses any unit. When a cause is set before
  the loop's first pull (a signal aborted at the start or during
  `onSuiteStart`, a run timeout during `onSuiteStart`, or a `maxFailures`
  of zero or less, which breaks at the first check), the source makes it
  during the drain. Neither changes what is recorded.
- With `concurrency` zero or negative no task ever starts: units are
  queued and end as not run in time only when a cause interrupts the run.
  Without a cause, the loop ends with units still queued that are never
  recorded. `Suites.Suite.Run` promises that every yielded unit is
  recorded only when `concurrency` is positive or a cause interrupted the
  run.
- The JavaScript `Set` of tasks is a sequence in insertion order. This is
  the order the interruption walks it in.
- `print`, `now`, `setTimeout`, `clearTimeout`, the default hooks'
  printing (`onSuiteStart`, `onTestEnd`, `onSuiteEnd`) and the timer
  identities are left to the environment. The default `onTestStart` is a
  hook that may throw or not, like any other.
- `assertValueIsTrue` and `convertEsmToCjs.ts` are not part of this model.
- `addTest` assigns the options object after the positional name and
  body, so its keys win (index.ts:124-135, 138-146). While any test has
  `only`, `skip` is ignored (index.ts:521).
- The comment at types.ts:9-11 says that `retries` is ignored when
  `repeats` is greater than 1. The code does not do this: every repeat
  gets the retry callback when `retries` is positive (index.ts:536-544).
  The model follows the code (`Units.ChainsOfRepeats`).
