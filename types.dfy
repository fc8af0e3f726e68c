/**
 * The values the test-run engine works with: statuses, resolved tests,
 * results, hook events and the status counters of a run result.
 */
module Types {

  datatype Option<+T> = None | Some(value: T) {
    /** `value ?? default` */
    function GetOr(default: T): T {
      match this
      case Some(v) => v
      case None => default
    }
  }

  datatype Result<+T, +E> = Ok(value: T) | Err(error: E)

  /** The final status of one test unit. */
  datatype Status =
    | Failed
    | HasNoBody
    | Interrupted
    | Passed
    | Skipped
    | TimedOut
    | WasNotRunInTime

  /** The keys of the status counters, in the order they are declared (and printed). */
  const StatusOrder: seq<Status> :=
    [Failed, HasNoBody, Interrupted, Passed, Skipped, TimedOut, WasNotRunInTime]

  function StatusName(s: Status): string {
    match s
    case Failed => "failed"
    case HasNoBody => "hasNoBody"
    case Interrupted => "interrupted"
    case Passed => "passed"
    case Skipped => "skipped"
    case TimedOut => "timedOut"
    case WasNotRunInTime => "wasNotRunInTime"
  }

  /** `status === 'failed' || status === 'timedOut'`: the statuses that count as failures. */
  predicate IsFailure(s: Status) {
    s == Failed || s == TimedOut
  }

  /** The statuses a unit gets without its body being run. */
  predicate IsNotStarted(s: Status) {
    s == HasNoBody || s == Skipped || s == WasNotRunInTime
  }

  /** The statuses a settled body gets. */
  predicate IsEndedStatus(s: Status) {
    s == Failed || s == Passed || s == TimedOut
  }

  /** What interrupted a run. */
  datatype Cause = MaxFailures | Signal | Timeout

  function CauseName(c: Cause): string {
    match c
    case MaxFailures => "MaxFailures"
    case Signal => "Signal"
    case Timeout => "Timeout"
  }

  datatype RunStatus = RunPassed | RunFailed | InterruptedBy(cause: Cause)

  /** A `boolean | string` test property (`skip`, `todo`). */
  datatype Flag = Bool(b: bool) | Reason(text: string) {
    /** JavaScript truthiness: `true` or a non-empty string. */
    predicate Truthy() {
      match this
      case Bool(b) => b
      case Reason(text) => text != ""
    }
  }

  /** A JavaScript function value: its identity and its `name` property. */
  datatype Fn = Fn(id: nat, name: string)

  /** A thrown value, with the text `String(error.stack ?? error)` renders it as. */
  datatype Thrown = Thrown(rendered: string)

  /**
   * A resolved test. `parameters` holds each parameter's JSON text;
   * numbers are integers (milliseconds for `timeout`).
   */
  datatype Test = Test(
    body: Option<Fn>,
    fail: bool,
    name: string,
    only: bool,
    parameters: seq<string>,
    repeats: int,
    retries: int,
    skip: Flag,
    timeout: int,
    todo: Flag)

  /** The result of one unit; `duration` is a clock reading in milliseconds. */
  datatype TestResult = TestResult(duration: nat, error: Option<Thrown>, hasError: bool, status: Status)

  datatype TestStartEvent = TestStartEvent(repeatIndex: int, retryIndex: int, status: Option<Status>, test: Test)

  datatype TestEndEvent = TestEndEvent(repeatIndex: int, result: TestResult, retryIndex: int, tapOutput: string, test: Test)

  datatype FilterTestError = FilterTestError(error: Thrown, test: Test)

  datatype TestStartError = TestStartError(error: Thrown, event: TestStartEvent)

  datatype TestEndError = TestEndError(error: Thrown, event: TestEndEvent)

  /** `maxFailures`: a number, `Infinity` by default. */
  datatype Bound = Finite(n: int) | Infinity {
    predicate Reached(count: nat) {
      Finite? && count >= n
    }
  }

  /** The seven status counters of a run result, all starting at 0. */
  datatype Counters = Counters(
    failed: nat,
    hasNoBody: nat,
    interrupted: nat,
    passed: nat,
    skipped: nat,
    timedOut: nat,
    wasNotRunInTime: nat)
  {
    function Get(s: Status): nat {
      match s
      case Failed => failed
      case HasNoBody => hasNoBody
      case Interrupted => interrupted
      case Passed => passed
      case Skipped => skipped
      case TimedOut => timedOut
      case WasNotRunInTime => wasNotRunInTime
    }

    /** `runResult[status] += 1` */
    function Incr(s: Status): (c: Counters)
      ensures forall t: Status :: c.Get(t) == Get(t) + (if t == s then 1 else 0)
    {
      match s
      case Failed => this.(failed := failed + 1)
      case HasNoBody => this.(hasNoBody := hasNoBody + 1)
      case Interrupted => this.(interrupted := interrupted + 1)
      case Passed => this.(passed := passed + 1)
      case Skipped => this.(skipped := skipped + 1)
      case TimedOut => this.(timedOut := timedOut + 1)
      case WasNotRunInTime => this.(wasNotRunInTime := wasNotRunInTime + 1)
    }

    function Total(): nat {
      failed + hasNoBody + interrupted + passed + skipped + timedOut + wasNotRunInTime
    }

    function Failures(): nat {
      failed + timedOut
    }
  }

  const ZeroCounters := Counters(0, 0, 0, 0, 0, 0, 0)

  /** Incrementing one counter adds one to the total. */
  lemma IncrTotal(c: Counters, s: Status)
    ensures c.Incr(s).Total() == c.Total() + 1
    ensures c.Incr(s).Failures() == c.Failures() + (if IsFailure(s) then 1 else 0)
  {
  }

  /**
   * Suite-level settings (the class fields of `Suite` and their defaults).
   * `filterTests` says whether the suite's filter is a function of the
   * user's rather than the default that keeps every test; `signal` whether
   * the suite holds a signal and, if so, whether it is aborted when a run
   * starts.
   */
  datatype Defaults = Defaults(
    concurrency: int,
    filterTests: bool,
    maxFailures: Bound,
    name: string,
    onelineTapOutput: bool,
    repeats: int,
    retries: int,
    signal: Option<bool>,
    testTimeout: int)

  const InitialDefaults := Defaults(1, false, Infinity, "anonymous", false, 1, 0, None, 10000)

  /**
   * Per-run options; `None` is an option left `undefined`, which falls back
   * to the suite field. `filterTests` says whether a filter function is
   * supplied, `signal` whether a signal is supplied and, if so, whether it
   * was already aborted when the run started.
   */
  datatype Options = Options(
    concurrency: Option<int>,
    filterTests: bool,
    maxFailures: Option<Bound>,
    name: Option<string>,
    onelineTapOutput: Option<bool>,
    repeats: Option<int>,
    retries: Option<int>,
    signal: Option<bool>,
    testTimeout: Option<int>)

  /** The options one run works with once every `undefined` is replaced by the suite field. */
  datatype RunConfig = RunConfig(
    concurrency: int,
    filterTests: bool,
    maxFailures: Bound,
    name: string,
    onelineTapOutput: bool,
    signal: Option<bool>)

  /**
   * The destructuring at the head of `run` and its helpers: each option
   * left `undefined` takes the suite's field (`signal = this.signal`,
   * `filterTests = this.filterTests`, ...).
   */
  function Configure(options: Options, suite: Defaults): RunConfig {
    RunConfig(
      options.concurrency.GetOr(suite.concurrency),
      options.filterTests || suite.filterTests,
      options.maxFailures.GetOr(suite.maxFailures),
      options.name.GetOr(suite.name),
      options.onelineTapOutput.GetOr(suite.onelineTapOutput),
      if options.signal.Some? then options.signal else suite.signal)
  }

  /**
   * A run option given wins over the suite's field, and a suite field is
   * used whenever the option is left `undefined`: in particular a suite
   * built with a signal already aborted runs interrupted unless the run
   * gives a signal of its own.
   */
  lemma ConfigurePrecedence(options: Options, suite: Defaults)
    ensures var c := Configure(options, suite);
      && (options.signal.Some? ==> c.signal == options.signal)
      && (options.signal.None? ==> c.signal == suite.signal)
      && (c.filterTests <==> options.filterTests || suite.filterTests)
      && (options.concurrency.Some? ==> c.concurrency == options.concurrency.value)
      && (options.concurrency.None? ==> c.concurrency == suite.concurrency)
      && (options.maxFailures.Some? ==> c.maxFailures == options.maxFailures.value)
      && (options.maxFailures.None? ==> c.maxFailures == suite.maxFailures)
      && (options.name.Some? ==> c.name == options.name.value)
      && (options.name.None? ==> c.name == suite.name)
  {
  }
}
