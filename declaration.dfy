/**
 * Declaring a suite: the settings a suite is built with, the partial tests
 * `addTest` records for each call shape, how `getTest` resolves them to
 * complete tests, and the scope of functions test bodies may use.
 */
module Declaration {
  import opened Types

  /**
   * An own property of a JavaScript object: missing, present and
   * `undefined`, or present with a value.
   */
  datatype Prop<+T> = Absent | Undefined | Has(value: T) {
    /** Destructuring with a default: the default unless a value is present. */
    function Or(default: T): T {
      if Has? then value else default
    }

    /** `Object.assign` of this one property onto `target`: a present key, even `undefined`, overwrites. */
    function Over(target: Prop<T>): Prop<T> {
      if Absent? then target else this
    }
  }

  /** The object `addTest` pushes onto `tests`. */
  datatype PartialTest = PartialTest(
    body: Prop<Fn>,
    fail: Prop<bool>,
    name: Prop<string>,
    only: Prop<bool>,
    parameters: Prop<seq<string>>,
    repeats: Prop<int>,
    retries: Prop<int>,
    skip: Prop<Flag>,
    timeout: Prop<int>,
    todo: Prop<Flag>)

  const NoProps := PartialTest(Absent, Absent, Absent, Absent, Absent, Absent, Absent, Absent, Absent, Absent)

  /** `Object.assign(target, source)` for the keys of a test. */
  function Assign(target: PartialTest, source: PartialTest): PartialTest {
    PartialTest(
      source.body.Over(target.body),
      source.fail.Over(target.fail),
      source.name.Over(target.name),
      source.only.Over(target.only),
      source.parameters.Over(target.parameters),
      source.repeats.Over(target.repeats),
      source.retries.Over(target.retries),
      source.skip.Over(target.skip),
      source.timeout.Over(target.timeout),
      source.todo.Over(target.todo))
  }

  /** The first argument of `addTest`. */
  datatype First = FirstName(name: string) | FirstBody(fn: Fn) | FirstOptions(options: PartialTest) | FirstMissing

  /** The second argument of `addTest`. */
  datatype Second = SecondBody(fn: Fn) | SecondOptions(options: PartialTest) | SecondMissing

  function OptionsOf(second: Second): PartialTest {
    if second.SecondOptions? then second.options else NoProps
  }

  function BodyProp(third: Option<Fn>): Prop<Fn> {
    if third.Some? then Has(third.value) else Undefined
  }

  /** The partial test `addTest` records for one call. */
  function Declare(first: First, second: Second, third: Option<Fn>): PartialTest {
    match first
    case FirstName(name) =>
      if second.SecondBody? then NoProps.(name := Has(name), body := Has(second.fn))
      else Assign(NoProps.(name := Has(name), body := BodyProp(third)), OptionsOf(second))
    case FirstBody(fn) =>
      NoProps.(body := Has(fn))
    case FirstOptions(options) =>
      Assign(if second.SecondBody? then NoProps.(body := Has(second.fn)) else NoProps, options)
    case FirstMissing =>
      Assign(if second.SecondBody? then NoProps.(body := Has(second.fn)) else NoProps, NoProps)
  }

  /**
   * `addTest(name, options, body)`: a key present in the options object
   * overrides the positional name and body, even when its value is
   * `undefined`; positional arguments fill only the keys it lacks.
   */
  lemma DeclareOptionsWin(name: string, options: PartialTest, body: Option<Fn>)
    ensures var p := Declare(FirstName(name), SecondOptions(options), body);
      && p.name == (if options.name.Absent? then Has(name) else options.name)
      && p.body == (if options.body.Absent? then BodyProp(body) else options.body)
      && p.(name := Absent, body := Absent) == options.(name := Absent, body := Absent)
  {
  }

  /** A body given first makes a test of that body alone; any further arguments are ignored. */
  lemma DeclareBodyOnly(fn: Fn, second: Second, third: Option<Fn>)
    ensures Declare(FirstBody(fn), second, third) == NoProps.(body := Has(fn))
  {
  }

  /**
   * `addTest(options, body)`: the body fills the `body` key unless the
   * options object has one; the third argument is ignored.
   */
  lemma DeclareOptionsFirst(options: PartialTest, fn: Fn, third: Option<Fn>)
    ensures var p := Declare(FirstOptions(options), SecondBody(fn), third);
      && p.body == (if options.body.Absent? then Has(fn) else options.body)
      && p.(body := Absent) == options.(body := Absent)
  {
  }

  // ---------------------------------------------------------------------
  // getTest
  // ---------------------------------------------------------------------

  function BodyOf(p: Prop<Fn>): Option<Fn> {
    if p.Has? then Some(p.value) else None
  }

  /**
   * `getTest`: every key falls back to its default when missing or
   * `undefined`; `repeats`, `retries` and `timeout` fall back to the run
   * options and then to the suite.
   */
  function GetTest(options: Options, suite: Defaults, p: PartialTest): Test {
    Test(
      BodyOf(p.body),
      p.fail.Or(false),
      p.name.Or("anonymous"),
      p.only.Or(false),
      p.parameters.Or([]),
      p.repeats.Or(options.repeats.GetOr(suite.repeats)),
      p.retries.Or(options.retries.GetOr(suite.retries)),
      p.skip.Or(Bool(false)),
      p.timeout.Or(options.testTimeout.GetOr(suite.testTimeout)),
      p.todo.Or(Bool(false)))
  }

  /** The partial test that spells out every key of a complete test. */
  function Spelled(t: Test): PartialTest {
    PartialTest(
      if t.body.Some? then Has(t.body.value) else Undefined,
      Has(t.fail), Has(t.name), Has(t.only), Has(t.parameters), Has(t.repeats),
      Has(t.retries), Has(t.skip), Has(t.timeout), Has(t.todo))
  }

  /** A test whose every key is given resolves to itself, whatever the options and suite. */
  lemma GetTestSpelled(options: Options, suite: Defaults, t: Test)
    ensures GetTest(options, suite, Spelled(t)) == t
  {
  }

  /** Resolving is the same for a key left out and a key given as `undefined`. */
  lemma GetTestUndefinedIsAbsent(options: Options, suite: Defaults, p: PartialTest)
    ensures GetTest(options, suite, p) == GetTest(options, suite, Normalized(p))
  {
  }

  function Normalize<T>(x: Prop<T>): Prop<T> {
    if x.Undefined? then Absent else x
  }

  function Normalized(p: PartialTest): PartialTest {
    PartialTest(
      Normalize(p.body), Normalize(p.fail), Normalize(p.name), Normalize(p.only), Normalize(p.parameters),
      Normalize(p.repeats), Normalize(p.retries), Normalize(p.skip), Normalize(p.timeout), Normalize(p.todo))
  }

  /**
   * The precedence of the three counted settings: the test's own value,
   * then the run option, then the suite field.
   */
  lemma GetTestPrecedence(options: Options, suite: Defaults, p: PartialTest)
    ensures var t := GetTest(options, suite, p);
      && (p.repeats.Has? ==> t.repeats == p.repeats.value)
      && (!p.repeats.Has? && options.repeats.Some? ==> t.repeats == options.repeats.value)
      && (!p.repeats.Has? && options.repeats.None? ==> t.repeats == suite.repeats)
      && (p.retries.Has? ==> t.retries == p.retries.value)
      && (!p.retries.Has? && options.retries.Some? ==> t.retries == options.retries.value)
      && (!p.retries.Has? && options.retries.None? ==> t.retries == suite.retries)
      && (p.timeout.Has? ==> t.timeout == p.timeout.value)
      && (!p.timeout.Has? && options.testTimeout.Some? ==> t.timeout == options.testTimeout.value)
      && (!p.timeout.Has? && options.testTimeout.None? ==> t.timeout == suite.testTimeout)
  {
  }

  const NoOptions := Options(None, false, None, None, None, None, None, None, None)

  /** A test declared with only a body, in a default suite run without options. */
  lemma GetTestDefaults(fn: Fn)
    ensures GetTest(NoOptions, InitialDefaults, Declare(FirstBody(fn), SecondMissing, None))
      == Test(Some(fn), false, "anonymous", false, [], 1, 0, Bool(false), 10000, Bool(false))
  {
  }

  // ---------------------------------------------------------------------
  // The suite's own settings
  // ---------------------------------------------------------------------

  /**
   * The options object given to the `Suite` constructor. `filterTests`
   * says whether it carries a filter function, `signal` whether it carries
   * a signal and, if so, whether that signal is aborted when a run starts.
   */
  datatype SuiteOptions = SuiteOptions(
    concurrency: Option<int>,
    filterTests: bool,
    maxFailures: Option<Bound>,
    name: Option<string>,
    onelineTapOutput: Option<bool>,
    repeats: Option<int>,
    retries: Option<int>,
    signal: Option<bool>,
    testTimeout: Option<int>)

  /** `Object.assign(suite, options)` on the settings. */
  function ApplySuiteOptions(d: Defaults, o: SuiteOptions): Defaults {
    Defaults(
      o.concurrency.GetOr(d.concurrency),
      o.filterTests || d.filterTests,
      o.maxFailures.GetOr(d.maxFailures),
      o.name.GetOr(d.name),
      o.onelineTapOutput.GetOr(d.onelineTapOutput),
      o.repeats.GetOr(d.repeats),
      o.retries.GetOr(d.retries),
      if o.signal.Some? then o.signal else d.signal,
      o.testTimeout.GetOr(d.testTimeout))
  }

  /** The settings of `new Suite(name, options)` (`name` given) or `new Suite(options)`. */
  function SuiteSettings(name: Option<string>, o: SuiteOptions): Defaults {
    var named := if name.Some? then InitialDefaults.(name := name.value) else InitialDefaults;
    ApplySuiteOptions(named, o)
  }

  /**
   * A name in the options object overrides the positional name; the other
   * settings are the options' values or the class defaults.
   */
  lemma SuiteSettingsPrecedence(name: Option<string>, o: SuiteOptions)
    ensures var d := SuiteSettings(name, o);
      && d.name == (if o.name.Some? then o.name.value else name.GetOr("anonymous"))
      && d.concurrency == o.concurrency.GetOr(1)
      && d.maxFailures == o.maxFailures.GetOr(Infinity)
      && d.onelineTapOutput == o.onelineTapOutput.GetOr(false)
      && d.repeats == o.repeats.GetOr(1)
      && d.retries == o.retries.GetOr(0)
      && d.testTimeout == o.testTimeout.GetOr(10000)
      && d.filterTests == o.filterTests
      && d.signal == o.signal
  {
  }

  // ---------------------------------------------------------------------
  // The scope of test bodies
  // ---------------------------------------------------------------------

  datatype ScopeError = AlreadyExists(name: string, existing: Fn) | NotIdentifier(name: string)

  /**
   * `addFunctionToScope`: the function is added under `name`, or its own
   * name; the same function under the same name is accepted again, another
   * function under a taken name is refused, and a new name must be an
   * identifier (`isIdentifier` stands for the JavaScript grammar check).
   */
  function AddToScope(scope: map<string, Fn>, fn: Fn, name: Option<string>, isIdentifier: string -> bool)
    : (r: Result<map<string, Fn>, ScopeError>)
    ensures var key := name.GetOr(fn.name);
      && (r.Ok? ==> key in r.value && r.value[key] == fn && r.value.Keys == scope.Keys + {key}
                    && forall k :: k in scope ==> k in r.value && r.value[k] == scope[k])
      && (r.Err? <==> (key in scope && scope[key] != fn) || (key !in scope && !isIdentifier(key)))
      && (r.Err? && key in scope ==> r.error == AlreadyExists(key, scope[key]))
      && (r.Err? && key !in scope ==> r.error == NotIdentifier(key))
      && (key in scope && scope[key] == fn ==> r == Ok(scope))
  {
    var key := name.GetOr(fn.name);
    if key in scope then
      if scope[key] == fn then Ok(scope) else Err(AlreadyExists(key, scope[key]))
    else if !isIdentifier(key) then Err(NotIdentifier(key))
    else Ok(scope[key := fn])
  }

  /** Adding a function twice is adding it once. */
  lemma AddToScopeIdempotent(scope: map<string, Fn>, fn: Fn, name: Option<string>, isIdentifier: string -> bool)
    requires AddToScope(scope, fn, name, isIdentifier).Ok?
    ensures var once := AddToScope(scope, fn, name, isIdentifier).value;
      AddToScope(once, fn, name, isIdentifier) == Ok(once)
  {
  }
}
