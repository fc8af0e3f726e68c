/**
 * The `Suite` class: tests are declared on it, functions are added to the
 * scope of their bodies, and `run` drives the generator of units and the
 * runner of tasks to a run result.
 */
module Suites {
  import opened Types
  import opened Declaration
  import opened Units
  import opened Results
  import opened Execution
  import opened Scheduler
  import Tap

  // ---------------------------------------------------------------------
  // The steps of `run`
  // ---------------------------------------------------------------------

  /**
   * `run` up to its loop: an already aborted signal interrupts the run at
   * once; `onSuiteStart` runs and an error it throws is collected; while a
   * promise it returns is awaited, the run timeout or the abort of the
   * signal may come, and the first cause wins.
   */
  method StartSuite(config: RunConfig, results: RunResult) returns (cause: Option<Cause>)
    modifies results`onSuiteStartErrors
    ensures results.onSuiteStartErrors == old(results.onSuiteStartErrors)
      || exists e :: results.onSuiteStartErrors == old(results.onSuiteStartErrors) + [e]
    ensures config.signal == Some(true) ==> cause == Some(Signal)
    ensures cause.Some? ==> cause.value == Timeout || (cause.value == Signal && config.signal.Some?)
  {
    cause := if config.signal == Some(true) then Some(Signal) else None;
    if * {
      var e: Thrown :| true;
      results.onSuiteStartErrors := results.onSuiteStartErrors + [e];
    }
    if * {
      var c: Cause :| c == Timeout || (c == Signal && config.signal == Some(false));
      if cause.None? {
        cause := Some(c);
      }
    }
  }

  /** `this.tests.map(partialTest => this.getTest(options, partialTest))` */
  function AllTests(options: Options, settings: Defaults, tests: seq<PartialTest>): seq<Test> {
    seq(|tests|, i requires 0 <= i < |tests| => GetTest(options, settings, tests[i]))
  }

  /**
   * The selection `getTestUnits` starts with: the `only` tests, or the
   * verdicts of `filterTests` on every test; without a filter of its own
   * a run keeps every test.
   */
  method Choose(config: RunConfig, all: seq<Test>) returns (selection: Selection, verdicts: seq<Verdict>)
    ensures |verdicts| == |all| && selection == Select(all, verdicts)
    ensures !config.filterTests ==> forall i :: 0 <= i < |verdicts| ==> verdicts[i] == Keep
  {
    verdicts := seq(|all|, _ => Keep);
    if config.filterTests {
      verdicts :| |verdicts| == |all|;
    }
    selection := Select(all, verdicts);
  }

  /**
   * `testUnits.next('isRunning').value`: the generator goes on to its next
   * unit, or yields nothing when it has none at the moment. A unit it
   * yields is new, has not ended, and is one `runTestUnit` accepts.
   */
  method PullUnit(runner: Runner) returns (unit: Option<TestUnit>)
    requires runner.Valid() && runner.gen.phase != Returned
    modifies runner.gen
    ensures runner.Valid() && runner.gen.phase != Returned
    ensures unit.None? ==> runner.gen.yielded == old(runner.gen.yielded) && runner.Potential() == old(runner.Potential())
    ensures unit.Some? ==>
      && runner.gen.yielded == old(runner.gen.yielded) + [unit.value]
      && fresh(unit.value) && !unit.value.isEnded && Startable(unit.value)
      && runner.Potential() + 2 <= old(runner.Potential())
    ensures old(runner.Numbers()) ==> runner.Numbers()
    ensures old(runner.Covered()) ==> runner.Covered()
  {
    unit := Advance(runner.gen);
    runner.PulledKeeps();
  }

  /** `testUnits.next('isRunning')` before the generator returns: a fresh unit not yet ended, or none, and the work left shrinks by the unit's. */
  method Advance(gen: TestUnits) returns (unit: Option<TestUnit>)
    requires gen.phase != Returned && gen.Mirrors() && gen.Confined()
    modifies gen
    ensures gen.phase != Returned && gen.Mirrors() && gen.Confined() && gen.ended == old(gen.ended)
    ensures unit.None? ==> gen.yielded == old(gen.yielded) && Work(gen) == old(Work(gen))
    ensures unit.Some? ==>
      && gen.yielded == old(gen.yielded) + [unit.value]
      && fresh(unit.value) && !unit.value.isEnded && Startable(unit.value)
      && Work(gen) + 2 <= old(Work(gen))
  {
    ghost var g := gen.State();
    PullPending(gen.tests, gen.hasOnlyTests, g);
    var y := gen.Next(true);
    if y.YieldUnit? {
      unit := Some(y.unit);
      PulledShape(gen.tests, gen.hasOnlyTests, g);
      assert y.unit !in gen.ended;
      InFlightAppend(old(gen.yielded), gen.ended, y.unit);
    } else {
      unit := None;
    }
  }

  /**
   * `testUnits.next('isRunning')` followed by `runner.next(unit)`: a unit
   * pulled from the generator, if any, goes to the runner, which starts
   * what it can and yields whether it is at its limit and whether any task
   * is running. Pulling a unit leaves less to do.
   */
  method Offer(runner: Runner) returns (unit: Option<TestUnit>, y: Yield)
    requires runner.Valid() && runner.Numbers() && runner.Covered()
    requires runner.taken == runner.gen.yielded && runner.gen.phase != Returned
    modifies runner`tasks, runner`testUnits, runner`unhandled, runner`started, runner`taken
    modifies runner.results`counters, runner.results`testsInRun, runner.results`runStatus, runner.results`history
    modifies runner.results`endEvents, runner.results`onTestStartErrors, runner.results`onTestEndErrors
    modifies runner.gen, runner.gen.yielded`isEnded
    ensures runner.Valid() && runner.Live() && runner.Numbers() && runner.Covered()
    ensures runner.taken == runner.gen.yielded && runner.gen.phase != Returned
    ensures forall i :: 0 <= i < |runner.tasks| ==> runner.tasks[i] in old(runner.tasks) || fresh(runner.tasks[i])
    ensures forall i :: 0 <= i < |runner.gen.yielded| ==> runner.gen.yielded[i] in old(runner.gen.yielded) || fresh(runner.gen.yielded[i])
    ensures y == Yield(|runner.tasks| >= runner.config.concurrency, runner.tasks != [])
    ensures runner.config.concurrency >= 1 && y.isAtMax ==> y.hasNextTestEnd
    ensures !y.isAtMax ==> runner.testUnits == []
    ensures unit.Some? ==> runner.Potential() < old(runner.Potential())
    ensures unit.None? ==> runner.Potential() <= old(runner.Potential())
  {
    ghost var before := runner.gen.yielded;
    unit := PullUnit(runner);
    ghost var yielded := runner.gen.yielded;
    forall i | 0 <= i < |yielded|
      ensures yielded[i] in before || fresh(yielded[i])
    {
      if i < |before| {
        assert yielded[i] == before[i];
      }
    }
    y := runner.Resume(unit);
    assert runner.gen.yielded == yielded;
    assert forall i :: 0 <= i < |runner.tasks| ==> runner.tasks[i] in runner.tasks;
  }

  /**
   * `await Promise.race([interruptionPromise, nextTestEnd])` within the
   * loop: it leaves the tasks, the queue and the units given to the runner
   * as they are.
   */
  method Wait(runner: Runner) returns (cause: Option<Cause>)
    requires runner.Valid() && runner.Live() && runner.Numbers() && runner.Covered() && runner.tasks != []
    modifies runner`unhandled, runner.tasks`isEnded, runner.tasks`onEndSpent, runner.tasks`status, runner.tasks`timerCleared
    modifies runner.tasks`settled, runner.tasks`error, runner.tasks`hasError
    modifies runner.results`counters, runner.results`testsInRun, runner.results`runStatus, runner.results`history
    modifies runner.results`endEvents, runner.results`onTestStartErrors, runner.results`onTestEndErrors
    modifies runner.gen`retries, runner.gen`ended, runner.gen.yielded`isEnded
    ensures runner.Valid() && runner.Numbers() && runner.Covered()
    ensures runner.tasks == old(runner.tasks) && runner.taken == old(runner.taken) && runner.gen.yielded == old(runner.gen.yielded)
    ensures runner.gen.phase == old(runner.gen.phase)
    ensures cause.None? ==> runner.Potential() < old(runner.Potential())
    ensures cause.Some? ==> cause.value == Timeout || (cause.value == Signal && runner.config.signal == Some(false))
  {
    cause := runner.Await();
  }

  /**
   * One turn of the loop of `run` once `maxFailures` is not reached: it
   * offers a unit to the runner, is over when there is neither a unit nor
   * a running task, and awaits the next end of a task when the runner is
   * at its limit or there is no unit, unless a cause to interrupt the run
   * comes first. A turn that neither ends the loop nor meets a cause
   * leaves less to do.
   */
  method Turn(runner: Runner) returns (cause: Option<Cause>, over: bool, ghost unit: Option<TestUnit>, ghost y: Yield)
    requires runner.Valid() && runner.Numbers() && runner.Covered()
    requires runner.taken == runner.gen.yielded && runner.gen.phase != Returned
    requires !runner.config.maxFailures.Reached(runner.results.counters.Failures())
    modifies runner`tasks, runner`testUnits, runner`unhandled, runner`started, runner`taken
    modifies runner.tasks`isEnded, runner.tasks`onEndSpent, runner.tasks`status, runner.tasks`timerCleared
    modifies runner.tasks`settled, runner.tasks`error, runner.tasks`hasError
    modifies runner.results`counters, runner.results`testsInRun, runner.results`runStatus, runner.results`history
    modifies runner.results`endEvents, runner.results`onTestStartErrors, runner.results`onTestEndErrors
    modifies runner.gen, runner.gen.yielded`isEnded
    ensures runner.Valid() && runner.Numbers() && runner.Covered()
    ensures runner.taken == runner.gen.yielded && runner.gen.phase != Returned
    ensures forall i :: 0 <= i < |runner.tasks| ==> runner.tasks[i] in old(runner.tasks) || fresh(runner.tasks[i])
    ensures forall i :: 0 <= i < |runner.gen.yielded| ==> runner.gen.yielded[i] in old(runner.gen.yielded) || fresh(runner.gen.yielded[i])
    ensures over <==> !y.hasNextTestEnd && unit.None?
    ensures cause.Some? ==> (y.isAtMax || unit.None?) && y.hasNextTestEnd
    ensures over ==> cause.None? && runner.tasks == [] && (runner.config.concurrency >= 1 ==> runner.testUnits == [])
    ensures !over && cause.None? ==> runner.Potential() < old(runner.Potential())
    ensures cause.Some? ==> cause.value == Timeout || (cause.value == Signal && runner.config.signal == Some(false))
  {
    cause, over := None, false;
    var offered, yielded := Offer(runner);
    unit, y := offered, yielded;
    if !yielded.hasNextTestEnd && offered.None? {
      over := true;
    } else if (yielded.isAtMax || offered.None?) && yielded.hasNextTestEnd {
      assert forall i :: 0 <= i < |runner.tasks| ==> runner.tasks[i] in runner.tasks;
      cause := Wait(runner);
    }
  }

  /**
   * The loop of `run`, turn by turn, until a turn is over or meets a cause
   * to interrupt the run. The code a turn runs (the generator, the bodies
   * and the hooks) may abort a signal that was not aborted when the run
   * started; the abort handler then sets the cause at once, and the loop
   * stops at its next check.
   */
  method Drive(runner: Runner) returns (cause: Option<Cause>)
    requires runner.Valid() && runner.Numbers() && runner.Covered()
    requires runner.tasks == [] && runner.taken == runner.gen.yielded == [] && runner.gen.phase == NotStarted
    modifies runner`tasks, runner`testUnits, runner`unhandled, runner`started, runner`taken
    modifies runner.results`counters, runner.results`testsInRun, runner.results`runStatus, runner.results`history
    modifies runner.results`endEvents, runner.results`onTestStartErrors, runner.results`onTestEndErrors, runner.gen
    ensures runner.Valid() && runner.Numbers() && runner.Covered()
    ensures runner.taken == runner.gen.yielded && runner.gen.phase != Returned
    ensures forall i :: 0 <= i < |runner.tasks| ==> fresh(runner.tasks[i])
    ensures forall i :: 0 <= i < |runner.gen.yielded| ==> fresh(runner.gen.yielded[i])
    ensures cause.None? ==> runner.tasks == [] && (runner.config.concurrency >= 1 ==> runner.testUnits == [])
    ensures cause == Some(MaxFailures) ==> runner.config.maxFailures.Reached(runner.results.counters.Failures())
    ensures cause.Some? ==> cause.value == MaxFailures || cause.value == Timeout || (cause.value == Signal && runner.config.signal == Some(false))
  {
    cause := None;
    var over := false;
    while cause.None? && !over
      invariant runner.Valid() && runner.Numbers() && runner.Covered()
      invariant runner.taken == runner.gen.yielded && runner.gen.phase != Returned
      invariant forall i :: 0 <= i < |runner.tasks| ==> fresh(runner.tasks[i])
      invariant forall i :: 0 <= i < |runner.gen.yielded| ==> fresh(runner.gen.yielded[i])
      invariant over && cause.None? ==> runner.tasks == [] && (runner.config.concurrency >= 1 ==> runner.testUnits == [])
      invariant cause == Some(MaxFailures) ==> runner.config.maxFailures.Reached(runner.results.counters.Failures())
      invariant cause.Some? ==> cause.value == MaxFailures || cause.value == Timeout || (cause.value == Signal && runner.config.signal == Some(false))
      decreases if cause.None? && !over then 1 else 0, runner.Potential()
    {
      cause, over := Step(runner);
    }
  }

  /**
   * One pass of the loop of `run`: the `maxFailures` check, then a turn,
   * after which an abort of the signal by the code the turn ran may set
   * the cause.
   */
  method Step(runner: Runner) returns (cause: Option<Cause>, over: bool)
    requires runner.Valid() && runner.Numbers() && runner.Covered()
    requires runner.taken == runner.gen.yielded && runner.gen.phase != Returned
    modifies runner`tasks, runner`testUnits, runner`unhandled, runner`started, runner`taken
    modifies runner.tasks`isEnded, runner.tasks`onEndSpent, runner.tasks`status, runner.tasks`timerCleared
    modifies runner.tasks`settled, runner.tasks`error, runner.tasks`hasError
    modifies runner.results`counters, runner.results`testsInRun, runner.results`runStatus, runner.results`history
    modifies runner.results`endEvents, runner.results`onTestStartErrors, runner.results`onTestEndErrors
    modifies runner.gen, runner.gen.yielded`isEnded
    ensures runner.Valid() && runner.Numbers() && runner.Covered()
    ensures runner.taken == runner.gen.yielded && runner.gen.phase != Returned
    ensures forall i :: 0 <= i < |runner.tasks| ==> runner.tasks[i] in old(runner.tasks) || fresh(runner.tasks[i])
    ensures forall i :: 0 <= i < |runner.gen.yielded| ==> runner.gen.yielded[i] in old(runner.gen.yielded) || fresh(runner.gen.yielded[i])
    ensures old(runner.config.maxFailures.Reached(runner.results.counters.Failures())) <==> cause == Some(MaxFailures)
    ensures cause == Some(MaxFailures) ==> runner.config.maxFailures.Reached(runner.results.counters.Failures())
    ensures over && cause.None? ==> runner.tasks == [] && (runner.config.concurrency >= 1 ==> runner.testUnits == [])
    ensures !over && cause.None? ==> runner.Potential() < old(runner.Potential())
    ensures cause.Some? ==> cause.value == MaxFailures || cause.value == Timeout || (cause.value == Signal && runner.config.signal == Some(false))
  {
    if runner.config.maxFailures.Reached(runner.results.counters.Failures()) {
      return Some(MaxFailures), false;
    }
    ghost var unit, y;
    cause, over, unit, y := Turn(runner);
    if cause.None? && runner.config.signal == Some(false) {
      var aborted: bool :| true;
      if aborted {
        cause := Some(Signal);
      }
    }
  }

  /**
   * `this.runResult.runStatus = runStatus; runner.next('interrupted')`:
   * the run is marked interrupted by its cause, the running tasks' units
   * end as interrupted and the queued units as not run in time.
   */
  method Interrupt(runner: Runner, c: Cause) returns (ghost recs: seq<Record>)
    requires runner.Valid()
    modifies runner`tasks, runner.tasks`timerCleared
    modifies runner.results`counters, runner.results`testsInRun, runner.results`runStatus, runner.results`history
    modifies runner.results`endEvents, runner.results`onTestStartErrors, runner.results`onTestEndErrors
    modifies runner.gen`retries, runner.gen`ended, RunUnits(runner.tasks)`isEnded, runner.testUnits`isEnded
    ensures runner.Held() && runner.results.runStatus == InterruptedBy(c)
    ensures unchanged(runner`testUnits, runner`taken, runner.gen`yielded, runner.gen`phase)
    ensures runner.results.history == old(runner.results.history) + recs + NotRun(runner.testUnits)
    ensures InterruptedOf(recs, TaskUnits(runner.tasks)) && |recs| <= |old(runner.tasks)|
    ensures old(runner.tasks) == [] && old(runner.testUnits) == [] ==> runner.results.history == old(runner.results.history)
    ensures runner.results.counters.Failures() >= old(runner.results.counters.Failures())
    ensures forall t :: t in runner.tasks ==> t in old(runner.tasks)
    ensures old(runner.Numbers()) ==> runner.Numbers()
    ensures old(runner.Covered()) ==> forall u :: u in runner.taken ==> u.isEnded
  {
    ghost var h, n := runner.results.history, |runner.tasks|;
    runner.MarkInterrupted(c);
    recs := runner.Stop();
    InterruptedHistory(h, recs, runner.testUnits, n);
  }

  /** What an interruption appends only adds failures, and is nothing when no task runs and no unit is queued. */
  lemma InterruptedHistory(h: seq<Record>, recs: seq<Record>, queue: seq<TestUnit>, n: nat)
    requires |recs| <= n
    ensures Tally(h + recs + NotRun(queue)).Failures() >= Tally(h).Failures()
    ensures n == 0 && queue == [] ==> h + recs + NotRun(queue) == h
  {
    assert h + recs + NotRun(queue) == h + (recs + NotRun(queue));
    TallyFailuresGrow(h, recs + NotRun(queue));
  }

  /** Appending a unit to the units ended as not run appends its record. */
  lemma NotRunAppend(us: seq<TestUnit>, u: TestUnit)
    ensures NotRun(us + [u]) == NotRun(us) + [NotRunRecord(u)]
  {
    NotRunStep(us + [u], |us|);
    assert (us + [u])[..|us| + 1] == us + [u] && (us + [u])[..|us|] == us;
  }

  /**
   * One pass of `for (const unit of testUnits)`: the generator is resumed
   * without `'isRunning'`, and a unit it yields ends as not run in time.
   */
  method DrainStep(config: RunConfig, results: RunResult, gen: TestUnits) returns (ghost u: Option<TestUnit>)
    requires results.Valid() && Tracked(gen, results) && gen.phase != Returned
    modifies results`counters, results`testsInRun, results`runStatus, results`history, results`endEvents
    modifies results`onTestStartErrors, results`onTestEndErrors, gen
    ensures results.Valid() && Tracked(gen, results)
    ensures u.None? ==> gen.yielded == old(gen.yielded) && results.history == old(results.history)
    ensures u.Some? ==> gen.yielded == old(gen.yielded) + [u.value] && fresh(u.value) && u.value.isEnded
    ensures u.Some? ==> results.history == old(results.history) + [NotRunRecord(u.value)]
    ensures results.runStatus == old(results.runStatus)
    ensures old(Numbered(results, config.onelineTapOutput)) ==> Numbered(results, config.onelineTapOutput)
    ensures u.Some? ==> gen.phase == AtUnit && gen.Load() < old(gen.Load())
    ensures u.None? ==> gen.Load() == old(gen.Load()) && (gen.phase == Returned || (gen.phase == AtEnd && old(gen.phase) != AtEnd))
  {
    ghost var g := gen.State();
    PullPending(gen.tests, gen.hasOnlyTests, g);
    var y := gen.Next(false);
    if y.YieldUnit? {
      u := Some(y.unit);
      EndNotRun(config, results, gen, y.unit);
    } else {
      u := None;
    }
  }

  /** `endTest(options, unit, {status: 'wasNotRunInTime'})` for a unit the generator has just yielded. */
  method EndNotRun(config: RunConfig, results: RunResult, gen: TestUnits, unit: TestUnit)
    requires results.Valid() && Tracked(gen, results) && unit in gen.yielded && !unit.isEnded
    modifies results`counters, results`testsInRun, results`runStatus, results`history, results`endEvents
    modifies results`onTestStartErrors, results`onTestEndErrors, gen`retries, gen`ended, unit`isEnded
    ensures results.Valid() && Tracked(gen, results) && unit.isEnded
    ensures results.history == old(results.history) + [NotRunRecord(unit)]
    ensures results.runStatus == old(results.runStatus) && gen.State() == old(gen.State())
    ensures old(Numbered(results, config.onelineTapOutput)) ==> Numbered(results, config.onelineTapOutput)
  {
    EndTest(config, results, gen, unit, Unstarted(WasNotRunInTime));
    assert !FailsRun(NotRunRecord(unit));
  }

  /**
   * `for (const unit of testUnits) endTest(options, unit, {status:
   * 'wasNotRunInTime'})`: the generator runs to its end, and every unit it
   * still yields ends, in order, as not run in time.
   */
  method Drain(config: RunConfig, results: RunResult, gen: TestUnits) returns (ghost drained: seq<TestUnit>)
    requires results.Valid() && Tracked(gen, results)
    modifies results`counters, results`testsInRun, results`runStatus, results`history, results`endEvents
    modifies results`onTestStartErrors, results`onTestEndErrors, gen
    ensures results.Valid() && Tracked(gen, results) && gen.phase == Returned
    ensures gen.yielded == old(gen.yielded) + drained
    ensures results.history == old(results.history) + NotRun(drained)
    ensures results.runStatus == old(results.runStatus)
    ensures old(Numbered(results, config.onelineTapOutput)) ==> Numbered(results, config.onelineTapOutput)
  {
    drained := [];
    while gen.phase != Returned
      invariant results.Valid() && Tracked(gen, results)
      invariant gen.yielded == old(gen.yielded) + drained
      invariant results.history == old(results.history) + NotRun(drained)
      invariant results.runStatus == old(results.runStatus)
      invariant old(Numbered(results, config.onelineTapOutput)) ==> Numbered(results, config.onelineTapOutput)
      decreases if gen.phase == Returned then 0 else 1, gen.Load(), if gen.phase == AtEnd then 0 else 1
    {
      ghost var y0, h0 := gen.yielded, results.history;
      ghost var u := DrainStep(config, results, gen);
      if u.Some? {
        NotRunAppend(drained, u.value);
        assert gen.yielded == y0 + [u.value] && results.history == h0 + [NotRunRecord(u.value)];
        drained := drained + [u.value];
        assert old(gen.yielded) + drained == y0 + [u.value];
        assert old(results.history) + NotRun(drained) == h0 + [NotRunRecord(u.value)];
      }
    }
  }

  /**
   * `run` up to its loop: a new run result, `onSuiteStart`, the selection
   * of the tests, and a generator and a runner that have not started yet.
   */
  method Prepare(config: RunConfig, all: seq<Test>, testsInSuite: nat)
    returns (runner: Runner, cause: Option<Cause>, verdicts: seq<Verdict>)
    ensures fresh(runner) && fresh(runner.results) && fresh(runner.gen) && runner.config == config
    ensures runner.Valid() && runner.Numbers() && runner.Covered()
    ensures runner.tasks == [] && runner.testUnits == [] && runner.taken == runner.gen.yielded == [] && runner.gen.phase == NotStarted
    ensures runner.results.history == [] && runner.results.onSuiteEndErrors == [] && |runner.results.onSuiteStartErrors| <= 1
    ensures runner.results.name == config.name && runner.results.testsInSuite == testsInSuite
    ensures |verdicts| == |all| && runner.results.filterTestErrors == Select(all, verdicts).errors
    ensures runner.gen.tests == Select(all, verdicts).tests
    ensures !config.filterTests ==> forall i :: 0 <= i < |verdicts| ==> verdicts[i] == Keep
    ensures config.signal == Some(true) ==> cause == Some(Signal)
    ensures cause.Some? ==> cause.value == Timeout || (cause.value == Signal && config.signal.Some?)
  {
    var results, selection;
    results, cause, selection, verdicts := Open(config, all, testsInSuite);
    var gen := new TestUnits(selection);
    runner := new Runner(config, results, gen);
  }

  /** The run result of a new run, with the suite started and the tests selected. */
  method Open(config: RunConfig, all: seq<Test>, testsInSuite: nat)
    returns (results: RunResult, cause: Option<Cause>, selection: Selection, verdicts: seq<Verdict>)
    ensures fresh(results) && results.Valid() && results.history == [] && results.endEvents == []
    ensures results.onSuiteEndErrors == [] && |results.onSuiteStartErrors| <= 1
    ensures results.name == config.name && results.testsInSuite == testsInSuite
    ensures |verdicts| == |all| && selection == Select(all, verdicts) && results.filterTestErrors == selection.errors
    ensures !config.filterTests ==> forall i :: 0 <= i < |verdicts| ==> verdicts[i] == Keep
    ensures config.signal == Some(true) ==> cause == Some(Signal)
    ensures cause.Some? ==> cause.value == Timeout || (cause.value == Signal && config.signal.Some?)
  {
    results := new RunResult(config.name, testsInSuite);
    cause := StartSuite(config, results);
    selection, verdicts := Choose(config, all);
    results.filterTestErrors := selection.errors;
  }

  /**
   * The loop of `run` unless a cause is already set, then the interruption
   * if a cause is set by then: every unit given to the runner has ended,
   * unless the run was neither interrupted nor able to start a task.
   */
  method RunLoop(runner: Runner, cause0: Option<Cause>) returns (cause: Option<Cause>)
    requires runner.Valid() && runner.Numbers() && runner.Covered()
    requires runner.tasks == [] && runner.testUnits == [] && runner.taken == runner.gen.yielded == [] && runner.gen.phase == NotStarted
    requires runner.results.history == []
    requires cause0.Some? ==> cause0.value == Timeout || (cause0.value == Signal && runner.config.signal.Some?)
    modifies runner`tasks, runner`testUnits, runner`unhandled, runner`started, runner`taken
    modifies runner.results`counters, runner.results`testsInRun, runner.results`runStatus, runner.results`history
    modifies runner.results`endEvents, runner.results`onTestStartErrors, runner.results`onTestEndErrors, runner.gen
    ensures runner.Held() && runner.Numbers()
    ensures runner.config.concurrency >= 1 || cause.Some? ==> forall i :: 0 <= i < |runner.gen.yielded| ==> runner.gen.yielded[i].isEnded
    ensures cause0.Some? ==> cause == cause0 && runner.results.history == [] && runner.gen.yielded == []
    ensures cause.Some? ==> runner.results.runStatus == InterruptedBy(cause.value)
    ensures cause.Some? ==> cause.value != Signal || runner.config.signal.Some?
    ensures cause == Some(MaxFailures) ==> runner.config.maxFailures.Reached(runner.results.counters.Failures())
  {
    if cause0.Some? {
      cause := cause0;
      Abort(runner, cause0.value);
      assert cause != Some(MaxFailures);
    } else {
      cause := Proceed(runner);
    }
  }

  /** The interruption of a run whose cause is set before its loop: nothing has started, so nothing is recorded. */
  method Abort(runner: Runner, c: Cause)
    requires runner.Valid() && runner.Numbers()
    requires runner.tasks == [] && runner.testUnits == [] && runner.gen.yielded == [] && runner.results.history == []
    modifies runner`tasks
    modifies runner.results`counters, runner.results`testsInRun, runner.results`runStatus, runner.results`history
    modifies runner.results`endEvents, runner.results`onTestStartErrors, runner.results`onTestEndErrors
    modifies runner.gen`retries, runner.gen`ended
    ensures runner.Held() && runner.Numbers() && runner.results.runStatus == InterruptedBy(c)
    ensures runner.results.history == [] && runner.gen.yielded == []
  {
    ghost var recs := Interrupt(runner, c);
  }

  /** The loop of `run` from its start, then the interruption if it stopped on a cause. */
  method Proceed(runner: Runner) returns (cause: Option<Cause>)
    requires runner.Valid() && runner.Numbers() && runner.Covered()
    requires runner.tasks == [] && runner.testUnits == [] && runner.taken == runner.gen.yielded == [] && runner.gen.phase == NotStarted
    modifies runner`tasks, runner`testUnits, runner`unhandled, runner`started, runner`taken
    modifies runner.results`counters, runner.results`testsInRun, runner.results`runStatus, runner.results`history
    modifies runner.results`endEvents, runner.results`onTestStartErrors, runner.results`onTestEndErrors, runner.gen
    ensures runner.Held() && runner.Numbers()
    ensures runner.config.concurrency >= 1 || cause.Some? ==> forall i :: 0 <= i < |runner.gen.yielded| ==> runner.gen.yielded[i].isEnded
    ensures cause.Some? ==> runner.results.runStatus == InterruptedBy(cause.value)
    ensures cause.Some? ==> cause.value == MaxFailures || cause.value == Timeout || (cause.value == Signal && runner.config.signal == Some(false))
    ensures cause == Some(MaxFailures) ==> runner.config.maxFailures.Reached(runner.results.counters.Failures())
  {
    cause := Drive(runner);
    ghost var failures := runner.results.counters.Failures();
    if cause.Some? {
      ghost var recs := Interrupt(runner, cause.value);
      assert runner.config.maxFailures.Reached(failures) ==> runner.config.maxFailures.Reached(runner.results.counters.Failures());
    }
    if runner.config.concurrency >= 1 || cause.Some? {
      forall i | 0 <= i < |runner.gen.yielded|
        ensures runner.gen.yielded[i].isEnded
      {
        assert runner.gen.yielded[i] in runner.taken;
      }
    }
  }

  /**
   * The end of `run` after its loop: the units still to come end as not run
   * in time, the TAP output is set and `onSuiteEnd` is awaited, its error
   * recorded. Every unit yielded is then recorded, once.
   */
  method WindUp(config: RunConfig, results: RunResult, gen: TestUnits, cause: Option<Cause>) returns (ghost units: seq<TestUnit>)
    requires results.Valid() && Tracked(gen, results) && Numbered(results, config.onelineTapOutput)
    requires config.concurrency >= 1 || cause.Some? ==> forall i :: 0 <= i < |gen.yielded| ==> gen.yielded[i].isEnded
    requires cause.Some? ==> results.runStatus == InterruptedBy(cause.value)
    requires cause == Some(MaxFailures) ==> config.maxFailures.Reached(results.counters.Failures())
    modifies results`counters, results`testsInRun, results`runStatus, results`history, results`endEvents
    modifies results`onTestStartErrors, results`onTestEndErrors, results`tapOutput, results`onSuiteEndErrors, gen
    ensures units == gen.yielded && results.Valid() && Numbered(results, config.onelineTapOutput)
    ensures forall u :: u in units ==> u.test in gen.tests
    ensures forall i :: 0 <= i < |results.history| ==> results.history[i].unit in units
    ensures results.testsInRun <= |units|
    ensures results.tapOutput == Tap.RunResultTapOutput(config.name, results.runStatus, results.counters, results.testsInRun)
    ensures forall i, j :: 0 <= i < j < |results.history| ==> results.history[i].unit != results.history[j].unit
    ensures config.concurrency >= 1 || cause.Some? ==> forall u :: u in units ==> Recorded(results.history, u)
    ensures results.runStatus == old(results.runStatus)
    ensures cause == Some(MaxFailures) ==> config.maxFailures.Reached(results.counters.Failures())
    ensures old(gen.yielded) == [] ==> results.history == old(results.history) + NotRun(units)
    ensures |results.onSuiteEndErrors| <= |old(results.onSuiteEndErrors)| + 1
  {
    units := Close(config, results, gen, cause);
    Report(config, results);
  }

  /** The drain after the loop of `run`, with what it leaves recorded. */
  method Close(config: RunConfig, results: RunResult, gen: TestUnits, cause: Option<Cause>) returns (ghost units: seq<TestUnit>)
    requires results.Valid() && Tracked(gen, results) && Numbered(results, config.onelineTapOutput)
    requires config.concurrency >= 1 || cause.Some? ==> forall i :: 0 <= i < |gen.yielded| ==> gen.yielded[i].isEnded
    requires cause == Some(MaxFailures) ==> config.maxFailures.Reached(results.counters.Failures())
    modifies results`counters, results`testsInRun, results`runStatus, results`history, results`endEvents
    modifies results`onTestStartErrors, results`onTestEndErrors, gen
    ensures units == gen.yielded && results.Valid() && Numbered(results, config.onelineTapOutput)
    ensures forall u :: u in units ==> u.test in gen.tests
    ensures forall i :: 0 <= i < |results.history| ==> results.history[i].unit in units
    ensures results.testsInRun <= |units|
    ensures forall i, j :: 0 <= i < j < |results.history| ==> results.history[i].unit != results.history[j].unit
    ensures config.concurrency >= 1 || cause.Some? ==> forall u :: u in units ==> Recorded(results.history, u)
    ensures results.runStatus == old(results.runStatus)
    ensures cause == Some(MaxFailures) ==> config.maxFailures.Reached(results.counters.Failures())
    ensures old(gen.yielded) == [] ==> results.history == old(results.history) + NotRun(units)
  {
    ghost var h2, y2 := results.history, gen.yielded;
    ghost var ended := config.concurrency >= 1 || cause.Some?;
    if ended {
      SoundDistinct(gen.ended, h2);
      assert forall i :: 0 <= i < |y2| ==> y2[i] in gen.ended;
    }
    ghost var drained := Drain(config, results, gen);
    units := gen.yielded;
    RecordsYielded(gen, results);
    SoundDistinct(gen.ended, results.history);
    if ended {
      AllRecorded(h2, y2, drained);
    }
    TallyFailuresGrow(h2, NotRun(drained));
    if y2 == [] {
      assert units == drained;
    }
  }

  /** `tapOutput` is set from the final counters, then `onSuiteEnd` is awaited and an error it throws is recorded. */
  method Report(config: RunConfig, results: RunResult)
    modifies results`tapOutput, results`onSuiteEndErrors
    ensures results.tapOutput == Tap.RunResultTapOutput(config.name, results.runStatus, results.counters, results.testsInRun)
    ensures results.onSuiteEndErrors == old(results.onSuiteEndErrors) || exists e :: results.onSuiteEndErrors == old(results.onSuiteEndErrors) + [e]
    ensures |results.onSuiteEndErrors| <= |old(results.onSuiteEndErrors)| + 1
  {
    results.tapOutput := Tap.RunResultTapOutput(config.name, results.runStatus, results.counters, results.testsInRun);
    if * {
      var e: Thrown :| true;
      results.onSuiteEndErrors := results.onSuiteEndErrors + [e];
    }
  }

  /** Units recorded stay recorded, and the units drained after them are recorded as not run. */
  lemma AllRecorded(h: seq<Record>, done: seq<TestUnit>, drained: seq<TestUnit>)
    requires forall i :: 0 <= i < |done| ==> Recorded(h, done[i])
    ensures forall u :: u in done + drained ==> Recorded(h + NotRun(drained), u)
  {
    forall u | u in done + drained
      ensures Recorded(h + NotRun(drained), u)
    {
      if u in drained {
        NotRunRecorded(h, drained, u);
      } else {
        var k :| 0 <= k < |done| && done[k] == u;
        var i :| 0 <= i < |h| && h[i].unit == u;
        assert (h + NotRun(drained))[i] == h[i];
      }
    }
  }

  /** A unit ended as not run in time is recorded. */
  lemma NotRunRecorded(h: seq<Record>, us: seq<TestUnit>, u: TestUnit)
    requires u in us
    ensures Recorded(h + NotRun(us), u)
  {
    var i :| 0 <= i < |us| && us[i] == u;
    assert (h + NotRun(us))[|h| + i].unit == u;
  }

  /**
   * The body of `run` for a suite's configuration and declared tests: a
   * fresh run result, the units the generator yielded, the cause that
   * interrupted the run if any, and the selection's verdicts.
   */
  method Execute(config: RunConfig, all: seq<Test>, testsInSuite: nat)
    returns (result: RunResult, ghost units: seq<TestUnit>, ghost cause: Option<Cause>, verdicts: seq<Verdict>)
    ensures fresh(result) && result.name == config.name && result.testsInSuite == testsInSuite
    ensures result.Valid() && Numbered(result, config.onelineTapOutput)
    ensures result.tapOutput == Tap.RunResultTapOutput(result.name, result.runStatus, result.counters, result.testsInRun)
    ensures forall i, j :: 0 <= i < j < |result.history| ==> result.history[i].unit != result.history[j].unit
    ensures config.concurrency >= 1 || cause.Some? ==> forall u :: u in units ==> Recorded(result.history, u)
    ensures cause.Some? ==> result.runStatus == InterruptedBy(cause.value)
    ensures cause.Some? ==> cause.value != Signal || config.signal.Some?
    ensures cause == Some(MaxFailures) ==> config.maxFailures.Reached(result.counters.Failures())
    ensures config.signal == Some(true) ==> cause == Some(Signal) && result.history == NotRun(units)
    ensures |result.onSuiteStartErrors| <= 1 && |result.onSuiteEndErrors| <= 1
    ensures |verdicts| == |all| && result.filterTestErrors == Select(all, verdicts).errors
    ensures !config.filterTests ==> forall i :: 0 <= i < |verdicts| ==> verdicts[i] == Keep
    ensures forall u :: u in units ==> u.test in Select(all, verdicts).tests
    ensures forall i :: 0 <= i < |result.history| ==> result.history[i].unit in units
    ensures result.testsInRun <= |units|
  {
    var runner, interruption;
    runner, interruption, verdicts := Prepare(config, all, testsInSuite);
    result := runner.results;
    units, cause := Perform(runner, interruption);
  }

  /** `run` from its loop on, for a runner as `Prepare` leaves it and the cause set before the loop, if any. */
  method Perform(runner: Runner, cause0: Option<Cause>) returns (ghost units: seq<TestUnit>, ghost cause: Option<Cause>)
    requires runner.Valid() && runner.Numbers() && runner.Covered()
    requires runner.tasks == [] && runner.testUnits == [] && runner.taken == runner.gen.yielded == [] && runner.gen.phase == NotStarted
    requires runner.results.history == [] && runner.results.onSuiteEndErrors == [] && runner.results.name == runner.config.name
    requires cause0.Some? ==> cause0.value == Timeout || (cause0.value == Signal && runner.config.signal.Some?)
    modifies runner`tasks, runner`testUnits, runner`unhandled, runner`started, runner`taken, runner.gen
    modifies runner.results`counters, runner.results`testsInRun, runner.results`runStatus, runner.results`history
    modifies runner.results`endEvents, runner.results`onTestStartErrors, runner.results`onTestEndErrors
    modifies runner.results`tapOutput, runner.results`onSuiteEndErrors
    ensures runner.results.Valid() && Numbered(runner.results, runner.config.onelineTapOutput)
    ensures runner.results.tapOutput == Tap.RunResultTapOutput(runner.results.name, runner.results.runStatus, runner.results.counters, runner.results.testsInRun)
    ensures forall i, j :: 0 <= i < j < |runner.results.history| ==> runner.results.history[i].unit != runner.results.history[j].unit
    ensures runner.config.concurrency >= 1 || cause.Some? ==> forall u :: u in units ==> Recorded(runner.results.history, u)
    ensures cause.Some? ==> runner.results.runStatus == InterruptedBy(cause.value)
    ensures cause.Some? ==> cause.value != Signal || runner.config.signal.Some?
    ensures cause == Some(MaxFailures) ==> runner.config.maxFailures.Reached(runner.results.counters.Failures())
    ensures cause0.Some? ==> cause == cause0 && runner.results.history == NotRun(units)
    ensures |runner.results.onSuiteEndErrors| <= 1
    ensures forall u :: u in units ==> u.test in runner.gen.tests
    ensures forall i :: 0 <= i < |runner.results.history| ==> runner.results.history[i].unit in units
    ensures runner.results.testsInRun <= |units|
  {
    var interruption := RunLoop(runner, cause0);
    units := WindUp(runner.config, runner.results, runner.gen, interruption);
    cause := interruption;
  }

  // ---------------------------------------------------------------------
  // The suite
  // ---------------------------------------------------------------------

  /** A suite of tests: its settings, its declared tests, the scope of their bodies and its last run result. */
  class Suite {
    /** The class defaults, overridden by the constructor's name and options. */
    const settings: Defaults
    /** Whether a name is a JavaScript identifier; the grammar itself is not part of this model. */
    const isIdentifier: string -> bool
    var tests: seq<PartialTest>
    var scope: map<string, Fn>
    var runResult: RunResult?

    /** `new Suite(name, options)` or `new Suite(options)`: no tests, an empty scope, no run result. */
    constructor (name: Option<string>, options: SuiteOptions, isIdentifier: string -> bool)
      ensures settings == SuiteSettings(name, options) && this.isIdentifier == isIdentifier
      ensures tests == [] && scope == map[] && runResult == null
    {
      settings := SuiteSettings(name, options);
      this.isIdentifier := isIdentifier;
      tests := [];
      scope := map[];
      runResult := null;
    }

    /** `addTest`: the call, in any of its four shapes, is declared as one more partial test. */
    method AddTest(first: First, second: Second, third: Option<Fn>)
      modifies this`tests
      ensures tests == old(tests) + [Declare(first, second, third)]
    {
      tests := tests + [Declare(first, second, third)];
    }

    /** `addFunctionToScope`: the scope takes the function, or stays as it is and the error is thrown. */
    method AddFunctionToScope(fn: Fn, name: Option<string>) returns (error: Option<ScopeError>)
      modifies this`scope
      ensures AddToScope(old(scope), fn, name, isIdentifier).Ok? ==> error.None? && scope == AddToScope(old(scope), fn, name, isIdentifier).value
      ensures AddToScope(old(scope), fn, name, isIdentifier).Err? ==> error == Some(AddToScope(old(scope), fn, name, isIdentifier).error) && scope == old(scope)
    {
      match AddToScope(scope, fn, name, isIdentifier)
      case Ok(s) =>
        scope := s;
        error := None;
      case Err(e) =>
        error := Some(e);
    }

    /** The options a run works with. */
    function Config(options: Options): RunConfig
      reads this
    {
      Configure(options, settings)
    }

    /**
     * `run`: a new run result; the tests are selected, units are pulled and
     * run until none is left or a cause interrupts the run, the units still
     * in the generator end as not run in time, and the run result gets its
     * TAP text.
     */
    method Run(options: Options) returns (result: RunResult, ghost units: seq<TestUnit>, ghost cause: Option<Cause>)
      modifies this`runResult
      ensures fresh(result) && runResult == result
      ensures result.name == Config(options).name && result.testsInSuite == |tests|
      ensures result.Valid() && Numbered(result, Config(options).onelineTapOutput)
      ensures result.tapOutput == Tap.RunResultTapOutput(result.name, result.runStatus, result.counters, result.testsInRun)
      ensures forall i, j :: 0 <= i < j < |result.history| ==> result.history[i].unit != result.history[j].unit
      ensures Config(options).concurrency >= 1 || cause.Some? ==> forall u :: u in units ==> Recorded(result.history, u)
      ensures cause.Some? ==> result.runStatus == InterruptedBy(cause.value)
      ensures cause.Some? ==> cause.value != Signal || Config(options).signal.Some?
      ensures cause == Some(MaxFailures) ==> Config(options).maxFailures.Reached(result.counters.Failures())
      ensures Config(options).signal == Some(true) ==> cause == Some(Signal) && result.history == NotRun(units)
      ensures |result.onSuiteStartErrors| <= 1 && |result.onSuiteEndErrors| <= 1
      ensures forall i :: 0 <= i < |result.history| ==> result.history[i].unit in units
      ensures result.testsInRun <= |units|
      ensures exists verdicts :: (
        && |verdicts| == |tests|
        && result.filterTestErrors == Select(AllTests(options, settings, tests), verdicts).errors
        && (forall u :: u in units ==> u.test in Select(AllTests(options, settings, tests), verdicts).tests)
        && (!Config(options).filterTests ==> forall i :: 0 <= i < |verdicts| ==> verdicts[i] == Keep))
    {
      var config := Config(options);
      var verdicts;
      result, units, cause, verdicts := Execute(config, AllTests(options, settings, tests), |tests|);
      runResult := result;
    }
  }
}
