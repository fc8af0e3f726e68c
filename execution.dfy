/**
 * Ending one test unit (`endTest`) and starting one (`runTestUnit`): the
 * hooks, the run-result update, the TAP text of the unit and the retry
 * callback, and the task an asynchronous body leaves behind.
 */
module Execution {
  import opened Types
  import opened Units
  import opened Results
  import Tap

  /** What a unit is ended with. */
  datatype EndResult =
    | Ended(result: TestResult)
    | Unstarted(status: Status)
    | InterruptedAfter(duration: nat)
  {
    predicate WellFormed() {
      && (Ended? ==> IsEndedStatus(result.status))
      && (Unstarted? ==> IsNotStarted(status))
    }

    /** The result `endTest` records: a not-started unit takes 0 ms, an interrupted one has no error. */
    function Result(): TestResult {
      match this
      case Ended(r) => r
      case Unstarted(s) => TestResult(0, None, false, s)
      case InterruptedAfter(d) => TestResult(d, None, false, Interrupted)
    }
  }

  /** The event `onTestEnd` gets for the `testNumber`-th recorded unit. */
  function EndEvent(r: Record, testNumber: nat, oneline: bool): TestEndEvent {
    var u := r.unit;
    TestEndEvent(u.repeatIndex, r.result, u.retryIndex,
      Tap.TestTapOutput(oneline, testNumber, u.test, u.repeatIndex, u.retryIndex, r.result), u.test)
  }

  /** `evs` holds, in order, the event `event` makes of each record of `h` and its number, counting from 1. */
  predicate NumberedBy<R, E(==)>(h: seq<R>, evs: seq<E>, event: (R, nat) -> E) {
    && |evs| == |h|
    && forall i :: 0 <= i < |h| ==> evs[i] == event(h[i], i + 1)
  }

  lemma NumberedByAppend<R, E>(h: seq<R>, evs: seq<E>, event: (R, nat) -> E, r: R)
    requires NumberedBy(h, evs, event)
    ensures NumberedBy(h + [r], evs + [event(r, |h| + 1)], event)
  {
    var h', evs' := h + [r], evs + [event(r, |h| + 1)];
    forall i | 0 <= i < |h'|
      ensures evs'[i] == event(h'[i], i + 1)
    {
      if i < |h| {
        assert evs'[i] == evs[i] && h'[i] == h[i];
      }
    }
  }

  /** `EndEvent` with the output format fixed. */
  function EventFor(oneline: bool): (Record, nat) -> TestEndEvent {
    (r: Record, testNumber: nat) => EndEvent(r, testNumber, oneline)
  }

  /** The events `evs` belong, in order, to the records of `h`, numbered from 1. */
  predicate NumberedEvents(h: seq<Record>, evs: seq<TestEndEvent>, oneline: bool) {
    NumberedBy(h, evs, EventFor(oneline))
  }

  /** The events `onTestEnd` was given so far belong, in order, to the recorded units, numbered from 1. */
  ghost predicate Numbered(results: RunResult, oneline: bool)
    reads results`history, results`endEvents
  {
    NumberedEvents(results.history, results.endEvents, oneline)
  }

  /** Numbering the next record after the last keeps the events numbered. */
  lemma NumberedAppend(h: seq<Record>, evs: seq<TestEndEvent>, r: Record, oneline: bool)
    requires NumberedEvents(h, evs, oneline)
    ensures NumberedEvents(h + [r], evs + [EndEvent(r, |h| + 1, oneline)], oneline)
  {
    NumberedByAppend(h, evs, EventFor(oneline), r);
    assert EventFor(oneline)(r, |h| + 1) == EndEvent(r, |h| + 1, oneline);
  }

  /** Read at one position: the `i`-th event belongs to the `i`-th record and carries number `i + 1`. */
  lemma NumberedAt(h: seq<Record>, evs: seq<TestEndEvent>, oneline: bool, i: nat)
    requires NumberedEvents(h, evs, oneline) && i < |h|
    ensures evs[i] == EndEvent(h[i], i + 1, oneline)
  {
    assert evs[i] == EventFor(oneline)(h[i], i + 1);
  }

  /** The work of a run still to do: the generator's, and that of the units it handed out. */
  ghost function Work(gen: TestUnits): nat
    reads gen`retries, gen`testIndex, gen`currentRepeatIndex, gen`yielded, gen`ended
  {
    gen.Load() + InFlight(gen.yielded, gen.ended)
  }

  /**
   * The generator's record of ended units matches the units, every ended
   * unit is one it yielded, its units and retries are for its own tests,
   * and the results record exactly the ended units.
   */
  ghost predicate Tracked(gen: TestUnits, results: RunResult)
    reads gen`retries, gen`yielded, gen`ended, results`history, gen.yielded`isEnded, gen.ended`isEnded
  {
    && gen.Mirrors() && gen.Confined() && Sound(gen.ended, results.history)
    && (forall u :: u in gen.ended ==> u in gen.yielded)
  }

  /**
   * Every record of tracked results is for a unit the generator yielded,
   * so there are no more records than units yielded.
   */
  lemma RecordsYielded(gen: TestUnits, results: RunResult)
    requires Tracked(gen, results)
    ensures forall i :: 0 <= i < |results.history| ==> results.history[i].unit in gen.yielded
    ensures |results.history| <= |gen.yielded|
  {
    RecordedUnitsBound(results.history);
    ghost var all := set u | u in gen.yielded;
    assert gen.ended <= all;
    assert all == gen.ended + (all - gen.ended);
    assert |results.history| == |gen.ended| <= |all|;
    DistinctBound(gen.yielded);
  }

  /** A sequence holds no more distinct units than it has elements. */
  lemma {:induction false} DistinctBound(us: seq<TestUnit>)
    ensures |set u | u in us| <= |us|
  {
    if us != [] {
      var init := us[..|us| - 1];
      DistinctBound(init);
      assert (set u | u in us) == (set u | u in init) + {us[|us| - 1]} by {
        assert us == init + [us[|us| - 1]];
      }
    }
  }

  /** Whether `errors` is `before`, or `before` with one more error about `event`. */
  predicate AtMostOneStartError(before: seq<TestStartError>, errors: seq<TestStartError>, event: TestStartEvent) {
    errors == before || (|errors| == |before| + 1 && errors[..|before|] == before && errors[|before|].event == event)
  }

  predicate AtMostOneEndError(before: seq<TestEndError>, errors: seq<TestEndError>, event: TestEndEvent) {
    errors == before || (|errors| == |before| + 1 && errors[..|before|] == before && errors[|before|].event == event)
  }

  /**
   * The part of `endTest` once the result is known: the result is counted,
   * its TAP text, numbered by the count of recorded units, goes to
   * `onTestEnd`, and an error the hook throws is collected.
   */
  method Report(config: RunConfig, results: RunResult, unit: TestUnit, result: TestResult)
    requires results.Valid()
    modifies results`counters, results`testsInRun, results`runStatus, results`history, results`endEvents, results`onTestEndErrors
    ensures results.Valid()
    ensures results.history == old(results.history) + [Record(unit, result)]
    ensures results.endEvents == old(results.endEvents) + [EndEvent(Record(unit, result), |results.history|, config.onelineTapOutput)]
    ensures AtMostOneEndError(old(results.onTestEndErrors), results.onTestEndErrors,
      EndEvent(Record(unit, result), |results.history|, config.onelineTapOutput))
    ensures results.runStatus == StatusAfter(old(results.runStatus), Record(unit, result))
    ensures old(Numbered(results, config.onelineTapOutput)) ==> Numbered(results, config.onelineTapOutput)
  {
    ghost var h0, evs0 := results.history, results.endEvents;
    results.Update(unit, result);
    var tapOutput := Tap.TestTapOutput(config.onelineTapOutput, results.testsInRun, unit.test, unit.repeatIndex, unit.retryIndex, result);
    var event := TestEndEvent(unit.repeatIndex, result, unit.retryIndex, tapOutput, unit.test);
    assert event == EndEvent(Record(unit, result), |results.history|, config.onelineTapOutput);
    results.endEvents := results.endEvents + [event];
    if * {
      var e: Thrown :| true;
      results.onTestEndErrors := results.onTestEndErrors + [TestEndError(e, event)];
    }
    if NumberedEvents(h0, evs0, config.onelineTapOutput) {
      NumberedAppend(h0, evs0, Record(unit, result), config.onelineTapOutput);
    }
  }

  /**
   * `endTest`: ends a unit once. A unit that has ended already is left as it
   * is; otherwise a not-started unit first goes to `onTestStart`, the result
   * is reported, and the unit's retry callback, if it has one, gets it.
   */
  method EndTest(config: RunConfig, results: RunResult, gen: TestUnits, unit: TestUnit, end: EndResult)
    requires results.Valid() && end.WellFormed()
    modifies results`counters, results`testsInRun, results`runStatus, results`history, results`endEvents
    modifies results`onTestStartErrors, results`onTestEndErrors, gen`retries, gen`ended, unit`isEnded
    ensures results.Valid() && unit.isEnded
    ensures old(unit.isEnded) ==> unchanged(results) && gen.retries == old(gen.retries) && gen.ended == old(gen.ended)
    ensures !old(unit.isEnded) ==>
      && results.history == old(results.history) + [Record(unit, end.Result())]
      && results.runStatus == StatusAfter(old(results.runStatus), Record(unit, end.Result()))
      && gen.retries == (if unit.onEnd then Requeue(old(gen.retries), unit.Value(), end.Result().status) else old(gen.retries))
    ensures old(Numbered(results, config.onelineTapOutput)) ==> Numbered(results, config.onelineTapOutput)
    ensures old(Tracked(gen, results)) && unit in gen.yielded ==> Tracked(gen, results)
    ensures old(gen.Mirrors()) && unit in gen.yielded ==> Work(gen) + (if old(unit.isEnded) then 0 else 1) <= old(Work(gen))
  {
    if !unit.isEnded {
      ghost var e0, h0 := gen.ended, results.history;
      ghost var tracked := Tracked(gen, results) && unit in gen.yielded;
      if tracked {
        assert unit.test in gen.tests;
      }
      EndUnit(config, results, gen, unit, end);
      if tracked {
        SoundEnd(e0, h0, unit, end.Result());
      }
    }
  }

  /** `endTest` past its guard: the unit is marked ended, then concluded. */
  method EndUnit(config: RunConfig, results: RunResult, gen: TestUnits, unit: TestUnit, end: EndResult)
    requires results.Valid() && end.WellFormed() && !unit.isEnded
    modifies results`counters, results`testsInRun, results`runStatus, results`history, results`endEvents
    modifies results`onTestStartErrors, results`onTestEndErrors, gen`retries, gen`ended, unit`isEnded
    ensures results.Valid() && unit.isEnded
    ensures results.history == old(results.history) + [Record(unit, end.Result())]
    ensures results.runStatus == StatusAfter(old(results.runStatus), Record(unit, end.Result()))
    ensures gen.retries == (if unit.onEnd then Requeue(old(gen.retries), unit.Value(), end.Result().status) else old(gen.retries))
    ensures old(Numbered(results, config.onelineTapOutput)) ==> Numbered(results, config.onelineTapOutput)
    ensures gen.ended == old(gen.ended) + {unit}
    ensures old(gen.Mirrors()) ==> gen.Mirrors() && unit !in old(gen.ended)
    ensures old(gen.Confined()) && unit.test in gen.tests ==> gen.Confined()
    ensures old(gen.Mirrors()) && unit in gen.yielded ==> Work(gen) + 1 <= old(Work(gen))
  {
    ghost var e0, g0 := gen.ended, gen.State();
    ghost var mirrored := gen.Mirrors();
    MarkEnded(gen, unit);
    Conclude(config, results, gen, unit, end);
    if mirrored {
      EndAccounting(gen.tests, gen.hasOnlyTests, g0, gen.yielded, e0, unit, end.Result());
      assert gen.State() == g0.(retries := if unit.onEnd then Requeue(g0.retries, unit.Value(), end.Result().status) else g0.retries);
    }
  }

  /**
   * The rest of `endTest` once the unit is marked ended: a not-started unit
   * goes to `onTestStart`, the result is reported, and the unit's retry
   * callback, if it has one, gets it.
   */
  method Conclude(config: RunConfig, results: RunResult, gen: TestUnits, unit: TestUnit, end: EndResult)
    requires results.Valid() && end.WellFormed()
    modifies results`counters, results`testsInRun, results`runStatus, results`history, results`endEvents
    modifies results`onTestStartErrors, results`onTestEndErrors, gen`retries
    ensures results.Valid()
    ensures results.history == old(results.history) + [Record(unit, end.Result())]
    ensures results.runStatus == StatusAfter(old(results.runStatus), Record(unit, end.Result()))
    ensures gen.retries == (if unit.onEnd then Requeue(old(gen.retries), unit.Value(), end.Result().status) else old(gen.retries))
    ensures AtMostOneEndError(old(results.onTestEndErrors), results.onTestEndErrors,
      EndEvent(Record(unit, end.Result()), |results.history|, config.onelineTapOutput))
    ensures if end.Unstarted?
      then AtMostOneStartError(old(results.onTestStartErrors), results.onTestStartErrors,
        TestStartEvent(unit.repeatIndex, unit.retryIndex, Some(end.status), unit.test))
      else results.onTestStartErrors == old(results.onTestStartErrors)
    ensures old(Numbered(results, config.onelineTapOutput)) ==> Numbered(results, config.onelineTapOutput)
    ensures old(gen.Confined()) && unit.test in gen.tests ==> gen.Confined()
  {
    if end.Unstarted? {
      var event := TestStartEvent(unit.repeatIndex, unit.retryIndex, Some(end.status), unit.test);
      if * {
        var e: Thrown :| true;
        results.onTestStartErrors := results.onTestStartErrors + [TestStartError(e, event)];
      }
    }
    var result := end.Result();
    Report(config, results, unit, result);
    if unit.onEnd {
      gen.OnEnd(unit.Value(), result.status);
    }
  }

  /** Marks a unit ended, in the unit and in the generator's record of ended units. */
  method MarkEnded(gen: TestUnits, unit: TestUnit)
    requires !unit.isEnded
    modifies unit`isEnded, gen`ended
    ensures unit.isEnded && gen.ended == old(gen.ended) + {unit}
    ensures old(gen.Mirrors()) ==> gen.Mirrors() && unit !in old(gen.ended)
  {
    unit.isEnded := true;
    gen.ended := gen.ended + {unit};
  }

  /**
   * Ending a yielded unit not ended before takes at least one off the work
   * of the run, whatever the retry callback queues.
   */
  lemma EndAccounting(tests: seq<Test>, hasOnlyTests: bool, g: GenState, us: seq<TestUnit>, ended: set<TestUnit>,
                      u: TestUnit, r: TestResult)
    requires u !in ended
    ensures var g' := g.(retries := if u.onEnd then Requeue(g.retries, u.Value(), r.status) else g.retries);
      u in us ==> Pending(tests, hasOnlyTests, g') + InFlight(us, ended + {u}) + 1 <= Pending(tests, hasOnlyTests, g) + InFlight(us, ended)
  {
    RequeueWork(tests, hasOnlyTests, g, u.Value(), r.status);
    if u in us {
      InFlightEnd(us, ended, u);
    }
  }

  /**
   * What `runTestUnit` leaves behind for an asynchronous body: the unit,
   * the `isEnded` flag the runner's handler sets, and the state of the
   * closures around the body (its `status`, `error`, `hasError`, whether
   * `onEnd` has been spent, whether the timer was cleared and whether the
   * body's thenable has settled).
   */
  class Task {
    const unit: TestUnit
    var isEnded: bool
    var status: Option<Status>
    var hasError: bool
    var error: Option<Thrown>
    var onEndSpent: bool
    var timerCleared: bool
    var settled: bool

    /** A task whose body is still running. */
    ghost predicate Running()
      reads this`isEnded, this`onEndSpent, this`timerCleared, this`settled, this`status, this`hasError, this`error, unit`isEnded
    {
      && !isEnded && !onEndSpent && !timerCleared && !settled
      && status.None? && !hasError && error.None?
      && !unit.isEnded
    }

    /** A task whose `onEnd` has run: its `end` promise is resolved and its unit ended. */
    ghost predicate Finished()
      reads this`onEndSpent, this`timerCleared, unit`isEnded
    {
      onEndSpent && timerCleared && unit.isEnded
    }

    constructor (unit: TestUnit)
      requires !unit.isEnded
      ensures this.unit == unit && Running()
    {
      this.unit := unit;
      isEnded := false;
      status := None;
      hasError := false;
      error := None;
      onEndSpent := false;
      timerCleared := false;
      settled := false;
    }

    /**
     * The `onEnd` closure as first created: spends itself, settles the
     * status (`passed` exactly when whether the body threw matches the
     * test's `fail` flag, unless a timeout already set it), clears the
     * timer and ends the unit with the time the body took.
     */
    method OnEnd(config: RunConfig, results: RunResult, gen: TestUnits, duration: nat)
      requires results.Valid() && (status.None? || status == Some(TimedOut))
      modifies this`onEndSpent, this`status, this`timerCleared, gen`retries
      modifies results`counters, results`testsInRun, results`runStatus, results`history, results`endEvents, results`onTestStartErrors, results`onTestEndErrors
      modifies gen`ended, unit`isEnded
      ensures results.Valid() && Finished()
      ensures status == Some(old(status).GetOr(if hasError == unit.test.fail then Passed else Failed))
      ensures old(unit.isEnded) ==> unchanged(results) && gen.retries == old(gen.retries) && gen.ended == old(gen.ended)
      ensures !old(unit.isEnded) ==>
        var r := TestResult(duration, error, hasError, status.value);
        && results.history == old(results.history) + [Record(unit, r)]
        && gen.retries == (if unit.onEnd then Requeue(old(gen.retries), unit.Value(), r.status) else old(gen.retries))
      ensures old(Numbered(results, config.onelineTapOutput)) ==> Numbered(results, config.onelineTapOutput)
      ensures old(Tracked(gen, results)) && unit in gen.yielded ==> Tracked(gen, results)
      ensures old(gen.Mirrors()) && unit in gen.yielded ==> Work(gen) + (if old(unit.isEnded) then 0 else 1) <= old(Work(gen))
    {
      var s := status.GetOr(if hasError == unit.test.fail then Passed else Failed);
      Spend(s);
      EndTest(config, results, gen, unit, Ended(TestResult(duration, error, hasError, s)));
    }

    /** The thenable rejects: the rejection handler keeps the error. */
    method Catch(e: Thrown)
      modifies this`settled, this`error, this`hasError
      ensures settled && error == Some(e) && hasError
    {
      settled, error, hasError := true, Some(e), true;
    }

    /** `onEnd = () => {}`, the status settled and `clear?.()`. */
    method Spend(s: Status)
      modifies this`onEndSpent, this`status, this`timerCleared
      ensures onEndSpent && status == Some(s) && timerCleared
    {
      onEndSpent, status, timerCleared := true, Some(s), true;
    }

    /** The body's thenable resolves: the original `onEnd` runs, whether or not it was spent. */
    method Resolve(config: RunConfig, results: RunResult, gen: TestUnits, duration: nat)
      requires results.Valid() && Running()
      modifies this`onEndSpent, this`status, this`timerCleared, this`settled, gen`retries
      modifies results`counters, results`testsInRun, results`runStatus, results`history, results`endEvents, results`onTestStartErrors, results`onTestEndErrors
      modifies gen`ended, unit`isEnded
      ensures results.Valid() && Finished() && settled && !isEnded
      ensures status == Some(if unit.test.fail then Failed else Passed)
      ensures var r := TestResult(duration, None, false, if unit.test.fail then Failed else Passed);
        && results.history == old(results.history) + [Record(unit, r)]
        && gen.retries == (if unit.onEnd then Requeue(old(gen.retries), unit.Value(), r.status) else old(gen.retries))
      ensures old(Numbered(results, config.onelineTapOutput)) ==> Numbered(results, config.onelineTapOutput)
      ensures old(Tracked(gen, results)) && unit in gen.yielded ==> Tracked(gen, results)
      ensures old(gen.Mirrors()) && unit in gen.yielded ==> Work(gen) < old(Work(gen))
    {
      settled := true;
      OnEnd(config, results, gen, duration);
    }

    /** The body's thenable rejects: the error is kept and the current `onEnd` runs. */
    method Reject(config: RunConfig, results: RunResult, gen: TestUnits, duration: nat, e: Thrown)
      requires results.Valid() && Running()
      modifies this`onEndSpent, this`status, this`timerCleared, this`settled, this`error, this`hasError, gen`retries
      modifies results`counters, results`testsInRun, results`runStatus, results`history, results`endEvents, results`onTestStartErrors, results`onTestEndErrors
      modifies gen`ended, unit`isEnded
      ensures results.Valid() && Finished() && settled && !isEnded
      ensures status == Some(if unit.test.fail then Passed else Failed)
      ensures var r := TestResult(duration, Some(e), true, if unit.test.fail then Passed else Failed);
        && results.history == old(results.history) + [Record(unit, r)]
        && gen.retries == (if unit.onEnd then Requeue(old(gen.retries), unit.Value(), r.status) else old(gen.retries))
      ensures old(Numbered(results, config.onelineTapOutput)) ==> Numbered(results, config.onelineTapOutput)
      ensures old(Tracked(gen, results)) && unit in gen.yielded ==> Tracked(gen, results)
      ensures old(gen.Mirrors()) && unit in gen.yielded ==> Work(gen) < old(Work(gen))
    {
      Catch(e);
      OnEnd(config, results, gen, duration);
      assert status.value == (if unit.test.fail then Passed else Failed);
    }

    /** The timer fires before the body settles: the unit times out. */
    method TimeOut(config: RunConfig, results: RunResult, gen: TestUnits, duration: nat)
      requires results.Valid() && Running()
      modifies this`onEndSpent, this`status, this`timerCleared, gen`retries
      modifies results`counters, results`testsInRun, results`runStatus, results`history, results`endEvents, results`onTestStartErrors, results`onTestEndErrors
      modifies gen`ended, unit`isEnded
      ensures results.Valid() && Finished() && !settled && !isEnded && status == Some(TimedOut)
      ensures var r := TestResult(duration, None, false, TimedOut);
        && results.history == old(results.history) + [Record(unit, r)]
        && gen.retries == (if unit.onEnd then Requeue(old(gen.retries), unit.Value(), r.status) else old(gen.retries))
      ensures old(Numbered(results, config.onelineTapOutput)) ==> Numbered(results, config.onelineTapOutput)
      ensures old(Tracked(gen, results)) && unit in gen.yielded ==> Tracked(gen, results)
      ensures old(gen.Mirrors()) && unit in gen.yielded ==> Work(gen) < old(Work(gen))
    {
      status := Some(TimedOut);
      OnEnd(config, results, gen, duration);
    }

    /**
     * What can happen to a running task while `run` awaits: its body's
     * thenable resolves or rejects, or its timer fires first. Either way
     * its unit ends, once.
     */
    method Settle(config: RunConfig, results: RunResult, gen: TestUnits)
      requires results.Valid() && Running()
      modifies this`onEndSpent, this`status, this`timerCleared, this`settled, this`error, this`hasError, gen`retries
      modifies results`counters, results`testsInRun, results`runStatus, results`history, results`endEvents, results`onTestStartErrors, results`onTestEndErrors
      modifies gen`ended, unit`isEnded
      ensures results.Valid() && Finished() && !isEnded && Coherent()
      ensures |results.history| == |old(results.history)| + 1 && results.history[|old(results.history)|].unit == unit
      ensures old(Numbered(results, config.onelineTapOutput)) ==> Numbered(results, config.onelineTapOutput)
      ensures old(Tracked(gen, results)) && unit in gen.yielded ==> Tracked(gen, results)
      ensures old(gen.Mirrors()) && unit in gen.yielded ==> Work(gen) < old(Work(gen))
    {
      var duration: nat :| true;
      if * {
        Resolve(config, results, gen, duration);
      } else if * {
        var e: Thrown :| true;
        Reject(config, results, gen, duration, e);
      } else {
        TimeOut(config, results, gen, duration);
      }
    }

    /**
     * The body's thenable settles after the unit has ended, because the
     * timer fired first or the run interrupted the unit: a resolve runs the
     * original `onEnd` once more, a reject keeps the error and runs the
     * current `onEnd`, which is spent if it ran before. Either way
     * `endTest` finds the unit ended, so the run result, the retry queue
     * and the generator's record of ended units stay as they were.
     */
    method LateSettle(config: RunConfig, results: RunResult, gen: TestUnits)
      requires results.Valid() && unit.isEnded && timerCleared && !settled && Coherent()
      modifies this`onEndSpent, this`status, this`timerCleared, this`settled, this`error, this`hasError, gen`retries
      modifies results`counters, results`testsInRun, results`runStatus, results`history, results`endEvents, results`onTestStartErrors, results`onTestEndErrors
      modifies gen`ended, unit`isEnded
      ensures unchanged(results) && gen.retries == old(gen.retries) && gen.ended == old(gen.ended)
      ensures settled && unit.isEnded && timerCleared && isEnded == old(isEnded)
      ensures old(onEndSpent) ==> onEndSpent && status == old(status)
      ensures old(status) == Some(TimedOut) ==> status == Some(TimedOut)
    {
      var duration: nat :| true;
      if * {
        settled := true;
        OnEnd(config, results, gen, duration);
      } else {
        var e: Thrown :| true;
        Catch(e);
        if !onEndSpent {
          OnEnd(config, results, gen, duration);
        }
      }
    }

    /** Once `onEnd` has run the status is set; until the body settles it is unset or the one the timer gave. */
    ghost predicate Coherent()
      reads this`onEndSpent, this`settled, this`status
    {
      && (onEndSpent ==> status.Some?)
      && (settled || status.None? || status == Some(TimedOut))
    }

    /** `clear`: cancels the timer. */
    method Clear()
      modifies this`timerCleared
      ensures timerCleared
    {
      timerCleared := true;
    }

    /** The runner's handler on `end`: marks the task ended. */
    method Handle()
      requires onEndSpent
      modifies this`isEnded
      ensures isEnded
    {
      isEnded := true;
    }
  }

  /** How a body call comes back: a plain value, a throw, or a thenable. */
  datatype Outcome = Returns | Throws(error: Thrown) | Thenable

  /** The status a body that came back synchronously ends with. */
  function SyncStatus(t: Test, hasError: bool): (s: Status)
    ensures s == Passed <==> hasError == t.fail
    ensures s == Passed || s == Failed
  {
    if hasError == t.fail then Passed else Failed
  }

  /**
   * `runTestUnit`: a unit with a preset status (a skip) or without a body
   * ends at once without being started; otherwise `onTestStart` is told,
   * the body is called, and a body that comes back synchronously ends the
   * unit at once, while a thenable leaves a running task.
   */
  method RunTestUnit(config: RunConfig, results: RunResult, gen: TestUnits, unit: TestUnit) returns (task: Task?)
    requires results.Valid() && !unit.isEnded
    requires unit.status.Some? ==> IsNotStarted(unit.status.value)
    modifies results`counters, results`testsInRun, results`runStatus, results`history, results`endEvents, results`onTestStartErrors, results`onTestEndErrors
    modifies gen`retries, gen`ended, unit`isEnded
    ensures results.Valid()
    ensures task == null ==>
      && unit.isEnded && |results.history| == |old(results.history)| + 1
      && results.history[..|old(results.history)|] == old(results.history)
      && var r := results.history[|old(results.history)|];
      && r.unit == unit
      && gen.retries == (if unit.onEnd then Requeue(old(gen.retries), unit.Value(), r.result.status) else old(gen.retries))
      && (unit.status.Some? ==> r.result.status == unit.status.value)
      && (unit.status.None? && unit.test.body.None? ==> r.result.status == HasNoBody)
      && (unit.status.None? && unit.test.body.Some? ==>
            r.result.status == SyncStatus(unit.test, r.result.hasError) && (r.result.hasError <==> r.result.error.Some?))
    ensures task != null ==>
      && fresh(task) && task.unit == unit && task.Running()
      && unit.status.None? && unit.test.body.Some?
      && results.history == old(results.history) && gen.retries == old(gen.retries)
      && results.runStatus == old(results.runStatus)
    ensures old(Numbered(results, config.onelineTapOutput)) ==> Numbered(results, config.onelineTapOutput)
    ensures old(Tracked(gen, results)) && unit in gen.yielded ==> Tracked(gen, results)
    ensures old(gen.Mirrors()) && unit in gen.yielded ==> Work(gen) + (if task == null then 1 else 0) <= old(Work(gen))
  {
    if unit.status.Some? {
      EndTest(config, results, gen, unit, Unstarted(unit.status.value));
      return null;
    }
    if unit.test.body.None? {
      EndTest(config, results, gen, unit, Unstarted(HasNoBody));
      return null;
    }
    var event := TestStartEvent(unit.repeatIndex, unit.retryIndex, None, unit.test);
    if * {
      var e: Thrown :| true;
      results.onTestStartErrors := results.onTestStartErrors + [TestStartError(e, event)];
    }
    var outcome: Outcome :| true;
    if outcome.Thenable? {
      task := new Task(unit);
      return;
    }
    var error: Option<Thrown> := if outcome.Throws? then Some(outcome.error) else None;
    var hasError := outcome.Throws?;
    var duration: nat :| true;
    EndTest(config, results, gen, unit, Ended(TestResult(duration, error, hasError, SyncStatus(unit.test, hasError))));
    task := null;
  }
}
