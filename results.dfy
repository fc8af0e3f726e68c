/**
 * The run result: the status counters, the count of recorded units, the
 * run status and the error lists, kept consistent with the ghost history
 * of every unit end recorded so far.
 */
module Results {
  import opened Types
  import opened Units
  import Tap

  /** One recorded end of a unit. */
  datatype Record = Record(unit: TestUnit, result: TestResult)

  /** The counters a history adds up to. */
  function Tally(history: seq<Record>): Counters {
    if history == [] then ZeroCounters
    else Tally(history[..|history| - 1]).Incr(history[|history| - 1].result.status)
  }

  function CountStatus(history: seq<Record>, s: Status): nat {
    if history == [] then 0
    else CountStatus(history[..|history| - 1], s) + (if history[|history| - 1].result.status == s then 1 else 0)
  }

  /** `updateRunResult`: only a failure of a test that is not `todo` (strictly `false`) fails the run. */
  predicate FailsRun(r: Record) {
    IsFailure(r.result.status) && r.unit.test.todo == Bool(false)
  }

  /** The run status after recording `r`: only a passing run changes, and only to failed. */
  function StatusAfter(before: RunStatus, r: Record): RunStatus {
    if FailsRun(r) && before == RunPassed then RunFailed else before
  }

  /** The run status a run that was not interrupted ends with. */
  function RunVerdict(history: seq<Record>): RunStatus {
    if history == [] then RunPassed
    else if FailsRun(history[|history| - 1]) then RunFailed
    else RunVerdict(history[..|history| - 1])
  }

  /** Each counter counts the records with its status, and together they count every record. */
  lemma {:induction false} TallyCounts(history: seq<Record>)
    ensures forall s: Status :: Tally(history).Get(s) == CountStatus(history, s)
    ensures Tally(history).Total() == |history|
  {
    if history != [] {
      var init := history[..|history| - 1];
      TallyCounts(init);
      IncrTotal(Tally(init), history[|history| - 1].result.status);
    }
  }

  /** A run fails exactly when some recorded unit of a test that is not `todo` failed or timed out. */
  lemma {:induction false} VerdictSpec(history: seq<Record>)
    ensures RunVerdict(history) == RunFailed <==> exists i :: 0 <= i < |history| && FailsRun(history[i])
    ensures RunVerdict(history) != RunFailed ==> RunVerdict(history) == RunPassed
  {
    if history != [] {
      var init := history[..|history| - 1];
      VerdictSpec(init);
      if !FailsRun(history[|history| - 1]) {
        forall i | 0 <= i < |history| && FailsRun(history[i])
          ensures 0 <= i < |init| && FailsRun(init[i])
        {
        }
      }
    }
  }

  /** Recording more units never lowers the count of failures. */
  lemma {:induction false} TallyFailuresGrow(history: seq<Record>, more: seq<Record>)
    ensures Tally(history + more).Failures() >= Tally(history).Failures()
  {
    if more != [] {
      var init := more[..|more| - 1];
      assert (history + more)[..|history + more| - 1] == history + init;
      TallyFailuresGrow(history, init);
      IncrTotal(Tally(history + init), more[|more| - 1].result.status);
    } else {
      assert history + more == history;
    }
  }

  predicate Recorded(history: seq<Record>, u: TestUnit) {
    exists i :: 0 <= i < |history| && history[i].unit == u
  }

  /** The units of the records of `history`. */
  function RecordedUnits(history: seq<Record>): set<TestUnit> {
    if history == [] then {} else RecordedUnits(history[..|history| - 1]) + {history[|history| - 1].unit}
  }

  /**
   * The bookkeeping of a run: the units marked ended are exactly the
   * recorded ones, and there are as many of them as records.
   */
  predicate Sound(ended: set<TestUnit>, history: seq<Record>) {
    RecordedUnits(history) == ended && |ended| == |history|
  }

  /** Every record's unit is among the units of the history, which are no more than the records. */
  lemma {:induction false} RecordedUnitsBound(history: seq<Record>)
    ensures |RecordedUnits(history)| <= |history|
    ensures forall i :: 0 <= i < |history| ==> history[i].unit in RecordedUnits(history)
  {
    if history != [] {
      var init := history[..|history| - 1];
      RecordedUnitsBound(init);
      forall i | 0 <= i < |init|
        ensures history[i].unit in RecordedUnits(init)
      {
        assert history[i] == init[i];
      }
    }
  }

  /** In a sound bookkeeping no unit is recorded twice, and a unit is recorded exactly when it is marked ended. */
  lemma {:induction false} SoundDistinct(ended: set<TestUnit>, history: seq<Record>)
    requires Sound(ended, history)
    ensures forall i, j :: 0 <= i < j < |history| ==> history[i].unit != history[j].unit
    ensures forall u :: u in ended <==> Recorded(history, u)
  {
    RecordedUnitsBound(history);
    if history != [] {
      var init := history[..|history| - 1];
      var last := history[|history| - 1].unit;
      RecordedUnitsBound(init);
      assert last !in RecordedUnits(init);
      assert |RecordedUnits(init)| == |init|;
      SoundDistinct(RecordedUnits(init), init);
      forall i | 0 <= i < |init|
        ensures history[i].unit != last
      {
        assert history[i] == init[i];
      }
      forall u | u in ended
        ensures Recorded(history, u)
      {
        if u != last {
          var i :| 0 <= i < |init| && init[i].unit == u;
          assert history[i].unit == u;
        } else {
          assert history[|history| - 1].unit == u;
        }
      }
    }
  }

  /** A yielded unit that has not ended yet counts for itself and for the retries it can still cause. */
  function Share(u: TestUnit): nat {
    1 + 3 * Spawn(u.Value())
  }

  /** The work the yielded units not yet ended still hold. */
  function InFlight(us: seq<TestUnit>, ended: set<TestUnit>): nat {
    if us == [] then 0
    else InFlight(us[..|us| - 1], ended) + (if us[|us| - 1] in ended then 0 else Share(us[|us| - 1]))
  }

  /** Marking a unit ended never adds work in flight. */
  lemma {:induction false} InFlightMono(us: seq<TestUnit>, ended: set<TestUnit>, u: TestUnit)
    ensures InFlight(us, ended + {u}) <= InFlight(us, ended)
  {
    if us != [] {
      InFlightMono(us[..|us| - 1], ended, u);
    }
  }

  /** Ending a yielded unit not ended before takes its share off the work in flight. */
  lemma {:induction false} InFlightEnd(us: seq<TestUnit>, ended: set<TestUnit>, u: TestUnit)
    requires u in us && u !in ended
    ensures InFlight(us, ended + {u}) + Share(u) <= InFlight(us, ended)
  {
    var n := |us| - 1;
    if us[n] == u {
      InFlightMono(us[..n], ended, u);
    } else {
      assert u in us[..n] by {
        var i :| 0 <= i < |us| && us[i] == u;
        assert us[..n][i] == u;
      }
      InFlightEnd(us[..n], ended, u);
    }
  }

  /** A newly yielded unit adds its share to the work in flight. */
  lemma InFlightAppend(us: seq<TestUnit>, ended: set<TestUnit>, x: TestUnit)
    requires x !in ended
    ensures InFlight(us + [x], ended) == InFlight(us, ended) + Share(x)
  {
    assert (us + [x])[..|us|] == us;
  }

  /** Recording the end of a unit not marked ended keeps the bookkeeping sound. */
  lemma SoundEnd(ended: set<TestUnit>, history: seq<Record>, u: TestUnit, r: TestResult)
    requires Sound(ended, history) && u !in ended
    ensures Sound(ended + {u}, history + [Record(u, r)])
  {
    assert (history + [Record(u, r)])[..|history|] == history;
  }

  /** The `runResult` of a run. */
  class RunResult {
    const name: string
    const testsInSuite: nat
    var counters: Counters
    var testsInRun: nat
    var runStatus: RunStatus
    var tapOutput: string
    var filterTestErrors: seq<FilterTestError>
    var onSuiteStartErrors: seq<Thrown>
    var onSuiteEndErrors: seq<Thrown>
    var onTestStartErrors: seq<TestStartError>
    var onTestEndErrors: seq<TestEndError>
    /** Every unit end recorded so far, in order. */
    ghost var history: seq<Record>
    /** The events given to `onTestEnd` so far, in order. */
    ghost var endEvents: seq<TestEndEvent>

    ghost predicate Valid()
      reads this`counters, this`testsInRun, this`runStatus, this`history
    {
      && counters == Tally(history)
      && testsInRun == |history|
      && (runStatus.InterruptedBy? || runStatus == RunVerdict(history))
    }

    /** `getInitialRunResult` */
    constructor (name: string, testsInSuite: nat)
      ensures Valid() && history == [] && endEvents == []
      ensures this.name == name && this.testsInSuite == testsInSuite
      ensures runStatus == RunPassed && counters == ZeroCounters && testsInRun == 0
      ensures tapOutput == Tap.InitialTapOutput(name)
      ensures filterTestErrors == [] && onSuiteStartErrors == [] && onSuiteEndErrors == []
      ensures onTestStartErrors == [] && onTestEndErrors == []
    {
      this.name := name;
      this.testsInSuite := testsInSuite;
      counters := ZeroCounters;
      testsInRun := 0;
      runStatus := RunPassed;
      tapOutput := Tap.InitialTapOutput(name);
      filterTestErrors := [];
      onSuiteStartErrors := [];
      onSuiteEndErrors := [];
      onTestStartErrors := [];
      onTestEndErrors := [];
      history := [];
      endEvents := [];
    }

    /** `this.runResult.runStatus = runStatus` when a run is interrupted: whatever the results, the run status names the cause. */
    method MarkInterrupted(c: Cause)
      requires Valid()
      modifies this`runStatus
      ensures Valid() && runStatus == InterruptedBy(c)
    {
      runStatus := InterruptedBy(c);
    }

    /** `updateRunResult`: counts the result and fails a passing run on a failure of a test that is not `todo`. */
    method Update(unit: TestUnit, result: TestResult)
      requires Valid()
      modifies this`counters, this`testsInRun, this`runStatus, this`history
      ensures Valid()
      ensures history == old(history) + [Record(unit, result)]
      ensures counters == old(counters).Incr(result.status) && testsInRun == old(testsInRun) + 1
      ensures runStatus ==
        if IsFailure(result.status) && old(runStatus) == RunPassed && unit.test.todo == Bool(false) then RunFailed
        else old(runStatus)
    {
      var status := result.status;
      if (status == Failed || status == TimedOut) && runStatus == RunPassed && unit.test.todo == Bool(false) {
        runStatus := RunFailed;
      }
      counters := counters.Incr(status);
      testsInRun := testsInRun + 1;
      history := history + [Record(unit, result)];
      assert history[..|history| - 1] == old(history);
      if !runStatus.InterruptedBy? {
        VerdictSpec(old(history));
        VerdictSpec(history);
      }
    }
  }
}
