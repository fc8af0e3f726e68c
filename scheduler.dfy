/**
 * The runner (`getRunner`): a generator that takes the units `run` pulls,
 * queues them, starts them while fewer tasks than `concurrency` are
 * running, drops the tasks whose `end` handler has run, and on
 * interruption ends whatever it still holds.
 */
module Scheduler {
  import opened Types
  import opened Units
  import opened Results
  import opened Execution

  /** What the runner yields: whether it is at its concurrency limit, and whether it made a `nextTestEnd` promise. */
  datatype Yield = Yield(isAtMax: bool, hasNextTestEnd: bool)

  /** The units of `tasks`, in order. */
  function TaskUnits(tasks: seq<Task>): seq<TestUnit> {
    seq(|tasks|, i requires 0 <= i < |tasks| => tasks[i].unit)
  }

  /** The units the tasks run, as a set: what the tasks' ends may change. */
  function RunUnits(tasks: seq<Task>): set<TestUnit> {
    set t | t in tasks :: t.unit
  }

  /** Some task of `tasks` runs `u`. */
  predicate RunBy(tasks: seq<Task>, u: TestUnit) {
    exists t :: t in tasks && t.unit == u
  }

  /** The units run by the tasks are the units of the tasks. */
  lemma RunByUnits(tasks: seq<Task>, u: TestUnit)
    ensures RunBy(tasks, u) <==> u in TaskUnits(tasks)
  {
    if RunBy(tasks, u) {
      var t :| t in tasks && t.unit == u;
      var i :| 0 <= i < |tasks| && tasks[i] == t;
      assert TaskUnits(tasks)[i] == u;
    }
  }

  /** No unit is queued twice, or both queued and run by a task, and no two tasks run the same unit. */
  predicate Apart(queue: seq<TestUnit>, tasks: seq<Task>) {
    && (forall i, j :: 0 <= i < j < |queue| ==> queue[i] != queue[j])
    && (forall s, t :: s in tasks && t in tasks && s.unit == t.unit ==> s == t)
    && (forall t :: t in tasks ==> t.unit !in queue)
  }

  /** Taking the oldest unit off the queue keeps the units apart, and leaves it out of the rest. */
  lemma ApartPop(queue: seq<TestUnit>, tasks: seq<Task>)
    requires Apart(queue, tasks) && queue != []
    ensures Apart(queue[..|queue| - 1], tasks) && queue[|queue| - 1] !in queue[..|queue| - 1]
  {
    var rest := queue[..|queue| - 1];
    assert forall i :: 0 <= i < |rest| ==> rest[i] == queue[i];
  }

  /** A new task for a unit that is neither queued nor run by a task keeps the units apart. */
  lemma ApartAdd(queue: seq<TestUnit>, tasks: seq<Task>, task: Task)
    requires Apart(queue, tasks) && task.unit !in queue && task !in tasks
    requires forall t :: t in tasks ==> t.unit != task.unit
    ensures Apart(queue, tasks + [task])
  {
    assert forall t :: t in tasks + [task] <==> t in tasks || t == task;
  }

  /** A unit neither queued nor run by a task can go in front of the queue. */
  lemma ApartTake(queue: seq<TestUnit>, tasks: seq<Task>, unit: TestUnit)
    requires Apart(queue, tasks) && unit !in queue && forall t :: t in tasks ==> t.unit != unit
    ensures Apart([unit] + queue, tasks)
  {
    var q := [unit] + queue;
    forall i, j | 0 <= i < j < |q|
      ensures q[i] != q[j]
    {
      if i > 0 {
        assert q[i] == queue[i - 1] && q[j] == queue[j - 1];
      } else {
        assert q[j] in queue;
      }
    }
  }

  /** Every record of `recs` ends one of `units` as interrupted, with no error. */
  predicate InterruptedOf(recs: seq<Record>, units: seq<TestUnit>) {
    forall r :: r in recs ==> r.unit in units && r.result.status == Interrupted && r.result.error.None?
  }

  /** The record of a unit ended as not run in time. */
  function NotRunRecord(u: TestUnit): Record {
    Record(u, TestResult(0, None, false, WasNotRunInTime))
  }

  /** The records of units ended, in order, as not run in time. */
  function NotRun(us: seq<TestUnit>): seq<Record> {
    seq(|us|, k requires 0 <= k < |us| => NotRunRecord(us[k]))
  }

  lemma NotRunStep(us: seq<TestUnit>, i: nat)
    requires i < |us|
    ensures NotRun(us[..i + 1]) == NotRun(us[..i]) + [NotRunRecord(us[i])]
  {
    assert forall k :: 0 <= k < i ==> us[..i + 1][k] == us[..i][k];
  }

  /** `s` back to front. */
  function Reverse<T>(s: seq<T>): seq<T> {
    if s == [] then [] else Reverse(s[1..]) + [s[0]]
  }

  /** Taking the last element off a sequence takes the first off its reverse. */
  lemma {:induction false} ReverseInit<T>(s: seq<T>)
    requires s != []
    ensures Reverse(s) == [s[|s| - 1]] + Reverse(s[..|s| - 1])
  {
    if |s| > 1 {
      var init := s[..|s| - 1];
      ReverseInit(s[1..]);
      assert s[1..][..|s| - 2] == init[1..];
      assert init[0] == s[0];
    }
  }

  /** Taking the oldest unit off the queue moves it to the end of the started ones. */
  lemma FifoPop<T>(taken: seq<T>, started: seq<T>, queue: seq<T>)
    requires queue != [] && taken == started + Reverse(queue)
    ensures taken == (started + [queue[|queue| - 1]]) + Reverse(queue[..|queue| - 1])
  {
    ReverseInit(queue);
    AppendAssoc(started, [queue[|queue| - 1]], Reverse(queue[..|queue| - 1]));
  }

  lemma AppendAssoc<T>(a: seq<T>, b: seq<T>, c: seq<T>)
    ensures a + (b + c) == (a + b) + c
  {
  }

  /** A unit `runTestUnit` accepts: only a unit that is not to be started comes with a status. */
  predicate Startable(u: TestUnit) {
    u.status.Some? ==> IsNotStarted(u.status.value)
  }

  /** The tasks whose `isEnded` is unset, in order. */
  ghost function Unended(tasks: seq<Task>): seq<Task>
    reads tasks`isEnded
  {
    if tasks == [] then []
    else Unended(tasks[..|tasks| - 1]) + (if tasks[|tasks| - 1].isEnded then [] else [tasks[|tasks| - 1]])
  }

  /** Dropping the tasks marked ended keeps exactly the others, and keeps the units apart. */
  lemma {:induction false} UnendedShape(queue: seq<TestUnit>, tasks: seq<Task>)
    ensures |Unended(tasks)| <= |tasks|
    ensures forall t :: t in Unended(tasks) ==> t in tasks && !t.isEnded
    ensures forall t :: t in tasks && !t.isEnded ==> t in Unended(tasks)
    ensures Apart(queue, tasks) ==> Apart(queue, Unended(tasks))
  {
    if tasks != [] {
      var init, last := tasks[..|tasks| - 1], tasks[|tasks| - 1];
      UnendedShape(queue, init);
      assert forall t :: t in tasks <==> t in init || t == last;
    }
  }

  /** `tasks.filter((task) => !task.isEnded)`, in order. */
  method Survivors(tasks: seq<Task>) returns (kept: seq<Task>)
    ensures kept == Unended(tasks)
  {
    kept := [];
    var i := 0;
    while i < |tasks|
      invariant 0 <= i <= |tasks|
      invariant kept == Unended(tasks[..i])
    {
      assert tasks[..i + 1][..i] == tasks[..i];
      if !tasks[i].isEnded {
        kept := kept + [tasks[i]];
      }
      i := i + 1;
    }
    assert tasks[..i] == tasks;
  }

  /** The runner of one run: its queue and its tasks. */
  class Runner {
    const config: RunConfig
    const results: RunResult
    const gen: TestUnits
    /** The tasks started and not yet dropped, in the order they were started. */
    var tasks: seq<Task>
    /** The units taken and not started yet; a new one goes in front, the oldest is taken from the back. */
    var testUnits: seq<TestUnit>
    /** The tasks whose `end` handler has not run yet. */
    ghost var unhandled: set<Task>
    /** The units given to the runner, in the order they were given. */
    ghost var taken: seq<TestUnit>
    /** The units taken off the queue and started, in the order they were started. */
    ghost var started: seq<TestUnit>

    /**
     * The run result, the generator's record of ended units and the end
     * events agree; every queued unit is yielded, not ended and startable;
     * every task runs a yielded unit and is either running or finished, and
     * its handler is still to run exactly while it is not marked ended; and
     * the units were started in the order they were given, the queue
     * holding the rest.
     */
    ghost predicate Valid()
      reads this`tasks, this`testUnits, this`unhandled, this`taken, this`started
      reads results`counters, results`testsInRun, results`runStatus, results`history, results`endEvents
      reads gen`retries, gen`yielded, gen`ended, gen.yielded`isEnded, gen.ended`isEnded, testUnits`isEnded, tasks
    {
      Held() && Apart(testUnits, tasks) && Queued() && Tasked() && Handled() && Ordered() && Bounded()
    }

    /** No more tasks than `concurrency` run at once (a non-positive `concurrency` starts none). */
    ghost predicate Bounded()
      reads this`tasks
    {
      tasks == [] || |tasks| <= config.concurrency
    }

    /** A task's `end` handler is still to run exactly while it is not marked ended. */
    ghost predicate Handled()
      reads this`tasks, this`unhandled, tasks`isEnded
    {
      && (forall t :: t in tasks ==> (t in unhandled <==> !t.isEnded))
      && (forall t :: t in unhandled ==> t in tasks)
    }

    /** The units were started in the order they were given, the queue holding the rest. */
    ghost predicate Ordered()
      reads this`taken, this`started, this`testUnits
    {
      taken == started + Reverse(testUnits)
    }

    /** The run result and the generator's record of ended units agree. */
    ghost predicate Held()
      reads results`counters, results`testsInRun, results`runStatus, results`history
      reads gen`retries, gen`yielded, gen`ended, gen.yielded`isEnded, gen.ended`isEnded
    {
      results.Valid() && Tracked(gen, results)
    }

    /** The end events given to `onTestEnd` are numbered in the order the units ended. */
    ghost predicate Numbers()
      reads results`history, results`endEvents
    {
      Numbered(results, config.onelineTapOutput)
    }

    /** Every queued unit is yielded, not ended and startable. */
    ghost predicate Queued()
      reads this`testUnits, gen`yielded, testUnits`isEnded
    {
      forall i :: 0 <= i < |testUnits| ==> testUnits[i] in gen.yielded && !testUnits[i].isEnded && Startable(testUnits[i])
    }

    /** Every task runs a yielded unit, is running or finished, and its status agrees with how far it got. */
    ghost predicate Tasked()
      reads this`tasks, gen`yielded, gen.yielded`isEnded, tasks
    {
      forall t :: t in tasks ==> t.unit in gen.yielded && (t.Running() || t.Finished()) && t.Coherent()
    }

    /** No task in the list has had its `end` handler run. */
    ghost predicate Live()
      reads this`tasks, tasks`isEnded
    {
      forall t :: t in tasks ==> !t.isEnded
    }

    /** Every unit given to the runner has ended, or is queued, or is run by a task. */
    ghost predicate Covered()
      reads this`taken, this`testUnits, this`tasks, taken`isEnded
    {
      forall u :: u in taken ==> u.isEnded || u in testUnits || RunBy(tasks, u)
    }

    /** Every unit taken has ended or is queued: `Covered` once no task runs a unit not ended. */
    ghost predicate CoveredByQueue()
      reads this`taken, this`testUnits, taken`isEnded
    {
      forall u :: u in taken ==> u.isEnded || u in testUnits
    }

    /** `Covered`, except for `x`: the unit just taken off the queue to start. */
    ghost predicate CoveredBut(x: TestUnit)
      reads this`taken, this`testUnits, this`tasks, taken`isEnded
    {
      forall u :: u in taken && u != x ==> u.isEnded || u in testUnits || RunBy(tasks, u)
    }

    /** What is left to do: the generator's work and its units', the queue, and the handlers still to run. */
    ghost function Potential(): nat
      reads this`testUnits, this`unhandled, gen`retries, gen`testIndex, gen`currentRepeatIndex, gen`yielded, gen`ended
    {
      Work(gen) + |testUnits| + |unhandled|
    }

    /** `getRunner` up to its first `yield`: no task and no queued unit. */
    constructor (config: RunConfig, results: RunResult, gen: TestUnits)
      ensures this.config == config && this.results == results && this.gen == gen
      ensures tasks == [] && testUnits == [] && unhandled == {} && taken == [] && started == []
      ensures results.Valid() && Tracked(gen, results) ==> Valid()
    {
      this.config := config;
      this.results := results;
      this.gen := gen;
      tasks := [];
      testUnits := [];
      unhandled := {};
      taken := [];
      started := [];
    }

    /** After a resumption: drops the tasks whose `end` handler has run. */
    method Cleanup()
      requires Valid()
      modifies this`tasks
      ensures Valid() && Live() && tasks == Unended(old(tasks)) && |tasks| <= |old(tasks)|
      ensures forall i :: 0 <= i < |tasks| ==> !tasks[i].isEnded
      ensures forall t :: t in tasks ==> t in old(tasks)
      ensures Potential() == old(Potential())
      ensures old(Covered()) ==> Covered()
    {
      var kept := Survivors(tasks);
      tasks := kept;
      CleanedKeeps();
    }

    /** Dropping the ended tasks keeps the runner valid, and every unit run by a dropped task has ended. */
    twostate lemma CleanedKeeps()
      requires old(Valid()) && tasks == Unended(old(tasks))
      requires testUnits == old(testUnits) && unhandled == old(unhandled) && taken == old(taken) && started == old(started)
      requires unchanged(results) && unchanged(gen) && forall u :: u in gen.yielded || u in gen.ended ==> unchanged(u)
      requires forall t :: t in old(tasks) ==> unchanged(t) && unchanged(t.unit)
      requires forall i :: 0 <= i < |testUnits| ==> unchanged(testUnits[i])
      requires forall i :: 0 <= i < |taken| ==> unchanged(taken[i])
      ensures Valid() && Live() && |tasks| <= |old(tasks)|
      ensures forall i :: 0 <= i < |tasks| ==> !tasks[i].isEnded
      ensures forall t :: t in tasks ==> t in old(tasks)
      ensures Potential() == old(Potential())
      ensures old(Covered()) ==> Covered()
    {
      UnendedShape(testUnits, old(tasks));
      forall u | u in taken && !u.isEnded && RunBy(old(tasks), u)
        ensures RunBy(tasks, u)
      {
        var t :| t in old(tasks) && t.unit == u;
        assert t in tasks;
      }
    }

    /** Takes the oldest unit off the queue. */
    method Pop() returns (unit: TestUnit)
      requires Valid() && |testUnits| > 0
      modifies this`testUnits, this`started
      ensures Valid()
      ensures unit == old(testUnits[|testUnits| - 1]) && testUnits == old(testUnits[..|testUnits| - 1])
      ensures started == old(started) + [unit]
      ensures unit in gen.yielded && !unit.isEnded && Startable(unit)
      ensures unit !in testUnits && forall t :: t in tasks ==> t.unit != unit
      ensures Potential() + 1 == old(Potential())
      ensures old(Covered()) ==> CoveredBut(unit)
    {
      ApartPop(testUnits, tasks);
      FifoPop(taken, started, testUnits);
      unit := testUnits[|testUnits| - 1];
      testUnits := testUnits[..|testUnits| - 1];
      started := started + [unit];
    }

    /** `runTestUnit` as the runner sees it: a unit neither queued nor run by a task leaves the others as they were. */
    method Start(unit: TestUnit) returns (task: Task?)
      requires Held() && unit in gen.yielded && !unit.isEnded && Startable(unit)
      requires unit !in testUnits && forall t :: t in tasks ==> t.unit != unit
      modifies results`counters, results`testsInRun, results`runStatus, results`history, results`endEvents, results`onTestStartErrors, results`onTestEndErrors
      modifies gen`retries, gen`ended, unit`isEnded
      ensures Held()
      ensures old(Queued()) ==> Queued()
      ensures old(Tasked()) ==> Tasked()
      ensures old(Live()) ==> Live()
      ensures task == null ==> unit.isEnded && Work(gen) < old(Work(gen))
      ensures task != null ==> fresh(task) && task.unit == unit && task.Running() && Work(gen) <= old(Work(gen))
      ensures old(Numbers()) ==> Numbers()
    {
      assert gen.Mirrors();
      task := RunTestUnit(config, results, gen, unit);
      StartedKeeps(unit);
    }

    /** Starting a unit neither queued nor run by a task leaves the queue and the tasks as they were. */
    twostate lemma StartedKeeps(unit: TestUnit)
      requires unchanged(this) && gen.yielded == old(gen.yielded)
      requires unit !in testUnits && forall t :: t in tasks ==> t.unit != unit
      requires forall t :: t in tasks ==> unchanged(t) && (t.unit != unit ==> unchanged(t.unit))
      requires forall i :: 0 <= i < |testUnits| ==> testUnits[i] != unit ==> unchanged(testUnits[i])
      ensures old(Queued()) ==> Queued()
      ensures old(Tasked()) ==> Tasked()
      ensures old(Live()) ==> Live()
    {
      forall t | t in tasks
        ensures t.Running() == old(t.Running()) && t.Finished() == old(t.Finished())
      {
        assert t.unit.isEnded == old(t.unit.isEnded);
      }
    }

    /** Adds the task a started unit left. */
    method Push(task: Task)
      requires Valid() && Live() && task.Running() && task.unit in gen.yielded && |tasks| < config.concurrency
      requires task !in tasks && task.unit !in testUnits && forall t :: t in tasks ==> t.unit != task.unit
      modifies this`tasks, this`unhandled
      ensures Valid() && Live() && tasks == old(tasks) + [task]
      ensures Potential() == old(Potential()) + 1
    {
      ApartAdd(testUnits, tasks, task);
      assert task !in unhandled;
      tasks, unhandled := tasks + [task], unhandled + {task};
      PushedKeeps(task);
    }

    /** Adding a running task, and making its `end` handler due, keeps the runner valid. */
    twostate lemma PushedKeeps(task: Task)
      requires old(Valid()) && old(Live()) && task.Running() && task.unit in gen.yielded && old(|tasks|) < config.concurrency
      requires task !in old(tasks) && task !in old(unhandled) && Apart(testUnits, tasks)
      requires tasks == old(tasks) + [task] && unhandled == old(unhandled) + {task}
      requires testUnits == old(testUnits) && taken == old(taken) && started == old(started)
      requires unchanged(results) && unchanged(gen) && unchanged(tasks) && unchanged(testUnits)
      requires forall t :: t in tasks ==> unchanged(t.unit)
      requires forall u :: u in gen.yielded || u in gen.ended ==> unchanged(u)
      ensures Valid() && Live()
    {
      assert Live();
      assert Handled();
      assert Tasked();
    }

    /**
     * One start from the queue: the oldest queued unit is run, and the task
     * it leaves, if its body returned a thenable, is added.
     */
    method Launch() returns (task: Task?)
      requires Valid() && Live() && |testUnits| > 0 && |tasks| < config.concurrency
      modifies this`tasks, this`testUnits, this`unhandled, this`started
      modifies results`counters, results`testsInRun, results`runStatus, results`history, results`endEvents, results`onTestStartErrors, results`onTestEndErrors
      modifies gen`retries, gen`ended, gen.yielded`isEnded
      ensures Valid() && Live()
      ensures old(Numbers()) ==> Numbers()
      ensures testUnits == old(testUnits[..|testUnits| - 1]) && started == old(started) + [old(testUnits[|testUnits| - 1])]
      ensures task == null ==> tasks == old(tasks)
      ensures task != null ==> tasks == old(tasks) + [task] && task.unit == old(testUnits[|testUnits| - 1]) && fresh(task)
      ensures Potential() <= old(Potential())
      ensures old(Covered()) ==> Covered()
    {
      ghost var covered := Covered();
      var unit := Pop();
      task := Begin(unit, covered);
    }

    /** Runs the unit just taken off the queue, and adds the task it leaves, if any. */
    method Begin(unit: TestUnit, ghost covered: bool) returns (task: Task?)
      requires Valid() && Live() && |tasks| < config.concurrency
      requires unit in gen.yielded && !unit.isEnded && Startable(unit)
      requires unit !in testUnits && forall t :: t in tasks ==> t.unit != unit
      requires covered ==> CoveredBut(unit)
      modifies this`tasks, this`unhandled
      modifies results`counters, results`testsInRun, results`runStatus, results`history, results`endEvents, results`onTestStartErrors, results`onTestEndErrors
      modifies gen`retries, gen`ended, unit`isEnded
      ensures Valid() && Live()
      ensures old(Numbers()) ==> Numbers()
      ensures task == null ==> tasks == old(tasks)
      ensures task != null ==> tasks == old(tasks) + [task] && task.unit == unit && fresh(task)
      ensures Potential() <= old(Potential()) + 1
      ensures covered ==> Covered()
    {
      task := Start(unit);
      if task != null {
        Push(task);
      }
      if covered {
        BegunCovers(unit, task);
      }
    }

    /** After `Begin`: a unit covered before is still covered, and the unit begun is ended or run by its task. */
    twostate lemma BegunCovers(unit: TestUnit, new task: Task?)
      requires old(CoveredBut(unit)) && taken == old(taken) && testUnits == old(testUnits)
      requires task == null ==> tasks == old(tasks)
      requires task != null ==> tasks == old(tasks) + [task] && task.unit == unit
      requires forall u :: u in old(taken) && old(u.isEnded) ==> u.isEnded
      requires task == null ==> unit.isEnded
      ensures Covered()
    {
      forall u | u in taken
        ensures u.isEnded || u in testUnits || RunBy(tasks, u)
      {
        if u == unit {
          if task != null {
            assert task in tasks;
          }
        } else if RunBy(old(tasks), u) {
          var t :| t in old(tasks) && t.unit == u;
          assert t in tasks;
        }
      }
    }

    /** `testUnits.unshift(unit)`: a unit the run gives goes in front of the queue. */
    method Take(unit: TestUnit)
      requires Valid() && Live() && unit in gen.yielded && !unit.isEnded && Startable(unit)
      requires unit !in testUnits && forall t :: t in tasks ==> t.unit != unit
      modifies this`testUnits, this`taken
      ensures Valid() && Live() && testUnits == [unit] + old(testUnits) && taken == old(taken) + [unit]
      ensures Potential() == old(Potential()) + 1
      ensures old(Covered()) ==> Covered()
    {
      ApartTake(testUnits, tasks, unit);
      assert ([unit] + testUnits)[1..] == testUnits;
      testUnits := [unit] + testUnits;
      taken := taken + [unit];
    }

    /** The launching loop of `getRunner`: starts queued units, oldest first, while fewer tasks than `concurrency` run. */
    method Fill()
      requires Valid() && Live()
      modifies this`tasks, this`testUnits, this`unhandled, this`started
      modifies results`counters, results`testsInRun, results`runStatus, results`history, results`endEvents, results`onTestStartErrors, results`onTestEndErrors
      modifies gen`retries, gen`ended, gen.yielded`isEnded
      ensures Valid() && Live()
      ensures old(Numbers()) ==> Numbers()
      ensures |tasks| >= config.concurrency || testUnits == []
      ensures |started| + |testUnits| == old(|started| + |testUnits|) && taken == old(taken)
      ensures Potential() <= old(Potential())
      ensures old(Covered()) ==> Covered()
      ensures forall t :: t in tasks ==> t in old(tasks) || fresh(t)
    {
      while |tasks| < config.concurrency && |testUnits| > 0
        invariant Valid() && Live()
        invariant old(Numbers()) ==> Numbers()
        invariant |started| + |testUnits| == old(|started| + |testUnits|)
        invariant Potential() <= old(Potential())
        invariant old(Covered()) ==> Covered()
        invariant forall t :: t in tasks ==> t in old(tasks) || fresh(t)
        decreases |testUnits|
      {
        var _ := Launch();
      }
    }

    method InterruptTasks() returns (ghost recs: seq<Record>)
      requires Held() && Apart(testUnits, tasks) && Queued() && Tasked()
      modifies tasks`timerCleared
      modifies results`counters, results`testsInRun, results`runStatus, results`history, results`endEvents, results`onTestStartErrors, results`onTestEndErrors
      modifies gen`retries, gen`ended, RunUnits(tasks)`isEnded
      ensures Held() && Queued() && results.runStatus == old(results.runStatus)
      ensures forall i :: 0 <= i < |tasks| ==> tasks[i].timerCleared && tasks[i].unit.isEnded
      ensures results.history == old(results.history) + recs && InterruptedOf(recs, TaskUnits(tasks)) && |recs| <= |tasks|
      ensures old(Numbers()) ==> Numbers()
      ensures old(Covered()) ==> CoveredByQueue()
    {
      ghost var covered := Covered();
      ghost var h0, units := results.history, TaskUnits(tasks);
      recs := [];
      var ts, i := tasks, 0;
      while i < |ts|
        invariant 0 <= i <= |ts| && Held() && Queued() && results.runStatus == old(results.runStatus)
        invariant forall k :: 0 <= k < i ==> ts[k].timerCleared && ts[k].unit.isEnded
        invariant results.history == h0 + recs && InterruptedOf(recs, units) && |recs| <= i
        invariant old(Numbers()) ==> Numbers()
      {
        var duration: nat :| true;
        assert units[i] == ts[i].unit;
        recs := InterruptAt(ts, i, duration, units, h0, recs);
        i := i + 1;
      }
      if covered {
        forall u | u in taken
          ensures u.isEnded || u in testUnits
        {
          RunByUnits(tasks, u);
          if u !in units && u !in testUnits {
            assert old(u.isEnded);
          }
        }
      }
    }

    /** One step of the epilogue's first loop: the `i`-th task is interrupted, and the earlier ones stay so. */
    method InterruptAt(ts: seq<Task>, i: nat, duration: nat, ghost units: seq<TestUnit>, ghost h0: seq<Record>, ghost recs: seq<Record>)
      returns (ghost recs': seq<Record>)
      requires i < |ts| && Held() && Queued() && ts[i].unit !in testUnits && ts[i].unit in gen.yielded
      requires units == TaskUnits(ts)
      requires forall k :: 0 <= k < i ==> ts[k].timerCleared && ts[k].unit.isEnded
      requires results.history == h0 + recs && InterruptedOf(recs, units)
      modifies ts`timerCleared
      modifies results`counters, results`testsInRun, results`runStatus, results`history, results`endEvents, results`onTestStartErrors, results`onTestEndErrors
      modifies gen`retries, gen`ended, ts[i].unit`isEnded
      ensures Held() && Queued() && results.runStatus == old(results.runStatus)
      ensures forall k :: 0 <= k < i + 1 ==> ts[k].timerCleared && ts[k].unit.isEnded
      ensures results.history == h0 + recs' && InterruptedOf(recs', units) && |recs'| <= |recs| + 1
      ensures old(Numbers()) ==> Numbers()
    {
      assert units[i] == ts[i].unit;
      recs' := recs;
      if !ts[i].unit.isEnded {
        recs' := recs + [Record(ts[i].unit, TestResult(duration, None, false, Interrupted))];
      }
      label Before:
      InterruptTask(ts[i], duration);
      forall k | 0 <= k < i
        ensures ts[k].timerCleared && ts[k].unit.isEnded
      {
        assert old@Before(ts[k].timerCleared && ts[k].unit.isEnded);
      }
    }

    /** `clear()` and `endTest` with status `interrupted` for one task, whose unit is not queued. */
    method InterruptTask(task: Task, duration: nat)
      requires Held() && Queued() && task.unit !in testUnits && task.unit in gen.yielded
      modifies task`timerCleared
      modifies results`counters, results`testsInRun, results`runStatus, results`history, results`endEvents, results`onTestStartErrors, results`onTestEndErrors
      modifies gen`retries, gen`ended, task.unit`isEnded
      ensures Held() && Queued() && task.timerCleared && task.unit.isEnded
      ensures results.runStatus == old(results.runStatus)
      ensures old(task.unit.isEnded) ==> results.history == old(results.history)
      ensures !old(task.unit.isEnded) ==> results.history == old(results.history) + [Record(task.unit, TestResult(duration, None, false, Interrupted))]
      ensures old(Numbers()) ==> Numbers()
    {
      task.Clear();
      EndTest(config, results, gen, task.unit, InterruptedAfter(duration));
    }

    /** `endTest` with status `wasNotRunInTime` for a unit not ended. */
    method DropOne(unit: TestUnit)
      requires Held() && !unit.isEnded && unit in gen.yielded
      modifies results`counters, results`testsInRun, results`runStatus, results`history, results`endEvents, results`onTestStartErrors, results`onTestEndErrors
      modifies gen`retries, gen`ended, unit`isEnded
      ensures Held() && unit.isEnded && results.history == old(results.history) + [NotRunRecord(unit)]
      ensures gen.retries == old(gen.retries) && results.runStatus == old(results.runStatus)
      ensures old(Numbers()) ==> Numbers()
    {
      EndTest(config, results, gen, unit, Unstarted(WasNotRunInTime));
    }

    /** The epilogue's second loop: each queued unit, front first, ends as not run in time. */
    method DropQueue()
      requires Held() && Queued() && Apart(testUnits, [])
      modifies results`counters, results`testsInRun, results`runStatus, results`history, results`endEvents, results`onTestStartErrors, results`onTestEndErrors
      modifies gen`retries, gen`ended, testUnits`isEnded
      ensures Held() && results.runStatus == old(results.runStatus)
      ensures results.history == old(results.history) + NotRun(testUnits)
      ensures forall i :: 0 <= i < |testUnits| ==> testUnits[i].isEnded
      ensures old(Numbers()) ==> Numbers()
      ensures old(CoveredByQueue()) ==> forall u :: u in taken ==> u.isEnded
    {
      ghost var covered := CoveredByQueue();
      ghost var h0 := results.history;
      var queue, i := testUnits, 0;
      while i < |queue|
        invariant 0 <= i <= |queue| && Held() && results.runStatus == old(results.runStatus)
        invariant results.history == h0 + NotRun(queue[..i])
        invariant forall k :: 0 <= k < |queue| ==> (queue[k].isEnded <==> k < i)
        invariant old(Numbers()) ==> Numbers()
      {
        DropAt(queue, i, h0);
        i := i + 1;
      }
      assert queue[..i] == queue;
      if covered {
        forall u | u in taken
          ensures u.isEnded
        {
          if u !in queue {
            assert old(u.isEnded);
          }
        }
      }
    }

    /** One step of the epilogue's second loop: the `i`-th queued unit ends, and no other. */
    method DropAt(queue: seq<TestUnit>, i: nat, ghost h0: seq<Record>)
      requires i < |queue| && Held() && forall a, b :: 0 <= a < b < |queue| ==> queue[a] != queue[b]
      requires forall k :: 0 <= k < |queue| ==> queue[k] in gen.yielded
      requires results.history == h0 + NotRun(queue[..i])
      requires forall k :: 0 <= k < |queue| ==> (queue[k].isEnded <==> k < i)
      modifies results`counters, results`testsInRun, results`runStatus, results`history, results`endEvents, results`onTestStartErrors, results`onTestEndErrors
      modifies gen`retries, gen`ended, queue`isEnded
      ensures Held() && results.history == h0 + NotRun(queue[..i + 1]) && results.runStatus == old(results.runStatus)
      ensures forall k :: 0 <= k < |queue| ==> (queue[k].isEnded <==> k < i + 1)
      ensures old(Numbers()) ==> Numbers()
    {
      DropOne(queue[i]);
      forall k | 0 <= k < |queue| && k != i
        ensures queue[k].isEnded == old(queue[k].isEnded)
      {
        assert queue[k] != queue[i];
      }
      NotRunStep(queue, i);
    }

    /** `this.runResult.runStatus = runStatus`: the run is marked interrupted, and the runner stays as it was. */
    method MarkInterrupted(c: Cause)
      requires Valid()
      modifies results`runStatus
      ensures Valid() && results.runStatus == InterruptedBy(c)
      ensures old(Numbers()) ==> Numbers()
      ensures old(Covered()) ==> Covered()
    {
      results.MarkInterrupted(c);
    }

    /**
     * `runner.next('interrupted')`: drops the tasks whose handler has run,
     * ends every other task's unit as interrupted and every queued unit,
     * front first, as not run in time, and returns.
     */
    method Stop() returns (ghost recs: seq<Record>)
      requires Valid()
      modifies this`tasks, tasks`timerCleared
      modifies results`counters, results`testsInRun, results`runStatus, results`history, results`endEvents, results`onTestStartErrors, results`onTestEndErrors
      modifies gen`retries, gen`ended, RunUnits(tasks)`isEnded, testUnits`isEnded
      ensures Held() && results.runStatus == old(results.runStatus)
      ensures forall i :: 0 <= i < |tasks| ==> tasks[i].unit.isEnded
      ensures forall i :: 0 <= i < |testUnits| ==> testUnits[i].isEnded
      ensures results.history == old(results.history) + recs + NotRun(testUnits) && InterruptedOf(recs, TaskUnits(tasks)) && |recs| <= |old(tasks)|
      ensures old(Numbers()) ==> Numbers()
      ensures old(Covered()) ==> forall u :: u in taken ==> u.isEnded
      ensures forall t :: t in tasks ==> t in old(tasks)
    {
      Cleanup();
      recs := Halt();
    }

    /** The part of `run` after its loop, once the finished tasks are dropped: running tasks are interrupted, then queued units end as not run. */
    method Halt() returns (ghost recs: seq<Record>)
      requires Held() && Apart(testUnits, tasks) && Queued() && Tasked()
      modifies tasks`timerCleared
      modifies results`counters, results`testsInRun, results`runStatus, results`history, results`endEvents, results`onTestStartErrors, results`onTestEndErrors
      modifies gen`retries, gen`ended, RunUnits(tasks)`isEnded, testUnits`isEnded
      ensures Held() && results.runStatus == old(results.runStatus)
      ensures forall i :: 0 <= i < |tasks| ==> tasks[i].unit.isEnded
      ensures forall i :: 0 <= i < |testUnits| ==> testUnits[i].isEnded
      ensures results.history == old(results.history) + recs + NotRun(testUnits) && InterruptedOf(recs, TaskUnits(tasks)) && |recs| <= |tasks|
      ensures old(Numbers()) ==> Numbers()
      ensures old(Covered()) ==> forall u :: u in taken ==> u.isEnded
    {
      recs := InterruptTasks();
      DropQueue();
    }

    /** The first part of `runner.next(unit)`: drops the tasks whose handler has run and queues the unit if there is one. */
    method Receive(unit: Option<TestUnit>)
      requires Valid()
      requires unit.Some? ==> unit.value in gen.yielded && !unit.value.isEnded && Startable(unit.value)
      requires unit.Some? ==> unit.value !in testUnits && forall t :: t in tasks ==> t.unit != unit.value
      modifies this`tasks, this`testUnits, this`taken
      ensures Valid() && Live()
      ensures unit.Some? ==> taken == old(taken) + [unit.value]
      ensures unit.None? ==> taken == old(taken)
      ensures Potential() == old(Potential()) + (if unit.Some? then 1 else 0)
      ensures old(Numbers()) ==> Numbers()
      ensures old(Covered()) ==> Covered()
      ensures forall t :: t in tasks ==> t in old(tasks)
    {
      Cleanup();
      if unit.Some? {
        Take(unit.value);
      }
    }

    /**
     * `runner.next(unit)` with a unit or `undefined`: drops the tasks whose
     * handler has run, queues the unit if there is one, starts queued units
     * while below `concurrency`, and yields whether it is at the limit and
     * whether any task is running.
     */
    method Resume(unit: Option<TestUnit>) returns (y: Yield)
      requires Valid()
      requires unit.Some? ==> unit.value in gen.yielded && !unit.value.isEnded && Startable(unit.value)
      requires unit.Some? ==> unit.value !in testUnits && forall t :: t in tasks ==> t.unit != unit.value
      modifies this`tasks, this`testUnits, this`unhandled, this`started, this`taken
      modifies results`counters, results`testsInRun, results`runStatus, results`history, results`endEvents, results`onTestStartErrors, results`onTestEndErrors
      modifies gen`retries, gen`ended, gen.yielded`isEnded
      ensures Valid() && Live()
      ensures y == Yield(|tasks| >= config.concurrency, tasks != [])
      ensures config.concurrency >= 1 && y.isAtMax ==> y.hasNextTestEnd
      ensures !y.isAtMax ==> testUnits == []
      ensures unit.Some? ==> taken == old(taken) + [unit.value]
      ensures unit.None? ==> taken == old(taken)
      ensures Potential() <= old(Potential()) + (if unit.Some? then 1 else 0)
      ensures old(Numbers()) ==> Numbers()
      ensures old(Covered()) ==> Covered()
      ensures forall t :: t in tasks ==> t in old(tasks) || fresh(t)
    {
      Cleanup();
      if unit.Some? {
        Take(unit.value);
      }
      Fill();
      y := Yield(|tasks| >= config.concurrency, tasks != []);
    }

    /**
     * Units start in the order they were given: the started ones are the
     * first ones given, and the next to start is the oldest one queued.
     */
    lemma StartedInOrder()
      requires Ordered()
      ensures |started| <= |taken| && started == taken[..|started|]
      ensures testUnits != [] ==> |started| < |taken| && testUnits[|testUnits| - 1] == taken[|started|]
    {
      if testUnits != [] {
        ReverseInit(testUnits);
      }
    }

    /**
     * An event while `run` awaits: the body of a running task resolves or
     * rejects, or its timer fires first. The unit ends and the task's `end`
     * handler becomes due.
     */
    method Settle(t: Task)
      requires Valid() && t in tasks && t.Running()
      modifies t`onEndSpent, t`status, t`timerCleared, t`settled, t`error, t`hasError
      modifies results`counters, results`testsInRun, results`runStatus, results`history, results`endEvents, results`onTestStartErrors, results`onTestEndErrors
      modifies gen`retries, gen`ended, t.unit`isEnded
      ensures Valid() && t.Finished() && !t.isEnded
      ensures Potential() < old(Potential())
      ensures old(Numbers()) ==> Numbers()
      ensures old(Covered()) ==> Covered()
    {
      t.Settle(config, results, gen);
      SettledKeeps(t);
    }

    /** Settling one task keeps the runner valid: only that task and its unit changed. */
    twostate lemma SettledKeeps(t: Task)
      requires old(Valid()) && t in tasks && unchanged(this)
      requires Held() && t.Finished() && t.Coherent() && !t.isEnded && !old(t.isEnded) && gen.yielded == old(gen.yielded)
      requires forall s :: s in tasks && s != t ==> unchanged(s) && unchanged(s.unit)
      requires forall i :: 0 <= i < |testUnits| ==> unchanged(testUnits[i])
      requires forall i :: 0 <= i < |taken| && taken[i] != t.unit ==> unchanged(taken[i])
      ensures Valid()
      ensures old(Covered()) ==> Covered()
    {
    }

    /** The `end` handler of a task whose `onEnd` has run: the task is marked ended, which resolves `nextTestEnd`. */
    method HandleEnd(t: Task)
      requires Valid() && t in unhandled && t.onEndSpent
      modifies t`isEnded, this`unhandled
      ensures Valid() && t.isEnded && unhandled == old(unhandled) - {t}
      ensures Potential() < old(Potential())
      ensures old(Numbers()) ==> Numbers()
      ensures old(Covered()) ==> Covered()
    {
      t.Handle();
      unhandled := unhandled - {t};
      HandledKeeps(t);
    }

    /** The generator going on to its next unit keeps the runner valid: what it yielded stays yielded, and nothing else changed. */
    twostate lemma PulledKeeps()
      requires old(Valid()) && unchanged(this) && unchanged(results) && unchanged(tasks)
      requires gen.Mirrors() && gen.Confined() && gen.ended == old(gen.ended) && old(gen.yielded) <= gen.yielded
      requires forall s :: s in tasks ==> unchanged(s.unit)
      requires forall i :: 0 <= i < |testUnits| ==> unchanged(testUnits[i])
      requires forall i :: 0 <= i < |taken| ==> unchanged(taken[i])
      ensures Valid()
      ensures old(Numbers()) ==> Numbers()
      ensures old(Covered()) ==> Covered()
    {
    }

    /** Running one task's `end` handler keeps the runner valid: only that task and the set of due handlers changed. */
    twostate lemma HandledKeeps(t: Task)
      requires old(Valid()) && t in old(unhandled) && old(t.onEndSpent)
      requires Held() && t.isEnded && unhandled == old(unhandled) - {t} && gen.yielded == old(gen.yielded)
      requires tasks == old(tasks) && testUnits == old(testUnits) && taken == old(taken) && started == old(started)
      requires unchanged(t`onEndSpent, t`timerCleared, t`settled, t`status)
      requires forall s :: s in tasks && s != t ==> unchanged(s)
      requires forall s :: s in tasks ==> unchanged(s.unit)
      requires forall i :: 0 <= i < |testUnits| ==> unchanged(testUnits[i])
      requires forall i :: 0 <= i < |taken| ==> unchanged(taken[i])
      ensures Valid()
      ensures old(Covered()) ==> Covered()
    {
    }

    /** The tasks whose body has not settled yet. */
    ghost function Unsettled(): set<Task>
      reads this`tasks, tasks`settled
    {
      set t | t in tasks && !t.settled
    }

    /**
     * A body that settles after its timer fired, while its task is still
     * held: `endTest` finds the unit ended, so the run result, the
     * generator and the work left stay as they were.
     */
    method SettleLate(t: Task)
      requires Valid() && Live() && t in tasks && t.onEndSpent && !t.settled
      modifies t`onEndSpent, t`status, t`timerCleared, t`settled, t`error, t`hasError
      modifies results`counters, results`testsInRun, results`runStatus, results`history, results`endEvents, results`onTestStartErrors, results`onTestEndErrors
      modifies gen`retries, gen`ended, t.unit`isEnded
      ensures Valid() && Live() && t.settled
      ensures unchanged(results) && Potential() == old(Potential()) && Unsettled() < old(Unsettled())
      ensures old(Numbers()) ==> Numbers()
      ensures old(Covered()) ==> Covered()
    {
      t.LateSettle(config, results, gen);
      assert unchanged(t.unit) && unchanged(gen);
      LateKeeps(t);
    }

    /** A late settle keeps the runner valid: only that task's closure variables changed. */
    twostate lemma LateKeeps(t: Task)
      requires old(Valid()) && old(Live()) && t in tasks && unchanged(this) && unchanged(results) && unchanged(gen) && Held()
      requires t.Finished() && t.Coherent() && t.settled && !old(t.settled) && t.isEnded == old(t.isEnded)
      requires forall s :: s in tasks && s != t ==> unchanged(s)
      requires forall s :: s in tasks ==> unchanged(s.unit)
      requires forall i :: 0 <= i < |testUnits| ==> unchanged(testUnits[i])
      requires forall i :: 0 <= i < |taken| ==> unchanged(taken[i])
      ensures Valid() && Live()
      ensures Potential() == old(Potential()) && Unsettled() < old(Unsettled())
      ensures old(Numbers()) ==> Numbers()
      ensures old(Covered()) ==> Covered()
    {
      forall s | s in Unsettled()
        ensures s in old(Unsettled())
      {
      }
      assert t in old(Unsettled()) && t !in Unsettled();
    }

    /**
     * One event among the tasks while `run` awaits: a running task settles;
     * or the body of a task whose timer fired settles late; or a finished
     * task's `end` handler runs, which resolves `nextTestEnd`.
     */
    method NextEvent() returns (resolved: bool)
      requires Valid() && Live() && tasks != []
      modifies this`unhandled, tasks`isEnded, tasks`onEndSpent, tasks`status, tasks`timerCleared, tasks`settled, tasks`error, tasks`hasError
      modifies results`counters, results`testsInRun, results`runStatus, results`history, results`endEvents, results`onTestStartErrors, results`onTestEndErrors
      modifies gen`retries, gen`ended, gen.yielded`isEnded
      ensures Valid() && Potential() <= old(Potential())
      ensures Potential() < old(Potential()) || (!resolved && Unsettled() < old(Unsettled()))
      ensures !resolved ==> Live()
      ensures old(Numbers()) ==> Numbers()
      ensures old(Covered()) ==> Covered()
    {
      assert tasks[0] in tasks;
      var t :| t in tasks;
      var late: bool :| true;
      if !t.onEndSpent {
        Settle(t);
        resolved := false;
      } else if late && !t.settled {
        SettleLate(t);
        resolved := false;
      } else {
        HandleEnd(t);
        resolved := true;
      }
    }

    /**
     * `await Promise.race([interruptionPromise, nextTestEnd])`: tasks settle
     * until one task's `end` handler has run, unless a cause to interrupt
     * the run comes first: the run timeout, or the abort of a signal that
     * was not aborted when the run started.
     */
    method Await() returns (cause: Option<Cause>)
      requires Valid() && Live() && tasks != []
      modifies this`unhandled, tasks`isEnded, tasks`onEndSpent, tasks`status, tasks`timerCleared, tasks`settled, tasks`error, tasks`hasError
      modifies results`counters, results`testsInRun, results`runStatus, results`history, results`endEvents, results`onTestStartErrors, results`onTestEndErrors
      modifies gen`retries, gen`ended, gen.yielded`isEnded
      ensures Valid() && Potential() <= old(Potential())
      ensures cause.None? ==> Potential() < old(Potential())
      ensures cause.Some? ==> cause.value == Timeout || (cause.value == Signal && config.signal == Some(false))
      ensures old(Numbers()) ==> Numbers()
      ensures old(Covered()) ==> Covered()
    {
      cause := None;
      var done := false;
      while !done
        invariant Valid() && Potential() <= old(Potential())
        invariant !done ==> cause.None? && Live()
        invariant done && cause.None? ==> Potential() < old(Potential())
        invariant cause.Some? ==> cause.value == Timeout || (cause.value == Signal && config.signal == Some(false))
        invariant old(Numbers()) ==> Numbers()
        invariant old(Covered()) ==> Covered()
        decreases !done, Potential(), Unsettled()
      {
        if * {
          var c: Cause :| c == Timeout || (c == Signal && config.signal == Some(false));
          cause := Some(c);
          done := true;
        } else {
          done := NextEvent();
        }
      }
    }
  }
}
