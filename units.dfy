/**
 * The test units of a run: which tests are selected, the `getTestUnits`
 * generator that yields one unit per repeat, retry or skip, and its retry
 * queue. The generator's steps are specified by the pure `Pull`, and the
 * fresh units it will yield by the flat `Stream`.
 */
module Units {
  import opened Types

  // ---------------------------------------------------------------------
  // Selection
  // ---------------------------------------------------------------------

  /** What the `filterTests` hook does with one test: keep it, drop it, or throw. */
  datatype Verdict = Keep | Drop | Throw(error: Thrown)

  function OnlyTests(all: seq<Test>): (r: seq<Test>)
    ensures |r| <= |all|
    ensures forall t :: t in r <==> t in all && t.only
  {
    if all == [] then [] else (if all[0].only then [all[0]] else []) + OnlyTests(all[1..])
  }

  function Kept(all: seq<Test>, verdicts: seq<Verdict>): seq<Test>
    requires |verdicts| == |all|
  {
    if all == [] then [] else (if verdicts[0].Keep? then [all[0]] else []) + Kept(all[1..], verdicts[1..])
  }

  function FilterErrors(all: seq<Test>, verdicts: seq<Verdict>): seq<FilterTestError>
    requires |verdicts| == |all|
  {
    if all == [] then []
    else (if verdicts[0].Throw? then [FilterTestError(verdicts[0].error, all[0])] else []) + FilterErrors(all[1..], verdicts[1..])
  }

  datatype Selection = Selection(tests: seq<Test>, hasOnlyTests: bool, errors: seq<FilterTestError>)

  /**
   * The tests a run works through: the `only` tests when there are any, and
   * otherwise those `filterTests` keeps; a throwing filter drops its test
   * and records the error.
   */
  function Select(all: seq<Test>, verdicts: seq<Verdict>): Selection
    requires |verdicts| == |all|
  {
    var only := OnlyTests(all);
    if only != [] then Selection(only, true, [])
    else Selection(Kept(all, verdicts), false, FilterErrors(all, verdicts))
  }

  function CountKept(verdicts: seq<Verdict>): nat {
    if verdicts == [] then 0 else (if verdicts[0].Keep? then 1 else 0) + CountKept(verdicts[1..])
  }

  function CountThrown(verdicts: seq<Verdict>): nat {
    if verdicts == [] then 0 else (if verdicts[0].Throw? then 1 else 0) + CountThrown(verdicts[1..])
  }

  lemma {:induction false} KeptShape(all: seq<Test>, verdicts: seq<Verdict>)
    requires |verdicts| == |all|
    ensures |Kept(all, verdicts)| == CountKept(verdicts)
    ensures |FilterErrors(all, verdicts)| == CountThrown(verdicts)
    ensures CountKept(verdicts) + CountThrown(verdicts) <= |all|
    ensures forall i :: 0 <= i < |all| && verdicts[i].Keep? ==> all[i] in Kept(all, verdicts)
    ensures forall i :: 0 <= i < |all| && verdicts[i].Throw? ==> FilterTestError(verdicts[i].error, all[i]) in FilterErrors(all, verdicts)
    ensures forall e :: e in FilterErrors(all, verdicts) ==> exists i :: 0 <= i < |all| && verdicts[i] == Throw(e.error) && all[i] == e.test
  {
    if all != [] {
      KeptShape(all[1..], verdicts[1..]);
      forall i | 1 <= i < |all|
        ensures all[i] == all[1..][i - 1] && verdicts[i] == verdicts[1..][i - 1]
      {
      }
      var rest := FilterErrors(all[1..], verdicts[1..]);
      forall e | e in FilterErrors(all, verdicts)
        ensures exists i :: 0 <= i < |all| && verdicts[i] == Throw(e.error) && all[i] == e.test
      {
        if e !in rest {
          assert verdicts[0] == Throw(e.error) && all[0] == e.test;
        } else {
          var j :| 0 <= j < |all[1..]| && verdicts[1..][j] == Throw(e.error) && all[1..][j] == e.test;
          assert verdicts[j + 1] == Throw(e.error) && all[j + 1] == e.test;
        }
      }
    }
  }

  /** Whether the filter keeps the test at each position. */
  function KeepFlags(verdicts: seq<Verdict>): (r: seq<bool>)
    ensures |r| == |verdicts| && forall i :: 0 <= i < |verdicts| ==> (r[i] <==> verdicts[i].Keep?)
  {
    seq(|verdicts|, i requires 0 <= i < |verdicts| => verdicts[i].Keep?)
  }

  /** Whether the test at each position is `only`. */
  function OnlyFlags(all: seq<Test>): (r: seq<bool>)
    ensures |r| == |all| && forall i :: 0 <= i < |all| ==> (r[i] <==> all[i].only)
  {
    seq(|all|, i requires 0 <= i < |all| => all[i].only)
  }

  /**
   * `sub` lists the tests of `all` at exactly the positions `idx`, in
   * increasing order, and those are the positions `pick` marks.
   */
  ghost predicate PickedAt(all: seq<Test>, pick: seq<bool>, idx: seq<nat>, sub: seq<Test>)
    requires |pick| == |all|
  {
    && |idx| == |sub|
    && (forall j :: 0 <= j < |idx| ==> idx[j] < |all| && pick[idx[j]] && all[idx[j]] == sub[j])
    && (forall j, k :: 0 <= j < k < |idx| ==> idx[j] < idx[k])
    && (forall i :: 0 <= i < |all| && pick[i] ==> i in idx)
  }

  /** Every position one further on. */
  function Shifted(idx: seq<nat>): (r: seq<nat>)
    ensures |r| == |idx| && forall j :: 0 <= j < |idx| ==> r[j] == idx[j] + 1
  {
    seq(|idx|, j requires 0 <= j < |idx| => idx[j] + 1)
  }

  /** Positions picked from the tail of `all` are picked from `all`, one further on. */
  lemma PickedShift(all: seq<Test>, pick: seq<bool>, rest: seq<nat>, sub: seq<Test>)
    requires |pick| == |all| > 0 && PickedAt(all[1..], pick[1..], rest, sub)
    ensures |Shifted(rest)| == |sub|
    ensures forall j :: 0 <= j < |rest| ==> 0 < Shifted(rest)[j] < |all| && pick[Shifted(rest)[j]] && all[Shifted(rest)[j]] == sub[j]
    ensures forall j, k :: 0 <= j < k < |rest| ==> Shifted(rest)[j] < Shifted(rest)[k]
    ensures forall i :: 1 <= i < |all| && pick[i] ==> i in Shifted(rest)
  {
    var idx := Shifted(rest);
    forall j | 0 <= j < |rest|
      ensures idx[j] < |all| && pick[idx[j]] && all[idx[j]] == sub[j]
    {
      assert pick[idx[j]] == pick[1..][rest[j]] && all[idx[j]] == all[1..][rest[j]];
    }
    forall i | 1 <= i < |all| && pick[i]
      ensures i in idx
    {
      assert pick[1..][i - 1];
      var j :| 0 <= j < |rest| && rest[j] == i - 1;
      assert idx[j] == i;
    }
  }

  /** Picking from `all` is picking its head or not, then picking from its tail. */
  lemma {:induction false} PickedStep(all: seq<Test>, pick: seq<bool>, rest: seq<nat>, sub: seq<Test>) returns (idx: seq<nat>)
    requires |pick| == |all| > 0 && PickedAt(all[1..], pick[1..], rest, sub)
    ensures PickedAt(all, pick, idx, (if pick[0] then [all[0]] else []) + sub)
  {
    PickedShift(all, pick, rest, sub);
    var tail := Shifted(rest);
    if pick[0] {
      idx := [0] + tail;
      PickedCons(all, pick, tail, sub);
    } else {
      idx := tail;
    }
  }

  /** A picked head goes in front of the positions picked further on. */
  lemma PickedCons(all: seq<Test>, pick: seq<bool>, tail: seq<nat>, sub: seq<Test>)
    requires |pick| == |all| > 0 && pick[0] && |tail| == |sub|
    requires forall j :: 0 <= j < |tail| ==> 0 < tail[j] < |all| && pick[tail[j]] && all[tail[j]] == sub[j]
    requires forall j, k :: 0 <= j < k < |tail| ==> tail[j] < tail[k]
    requires forall i :: 1 <= i < |all| && pick[i] ==> i in tail
    ensures PickedAt(all, pick, [0] + tail, [all[0]] + sub)
  {
    ConsPicks(all, pick, tail, sub);
    ConsIncreasing(tail);
    ConsCovers(all, pick, tail);
  }

  lemma ConsPicks(all: seq<Test>, pick: seq<bool>, tail: seq<nat>, sub: seq<Test>)
    requires |pick| == |all| > 0 && pick[0] && |tail| == |sub|
    requires forall j :: 0 <= j < |tail| ==> tail[j] < |all| && pick[tail[j]] && all[tail[j]] == sub[j]
    ensures var idx, sub' := [0] + tail, [all[0]] + sub;
      forall j :: 0 <= j < |idx| ==> idx[j] < |all| && pick[idx[j]] && all[idx[j]] == sub'[j]
  {
    var idx, sub' := [0] + tail, [all[0]] + sub;
    forall j | 1 <= j < |idx|
      ensures idx[j] == tail[j - 1] && sub'[j] == sub[j - 1]
    {
    }
  }

  lemma ConsIncreasing(tail: seq<nat>)
    requires forall j :: 0 <= j < |tail| ==> 0 < tail[j]
    requires forall j, k :: 0 <= j < k < |tail| ==> tail[j] < tail[k]
    ensures var idx := [0] + tail; forall j, k :: 0 <= j < k < |idx| ==> idx[j] < idx[k]
  {
    var idx := [0] + tail;
    forall j, k | 0 <= j < k < |idx|
      ensures idx[j] < idx[k]
    {
      assert idx[k] == tail[k - 1];
      if j > 0 {
        assert idx[j] == tail[j - 1];
      }
    }
  }

  lemma ConsCovers(all: seq<Test>, pick: seq<bool>, tail: seq<nat>)
    requires |pick| == |all|
    requires forall i :: 1 <= i < |all| && pick[i] ==> i in tail
    ensures forall i :: 0 <= i < |all| && pick[i] ==> i in [0] + tail
  {
  }

  /** The tests the filter keeps are those with a `Keep` verdict, each once, in their order. */
  lemma {:induction false} KeptInOrder(all: seq<Test>, verdicts: seq<Verdict>) returns (idx: seq<nat>)
    requires |verdicts| == |all|
    ensures PickedAt(all, KeepFlags(verdicts), idx, Kept(all, verdicts))
  {
    if all == [] {
      idx := [];
    } else {
      var rest := KeptInOrder(all[1..], verdicts[1..]);
      assert KeepFlags(verdicts)[1..] == KeepFlags(verdicts[1..]);
      idx := PickedStep(all, KeepFlags(verdicts), rest, Kept(all[1..], verdicts[1..]));
    }
  }

  /** The `only` tests are listed each once, in their order. */
  lemma {:induction false} OnlyInOrder(all: seq<Test>) returns (idx: seq<nat>)
    ensures PickedAt(all, OnlyFlags(all), idx, OnlyTests(all))
  {
    if all == [] {
      idx := [];
    } else {
      var rest := OnlyInOrder(all[1..]);
      assert OnlyFlags(all)[1..] == OnlyFlags(all[1..]);
      idx := PickedStep(all, OnlyFlags(all), rest, OnlyTests(all[1..]));
    }
  }

  /**
   * Only tests win: when any test is `only`, exactly the `only` tests run
   * and the filter is not consulted; otherwise every test the filter keeps
   * runs, every test whose filter throws is dropped with its error
   * recorded, and nothing else is recorded.
   */
  lemma SelectSpec(all: seq<Test>, verdicts: seq<Verdict>)
    requires |verdicts| == |all|
    ensures var s := Select(all, verdicts);
      && (s.hasOnlyTests <==> exists i :: 0 <= i < |all| && all[i].only)
      && (s.hasOnlyTests ==> s.errors == [] && forall t :: t in s.tests <==> t in all && t.only)
      && (s.hasOnlyTests ==> exists idx :: PickedAt(all, OnlyFlags(all), idx, s.tests))
      && (!s.hasOnlyTests ==> exists idx :: PickedAt(all, KeepFlags(verdicts), idx, s.tests))
      && (!s.hasOnlyTests ==> |s.tests| + |s.errors| <= |all|)
      && (!s.hasOnlyTests ==> forall i :: 0 <= i < |all| && verdicts[i].Keep? ==> all[i] in s.tests)
      && (!s.hasOnlyTests ==> forall i :: 0 <= i < |all| && verdicts[i].Throw? ==> FilterTestError(verdicts[i].error, all[i]) in s.errors)
      && (!s.hasOnlyTests ==> forall e :: e in s.errors ==> exists i :: 0 <= i < |all| && verdicts[i] == Throw(e.error) && all[i] == e.test)
  {
    KeptShape(all, verdicts);
    var kept := KeptInOrder(all, verdicts);
    var only := OnlyTests(all);
    var picked := OnlyInOrder(all);
    if only != [] {
      assert only[0] in all;
      var i :| 0 <= i < |all| && all[i] == only[0];
    } else {
      forall i | 0 <= i < |all|
        ensures !all[i].only
      {
        assert all[i] in all;
      }
    }
  }

  // ---------------------------------------------------------------------
  // The units a generator yields
  // ---------------------------------------------------------------------

  /** A retry waiting in the generator's queue. */
  datatype Retry = Retry(repeatIndex: int, retryIndex: int, test: Test)

  /** A test unit as the generator yields it, without its `isEnded` flag. */
  datatype UnitValue = UnitValue(test: Test, repeatIndex: int, retryIndex: int, status: Option<Status>, hasOnEnd: bool)

  /** The generator's local variables between two yields. */
  datatype GenState = GenState(retries: seq<Retry>, testIndex: nat, repeatIndex: int)

  /** `!hasOnlyTests && test.skip !== false`: a skip flag of any string, even empty, skips. */
  predicate IsSkipped(t: Test, hasOnlyTests: bool) {
    !hasOnlyTests && t.skip != Bool(false)
  }

  function SkipUnit(t: Test): UnitValue {
    UnitValue(t, 0, 0, Some(Skipped), false)
  }

  function RepeatUnit(t: Test, repeatIndex: int): UnitValue {
    UnitValue(t, repeatIndex, 0, None, t.retries > 0)
  }

  function RetryUnit(q: Retry): UnitValue {
    UnitValue(q.test, q.repeatIndex, q.retryIndex, None, true)
  }

  /** The repeat units of `t` from `from` on. */
  function Repeats(t: Test, from: int): seq<UnitValue>
    decreases if from <= t.repeats then t.repeats - from + 1 else 0
  {
    if from > t.repeats then [] else [RepeatUnit(t, from)] + Repeats(t, from + 1)
  }

  function UnitsOf(t: Test, hasOnlyTests: bool, from: int): seq<UnitValue> {
    if IsSkipped(t, hasOnlyTests) then [SkipUnit(t)] else Repeats(t, from)
  }

  /** The fresh units of `tests[i..]`, in the order the generator yields them. */
  function Stream(tests: seq<Test>, hasOnlyTests: bool, i: nat): seq<UnitValue>
    decreases |tests| - i
  {
    if i >= |tests| then [] else UnitsOf(tests[i], hasOnlyTests, 1) + Stream(tests, hasOnlyTests, i + 1)
  }

  /** The fresh units a generator in state `g` has still to yield. */
  function Upcoming(tests: seq<Test>, hasOnlyTests: bool, g: GenState): seq<UnitValue> {
    if g.testIndex >= |tests| then []
    else UnitsOf(tests[g.testIndex], hasOnlyTests, g.repeatIndex) + Stream(tests, hasOnlyTests, g.testIndex + 1)
  }

  datatype Pulled = Pulled(unit: Option<UnitValue>, next: GenState)

  /**
   * One resumption of `getTestUnits` up to its next yield: the oldest
   * queued retry first, then the skip or next repeat of the current test,
   * moving past tests that have no repeats left; `None` is the bare
   * `yield` once all tests are done.
   */
  function Pull(tests: seq<Test>, hasOnlyTests: bool, g: GenState): Pulled
    decreases |tests| - g.testIndex
  {
    if |g.retries| > 0 then
      Pulled(Some(RetryUnit(g.retries[|g.retries| - 1])), g.(retries := g.retries[..|g.retries| - 1]))
    else if g.testIndex >= |tests| then Pulled(None, g)
    else
      var t := tests[g.testIndex];
      if IsSkipped(t, hasOnlyTests) then Pulled(Some(SkipUnit(t)), g.(testIndex := g.testIndex + 1, repeatIndex := 1))
      else if g.repeatIndex <= t.repeats then Pulled(Some(RepeatUnit(t, g.repeatIndex)), g.(repeatIndex := g.repeatIndex + 1))
      else Pull(tests, hasOnlyTests, g.(testIndex := g.testIndex + 1, repeatIndex := 1))
  }

  /** With no retry queued, a pull yields the next upcoming fresh unit, or nothing once none is left. */
  lemma {:induction false} PullFresh(tests: seq<Test>, hasOnlyTests: bool, g: GenState)
    requires g.retries == []
    ensures var p := Pull(tests, hasOnlyTests, g);
      var up := Upcoming(tests, hasOnlyTests, g);
      && p.next.retries == []
      && (p.unit.None? <==> up == [])
      && (p.unit.None? ==> Upcoming(tests, hasOnlyTests, p.next) == [])
      && (p.unit.Some? ==> p.unit.value == up[0] && Upcoming(tests, hasOnlyTests, p.next) == up[1..])
    decreases |tests| - g.testIndex
  {
    if g.testIndex < |tests| {
      var t := tests[g.testIndex];
      var g' := g.(testIndex := g.testIndex + 1, repeatIndex := 1);
      var rest := Stream(tests, hasOnlyTests, g.testIndex + 1);
      assert Upcoming(tests, hasOnlyTests, g') == rest by {
        if g'.testIndex < |tests| {
          assert rest == UnitsOf(tests[g'.testIndex], hasOnlyTests, 1) + Stream(tests, hasOnlyTests, g'.testIndex + 1);
        }
      }
      if IsSkipped(t, hasOnlyTests) {
        assert Upcoming(tests, hasOnlyTests, g) == [SkipUnit(t)] + rest;
      } else if g.repeatIndex <= t.repeats {
        assert Repeats(t, g.repeatIndex) == [RepeatUnit(t, g.repeatIndex)] + Repeats(t, g.repeatIndex + 1);
        assert Upcoming(tests, hasOnlyTests, g) == [RepeatUnit(t, g.repeatIndex)] + (Repeats(t, g.repeatIndex + 1) + rest);
      } else {
        assert Upcoming(tests, hasOnlyTests, g) == rest;
        PullFresh(tests, hasOnlyTests, g');
      }
    }
  }

  /** A queued retry is pulled before any fresh unit, the oldest one first. */
  lemma PullRetry(tests: seq<Test>, hasOnlyTests: bool, g: GenState)
    requires g.retries != []
    ensures var p := Pull(tests, hasOnlyTests, g);
      && p.unit == Some(RetryUnit(g.retries[|g.retries| - 1]))
      && p.next == g.(retries := g.retries[..|g.retries| - 1])
      && Upcoming(tests, hasOnlyTests, p.next) == Upcoming(tests, hasOnlyTests, g)
  {
  }

  /**
   * The retry callback: a failed or timed-out unit is queued again, with
   * the next retry index, while that index does not exceed `retries`.
   */
  function Requeue(retries: seq<Retry>, u: UnitValue, status: Status): seq<Retry> {
    if IsFailure(status) && u.retryIndex + 1 <= u.test.retries then
      [Retry(u.repeatIndex, u.retryIndex + 1, u.test)] + retries
    else retries
  }

  // ---------------------------------------------------------------------
  // How much work is left
  // ---------------------------------------------------------------------

  /** How many more retries a unit can still cause. */
  function Spawn(u: UnitValue): nat {
    if u.hasOnEnd && u.test.retries > u.retryIndex then u.test.retries - u.retryIndex else 0
  }

  /** The weight of a unit not yet handed out: three steps for it and for each retry it can cause. */
  function Weight(u: UnitValue): nat {
    3 * (1 + Spawn(u))
  }

  function RetryLoad(retries: seq<Retry>): nat {
    if retries == [] then 0 else RetryLoad(retries[..|retries| - 1]) + Weight(RetryUnit(retries[|retries| - 1]))
  }

  function UnitsLoad(us: seq<UnitValue>): nat {
    if us == [] then 0 else Weight(us[0]) + UnitsLoad(us[1..])
  }

  /** The work a generator in state `g` still holds: its queued retries and its upcoming fresh units. */
  function Pending(tests: seq<Test>, hasOnlyTests: bool, g: GenState): nat {
    RetryLoad(g.retries) + UnitsLoad(Upcoming(tests, hasOnlyTests, g))
  }

  lemma {:induction false} RetryLoadPrepend(q: Retry, retries: seq<Retry>)
    ensures RetryLoad([q] + retries) == Weight(RetryUnit(q)) + RetryLoad(retries)
    decreases |retries|
  {
    if retries != [] {
      var all := [q] + retries;
      assert all[..|all| - 1] == [q] + retries[..|retries| - 1];
      RetryLoadPrepend(q, retries[..|retries| - 1]);
    } else {
      assert ([q] + retries)[..0] == [];
    }
  }

  /** A pull hands out exactly the weight of the unit it yields. */
  lemma PullPending(tests: seq<Test>, hasOnlyTests: bool, g: GenState)
    ensures var p := Pull(tests, hasOnlyTests, g);
      && (p.unit.None? ==> Pending(tests, hasOnlyTests, p.next) == Pending(tests, hasOnlyTests, g) == 0)
      && (p.unit.Some? ==> Pending(tests, hasOnlyTests, g) == Pending(tests, hasOnlyTests, p.next) + Weight(p.unit.value))
  {
    if g.retries != [] {
      PullRetry(tests, hasOnlyTests, g);
    } else {
      PullFresh(tests, hasOnlyTests, g);
      var up := Upcoming(tests, hasOnlyTests, g);
      if up != [] {
        assert UnitsLoad(up) == Weight(up[0]) + UnitsLoad(up[1..]);
      }
    }
  }

  /** A requeued retry weighs exactly what its failed unit could still cause. */
  lemma RequeuePending(retries: seq<Retry>, u: UnitValue, status: Status)
    requires u.hasOnEnd
    ensures RetryLoad(Requeue(retries, u, status)) <= RetryLoad(retries) + 3 * Spawn(u)
  {
    if IsFailure(status) && u.retryIndex + 1 <= u.test.retries {
      RetryLoadPrepend(Retry(u.repeatIndex, u.retryIndex + 1, u.test), retries);
    }
  }

  /** A retry callback adds to the generator's work at most what the unit could still cause. */
  lemma RequeueWork(tests: seq<Test>, hasOnlyTests: bool, g: GenState, u: UnitValue, status: Status)
    ensures var g' := g.(retries := if u.hasOnEnd then Requeue(g.retries, u, status) else g.retries);
      Pending(tests, hasOnlyTests, g') <= Pending(tests, hasOnlyTests, g) + 3 * Spawn(u)
  {
    var g' := g.(retries := if u.hasOnEnd then Requeue(g.retries, u, status) else g.retries);
    assert Upcoming(tests, hasOnlyTests, g') == Upcoming(tests, hasOnlyTests, g);
    if u.hasOnEnd {
      RequeuePending(g.retries, u, status);
    }
  }

  // ---------------------------------------------------------------------
  // Units run one at a time
  // ---------------------------------------------------------------------

  /** The status of a unit in a run where every body that runs fails. */
  function FailingOutcome(u: UnitValue): Status {
    if u.status.Some? then u.status.value else Failed
  }

  /**
   * The units a generator yields when each one ends, failing, before the
   * next is pulled (a run with concurrency 1 where every body fails).
   */
  function SerialRun(tests: seq<Test>, hasOnlyTests: bool, g: GenState): seq<UnitValue>
    decreases Pending(tests, hasOnlyTests, g)
  {
    var p := Pull(tests, hasOnlyTests, g);
    if p.unit.None? then []
    else
      SerialStepShrinks(tests, hasOnlyTests, g);
      [p.unit.value] + SerialRun(tests, hasOnlyTests, AfterFailing(tests, hasOnlyTests, g))
  }

  /** The generator's state once the unit just pulled has ended, failing. */
  function AfterFailing(tests: seq<Test>, hasOnlyTests: bool, g: GenState): GenState {
    var p := Pull(tests, hasOnlyTests, g);
    if p.unit.Some? && p.unit.value.hasOnEnd then
      p.next.(retries := Requeue(p.next.retries, p.unit.value, FailingOutcome(p.unit.value)))
    else p.next
  }

  lemma SerialStepShrinks(tests: seq<Test>, hasOnlyTests: bool, g: GenState)
    requires Pull(tests, hasOnlyTests, g).unit.Some?
    ensures Pending(tests, hasOnlyTests, AfterFailing(tests, hasOnlyTests, g)) < Pending(tests, hasOnlyTests, g)
  {
    var p := Pull(tests, hasOnlyTests, g);
    PullPending(tests, hasOnlyTests, g);
    RequeueWork(tests, hasOnlyTests, p.next, p.unit.value, FailingOutcome(p.unit.value));
    assert AfterFailing(tests, hasOnlyTests, g)
      == p.next.(retries := if p.unit.value.hasOnEnd then Requeue(p.next.retries, p.unit.value, FailingOutcome(p.unit.value)) else p.next.retries);
  }

  /** Only skip units carry a status, and they carry no retry callback. */
  lemma PulledShape(tests: seq<Test>, hasOnlyTests: bool, g: GenState)
    requires Pull(tests, hasOnlyTests, g).unit.Some?
    ensures var u := Pull(tests, hasOnlyTests, g).unit.value;
      u.status.Some? ==> u.status == Some(Skipped) && !u.hasOnEnd && u.repeatIndex == 0 && u.retryIndex == 0
    decreases |tests| - g.testIndex
  {
    if g.retries == [] && g.testIndex < |tests| {
      var t := tests[g.testIndex];
      if !IsSkipped(t, hasOnlyTests) && g.repeatIndex > t.repeats {
        PulledShape(tests, hasOnlyTests, g.(testIndex := g.testIndex + 1, repeatIndex := 1));
      }
    }
  }

  /** A unit followed by the retries its failure causes, one after another. */
  function Chain(u: UnitValue): seq<UnitValue>
    decreases Spawn(u)
  {
    if u.hasOnEnd && u.status.None? && u.retryIndex + 1 <= u.test.retries then
      [u] + Chain(RetryUnit(Retry(u.repeatIndex, u.retryIndex + 1, u.test)))
    else [u]
  }

  function Chains(us: seq<UnitValue>): seq<UnitValue> {
    if us == [] then [] else Chain(us[0]) + Chains(us[1..])
  }

  lemma SerialRunStep(tests: seq<Test>, hasOnlyTests: bool, g: GenState)
    requires Pull(tests, hasOnlyTests, g).unit.Some?
    ensures SerialRun(tests, hasOnlyTests, g)
      == [Pull(tests, hasOnlyTests, g).unit.value] + SerialRun(tests, hasOnlyTests, AfterFailing(tests, hasOnlyTests, g))
  {
  }

  /** After a failing unit, the queue holds its next retry exactly when its chain goes on. */
  lemma AfterFailingQueue(tests: seq<Test>, hasOnlyTests: bool, g: GenState)
    requires Pull(tests, hasOnlyTests, g).unit.Some?
    requires Pull(tests, hasOnlyTests, g).next.retries == []
    ensures var p := Pull(tests, hasOnlyTests, g);
      var u := p.unit.value;
      AfterFailing(tests, hasOnlyTests, g)
        == if u.hasOnEnd && u.status.None? && u.retryIndex + 1 <= u.test.retries
           then p.next.(retries := [Retry(u.repeatIndex, u.retryIndex + 1, u.test)])
           else p.next
  {
    PulledShape(tests, hasOnlyTests, g);
    var p := Pull(tests, hasOnlyTests, g);
    var u := p.unit.value;
    if u.hasOnEnd {
      assert FailingOutcome(u) == Failed;
      assert p.next.(retries := p.next.retries) == p.next;
    }
  }

  lemma {:induction false} SerialRunRetry(tests: seq<Test>, hasOnlyTests: bool, g: GenState, q: Retry)
    requires g.retries == [q]
    ensures SerialRun(tests, hasOnlyTests, g)
      == Chain(RetryUnit(q)) + SerialRun(tests, hasOnlyTests, g.(retries := []))
    decreases Spawn(RetryUnit(q))
  {
    var u := RetryUnit(q);
    PullRetry(tests, hasOnlyTests, g);
    var base := g.(retries := []);
    assert g.retries[..0] == [];
    SerialRunStep(tests, hasOnlyTests, g);
    AfterFailingQueue(tests, hasOnlyTests, g);
    if u.retryIndex + 1 <= u.test.retries {
      var q' := Retry(u.repeatIndex, u.retryIndex + 1, u.test);
      SerialRunRetry(tests, hasOnlyTests, base.(retries := [q']), q');
      assert base.(retries := [q']).(retries := []) == base;
    }
  }

  lemma {:induction false} SerialRunFresh(tests: seq<Test>, hasOnlyTests: bool, g: GenState)
    requires g.retries == []
    ensures SerialRun(tests, hasOnlyTests, g) == Chains(Upcoming(tests, hasOnlyTests, g))
    decreases Pending(tests, hasOnlyTests, g)
  {
    PullFresh(tests, hasOnlyTests, g);
    var p := Pull(tests, hasOnlyTests, g);
    if p.unit.Some? {
      PullPending(tests, hasOnlyTests, g);
      SerialRunFresh(tests, hasOnlyTests, p.next);
      SerialRunFreshStep(tests, hasOnlyTests, g);
    }
  }

  /** One fresh unit of a serial failing run: it and its retries, then the rest of the upcoming units. */
  lemma SerialRunFreshStep(tests: seq<Test>, hasOnlyTests: bool, g: GenState)
    requires g.retries == [] && Pull(tests, hasOnlyTests, g).unit.Some?
    requires var next := Pull(tests, hasOnlyTests, g).next;
      SerialRun(tests, hasOnlyTests, next) == Chains(Upcoming(tests, hasOnlyTests, next))
    ensures SerialRun(tests, hasOnlyTests, g) == Chains(Upcoming(tests, hasOnlyTests, g))
  {
    PullFresh(tests, hasOnlyTests, g);
    var p := Pull(tests, hasOnlyTests, g);
    var up := Upcoming(tests, hasOnlyTests, g);
    var u := p.unit.value;
    SerialRunStep(tests, hasOnlyTests, g);
    AfterFailingQueue(tests, hasOnlyTests, g);
    var after := AfterFailing(tests, hasOnlyTests, g);
    if u.hasOnEnd && u.status.None? && u.retryIndex + 1 <= u.test.retries {
      var q := Retry(u.repeatIndex, u.retryIndex + 1, u.test);
      SerialRunRetry(tests, hasOnlyTests, after, q);
      assert after.(retries := []) == p.next;
    }
    assert up == [u] + up[1..];
    assert Chains(up) == Chain(u) + Chains(up[1..]);
  }

  /**
   * Retries come first: run one at a time with every body failing, each
   * fresh unit is followed at once by all of its retries before the next
   * repeat or test starts.
   */
  lemma SerialRunIsChains(tests: seq<Test>, hasOnlyTests: bool)
    ensures SerialRun(tests, hasOnlyTests, GenState([], 0, 1)) == Chains(Stream(tests, hasOnlyTests, 0))
  {
    SerialRunFresh(tests, hasOnlyTests, GenState([], 0, 1));
  }

  /** A failing repeat of a test with `retries` = R runs R + 1 times in all, retry indexes 0 to R. */
  lemma {:induction false} ChainOfRepeat(t: Test, repeatIndex: int, from: nat)
    requires from <= t.retries || from == 0
    ensures var c := Chain(if from == 0 then RepeatUnit(t, repeatIndex) else RetryUnit(Retry(repeatIndex, from, t)));
      && |c| == (if t.retries > from then t.retries - from else 0) + 1
      && forall k :: 0 <= k < |c| ==> c[k].repeatIndex == repeatIndex && c[k].retryIndex == from + k && c[k].test == t
    decreases if t.retries > from then t.retries - from else 0
  {
    if from + 1 <= t.retries {
      ChainOfRepeat(t, repeatIndex, from + 1);
    }
  }

  /** The fresh units of one test: one skip unit, or one unit per repeat. */
  lemma {:induction false} RepeatsShape(t: Test, from: int)
    ensures |Repeats(t, from)| == (if from <= t.repeats then t.repeats - from + 1 else 0)
    ensures forall k :: 0 <= k < |Repeats(t, from)| ==> Repeats(t, from)[k] == RepeatUnit(t, from + k)
    decreases if from <= t.repeats then t.repeats - from + 1 else 0
  {
    if from <= t.repeats {
      RepeatsShape(t, from + 1);
    }
  }

  /** The tries of one failing repeat: the first run and every retry. */
  function Tries(t: Test): nat {
    (if t.retries > 0 then t.retries else 0) + 1
  }

  /** Every repeat of a test from `from` on, each with all its retries, all for that test. */
  lemma {:induction false} ChainsOfRepeats(t: Test, from: int)
    ensures |Chains(Repeats(t, from))| == (if from <= t.repeats then t.repeats - from + 1 else 0) * Tries(t)
    ensures forall u :: u in Chains(Repeats(t, from)) ==> u.test == t
    decreases if from <= t.repeats then t.repeats - from + 1 else 0
  {
    if from <= t.repeats {
      var rs := Repeats(t, from);
      assert rs[0] == RepeatUnit(t, from) && rs[1..] == Repeats(t, from + 1);
      ChainOfRepeat(t, from, 0);
      ChainsOfRepeats(t, from + 1);
      var c, n := Chain(RepeatUnit(t, from)), t.repeats - from;
      assert Chains(rs) == c + Chains(Repeats(t, from + 1));
      assert |c| == Tries(t) && forall u :: u in c ==> u.test == t;
      assert (n + 1) * Tries(t) == Tries(t) + n * Tries(t);
    }
  }

  /**
   * A test run on its own, one unit at a time, with every body failing:
   * a skipped test gives its one skip unit; otherwise each of its
   * `repeats` repeats runs `retries` + 1 times.
   */
  lemma SerialRunOfOneTest(t: Test, hasOnlyTests: bool)
    ensures var run := SerialRun([t], hasOnlyTests, GenState([], 0, 1));
      && |run| == (if IsSkipped(t, hasOnlyTests) then 1 else (if t.repeats >= 1 then t.repeats else 0) * Tries(t))
      && forall u :: u in run ==> u.test == t
  {
    SerialRunIsChains([t], hasOnlyTests);
    assert Stream([t], hasOnlyTests, 0) == UnitsOf(t, hasOnlyTests, 1);
    if IsSkipped(t, hasOnlyTests) {
      assert Chains([SkipUnit(t)]) == [SkipUnit(t)];
    } else {
      ChainsOfRepeats(t, 1);
    }
  }

  // ---------------------------------------------------------------------
  // The generator as an object
  // ---------------------------------------------------------------------

  /** One unit of work: a test with its repeat and retry indexes. */
  class TestUnit {
    const test: Test
    const repeatIndex: int
    const retryIndex: int
    /** `Some(Skipped)` for a skip unit, `None` otherwise. */
    const status: Option<Status>
    /** Whether the unit carries the generator's retry callback. */
    const onEnd: bool
    var isEnded: bool

    function Value(): UnitValue {
      UnitValue(test, repeatIndex, retryIndex, status, onEnd)
    }

    constructor (v: UnitValue)
      ensures Value() == v && !isEnded
    {
      test, repeatIndex, retryIndex, status, onEnd := v.test, v.repeatIndex, v.retryIndex, v.status, v.hasOnEnd;
      isEnded := false;
    }
  }

  /** Where the generator is suspended. */
  datatype Phase = NotStarted | AtUnit | AtEnd | Returned

  /** What one `next()` call gives. */
  datatype Yielded = YieldUnit(unit: TestUnit) | YieldNothing | Done

  /** The `getTestUnits` generator of one run. */
  class TestUnits {
    const tests: seq<Test>
    const hasOnlyTests: bool
    var retries: seq<Retry>
    var testIndex: nat
    var currentRepeatIndex: int
    var phase: Phase
    /** The units yielded so far, in order. */
    ghost var yielded: seq<TestUnit>
    /** The units that have ended. */
    ghost var ended: set<TestUnit>

    function State(): GenState
      reads this`retries, this`testIndex, this`currentRepeatIndex
    {
      GenState(retries, testIndex, currentRepeatIndex)
    }

    ghost function Load(): nat
      reads this`retries, this`testIndex, this`currentRepeatIndex
    {
      Pending(tests, hasOnlyTests, State())
    }

    /** `ended` holds the units that have ended, and every yielded unit that has ended is in it. */
    ghost predicate Mirrors()
      reads this`yielded, this`ended, yielded`isEnded, ended`isEnded
    {
      && (forall u :: u in ended ==> u.isEnded)
      && (forall i :: 0 <= i < |yielded| && yielded[i].isEnded ==> yielded[i] in ended)
    }

    /** Every queued retry and every yielded unit is for one of the generator's tests. */
    ghost predicate Confined()
      reads this`retries, this`yielded
    {
      && (forall q :: q in retries ==> q.test in tests)
      && (forall u :: u in yielded ==> u.test in tests)
    }

    constructor (selection: Selection)
      ensures tests == selection.tests && hasOnlyTests == selection.hasOnlyTests
      ensures State() == GenState([], 0, 1) && phase == NotStarted && yielded == [] && ended == {}
    {
      tests := selection.tests;
      hasOnlyTests := selection.hasOnlyTests;
      retries := [];
      testIndex := 0;
      currentRepeatIndex := 1;
      phase := NotStarted;
      yielded := [];
      ended := {};
    }

    /**
     * `next(state)`: resumes the generator. At the bare end-of-tests yield
     * only `'isRunning'` keeps it going; anything else makes it return.
     */
    method Next(isRunning: bool) returns (y: Yielded)
      modifies this
      ensures ended == old(ended)
      ensures old(Mirrors()) ==> Mirrors()
      ensures old(Confined()) ==> Confined()
      ensures old(phase) == Returned ==> y == Done && unchanged(this)
      ensures old(phase) == AtEnd && !isRunning ==>
        y == Done && phase == Returned && State() == old(State()) && yielded == old(yielded)
      ensures old(phase) != Returned && !(old(phase) == AtEnd && !isRunning) ==>
        var p := Pull(tests, hasOnlyTests, old(State()));
        && State() == p.next
        && (p.unit.None? ==> y == YieldNothing && phase == AtEnd && yielded == old(yielded))
        && (p.unit.Some? ==> y.YieldUnit? && fresh(y.unit) && y.unit.Value() == p.unit.value && !y.unit.isEnded
                             && phase == AtUnit && yielded == old(yielded) + [y.unit])
    {
      if phase == Returned {
        return Done;
      }
      if phase == AtEnd && !isRunning {
        phase := Returned;
        return Done;
      }
      if |retries| > 0 {
        var q := retries[|retries| - 1];
        retries := retries[..|retries| - 1];
        var u := new TestUnit(RetryUnit(q));
        phase := AtUnit;
        yielded := yielded + [u];
        return YieldUnit(u);
      }
      while testIndex < |tests| && !IsSkipped(tests[testIndex], hasOnlyTests) && currentRepeatIndex > tests[testIndex].repeats
        invariant retries == [] && yielded == old(yielded) && ended == old(ended)
        invariant Pull(tests, hasOnlyTests, State()) == Pull(tests, hasOnlyTests, old(State()))
        decreases |tests| - testIndex
      {
        currentRepeatIndex := 1;
        testIndex := testIndex + 1;
      }
      if testIndex >= |tests| {
        phase := AtEnd;
        return YieldNothing;
      }
      var t := tests[testIndex];
      var u;
      if IsSkipped(t, hasOnlyTests) {
        u := new TestUnit(SkipUnit(t));
        currentRepeatIndex := 1;
        testIndex := testIndex + 1;
      } else {
        u := new TestUnit(RepeatUnit(t, currentRepeatIndex));
        currentRepeatIndex := currentRepeatIndex + 1;
      }
      phase := AtUnit;
      yielded := yielded + [u];
      y := YieldUnit(u);
    }

    /** The retry callback the generator gives its units. */
    method OnEnd(u: UnitValue, status: Status)
      modifies this`retries
      ensures retries == Requeue(old(retries), u, status)
      ensures old(Confined()) && u.test in tests ==> Confined()
    {
      if status != Failed && status != TimedOut {
        return;
      }
      var newRetryIndex := u.retryIndex + 1;
      if newRetryIndex <= u.test.retries {
        retries := [Retry(u.repeatIndex, newRetryIndex, u.test)] + retries;
      }
    }
  }
}
