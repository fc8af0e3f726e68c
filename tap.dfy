/**
 * The TAP text of a run: the escaping of names and reasons, the test point
 * printed for each recorded unit, and the closing plan line.
 */
module Tap {
  import opened Types

  // ---------------------------------------------------------------------
  // Escaping
  // ---------------------------------------------------------------------

  /** The characters JavaScript's `\s` matches. */
  predicate IsWhitespace(c: char) {
    || c == '\t' || c == '\n' || c == '\U{000B}' || c == '\U{000C}' || c == '\r' || c == ' '
    || c == '\U{00A0}' || c == '\U{1680}' || ('\U{2000}' <= c <= '\U{200A}')
    || c == '\U{2028}' || c == '\U{2029}' || c == '\U{202F}' || c == '\U{205F}'
    || c == '\U{3000}' || c == '\U{FEFF}'
  }

  predicate IsBackslash(c: char) { c == '\\' }

  predicate IsHash(c: char) { c == '#' }

  predicate IsLineFeed(c: char) { c == '\n' }

  /** `s.replace(/[class]/g, replacement)` for a class of single characters. */
  function ReplaceAll(s: string, matches: char -> bool, replacement: string): string {
    if s == [] then [] else (if matches(s[0]) then replacement else [s[0]]) + ReplaceAll(s[1..], matches, replacement)
  }

  lemma {:induction false} ReplaceAllAppend(a: string, b: string, matches: char -> bool, replacement: string)
    ensures ReplaceAll(a + b, matches, replacement) == ReplaceAll(a, matches, replacement) + ReplaceAll(b, matches, replacement)
  {
    if a == [] {
      assert a + b == b;
    } else {
      assert (a + b)[0] == a[0] && (a + b)[1..] == a[1..] + b;
      ReplaceAllAppend(a[1..], b, matches, replacement);
    }
  }

  /** `escapeTapOutput`: whitespace to spaces, then `\` doubled, then `#` escaped. */
  function EscapeTapOutput(message: string): string {
    ReplaceAll(ReplaceAll(ReplaceAll(message, IsWhitespace, " "), IsBackslash, "\\\\"), IsHash, "\\#")
  }

  /** What the three replacement passes together do to one character. */
  function EscapeChar(c: char): string {
    if IsWhitespace(c) then " "
    else if c == '\\' then "\\\\"
    else if c == '#' then "\\#"
    else [c]
  }

  function EscapeEach(s: string): string {
    if s == [] then [] else EscapeChar(s[0]) + EscapeEach(s[1..])
  }

  /**
   * The three passes never feed each other: the escaping is the same as
   * escaping each character on its own.
   */
  lemma {:induction false} EscapeIsCharwise(s: string)
    ensures EscapeTapOutput(s) == EscapeEach(s)
  {
    if s != [] {
      var c, rest := s[0], s[1..];
      assert s == [c] + rest;
      var one := ReplaceAll([c], IsWhitespace, " ");
      assert ReplaceAll([c], IsWhitespace, " ") == (if IsWhitespace(c) then " " else [c]) + ReplaceAll([], IsWhitespace, " ");
      ReplaceAllAppend([c], rest, IsWhitespace, " ");
      var restOne := ReplaceAll(rest, IsWhitespace, " ");
      ReplaceAllAppend(one, restOne, IsBackslash, "\\\\");
      var two := ReplaceAll(one, IsBackslash, "\\\\");
      var restTwo := ReplaceAll(restOne, IsBackslash, "\\\\");
      ReplaceAllAppend(two, restTwo, IsHash, "\\#");
      assert ReplaceAll(two, IsHash, "\\#") == EscapeChar(c) by {
        if IsWhitespace(c) {
          assert one == [' '];
          assert two == [' '] + ReplaceAll([], IsBackslash, "\\\\");
          assert ReplaceAll(two, IsHash, "\\#") == [' '] + ReplaceAll([], IsHash, "\\#");
        } else if c == '\\' {
          assert one == [c];
          assert two == "\\\\" + ReplaceAll([], IsBackslash, "\\\\");
          assert two == ['\\'] + ['\\'];
          ReplaceAllAppend(['\\'], ['\\'], IsHash, "\\#");
          assert ReplaceAll(['\\'], IsHash, "\\#") == ['\\'] + ReplaceAll([], IsHash, "\\#");
        } else if c == '#' {
          assert one == [c];
          assert two == [c] + ReplaceAll([], IsBackslash, "\\\\");
          assert ReplaceAll(two, IsHash, "\\#") == "\\#" + ReplaceAll([], IsHash, "\\#");
        } else {
          assert one == [c];
          assert two == [c] + ReplaceAll([], IsBackslash, "\\\\");
          assert ReplaceAll(two, IsHash, "\\#") == [c] + ReplaceAll([], IsHash, "\\#");
        }
      }
      EscapeIsCharwise(rest);
    }
  }

  /** How a TAP reader undoes the escaping: `\\` is `\`, `\#` is `#`. */
  function Unescape(t: string): string
    decreases |t|
  {
    if t == [] then []
    else if t[0] == '\\' && |t| >= 2 && (t[1] == '\\' || t[1] == '#') then [t[1]] + Unescape(t[2..])
    else [t[0]] + Unescape(t[1..])
  }

  lemma {:induction false} UnescapeEach(s: string)
    ensures Unescape(EscapeEach(s)) == ReplaceAll(s, IsWhitespace, " ")
  {
    if s != [] {
      var c, rest := s[0], s[1..];
      var tail := EscapeEach(rest);
      var t := EscapeChar(c) + tail;
      assert EscapeEach(s) == t;
      if IsWhitespace(c) || (c != '\\' && c != '#') {
        assert t[0] == (if IsWhitespace(c) then ' ' else c) && t[1..] == tail;
      } else {
        assert t[0] == '\\' && t[1] == c && t[2..] == tail;
      }
      UnescapeEach(rest);
    }
  }

  /** Escaping round-trips: reading an escaped name gives it back, with its whitespace turned into spaces. */
  lemma UnescapeEscape(message: string)
    ensures Unescape(EscapeTapOutput(message)) == ReplaceAll(message, IsWhitespace, " ")
  {
    EscapeIsCharwise(message);
    UnescapeEach(message);
  }

  lemma {:induction false} EscapeEachNoWhitespace(s: string)
    ensures forall i :: 0 <= i < |EscapeEach(s)| ==> EscapeEach(s)[i] == ' ' || !IsWhitespace(EscapeEach(s)[i])
  {
    if s != [] {
      EscapeEachNoWhitespace(s[1..]);
      var head := EscapeChar(s[0]);
      assert forall i :: 0 <= i < |head| ==> head[i] == ' ' || !IsWhitespace(head[i]);
    }
  }

  /** An escaped name holds no line break or other whitespace but spaces, so it stays on its TAP line. */
  lemma EscapedIsOneLine(message: string)
    ensures forall i :: 0 <= i < |EscapeTapOutput(message)| ==>
      EscapeTapOutput(message)[i] == ' ' || !IsWhitespace(EscapeTapOutput(message)[i])
  {
    EscapeIsCharwise(message);
    EscapeEachNoWhitespace(message);
  }

  // ---------------------------------------------------------------------
  // Numbers and lists
  // ---------------------------------------------------------------------

  function DigitChar(d: nat): char
    requires d < 10
  {
    "0123456789"[d]
  }

  /** The decimal text JavaScript prints for a non-negative integer. */
  function NatToString(n: nat): (s: string)
    ensures |s| >= 1 && forall i :: 0 <= i < |s| ==> '0' <= s[i] <= '9'
    decreases n
  {
    if n < 10 then [DigitChar(n)] else NatToString(n / 10) + [DigitChar(n % 10)]
  }

  function IntToString(i: int): string {
    if i < 0 then "-" + NatToString(-i) else NatToString(i)
  }

  function ParseNat(s: string): nat
    requires forall i :: 0 <= i < |s| ==> '0' <= s[i] <= '9'
  {
    if s == [] then 0 else ParseNat(s[..|s| - 1]) * 10 + (s[|s| - 1] as int - '0' as int)
  }

  /** The printed number reads back as the number. */
  lemma {:induction false} ParseNatToString(n: nat)
    ensures ParseNat(NatToString(n)) == n
    decreases n
  {
    var s := NatToString(n);
    if n >= 10 {
      ParseNatToString(n / 10);
      assert s[..|s| - 1] == NatToString(n / 10);
    }
  }

  /** `parts.join(sep)` */
  function Join(parts: seq<string>, sep: string): string {
    if |parts| == 0 then "" else if |parts| == 1 then parts[0] else parts[0] + sep + Join(parts[1..], sep)
  }

  /** `JSON.stringify(parameters)` with each parameter given by its JSON text. */
  function Json(parameters: seq<string>): string {
    "[" + Join(parameters, ",") + "]"
  }

  // ---------------------------------------------------------------------
  // The test point of one unit
  // ---------------------------------------------------------------------

  /** The skip or todo directive; a truthy `skip` wins over `todo`. */
  function Directive(t: Test): string {
    if t.skip.Truthy() then
      " # skip" + (if t.skip.Reason? then " " + EscapeTapOutput(t.skip.text) else "")
    else if t.todo.Truthy() then
      " # todo" + (if t.todo.Reason? then " " + EscapeTapOutput(t.todo.text) else "")
    else ""
  }

  function TestPoint(isOk: bool, testNumber: nat, t: Test): string {
    (if isOk then "" else "not ") + "ok " + NatToString(testNumber) + " - " + EscapeTapOutput(t.name) + Directive(t) + "\n"
  }

  datatype FieldKey = DurationKey | ErrorKey | ParametersKey | RepeatIndexKey | RetryIndexKey | StatusKey

  /** The position of each key in the YAML block. */
  function Rank(k: FieldKey): nat {
    match k
    case DurationKey => 0
    case ErrorKey => 1
    case ParametersKey => 2
    case RepeatIndexKey => 3
    case RetryIndexKey => 4
    case StatusKey => 5
  }

  function KeyName(k: FieldKey): string {
    match k
    case DurationKey => "duration"
    case ErrorKey => "error"
    case ParametersKey => "parameters"
    case RepeatIndexKey => "repeatIndex"
    case RetryIndexKey => "retryIndex"
    case StatusKey => "status"
  }

  datatype Field = Field(key: FieldKey, value: string) {
    function Text(): string { KeyName(key) + ": " + value }
  }

  function ErrorMessage(t: Test, r: TestResult): string {
    if r.hasError then (if r.error.Some? then r.error.value.rendered else "undefined")
    else if r.status == TimedOut then IntToString(t.timeout) + "ms timeout expired"
    else ""
  }

  /** When each key of the YAML block is written. */
  predicate Shows(k: FieldKey, t: Test, repeatIndex: int, retryIndex: int, r: TestResult) {
    match k
    case DurationKey => true
    case ErrorKey => r.hasError || r.status == TimedOut
    case ParametersKey => |t.parameters| > 0
    case RepeatIndexKey => repeatIndex > 1
    case RetryIndexKey => retryIndex > 0
    case StatusKey => r.status == HasNoBody || r.status == TimedOut
  }

  function FieldValue(k: FieldKey, t: Test, repeatIndex: int, retryIndex: int, r: TestResult): string {
    match k
    case DurationKey => NatToString(r.duration)
    case ErrorKey => "|\n    " + ReplaceAll(ErrorMessage(t, r), IsLineFeed, "\n    ")
    case ParametersKey => Json(t.parameters)
    case RepeatIndexKey => IntToString(repeatIndex)
    case RetryIndexKey => IntToString(retryIndex)
    case StatusKey => StatusName(r.status)
  }

  const Keys: seq<FieldKey> := [DurationKey, ErrorKey, ParametersKey, RepeatIndexKey, RetryIndexKey, StatusKey]

  /** The keys among `keys` that are written, in the same order. */
  function ShownKeys(keys: seq<FieldKey>, t: Test, repeatIndex: int, retryIndex: int, r: TestResult): seq<FieldKey> {
    if keys == [] then []
    else
      (if Shows(keys[0], t, repeatIndex, retryIndex, r) then [keys[0]] else [])
      + ShownKeys(keys[1..], t, repeatIndex, retryIndex, r)
  }

  /** The fields written for the keys among `keys`, in the same order. */
  function FieldsOf(keys: seq<FieldKey>, t: Test, repeatIndex: int, retryIndex: int, r: TestResult): seq<Field> {
    if keys == [] then []
    else
      (if Shows(keys[0], t, repeatIndex, retryIndex, r) then [Field(keys[0], FieldValue(keys[0], t, repeatIndex, retryIndex, r))] else [])
      + FieldsOf(keys[1..], t, repeatIndex, retryIndex, r)
  }

  /** The `fields` of `getTestTapOutput`, in the order the source pushes them. */
  function Fields(t: Test, repeatIndex: int, retryIndex: int, r: TestResult): seq<Field> {
    FieldsOf(Keys, t, repeatIndex, retryIndex, r)
  }

  /** The fields carry the shown keys, one each, in order, each with its value. */
  lemma {:induction false} FieldKeys(keys: seq<FieldKey>, t: Test, repeatIndex: int, retryIndex: int, r: TestResult)
    ensures var fs, ks := FieldsOf(keys, t, repeatIndex, retryIndex, r), ShownKeys(keys, t, repeatIndex, retryIndex, r);
      && |fs| == |ks|
      && forall i :: 0 <= i < |fs| ==> fs[i] == Field(ks[i], FieldValue(ks[i], t, repeatIndex, retryIndex, r))
  {
    if keys != [] {
      FieldKeys(keys[1..], t, repeatIndex, retryIndex, r);
    }
  }

  function Texts(fields: seq<Field>): seq<string> {
    if fields == [] then [] else [fields[0].Text()] + Texts(fields[1..])
  }

  /** `getTestTapOutput`: the test point and, unless it is an ok unit printed on one line, its YAML block. */
  function TestTapOutput(oneline: bool, testNumber: nat, t: Test, repeatIndex: int, retryIndex: int, r: TestResult): string {
    if r.status == Interrupted || r.status == WasNotRunInTime then ""
    else
      var isOk := !IsFailure(r.status);
      var point := TestPoint(isOk, testNumber, t);
      if isOk && oneline then point
      else point + "  ---\n  " + Join(Texts(Fields(t, repeatIndex, retryIndex, r)), "\n  ") + "\n  ...\n"
  }

  predicate StartsWith(s: string, prefix: string) {
    |prefix| <= |s| && s[..|prefix|] == prefix
  }

  predicate KeysInOrder(ks: seq<FieldKey>) {
    forall i, j :: 0 <= i < j < |ks| ==> Rank(ks[i]) < Rank(ks[j])
  }

  lemma {:induction false} ShownKeysShape(keys: seq<FieldKey>, t: Test, repeatIndex: int, retryIndex: int, r: TestResult)
    requires KeysInOrder(keys)
    ensures KeysInOrder(ShownKeys(keys, t, repeatIndex, retryIndex, r))
    ensures forall k :: k in ShownKeys(keys, t, repeatIndex, retryIndex, r) <==> k in keys && Shows(k, t, repeatIndex, retryIndex, r)
  {
    if keys != [] {
      var tail := keys[1..];
      assert KeysInOrder(tail) by {
        forall i, j | 0 <= i < j < |tail|
          ensures Rank(tail[i]) < Rank(tail[j])
        {
          assert tail[i] == keys[i + 1] && tail[j] == keys[j + 1];
        }
      }
      ShownKeysShape(tail, t, repeatIndex, retryIndex, r);
      var rest := ShownKeys(tail, t, repeatIndex, retryIndex, r);
      assert forall k :: k in keys <==> k == keys[0] || k in tail;
      forall i | 0 <= i < |rest|
        ensures Rank(keys[0]) < Rank(rest[i])
      {
        assert rest[i] in rest;
        var j :| 0 <= j < |tail| && tail[j] == rest[i];
        assert keys[j + 1] == tail[j];
      }
    }
  }

  lemma ShownKeysOfAll(t: Test, repeatIndex: int, retryIndex: int, r: TestResult)
    ensures KeysInOrder(ShownKeys(Keys, t, repeatIndex, retryIndex, r))
    ensures forall k :: k in ShownKeys(Keys, t, repeatIndex, retryIndex, r) <==> Shows(k, t, repeatIndex, retryIndex, r)
  {
    assert KeysInOrder(Keys);
    ShownKeysShape(Keys, t, repeatIndex, retryIndex, r);
    assert Keys[0] == DurationKey && Keys[1] == ErrorKey && Keys[2] == ParametersKey;
    assert Keys[3] == RepeatIndexKey && Keys[4] == RetryIndexKey && Keys[5] == StatusKey;
  }

  /**
   * The YAML block lists each key exactly when the source writes it, in the
   * order duration, error, parameters, repeatIndex, retryIndex, status.
   */
  lemma FieldsInOrder(t: Test, repeatIndex: int, retryIndex: int, r: TestResult)
    ensures var fs := Fields(t, repeatIndex, retryIndex, r);
      forall i, j :: 0 <= i < j < |fs| ==> Rank(fs[i].key) < Rank(fs[j].key)
    ensures var fs := Fields(t, repeatIndex, retryIndex, r);
      forall k: FieldKey :: (exists i :: 0 <= i < |fs| && fs[i].key == k) <==> Shows(k, t, repeatIndex, retryIndex, r)
  {
    var fs := Fields(t, repeatIndex, retryIndex, r);
    var ks := ShownKeys(Keys, t, repeatIndex, retryIndex, r);
    ShownKeysOfAll(t, repeatIndex, retryIndex, r);
    FieldKeys(Keys, t, repeatIndex, retryIndex, r);
    forall k: FieldKey
      ensures (exists i :: 0 <= i < |fs| && fs[i].key == k) <==> k in ks
    {
      if k in ks {
        var i :| 0 <= i < |ks| && ks[i] == k;
        assert fs[i].key == k;
      }
    }
  }

  /**
   * The shape of a test point: nothing for an interrupted or not-run-in-time
   * unit; otherwise a line that starts with `not ok` exactly for a failure
   * and `ok` otherwise, standing alone exactly for an ok unit when one-line
   * output is chosen.
   */
  lemma TestTapOutputShape(oneline: bool, testNumber: nat, t: Test, repeatIndex: int, retryIndex: int, r: TestResult)
    ensures var out := TestTapOutput(oneline, testNumber, t, repeatIndex, retryIndex, r);
      && (out == "" <==> r.status == Interrupted || r.status == WasNotRunInTime)
      && (out != "" ==> (StartsWith(out, "not ok ") <==> IsFailure(r.status)))
      && (out != "" ==> (StartsWith(out, "ok ") <==> !IsFailure(r.status)))
      && (out != "" ==> StartsWith(out, TestPoint(!IsFailure(r.status), testNumber, t)))
      && (out != "" ==> (out == TestPoint(!IsFailure(r.status), testNumber, t) <==> !IsFailure(r.status) && oneline))
  {
    var out := TestTapOutput(oneline, testNumber, t, repeatIndex, retryIndex, r);
    var isOk := !IsFailure(r.status);
    var point := TestPoint(isOk, testNumber, t);
    TestPointStart(isOk, testNumber, t);
    if r.status != Interrupted && r.status != WasNotRunInTime {
      TestTapOutputStartsWithPoint(oneline, testNumber, t, repeatIndex, retryIndex, r);
      StartsWithTrans(out, point, "ok ");
      StartsWithTrans(out, point, "not ok ");
    }
  }

  lemma TestTapOutputStartsWithPoint(oneline: bool, testNumber: nat, t: Test, repeatIndex: int, retryIndex: int, r: TestResult)
    requires r.status != Interrupted && r.status != WasNotRunInTime
    ensures var out := TestTapOutput(oneline, testNumber, t, repeatIndex, retryIndex, r);
      && StartsWith(out, TestPoint(!IsFailure(r.status), testNumber, t))
      && (out == TestPoint(!IsFailure(r.status), testNumber, t) <==> !IsFailure(r.status) && oneline)
  {
    var isOk := !IsFailure(r.status);
    var point := TestPoint(isOk, testNumber, t);
    if !(isOk && oneline) {
      var block := "  ---\n  " + Join(Texts(Fields(t, repeatIndex, retryIndex, r)), "\n  ") + "\n  ...\n";
      StartsWithAppend(point, block);
    } else {
      StartsWithAppend(point, "");
    }
  }

  lemma StartsWithAppend(a: string, b: string)
    ensures StartsWith(a + b, a)
    ensures |b| > 0 ==> a + b != a
  {
    assert (a + b)[..|a|] == a;
  }

  lemma StartsWithTrans(s: string, p: string, q: string)
    requires StartsWith(s, p)
    ensures |q| <= |p| ==> (StartsWith(s, q) <==> StartsWith(p, q))
  {
    if |q| <= |p| {
      assert s[..|q|] == p[..|q|];
    }
  }

  lemma TestPointStart(isOk: bool, testNumber: nat, t: Test)
    ensures var point := TestPoint(isOk, testNumber, t);
      && |point| >= 7
      && (StartsWith(point, "ok ") <==> isOk)
      && (StartsWith(point, "not ok ") <==> !isOk)
  {
    var head := (if isOk then "" else "not ") + "ok ";
    var number := head + NatToString(testNumber);
    var named := number + " - " + EscapeTapOutput(t.name);
    var point := named + Directive(t) + "\n";
    StartsWithAppend(head, NatToString(testNumber));
    StartsWithExtend(number, head, " - ");
    StartsWithExtend(number + " - ", head, EscapeTapOutput(t.name));
    StartsWithExtend(named, head, Directive(t));
    StartsWithExtend(named + Directive(t), head, "\n");
    assert point[0] == head[0];
  }

  lemma StartsWithExtend(s: string, p: string, x: string)
    requires StartsWith(s, p)
    ensures StartsWith(s + x, p)
  {
    assert (s + x)[..|p|] == s[..|p|];
  }

  /** A truthy `skip` gives a skip directive even when `todo` is set; `todo` is written only without one. */
  lemma DirectivePrefersSkip(t: Test)
    ensures t.skip.Truthy() ==> StartsWith(Directive(t), " # skip")
    ensures !t.skip.Truthy() && t.todo.Truthy() ==> StartsWith(Directive(t), " # todo")
    ensures !t.skip.Truthy() && !t.todo.Truthy() ==> Directive(t) == ""
  {
  }

  // ---------------------------------------------------------------------
  // The plan line of a run
  // ---------------------------------------------------------------------

  function BailOut(runStatus: RunStatus): string {
    match runStatus
    case InterruptedBy(cause) => "Bail out! The suite run was interrupted by " + CauseName(cause) + ".\n"
    case _ => ""
  }

  /** The part of the plan line for one counter: its status and its count. */
  function Part(c: Counters, k: Status): string {
    StatusName(k) + ": " + NatToString(c.Get(k))
  }

  function CounterParts(c: Counters, keys: seq<Status>): seq<string> {
    if keys == [] then []
    else
      (if c.Get(keys[0]) > 0 then [Part(c, keys[0])] else [])
      + CounterParts(c, keys[1..])
  }

  /** The plan line closing the TAP text: the number of recorded units and the non-zero counters. */
  function PlanLine(name: string, c: Counters, testsInRun: nat): string {
    var counters := Join(CounterParts(c, StatusOrder), ", ");
    "1.." + NatToString(testsInRun) + " # " + EscapeTapOutput(name)
      + " (" + (if counters == "" then "no tests were run" else counters) + ")\n"
  }

  /** `getRunResultTapOutput` */
  function RunResultTapOutput(name: string, runStatus: RunStatus, c: Counters, testsInRun: nat): string {
    BailOut(runStatus) + PlanLine(name, c, testsInRun)
  }

  /** The `tapOutput` a run result starts with, before the run reaches its end. */
  function InitialTapOutput(name: string): string {
    "Bail out! The suite run did not work to the end.\n1..0 # " + EscapeTapOutput(name) + " (no tests were run)\n"
  }

  lemma {:induction false} CounterPartsEmpty(c: Counters, keys: seq<Status>)
    ensures CounterParts(c, keys) == [] <==> forall k :: k in keys ==> c.Get(k) == 0
    ensures forall i :: 0 <= i < |CounterParts(c, keys)| ==> CounterParts(c, keys)[i] != ""
  {
    if keys != [] {
      CounterPartsEmpty(c, keys[1..]);
      assert forall k :: k in keys ==> k == keys[0] || k in keys[1..];
    }
  }

  /** A counter's part is listed iff the counter is among the keys and positive. */
  lemma {:induction false} CounterPartsListed(c: Counters, keys: seq<Status>, k: Status)
    ensures Part(c, k) in CounterParts(c, keys) <==> k in keys && c.Get(k) > 0
  {
    if keys != [] {
      CounterPartsListed(c, keys[1..], k);
      PartsDiffer(c, k, keys[0]);
      assert k in keys <==> k == keys[0] || k in keys[1..];
    }
  }

  /** Parts of two different statuses differ, already in their first character. */
  lemma PartsDiffer(c: Counters, k: Status, l: Status)
    ensures Part(c, k) == Part(c, l) ==> k == l
  {
    assert Part(c, k)[0] == StatusName(k)[0];
    assert Part(c, l)[0] == StatusName(l)[0];
  }

  lemma {:induction false} JoinEmpty(parts: seq<string>, sep: string)
    requires forall i :: 0 <= i < |parts| ==> parts[i] != ""
    ensures Join(parts, sep) == "" <==> parts == []
  {
    if |parts| > 1 {
      assert |Join(parts, sep)| >= |parts[0]| > 0;
    }
  }

  lemma NoCounters(c: Counters)
    ensures CounterParts(c, StatusOrder) == [] <==> c.Total() == 0
  {
    CounterPartsEmpty(c, StatusOrder);
    forall k: Status
      ensures k in StatusOrder
    {
      match k
      case Failed => assert StatusOrder[0] == k;
      case HasNoBody => assert StatusOrder[1] == k;
      case Interrupted => assert StatusOrder[2] == k;
      case Passed => assert StatusOrder[3] == k;
      case Skipped => assert StatusOrder[4] == k;
      case TimedOut => assert StatusOrder[5] == k;
      case WasNotRunInTime => assert StatusOrder[6] == k;
    }
    if c.Total() != 0 {
      assert c.Get(Failed) > 0 || c.Get(HasNoBody) > 0 || c.Get(Interrupted) > 0 || c.Get(Passed) > 0
        || c.Get(Skipped) > 0 || c.Get(TimedOut) > 0 || c.Get(WasNotRunInTime) > 0;
    }
  }

  lemma PlanLineStart(name: string, c: Counters, testsInRun: nat)
    ensures StartsWith(PlanLine(name, c, testsInRun), "1.." + NatToString(testsInRun) + " # ")
    ensures !StartsWith(PlanLine(name, c, testsInRun), "Bail out!")
  {
    var head := "1.." + NatToString(testsInRun) + " # ";
    var counters := Join(CounterParts(c, StatusOrder), ", ");
    var rest := EscapeTapOutput(name) + " (" + (if counters == "" then "no tests were run" else counters) + ")\n";
    assert PlanLine(name, c, testsInRun) == head + rest;
    StartsWithAppend(head, rest);
    assert (head + rest)[0] == '1';
  }

  lemma BailOutStart(runStatus: RunStatus)
    ensures runStatus.InterruptedBy? ==> StartsWith(BailOut(runStatus), "Bail out!")
    ensures !runStatus.InterruptedBy? ==> BailOut(runStatus) == ""
  {
    if runStatus.InterruptedBy? {
      var tail := " The suite run was interrupted by " + CauseName(runStatus.cause) + ".\n";
      assert BailOut(runStatus) == "Bail out!" + tail;
      StartsWithAppend("Bail out!", tail);
    }
  }

  /**
   * The plan line lists the non-zero counters and says "no tests were run"
   * exactly when every counter is zero; a bail-out line comes first exactly
   * when the run was interrupted.
   */
  lemma RunResultTapOutputShape(name: string, runStatus: RunStatus, c: Counters, testsInRun: nat)
    ensures Join(CounterParts(c, StatusOrder), ", ") == "" <==> c.Total() == 0
    ensures StartsWith(RunResultTapOutput(name, runStatus, c, testsInRun), "Bail out!") <==> runStatus.InterruptedBy?
    ensures !runStatus.InterruptedBy? ==> StartsWith(RunResultTapOutput(name, runStatus, c, testsInRun), "1.." + NatToString(testsInRun) + " # ")
  {
    NoCounters(c);
    CounterPartsEmpty(c, StatusOrder);
    JoinEmpty(CounterParts(c, StatusOrder), ", ");
    var bail := BailOut(runStatus);
    var plan := PlanLine(name, c, testsInRun);
    BailOutStart(runStatus);
    PlanLineStart(name, c, testsInRun);
    if runStatus.InterruptedBy? {
      StartsWithAppend(bail, plan);
      StartsWithTrans(bail + plan, bail, "Bail out!");
    } else {
      assert bail + plan == plan;
    }
  }
}
