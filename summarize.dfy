/**
 * summarize.py: what a run recording says about a run (its status, the
 * tool calls made, the files read and written) and the grouping of many
 * summaries by one attribute.  A recording is an abstract record holding
 * just the fields `summarize` reads.
 */
module Summarize {
  import opened Wrappers

  /** The arguments of a recorded call that `summarize` looks at; `None` when absent. */
  datatype CallArgs = CallArgs(path: Option<string>, paths: Option<seq<string>>)

  /** A recorded `function_call`. */
  datatype FunctionCall = FunctionCall(name: string, args: CallArgs)

  /** A part of a history entry; `functionCall` is `None` when the recorded value is falsy. */
  datatype Part = Part(functionCall: Option<FunctionCall>)

  /** A history entry; `parts` is `None` when the key is missing or its value is `None`. */
  datatype Entry = Entry(parts: Option<seq<Part>>)

  /** A run recording: falsy history entries are `None`. */
  datatype Record = Record(
    history: seq<Option<Entry>>,
    completed: bool,
    successful: Option<bool>,
    task: string,
    model: string,
    temperature: real,
    duration: real,
    totalTokenCount: int)

  /** The `Summary` dataclass. */
  datatype Summary = Summary(
    path: string,
    task: string,
    status: string,
    duration: real,
    tokens: int,
    steps: nat,
    model: string,
    temperature: real,
    filesRead: set<string>,
    filesWritten: set<string>,
    toolsUsed: map<string, nat>)

  // ---------------------------------------------------------------------
  // Status

  /** The status line of a run. */
  function Status(completed: bool, successful: Option<bool>): (r: string)
    ensures r == "INCOMPLETE" <==> !completed
    ensures r == "SUCCESS" <==> completed && successful == Some(true)
    ensures r == "FAILURE" <==> completed && successful != Some(true)
    ensures r in {"INCOMPLETE", "SUCCESS", "FAILURE"}
  {
    if !completed then "INCOMPLETE"
    else if successful == Some(true) then "SUCCESS"
    else "FAILURE"
  }

  // ---------------------------------------------------------------------
  // Function calls

  /** The calls in the parts of one entry, in order. */
  function PartCalls(parts: seq<Part>): seq<FunctionCall>
  {
    if parts == [] then []
    else (if parts[0].functionCall.Some? then [parts[0].functionCall.value] else []) + PartCalls(parts[1..])
  }

  /** The calls of one history entry: none for a falsy entry or missing or empty parts. */
  function EntryCalls(h: Option<Entry>): seq<FunctionCall>
  {
    match h
    case None => []
    case Some(e) => if e.parts.None? || e.parts.value == [] then [] else PartCalls(e.parts.value)
  }

  /** `_function_calls(history)`, as a list. */
  function FunctionCalls(history: seq<Option<Entry>>): seq<FunctionCall>
  {
    if history == [] then [] else EntryCalls(history[0]) + FunctionCalls(history[1..])
  }

  /** The part at `(i, j)` of the history holds the call `c`. */
  predicate CallAt(history: seq<Option<Entry>>, i: int, j: int, c: FunctionCall)
  {
    && 0 <= i < |history| && history[i].Some? && history[i].value.parts.Some?
    && 0 <= j < |history[i].value.parts.value|
    && history[i].value.parts.value[j].functionCall == Some(c)
  }

  lemma {:induction false} PartCallsMembers(parts: seq<Part>, c: FunctionCall)
    ensures c in PartCalls(parts) <==> exists j :: 0 <= j < |parts| && parts[j].functionCall == Some(c)
    decreases |parts|
  {
    if parts != [] {
      PartCallsMembers(parts[1..], c);
      if exists j :: 0 <= j < |parts| && parts[j].functionCall == Some(c) {
        var j :| 0 <= j < |parts| && parts[j].functionCall == Some(c);
        if j > 0 {
          assert parts[1..][j - 1] == parts[j];
        }
      }
      if exists j :: 0 <= j < |parts[1..]| && parts[1..][j].functionCall == Some(c) {
        var j :| 0 <= j < |parts[1..]| && parts[1..][j].functionCall == Some(c);
        assert parts[j + 1] == parts[1..][j];
      }
    }
  }

  /**
   * `_function_calls` yields a call exactly when some part of some truthy
   * entry with truthy parts holds it.
   */
  lemma {:induction false} FunctionCallsMembers(history: seq<Option<Entry>>, c: FunctionCall)
    ensures c in FunctionCalls(history) <==> exists i, j :: CallAt(history, i, j, c)
    decreases |history|
  {
    if history != [] {
      FunctionCallsMembers(history[1..], c);
      var h := history[0];
      if h.Some? && h.value.parts.Some? {
        PartCallsMembers(h.value.parts.value, c);
      }
      if exists i, j :: CallAt(history, i, j, c) {
        var i, j :| CallAt(history, i, j, c);
        if i > 0 {
          assert CallAt(history[1..], i - 1, j, c);
        } else {
          assert h.value.parts.value[j].functionCall == Some(c);
        }
      }
      if exists i, j :: CallAt(history[1..], i, j, c) {
        var i, j :| CallAt(history[1..], i, j, c);
        assert CallAt(history, i + 1, j, c);
      }
      if c in EntryCalls(h) {
        var j :| 0 <= j < |h.value.parts.value| && h.value.parts.value[j].functionCall == Some(c);
        assert CallAt(history, 0, j, c);
      }
    }
  }

  /** The calls of a history are those of its first half followed by those of its second: history order is kept. */
  lemma {:induction false} FunctionCallsAppend(h1: seq<Option<Entry>>, h2: seq<Option<Entry>>)
    ensures FunctionCalls(h1 + h2) == FunctionCalls(h1) + FunctionCalls(h2)
    decreases |h1|
  {
    if h1 == [] {
      assert h1 + h2 == h2;
    } else {
      var h := h1 + h2;
      assert h[0] == h1[0];
      assert h[1..] == h1[1..] + h2;
      FunctionCallsAppend(h1[1..], h2);
      calc {
        FunctionCalls(h);
        EntryCalls(h1[0]) + FunctionCalls(h1[1..] + h2);
        EntryCalls(h1[0]) + (FunctionCalls(h1[1..]) + FunctionCalls(h2));
        FunctionCalls(h1) + FunctionCalls(h2);
      }
    }
  }

  // ---------------------------------------------------------------------
  // Tool counts

  /** `Counter(names)` */
  function Tally(names: seq<string>): (r: map<string, nat>)
    ensures forall k :: k in r ==> r[k] > 0
  {
    if names == [] then map[]
    else
      var m := Tally(names[..|names| - 1]);
      var last := names[|names| - 1];
      m[last := (if last in m then m[last] else 0) + 1]
  }

  /**
   * The counter has a key for each name used and counts each name as often
   * as it occurs, so its counts add up to the number of calls.
   */
  lemma {:induction false} TallyCounts(names: seq<string>)
    ensures forall k :: k in Tally(names) <==> k in names
    ensures forall k :: k in Tally(names) ==> Tally(names)[k] == multiset(names)[k]
  {
    if names != [] {
      var init := names[..|names| - 1];
      var last := names[|names| - 1];
      TallyCounts(init);
      assert names == init + [last];
      assert multiset(names) == multiset(init) + multiset{last};
      assert forall k :: k in names <==> k in init || k == last;
    }
  }

  /** The names of the calls, in order. */
  function Names(calls: seq<FunctionCall>): (r: seq<string>)
    ensures |r| == |calls| && forall i :: 0 <= i < |calls| ==> r[i] == calls[i].name
  {
    seq(|calls|, i requires 0 <= i < |calls| => calls[i].name)
  }

  // ---------------------------------------------------------------------
  // Files read and written

  /** `args.get("path", "")` */
  function PathArg(c: FunctionCall): string
  {
    match c.args.path
    case Some(p) => p
    case None => ""
  }

  /** `args.get("paths", [])` */
  function PathsArg(c: FunctionCall): seq<string>
  {
    match c.args.paths
    case Some(ps) => ps
    case None => []
  }

  /** The files one call reads, according to its name and arguments. */
  function ReadBy(c: FunctionCall): set<string>
  {
    if c.name == "read_file" then {PathArg(c)}
    else if c.name == "read_files" then set p | p in PathsArg(c)
    else {}
  }

  /** The files one call writes. */
  function WrittenBy(c: FunctionCall): set<string>
  {
    if c.name == "write_file" then {PathArg(c)} else {}
  }

  /** The files read by the calls, as the loop accumulates them. */
  function FilesRead(calls: seq<FunctionCall>): set<string>
  {
    if calls == [] then {} else FilesRead(calls[..|calls| - 1]) + ReadBy(calls[|calls| - 1])
  }

  /** The files written by the calls, as the loop accumulates them. */
  function FilesWritten(calls: seq<FunctionCall>): set<string>
  {
    if calls == [] then {} else FilesWritten(calls[..|calls| - 1]) + WrittenBy(calls[|calls| - 1])
  }

  /** Some call among `calls` reads `p`. */
  predicate SomeCallReads(calls: seq<FunctionCall>, p: string)
  {
    exists i :: 0 <= i < |calls| && p in ReadBy(calls[i])
  }

  /** Some call among `calls` writes `p`. */
  predicate SomeCallWrites(calls: seq<FunctionCall>, p: string)
  {
    exists i :: 0 <= i < |calls| && p in WrittenBy(calls[i])
  }

  /**
   * `files_read` is the union of the `path` of every `read_file` call and
   * the `paths` of every `read_files` call; `files_written` is the set of
   * `path`s of the `write_file` calls; other tools contribute nothing.
   */
  lemma {:induction false} FilesMembers(calls: seq<FunctionCall>, p: string)
    ensures p in FilesRead(calls) <==> SomeCallReads(calls, p)
    ensures p in FilesWritten(calls) <==> SomeCallWrites(calls, p)
    decreases |calls|
  {
    if calls != [] {
      var init := calls[..|calls| - 1];
      FilesMembers(init, p);
      if SomeCallReads(calls, p) {
        var i :| 0 <= i < |calls| && p in ReadBy(calls[i]);
        if i < |init| {
          assert init[i] == calls[i];
        }
      }
      if SomeCallReads(init, p) {
        var i :| 0 <= i < |init| && p in ReadBy(init[i]);
        assert calls[i] == init[i];
      }
      if SomeCallWrites(calls, p) {
        var i :| 0 <= i < |calls| && p in WrittenBy(calls[i]);
        if i < |init| {
          assert init[i] == calls[i];
        }
      }
      if SomeCallWrites(init, p) {
        var i :| 0 <= i < |init| && p in WrittenBy(init[i]);
        assert calls[i] == init[i];
      }
    }
  }

  /** One more call extends the files read and written by what that call reads and writes. */
  lemma FilesStep(calls: seq<FunctionCall>, i: nat)
    requires i < |calls|
    ensures FilesRead(calls[..i + 1]) == FilesRead(calls[..i]) + ReadBy(calls[i])
    ensures FilesWritten(calls[..i + 1]) == FilesWritten(calls[..i]) + WrittenBy(calls[i])
  {
    assert calls[..i + 1][..i] == calls[..i];
  }

  /** The body of the loop over the calls: adds the files one call reads or writes. */
  method AddFiles(c: FunctionCall, filesRead: set<string>, filesWritten: set<string>)
    returns (read': set<string>, written': set<string>)
    ensures read' == filesRead + ReadBy(c) && written' == filesWritten + WrittenBy(c)
  {
    read', written' := filesRead, filesWritten;
    if c.name == "read_file" {
      read' := read' + {PathArg(c)};
    } else if c.name == "read_files" {
      read' := read' + set p | p in PathsArg(c);
    } else if c.name == "write_file" {
      written' := written' + {PathArg(c)};
    }
  }

  /**
   * `summarize(path)` on the loaded record `r`: the status, the per-tool
   * counts, the files read and written (filled in by a loop over the
   * calls), and the fields copied from the record.
   */
  method Summarize(path: string, r: Record) returns (s: Summary)
    ensures s.status == Status(r.completed, r.successful)
    ensures s.toolsUsed == Tally(Names(FunctionCalls(r.history)))
    ensures s.filesRead == FilesRead(FunctionCalls(r.history))
    ensures s.filesWritten == FilesWritten(FunctionCalls(r.history))
    ensures s.steps == |r.history| && s.tokens == r.totalTokenCount
    ensures s.path == path && s.task == r.task && s.model == r.model
    ensures s.temperature == r.temperature && s.duration == r.duration
  {
    var status := "INCOMPLETE";
    if r.completed {
      status := if r.successful == Some(true) then "SUCCESS" else "FAILURE";
    }
    var calls := FunctionCalls(r.history);
    var toolsUsed := Tally(Names(calls));
    var filesRead: set<string> := {};
    var filesWritten: set<string> := {};
    for i := 0 to |calls|
      invariant filesRead == FilesRead(calls[..i])
      invariant filesWritten == FilesWritten(calls[..i])
    {
      FilesStep(calls, i);
      filesRead, filesWritten := AddFiles(calls[i], filesRead, filesWritten);
    }
    assert calls[..|calls|] == calls;
    s := Summary(path, r.task, status, r.duration, r.totalTokenCount, |r.history|, r.model,
                 r.temperature, filesRead, filesWritten, toolsUsed);
  }

  // ---------------------------------------------------------------------
  // Grouping

  /** The attributes `--group-by` accepts. */
  datatype GroupBy = ByStatus | ByModel | ByTemperature

  /** A value of one of those attributes. */
  datatype Key = Text(text: string) | Number(x: real)

  /** `getattr(s, attr)` */
  function KeyOf(s: Summary, attr: GroupBy): Key
  {
    match attr
    case ByStatus => Text(s.status)
    case ByModel => Text(s.model)
    case ByTemperature => Number(s.temperature)
  }

  /** Python's `<` on strings: lexicographic by code point. */
  predicate StrLess(a: string, b: string)
    decreases |a|
  {
    if a == [] then b != []
    else if b == [] then false
    else if a[0] != b[0] then a[0] < b[0]
    else StrLess(a[1..], b[1..])
  }

  /**
   * `<` on keys.  Keys of one attribute are all strings or all numbers;
   * numbers are put first only to make the order total.
   */
  predicate KeyLess(a: Key, b: Key)
  {
    match (a, b)
    case (Text(x), Text(y)) => StrLess(x, y)
    case (Number(x), Number(y)) => x < y
    case (Number(_), Text(_)) => true
    case (Text(_), Number(_)) => false
  }

  lemma {:induction false} StrLessIrreflexive(a: string)
    ensures !StrLess(a, a)
    decreases |a|
  {
    if a != [] {
      StrLessIrreflexive(a[1..]);
    }
  }

  lemma {:induction false} StrLessTransitive(a: string, b: string, c: string)
    requires StrLess(a, b) && StrLess(b, c)
    ensures StrLess(a, c)
    decreases |a|
  {
    if a != [] && a[0] == b[0] && b[0] == c[0] {
      StrLessTransitive(a[1..], b[1..], c[1..]);
    }
  }

  lemma {:induction false} StrLessTotal(a: string, b: string)
    ensures a == b || StrLess(a, b) || StrLess(b, a)
    decreases |a|
  {
    if a != [] && b != [] && a[0] == b[0] {
      StrLessTotal(a[1..], b[1..]);
      if a[1..] == b[1..] {
        assert a == [a[0]] + a[1..] && b == [b[0]] + b[1..];
      }
    }
  }

  /** `KeyLess` is a strict total order, so sorting distinct keys has one answer. */
  lemma KeyLessOrder(a: Key, b: Key, c: Key)
    ensures !KeyLess(a, a)
    ensures KeyLess(a, b) && KeyLess(b, c) ==> KeyLess(a, c)
    ensures a == b || KeyLess(a, b) || KeyLess(b, a)
  {
    if a.Text? {
      StrLessIrreflexive(a.text);
    }
    if a.Text? && b.Text? {
      StrLessTotal(a.text, b.text);
      if c.Text? && KeyLess(a, b) && KeyLess(b, c) {
        StrLessTransitive(a.text, b.text, c.text);
      }
    }
  }

  /** Strictly increasing: sorted with no repeats. */
  predicate StrictlySorted(ks: seq<Key>)
  {
    forall i, j :: 0 <= i < j < |ks| ==> KeyLess(ks[i], ks[j])
  }

  /** Inserts `k` into the strictly sorted `ks` unless it is there already. */
  function Insert(ks: seq<Key>, k: Key): seq<Key>
  {
    if ks == [] then [k]
    else if ks[0] == k then ks
    else if KeyLess(k, ks[0]) then [k] + ks
    else [ks[0]] + Insert(ks[1..], k)
  }

  lemma {:induction false} InsertSpec(ks: seq<Key>, k: Key)
    requires StrictlySorted(ks)
    ensures StrictlySorted(Insert(ks, k))
    ensures forall x :: x in Insert(ks, k) <==> x in ks || x == k
    decreases |ks|
  {
    if ks != [] && ks[0] != k {
      KeyLessOrder(k, ks[0], ks[0]);
      if KeyLess(k, ks[0]) {
        var r := [k] + ks;
        forall i, j | 0 <= i < j < |r|
          ensures KeyLess(r[i], r[j])
        {
          if i == 0 && j > 1 {
            KeyLessOrder(k, ks[0], ks[j - 1]);
          }
        }
      } else {
        var rest := ks[1..];
        InsertSpec(rest, k);
        var r := [ks[0]] + Insert(rest, k);
        forall i, j | 0 <= i < j < |r|
          ensures KeyLess(r[i], r[j])
        {
          if i == 0 {
            var x := r[j];
            assert x in Insert(rest, k);
            if x != k {
              var m :| 0 <= m < |rest| && rest[m] == x;
              assert ks[m + 1] == x;
            }
          }
        }
        assert forall x :: x in ks <==> x == ks[0] || x in rest;
      }
    }
  }

  /** `sorted(set(keys))` */
  function SortedDistinct(keys: seq<Key>): seq<Key>
  {
    if keys == [] then [] else Insert(SortedDistinct(keys[..|keys| - 1]), keys[|keys| - 1])
  }

  /** The groups are the distinct attribute values, each once, in increasing order. */
  lemma {:induction false} SortedDistinctSpec(keys: seq<Key>)
    ensures StrictlySorted(SortedDistinct(keys))
    ensures forall k :: k in SortedDistinct(keys) <==> k in keys
  {
    if keys != [] {
      var init := keys[..|keys| - 1];
      SortedDistinctSpec(init);
      InsertSpec(SortedDistinct(init), keys[|keys| - 1]);
      assert keys == init + [keys[|keys| - 1]];
    }
  }

  /** The attribute values of the summaries, in order. */
  function Keys(summaries: seq<Summary>, attr: GroupBy): (r: seq<Key>)
    ensures |r| == |summaries| && forall i :: 0 <= i < |r| ==> r[i] == KeyOf(summaries[i], attr)
  {
    seq(|summaries|, i requires 0 <= i < |summaries| => KeyOf(summaries[i], attr))
  }

  /** `[s for s in summaries if getattr(s, attr) == g]` */
  function Members(summaries: seq<Summary>, attr: GroupBy, g: Key): seq<Summary>
  {
    if summaries == [] then []
    else (if KeyOf(summaries[0], attr) == g then [summaries[0]] else []) + Members(summaries[1..], attr, g)
  }

  /** `summarize_command --group-by attr`: each group value with its summaries, in group order. */
  method GroupSummaries(summaries: seq<Summary>, attr: GroupBy) returns (groups: seq<(Key, seq<Summary>)>)
    ensures |groups| == |SortedDistinct(Keys(summaries, attr))|
    ensures forall j :: 0 <= j < |groups| ==>
      groups[j] == (SortedDistinct(Keys(summaries, attr))[j], Members(summaries, attr, SortedDistinct(Keys(summaries, attr))[j]))
  {
    var ks := SortedDistinct(Keys(summaries, attr));
    groups := [];
    for j := 0 to |ks|
      invariant |groups| == j
      invariant forall m :: 0 <= m < j ==> groups[m] == (ks[m], Members(summaries, attr, ks[m]))
    {
      groups := groups + [(ks[j], Members(summaries, attr, ks[j]))];
    }
  }

  lemma {:induction false} MembersSpec(summaries: seq<Summary>, attr: GroupBy, g: Key)
    ensures forall s :: s in Members(summaries, attr, g) <==> s in summaries && KeyOf(s, attr) == g
    decreases |summaries|
  {
    if summaries != [] {
      MembersSpec(summaries[1..], attr, g);
      assert forall s :: s in summaries <==> s == summaries[0] || s in summaries[1..];
    }
  }

  /** The total size of the groups of `summaries` for the values `ks`. */
  function SizeSum(summaries: seq<Summary>, attr: GroupBy, ks: seq<Key>): nat
  {
    if ks == [] then 0 else |Members(summaries, attr, ks[0])| + SizeSum(summaries, attr, ks[1..])
  }

  /** How often `k` occurs in `ks`. */
  function Occurrences(ks: seq<Key>, k: Key): nat
  {
    if ks == [] then 0 else (if ks[0] == k then 1 else 0) + Occurrences(ks[1..], k)
  }

  lemma {:induction false} SizeSumCons(s: Summary, rest: seq<Summary>, attr: GroupBy, ks: seq<Key>)
    ensures SizeSum([s] + rest, attr, ks) == SizeSum(rest, attr, ks) + Occurrences(ks, KeyOf(s, attr))
    decreases |ks|
  {
    if ks != [] {
      SizeSumCons(s, rest, attr, ks[1..]);
      assert ([s] + rest)[1..] == rest;
    }
  }

  lemma {:induction false} OccurrencesDistinct(ks: seq<Key>, k: Key)
    requires StrictlySorted(ks) && k in ks
    ensures Occurrences(ks, k) == 1
    decreases |ks|
  {
    if ks[0] == k {
      OccurrencesAbsent(ks[1..], k);
    } else {
      OccurrencesDistinct(ks[1..], k);
    }
  }

  lemma {:induction false} OccurrencesAbsent(ks: seq<Key>, k: Key)
    requires StrictlySorted([k] + ks)
    ensures Occurrences(ks, k) == 0
    decreases |ks|
  {
    if ks != [] {
      assert ([k] + ks)[0] == k && ([k] + ks)[1] == ks[0];
      KeyLessOrder(k, k, k);
      assert [k] + ks[1..] == ([k] + ks)[0..1] + ([k] + ks)[2..];
      OccurrencesAbsent(ks[1..], k);
    }
  }

  /** Groups over strictly sorted values that cover every summary's value hold every summary exactly once. */
  lemma {:induction false} SizeSumCovers(summaries: seq<Summary>, attr: GroupBy, ks: seq<Key>)
    requires StrictlySorted(ks)
    requires forall i :: 0 <= i < |summaries| ==> KeyOf(summaries[i], attr) in ks
    ensures SizeSum(summaries, attr, ks) == |summaries|
    decreases |summaries|
  {
    if summaries == [] {
      ZeroSum(attr, ks);
    } else {
      var s := summaries[0];
      var rest := summaries[1..];
      assert summaries == [s] + rest;
      SizeSumCons(s, rest, attr, ks);
      SizeSumCovers(rest, attr, ks);
      OccurrencesDistinct(ks, KeyOf(s, attr));
    }
  }

  lemma {:induction false} ZeroSum(attr: GroupBy, ks: seq<Key>)
    ensures SizeSum([], attr, ks) == 0
    decreases |ks|
  {
    if ks != [] {
      ZeroSum(attr, ks[1..]);
    }
  }

  /**
   * The grouping is a partition: the group values are the distinct values
   * in increasing order, a summary belongs to the group of a value exactly
   * when it has that value (so to exactly one group), and the group sizes
   * add up to the number of summaries.
   */
  lemma GroupingPartitions(summaries: seq<Summary>, attr: GroupBy)
    ensures var ks := SortedDistinct(Keys(summaries, attr));
      && StrictlySorted(ks)
      && (forall k :: k in ks <==> exists i :: 0 <= i < |summaries| && KeyOf(summaries[i], attr) == k)
      && (forall j, s :: 0 <= j < |ks| ==> (s in Members(summaries, attr, ks[j]) <==> s in summaries && KeyOf(s, attr) == ks[j]))
      && SizeSum(summaries, attr, ks) == |summaries|
  {
    var keys := Keys(summaries, attr);
    var ks := SortedDistinct(keys);
    SortedDistinctSpec(keys);
    forall k
      ensures k in ks <==> exists i :: 0 <= i < |summaries| && KeyOf(summaries[i], attr) == k
    {
      if k in keys {
        var i :| 0 <= i < |keys| && keys[i] == k;
        assert KeyOf(summaries[i], attr) == k;
      }
      if exists i :: 0 <= i < |summaries| && KeyOf(summaries[i], attr) == k {
        var i :| 0 <= i < |summaries| && KeyOf(summaries[i], attr) == k;
        assert keys[i] == k;
      }
    }
    forall j | 0 <= j < |ks|
      ensures forall s :: s in Members(summaries, attr, ks[j]) <==> s in summaries && KeyOf(s, attr) == ks[j]
    {
      MembersSpec(summaries, attr, ks[j]);
    }
    forall i | 0 <= i < |summaries|
      ensures KeyOf(summaries[i], attr) in ks
    {
      assert keys[i] == KeyOf(summaries[i], attr);
    }
    SizeSumCovers(summaries, attr, ks);
  }
}
