/**
 Per-test durations from Node's TAP output (perf/harness/suite.py): a reader that keeps a stack of
 open subtests by indentation, against forests of named tests rendered as TAP.
 */
module TapDurations {
  import opened Prelude
  import opened Text

  /** One output line, as the three patterns of the reader see it. */
  datatype Line = Subtest(indent: nat, name: string) | Outcome(indent: nat, title: string) | Duration(ms: string) | Other

  /** An open subtest; `suite` once another subtest was opened inside it. */
  datatype Frame = Frame(indent: nat, name: string, suite: bool)

  type Durations = map<string, real>

  datatype State = State(frames: seq<Frame>, pending: Option<string>, result: Durations)

  type Float = string -> Option<real>

  // ---------------------------------------------------------------------------------------
  // The reader
  // ---------------------------------------------------------------------------------------

  function Below(frames: seq<Frame>, indent: nat): seq<Frame> {
    if frames == [] then []
    else
      var last := frames[|frames| - 1];
      Below(frames[..|frames| - 1], indent) + (if last.indent < indent then [last] else [])
  }

  function MarkSuites(frames: seq<Frame>): (marked: seq<Frame>)
    ensures |marked| == |frames|
    ensures forall i :: 0 <= i < |frames| ==> marked[i] == frames[i].(suite := true)
  {
    seq(|frames|, i requires 0 <= i < |frames| => frames[i].(suite := true))
  }

  /** Names joined by a double colon. */
  function Join(names: seq<string>): string {
    if names == [] then ""
    else if |names| == 1 then names[0]
    else Join(names[..|names| - 1]) + "::" + names[|names| - 1]
  }

  function Names(frames: seq<Frame>): (names: seq<string>)
    ensures |names| == |frames| && forall i :: 0 <= i < |frames| ==> names[i] == frames[i].name
  {
    seq(|frames|, i requires 0 <= i < |frames| => frames[i].name)
  }

  function Add(result: Durations, key: string, seconds: real): Durations {
    result[key := (if key in result then result[key] else 0.0) + seconds]
  }

  /** One line; `None` is a duration that is no number. */
  function Step(s: State, line: Line, float: Float): Option<State> {
    match line
    case Subtest(indent, name) =>
      Some(State(MarkSuites(Below(s.frames, indent)) + [Frame(indent, name, false)], None, s.result))
    case Outcome(indent, title) =>
      var frames := Below(s.frames, indent + 1);
      var n := |frames|;
      if n > 0 && frames[n - 1].indent == indent then
        Some(State(frames, if frames[n - 1].suite then None else Some(Join(Names(frames))), s.result))
      else Some(State(frames, Some(title), s.result))
    case Duration(ms) =>
      if s.pending.None? || s.pending.value == "" then Some(s)
      else if float(ms).None? then None
      else Some(State(s.frames, None, Add(s.result, s.pending.value, float(ms).value / 1000.0)))
    case Other => Some(s)
  }

  function Read(s: State, lines: seq<Line>, float: Float): Option<State> {
    if lines == [] then Some(s)
    else
      var front := Read(s, lines[..|lines| - 1], float);
      if front.None? then None else Step(front.value, lines[|lines| - 1], float)
  }

  // ---------------------------------------------------------------------------------------
  // Lines of text
  // ---------------------------------------------------------------------------------------

  function Leading(s: string): (n: nat)
    ensures n <= |s| && (forall i :: 0 <= i < n ==> IsSpace(s[i])) && (n < |s| ==> !IsSpace(s[n]))
  {
    if s == [] || !IsSpace(s[0]) then 0 else 1 + Leading(s[1..])
  }

  function Digits(s: string): (n: nat)
    ensures n <= |s| && (forall i :: 0 <= i < n ==> IsDigit(s[i])) && (n < |s| ==> !IsDigit(s[n]))
  {
    if s == [] || !IsDigit(s[0]) then 0 else 1 + Digits(s[1..])
  }

  predicate NumberChar(c: char) {
    IsDigit(c) || c == '.' || c == 'e' || c == 'E' || c == '+' || c == '-'
  }

  function NumberRun(s: string): (n: nat)
    ensures n <= |s| && (forall i :: 0 <= i < n ==> NumberChar(s[i])) && (n < |s| ==> !NumberChar(s[n]))
  {
    if s == [] || !NumberChar(s[0]) then 0 else 1 + NumberRun(s[1..])
  }

  /** What follows `p`, if `s` starts with it. */
  function After(s: string, p: string): Option<string> {
    if StartsWith(s, p) then Some(s[|p|..]) else None
  }

  /** ok <number> - <title>, after the indentation and an optional "not ". */
  function OutcomeTitle(s: string): Option<string> {
    var t := if StartsWith(s, "not ") then s[4..] else s;
    var rest := After(t, "ok ");
    if rest.None? then None
    else
      var n := Digits(rest.value);
      var title := After(rest.value[n..], " - ");
      if n == 0 || title.None? || title.value == "" then None else title
  }

  /** duration_ms: <number>, surrounded by any white space. */
  function DurationText(s: string): Option<string> {
    var rest := After(s, "duration_ms:");
    if rest.None? then None
    else
      var t := rest.value[Leading(rest.value)..];
      var n := NumberRun(t);
      if n == 0 || Leading(t[n..]) != |t| - n then None else Some(t[..n])
  }

  function SubtestName(s: string): Option<string> {
    var name := After(s, "# Subtest: ");
    if name == Some("") then None else name
  }

  /** A line with its indentation cut off. */
  function ClassifyAt(n: nat, s: string): Line {
    if SubtestName(s).Some? then Subtest(n, SubtestName(s).value)
    else if OutcomeTitle(s).Some? then Outcome(n, OutcomeTitle(s).value)
    else if n > 0 && DurationText(s).Some? then Duration(DurationText(s).value)
    else Other
  }

  function Classify(line: string): Line {
    ClassifyAt(Leading(line), line[Leading(line)..])
  }

  type Patterns = string -> Line

  function Classified(lines: seq<string>, patterns: Patterns): (ls: seq<Line>)
    ensures |ls| == |lines| && forall i :: 0 <= i < |lines| ==> ls[i] == patterns(lines[i])
  {
    seq(|lines|, i requires 0 <= i < |lines| => patterns(lines[i]))
  }

  const START := State([], None, map[])

  /** The whole reader, for any way of telling the lines apart. */
  function Total(lines: seq<string>, patterns: Patterns, float: Float): Option<Durations> {
    var end := Read(START, Classified(lines, patterns), float);
    if end.None? then None else Some(end.value.result)
  }

  method NodeDurations(text: string, float: Float) returns (r: Option<Durations>)
    ensures r == Total(SplitLines(text), Classify, float)
  {
    r := ReadLines(SplitLines(text), Classify, float);
  }

  method ReadLines(lines: seq<string>, patterns: Patterns, float: Float) returns (r: Option<Durations>)
    ensures r == Total(lines, patterns, float)
  {
    var state := START;
    ghost var all := Classified(lines, patterns);
    for i := 0 to |lines|
      invariant Read(START, all[..i], float) == Some(state)
    {
      ReadNext(START, all, i, state, float);
      var next := ReadLine(state, patterns(lines[i]), float);
      if next.None? {
        ReadStops(START, all, i + 1, float);
        return None;
      }
      state := next.value;
    }
    assert all[..|lines|] == all;
    return Some(state.result);
  }

  method ReadLine(state: State, line: Line, float: Float) returns (next: Option<State>)
    ensures next == Step(state, line, float)
  {
    var State(frames, pending, result) := state;
    match line {
      case Subtest(indent, name) =>
        frames := Below(frames, indent);
        frames := MarkSuites(frames);
        frames := frames + [Frame(indent, name, false)];
        pending := None;
      case Outcome(indent, title) =>
        frames := Below(frames, indent + 1);
        if frames != [] && frames[|frames| - 1].indent == indent {
          pending := if frames[|frames| - 1].suite then None else Some(Join(Names(frames)));
        } else {
          pending := Some(title);
        }
      case Duration(ms) =>
        if pending.Some? && pending.value != "" {
          if float(ms).None? {
            return None;
          }
          result := Add(result, pending.value, float(ms).value / 1000.0);
          pending := None;
        }
      case Other =>
    }
    return Some(State(frames, pending, result));
  }

  lemma ReadNext(s: State, lines: seq<Line>, n: nat, before: State, float: Float)
    requires n < |lines| && Read(s, lines[..n], float) == Some(before)
    ensures Read(s, lines[..n + 1], float) == Step(before, lines[n], float)
  {
    assert lines[..n + 1][..n] == lines[..n];
  }

  lemma {:induction false} ReadStops(s: State, lines: seq<Line>, n: nat, float: Float)
    requires n <= |lines| && Read(s, lines[..n], float).None?
    ensures Read(s, lines, float).None?
    decreases |lines| - n
  {
    if n < |lines| {
      assert lines[..n + 1][..n] == lines[..n];
      ReadStops(s, lines, n + 1, float);
    } else {
      assert lines[..n] == lines;
    }
  }

  // ---------------------------------------------------------------------------------------
  // Forests of tests
  // ---------------------------------------------------------------------------------------

  /** A named test; one with children is a suite, whose own duration includes theirs. Its outcome line has a title,
      which is the name with any directive behind it. */
  datatype Test = Test(name: string, children: seq<Test>, ms: string, passed: bool, number: string, title: string)

  /** The lines after a test's children. */
  function Tail(t: Test, indent: nat): seq<Line> {
    [Outcome(indent, t.title), Duration(t.ms)]
  }

  /** TAP for one test at an indentation, `width` deeper for each level. */
  function Render(t: Test, indent: nat, width: nat): seq<Line>
    decreases t, 1
  {
    [Subtest(indent, t.name)] + RenderAll(t.children, indent + width, width) + Tail(t, indent)
  }

  function RenderAll(ts: seq<Test>, indent: nat, width: nat): seq<Line>
    decreases ts, 0
  {
    if ts == [] then [] else Render(ts[0], indent, width) + RenderAll(ts[1..], indent, width)
  }

  /** A leaf with the names from the root down to it. */
  datatype Leaf = Leaf(path: seq<string>, ms: string)

  function Leaves(t: Test, above: seq<string>): seq<Leaf>
    decreases t, 1
  {
    if t.children == [] then [Leaf(above + [t.name], t.ms)] else LeavesAll(t.children, above + [t.name])
  }

  function LeavesAll(ts: seq<Test>, above: seq<string>): seq<Leaf>
    decreases ts, 0
  {
    if ts == [] then [] else Leaves(ts[0], above) + LeavesAll(ts[1..], above)
  }

  predicate Numeric(leaves: seq<Leaf>, float: Float) {
    forall i :: 0 <= i < |leaves| ==> float(leaves[i].ms).Some?
  }

  function Seconds(leaf: Leaf, float: Float): real {
    if float(leaf.ms).Some? then float(leaf.ms).value / 1000.0 else 0.0
  }

  /** All leaves added in order. */
  function Collect(result: Durations, leaves: seq<Leaf>, float: Float): Durations
    decreases |leaves|
  {
    if leaves == [] then result
    else Collect(Add(result, Join(leaves[0].path), Seconds(leaves[0], float)), leaves[1..], float)
  }

  lemma {:induction false} CollectConcat(result: Durations, a: seq<Leaf>, b: seq<Leaf>, float: Float)
    ensures Collect(result, a + b, float) == Collect(Collect(result, a, float), b, float)
    decreases |a|
  {
    if a == [] {
      assert a + b == b;
    } else {
      assert (a + b)[1..] == a[1..] + b;
      CollectConcat(Add(result, Join(a[0].path), Seconds(a[0], float)), a[1..], b, float);
    }
  }

  lemma {:induction false} ReadConcat(s: State, a: seq<Line>, b: seq<Line>, float: Float)
    ensures Read(s, a + b, float) ==
            if Read(s, a, float).None? then None else Read(Read(s, a, float).value, b, float)
    decreases |b|
  {
    if b == [] {
      assert a + b == a;
    } else {
      assert (a + b)[..|a + b| - 1] == a + b[..|b| - 1];
      ReadConcat(s, a, b[..|b| - 1], float);
    }
  }

  lemma ReadOne(s: State, line: Line, float: Float)
    ensures Read(s, [line], float) == Step(s, line, float)
  {
    assert [line][..0] == [];
  }

  lemma ReadTwo(s: State, a: Line, b: Line, float: Float)
    ensures Read(s, [a, b], float) ==
            if Step(s, a, float).None? then None else Step(Step(s, a, float).value, b, float)
  {
    assert [a, b][..1] == [a];
    ReadOne(s, a, float);
  }

  /** The tail is the outcome, then the duration if a name waits for it. */
  lemma ReadTail(s: State, t: Test, indent: nat, after: State, float: Float)
    requires Step(s, Outcome(indent, t.title), float) == Some(after)
    ensures Read(s, Tail(t, indent), float) == Step(after, Duration(t.ms), float)
  {
    ReadTwo(s, Outcome(indent, t.title), Duration(t.ms), float);
  }

  /** The lines that match one of the patterns. */
  function Essential(lines: seq<Line>): seq<Line> {
    if lines == [] then []
    else
      var last := lines[|lines| - 1];
      Essential(lines[..|lines| - 1]) + (if last == Other then [] else [last])
  }

  /** The others may stand anywhere. */
  lemma {:induction false} ReadEssential(s: State, lines: seq<Line>, float: Float)
    ensures Read(s, lines, float) == Read(s, Essential(lines), float)
  {
    if lines != [] {
      var front, last := lines[..|lines| - 1], lines[|lines| - 1];
      ReadEssential(s, front, float);
      if last == Other {
        assert Essential(lines) == Essential(front);
      } else {
        assert Essential(lines)[..|Essential(front)|] == Essential(front);
      }
    }
  }

  // ---------------------------------------------------------------------------------------
  // Frames
  // ---------------------------------------------------------------------------------------

  predicate AllBelow(frames: seq<Frame>, indent: nat) {
    forall i :: 0 <= i < |frames| ==> frames[i].indent < indent
  }

  lemma {:induction false} BelowKeeps(frames: seq<Frame>, indent: nat)
    requires AllBelow(frames, indent)
    ensures Below(frames, indent) == frames
  {
    if frames != [] {
      BelowKeeps(frames[..|frames| - 1], indent);
      assert frames == frames[..|frames| - 1] + [frames[|frames| - 1]];
    }
  }

  lemma {:induction false} BelowIsBelow(frames: seq<Frame>, indent: nat)
    ensures AllBelow(Below(frames, indent), indent)
  {
    if frames != [] {
      BelowIsBelow(frames[..|frames| - 1], indent);
    }
  }

  lemma BelowDrops(frames: seq<Frame>, f: Frame, indent: nat)
    requires AllBelow(frames, indent) && indent <= f.indent
    ensures Below(frames + [f], indent) == frames
  {
    assert (frames + [f])[..|frames|] == frames;
    BelowKeeps(frames, indent);
  }

  /** The state after a test: it stands on top of its ancestors, and its leaves have been added. */
  ghost predicate Finished(s: State, after: State, t: Test, indent: nat, float: Float) {
    var above := Below(s.frames, indent);
    && after.pending == None
    && after.frames == MarkSuites(above) + [Frame(indent, t.name, t.children != [])]
    && after.result == Collect(s.result, Leaves(t, Names(above)), float)
  }

  /** One frame, at `indent`, on top of `base`. */
  predicate Topped(frames: seq<Frame>, base: seq<Frame>, indent: nat) {
    |frames| == |base| + 1 && frames[..|base|] == base && frames[|base|].indent == indent
  }

  /** The state after a list of siblings. */
  ghost predicate AllFinished(s: State, after: State, ts: seq<Test>, indent: nat, float: Float) {
    var above := Below(s.frames, indent);
    && after.result == Collect(s.result, LeavesAll(ts, Names(above)), float)
    && (ts == [] ==> after == s)
    && (ts != [] ==>
          after.pending == None
          && Topped(after.frames, MarkSuites(above), indent))
  }

  predicate Named(t: Test)
    decreases t, 1
  {
    t.name != "" && AllNamed(t.children)
  }

  predicate AllNamed(ts: seq<Test>)
    decreases ts, 0
  {
    ts == [] || (Named(ts[0]) && AllNamed(ts[1..]))
  }

  lemma NamesOfMarked(frames: seq<Frame>)
    ensures Names(MarkSuites(frames)) == Names(frames)
    ensures MarkSuites(MarkSuites(frames)) == MarkSuites(frames)
  {
  }

  lemma JoinNotEmpty(names: seq<string>)
    requires names != [] && names[|names| - 1] != ""
    ensures Join(names) != ""
  {
  }

  lemma NumericParts(a: seq<Leaf>, b: seq<Leaf>, float: Float)
    requires Numeric(a + b, float)
    ensures Numeric(a, float) && Numeric(b, float)
  {
    assert forall i :: 0 <= i < |a| ==> (a + b)[i] == a[i];
    assert forall i :: 0 <= i < |b| ==> (a + b)[|a| + i] == b[i];
  }

  /** Reading one rendered test. */
  lemma {:induction false} ReadTest(s: State, t: Test, indent: nat, width: nat, float: Float)
    requires width > 0 && Named(t) && Numeric(Leaves(t, Names(Below(s.frames, indent))), float)
    ensures var after := Read(s, Render(t, indent, width), float);
            after.Some? && Finished(s, after.value, t, indent, float)
    decreases t, 1
  {
    if t.children == [] {
      assert Leaves(t, Names(Below(s.frames, indent)))[0].ms == t.ms;
      ReadLeaf(s, t, indent, width, float);
    } else {
      BegunFrames(s, t, indent, width);
      ReadTests(Begun(s, t, indent), t.children, indent + width, width, float);
      var inside := Read(Begun(s, t, indent), RenderAll(t.children, indent + width, width), float).value;
      InsideSuite(s, t, indent, width, inside, float);
      ReadSuite(s, t, indent, width, MarkSuites(Below(s.frames, indent)), inside, float);
    }
  }

  /** The state after a test's opening line. */
  function Begun(s: State, t: Test, indent: nat): State {
    State(MarkSuites(Below(s.frames, indent)) + [Frame(indent, t.name, false)], None, s.result)
  }

  lemma BegunFrames(s: State, t: Test, indent: nat, width: nat)
    requires width > 0
    ensures var above, begun := Below(s.frames, indent), Begun(s, t, indent).frames;
            && AllBelow(MarkSuites(above), indent)
            && Below(begun, indent + width) == begun
            && Names(begun) == Names(above) + [t.name]
            && MarkSuites(begun) == MarkSuites(above) + [Frame(indent, t.name, true)]
  {
    BelowIsBelow(s.frames, indent);
    var above := Below(s.frames, indent);
    MarkedBelow(above, t.name, indent, width);
    NamesSnoc(MarkSuites(above), Frame(indent, t.name, false));
    NamesOfMarked(above);
    MarkSnoc(above, Frame(indent, t.name, false));
  }

  lemma MarkedBelow(above: seq<Frame>, name: string, indent: nat, width: nat)
    requires width > 0 && AllBelow(above, indent)
    ensures AllBelow(MarkSuites(above), indent)
    ensures var begun := MarkSuites(above) + [Frame(indent, name, false)]; Below(begun, indent + width) == begun
  {
    BelowKeeps(MarkSuites(above) + [Frame(indent, name, false)], indent + width);
  }

  lemma NamesSnoc(frames: seq<Frame>, f: Frame)
    ensures Names(frames + [f]) == Names(frames) + [f.name]
  {
  }

  lemma MarkSnoc(above: seq<Frame>, f: Frame)
    ensures MarkSuites(MarkSuites(above) + [f]) == MarkSuites(above) + [f.(suite := true)]
  {
  }

  lemma ReadLeaf(s: State, t: Test, indent: nat, width: nat, float: Float)
    requires t.children == [] && t.name != "" && float(t.ms).Some?
    ensures var after := Read(s, Render(t, indent, width), float);
            after.Some? && Finished(s, after.value, t, indent, float)
  {
    var above := Below(s.frames, indent);
    BelowIsBelow(s.frames, indent);
    ReadParts(s, t, indent, width, float);
    ReadLeafTail(Begun(s, t, indent), MarkSuites(above), t, indent, float);
    LeafIsFinished(s, t, indent, float);
  }

  /** What a leaf's lines leave is the state after it. */
  lemma LeafIsFinished(s: State, t: Test, indent: nat, float: Float)
    requires t.children == [] && float(t.ms).Some?
    ensures var marked := MarkSuites(Below(s.frames, indent));
            var key := Join(Names(marked) + [t.name]);
            Finished(s, State(marked + [Frame(indent, t.name, false)], None, Add(s.result, key, float(t.ms).value / 1000.0)),
                     t, indent, float)
  {
    var above := Below(s.frames, indent);
    NamesOfMarked(above);
    CollectOne(s.result, Leaf(Names(above) + [t.name], t.ms), float);
  }

  /** After its children, a suite's frame is marked and has the last child's on top. */
  lemma InsideSuite(s: State, t: Test, indent: nat, width: nat, inside: State, float: Float)
    requires t.children != [] && width > 0
    requires AllFinished(Begun(s, t, indent), inside, t.children, indent + width, float)
    ensures var above := Below(s.frames, indent);
            && inside.pending == None
            && Topped(inside.frames, MarkSuites(above) + [Frame(indent, t.name, true)], indent + width)
            && inside.result == Collect(s.result, Leaves(t, Names(above)), float)
  {
    BegunFrames(s, t, indent, width);
  }

  lemma ReadSuite(s: State, t: Test, indent: nat, width: nat, marked: seq<Frame>, inside: State, float: Float)
    requires t.children != [] && width > 0 && AllBelow(marked, indent)
    requires Read(Begun(s, t, indent), RenderAll(t.children, indent + width, width), float) == Some(inside)
    requires Topped(inside.frames, marked + [Frame(indent, t.name, true)], indent + width)
    ensures Read(s, Render(t, indent, width), float) ==
            Some(State(marked + [Frame(indent, t.name, true)], None, inside.result))
  {
    ReadParts(s, t, indent, width, float);
    ReadSuiteTail(inside, marked, t, indent, width, float);
  }

  /** A test's lines are read as its opening, its children, and its tail. */
  lemma ReadParts(s: State, t: Test, indent: nat, width: nat, float: Float)
    ensures var inside := Read(Begun(s, t, indent), RenderAll(t.children, indent + width, width), float);
            Read(s, Render(t, indent, width), float) ==
            if inside.None? then None else Read(inside.value, Tail(t, indent), float)
  {
    var head := [Subtest(indent, t.name)];
    var inner := RenderAll(t.children, indent + width, width);
    ReadOne(s, Subtest(indent, t.name), float);
    ReadConcat(s, head, inner, float);
    ReadConcat(s, head + inner, Tail(t, indent), float);
  }

  lemma CollectOne(result: Durations, leaf: Leaf, float: Float)
    ensures Collect(result, [leaf], float) == Add(result, Join(leaf.path), Seconds(leaf, float))
  {
    assert [leaf][1..] == [];
  }

  lemma LeafOutcome(s: State, marked: seq<Frame>, name: string, title: string, indent: nat, float: Float)
    requires AllBelow(marked, indent) && s.frames == marked + [Frame(indent, name, false)]
    ensures Step(s, Outcome(indent, title), float) == Some(State(s.frames, Some(Join(Names(marked) + [name])), s.result))
  {
    BelowKeeps(s.frames, indent + 1);
    assert Names(s.frames) == Names(marked) + [name];
  }

  /** A duration is booked for what waits for it. */
  lemma Booked(s: State, ms: string, float: Float)
    requires s.pending.Some? && s.pending.value != "" && float(ms).Some?
    ensures Step(s, Duration(ms), float) ==
            Some(State(s.frames, None, Add(s.result, s.pending.value, float(ms).value / 1000.0)))
  {
  }

  lemma {:induction false} ReadWaitingTail(s: State, t: Test, indent: nat, waiting: State, float: Float)
    requires Step(s, Outcome(indent, t.title), float) == Some(waiting)
    requires waiting.pending.Some? && waiting.pending.value != "" && float(t.ms).Some?
    ensures Read(s, Tail(t, indent), float) ==
            Some(State(waiting.frames, None, Add(waiting.result, waiting.pending.value, float(t.ms).value / 1000.0)))
  {
    ReadTail(s, t, indent, waiting, float);
    Booked(waiting, t.ms, float);
  }

  /** A leaf's outcome makes its whole path wait for the duration that follows. */
  lemma ReadLeafTail(s: State, marked: seq<Frame>, t: Test, indent: nat, float: Float)
    requires AllBelow(marked, indent) && s.frames == marked + [Frame(indent, t.name, false)]
    requires t.name != "" && float(t.ms).Some?
    ensures Read(s, Tail(t, indent), float) ==
            Some(State(s.frames, None, Add(s.result, Join(Names(marked) + [t.name]), float(t.ms).value / 1000.0)))
  {
    LeafOutcome(s, marked, t.name, t.title, indent, float);
    JoinNotEmpty(Names(marked) + [t.name]);
    ReadWaitingTail(s, t, indent, State(s.frames, Some(Join(Names(marked) + [t.name])), s.result), float);
  }

  lemma SuiteOutcome(s: State, marked: seq<Frame>, name: string, title: string, indent: nat, width: nat, float: Float)
    requires width > 0 && AllBelow(marked, indent)
    requires Topped(s.frames, marked + [Frame(indent, name, true)], indent + width)
    ensures Step(s, Outcome(indent, title), float) == Some(State(marked + [Frame(indent, name, true)], None, s.result))
  {
    var base := marked + [Frame(indent, name, true)];
    BelowDrops(base, s.frames[|base|], indent + 1);
    assert s.frames == base + [s.frames[|base|]];
  }

  /** A suite's outcome waits for nothing, so its inclusive duration is skipped. */
  lemma ReadSuiteTail(s: State, marked: seq<Frame>, t: Test, indent: nat, width: nat, float: Float)
    requires width > 0 && AllBelow(marked, indent)
    requires Topped(s.frames, marked + [Frame(indent, t.name, true)], indent + width)
    ensures Read(s, Tail(t, indent), float) == Some(State(marked + [Frame(indent, t.name, true)], None, s.result))
  {
    SuiteOutcome(s, marked, t.name, t.title, indent, width, float);
    ReadTail(s, t, indent, State(marked + [Frame(indent, t.name, true)], None, s.result), float);
  }

  /** Reading a list of rendered siblings. */
  lemma {:induction false} ReadTests(s: State, ts: seq<Test>, indent: nat, width: nat, float: Float)
    requires width > 0 && AllNamed(ts) && Numeric(LeavesAll(ts, Names(Below(s.frames, indent))), float)
    ensures var after := Read(s, RenderAll(ts, indent, width), float);
            after.Some? && AllFinished(s, after.value, ts, indent, float)
    decreases ts, 0
  {
    if ts != [] {
      var above := Below(s.frames, indent);
      BelowIsBelow(s.frames, indent);
      NumericParts(Leaves(ts[0], Names(above)), LeavesAll(ts[1..], Names(above)), float);
      ReadTest(s, ts[0], indent, width, float);
      var mid := Read(s, Render(ts[0], indent, width), float).value;
      ReadConcat(s, Render(ts[0], indent, width), RenderAll(ts[1..], indent, width), float);
      BelowDrops(MarkSuites(above), mid.frames[|mid.frames| - 1], indent);
      NamesOfMarked(above);
      ReadTests(mid, ts[1..], indent, width, float);
      CollectConcat(s.result, Leaves(ts[0], Names(above)), LeavesAll(ts[1..], Names(above)), float);
    }
  }

  // ---------------------------------------------------------------------------------------
  // What the result says
  // ---------------------------------------------------------------------------------------

  /** The seconds of all leaves whose joined path is `key`. */
  function Sum(leaves: seq<Leaf>, key: string, float: Float): real {
    if leaves == [] then 0.0
    else (if Join(leaves[0].path) == key then Seconds(leaves[0], float) else 0.0) + Sum(leaves[1..], key, float)
  }

  lemma {:induction false} CollectIs(result: Durations, leaves: seq<Leaf>, float: Float, key: string)
    ensures var after := Collect(result, leaves, float);
            && (key in after <==> key in result || exists i :: 0 <= i < |leaves| && Join(leaves[i].path) == key)
            && (key in after ==> after[key] == (if key in result then result[key] else 0.0) + Sum(leaves, key, float))
    decreases |leaves|
  {
    if leaves != [] {
      var head, rest := leaves[0], leaves[1..];
      var mid := Add(result, Join(head.path), Seconds(head, float));
      CollectIs(mid, rest, float, key);
      if exists i :: 0 <= i < |leaves| && Join(leaves[i].path) == key {
        var i :| 0 <= i < |leaves| && Join(leaves[i].path) == key;
        if i > 0 { assert rest[i - 1] == leaves[i]; }
      }
      if exists i :: 0 <= i < |rest| && Join(rest[i].path) == key {
        var i :| 0 <= i < |rest| && Join(rest[i].path) == key;
        assert leaves[i + 1] == rest[i];
      }
    }
  }

  /** For every output whose lines that match a pattern are a forest's: exactly the leaf paths, each with the sum of
      its leaves' durations and nothing of any suite. */
  lemma ForestDurations(lines: seq<Line>, ts: seq<Test>, width: nat, float: Float, key: string)
    requires Essential(lines) == RenderAll(ts, 0, width)
    requires width > 0 && AllNamed(ts) && Numeric(LeavesAll(ts, []), float)
    ensures var end := Read(START, lines, float);
            var leaves := LeavesAll(ts, []);
            && end.Some?
            && (key in end.value.result <==> exists i :: 0 <= i < |leaves| && Join(leaves[i].path) == key)
            && (key in end.value.result ==> end.value.result[key] == Sum(leaves, key, float))
  {
    assert Below(START.frames, 0) == [] && Names([]) == [];
    ReadEssential(START, lines, float);
    ReadTests(START, ts, 0, width, float);
    CollectIs(map[], LeavesAll(ts, []), float, key);
  }

  /** Outcomes without any subtest line. */
  function Flat(leaves: seq<Leaf>): seq<Line> {
    if leaves == [] then []
    else Flat(leaves[..|leaves| - 1]) + [Outcome(0, Join(leaves[|leaves| - 1].path)), Duration(leaves[|leaves| - 1].ms)]
  }

  lemma FlatStep(result: Durations, leaf: Leaf, float: Float)
    requires Join(leaf.path) != "" && float(leaf.ms).Some?
    ensures Read(State([], None, result), [Outcome(0, Join(leaf.path)), Duration(leaf.ms)], float)
         == Some(State([], None, Collect(result, [leaf], float)))
  {
    var s := State([], None, result);
    ReadTwo(s, Outcome(0, Join(leaf.path)), Duration(leaf.ms), float);
    assert Step(s, Outcome(0, Join(leaf.path)), float) == Some(State([], Some(Join(leaf.path)), result));
    CollectOne(result, leaf, float);
  }

  predicate Bookable(leaves: seq<Leaf>, float: Float) {
    forall i :: 0 <= i < |leaves| ==> Join(leaves[i].path) != "" && float(leaves[i].ms).Some?
  }

  /** They are booked under their own titles. */
  lemma {:induction false} FlatDurations(leaves: seq<Leaf>, float: Float)
    requires Bookable(leaves, float)
    ensures Read(START, Flat(leaves), float) == Some(State([], None, Collect(map[], leaves, float)))
  {
    if leaves != [] {
      var front, last := leaves[..|leaves| - 1], leaves[|leaves| - 1];
      assert leaves == front + [last];
      FlatDurations(front, float);
      ReadConcat(START, Flat(front), [Outcome(0, Join(last.path)), Duration(last.ms)], float);
      FlatStep(Collect(map[], front, float), last, float);
      CollectConcat(map[], front, [last], float);
    }
  }
}
