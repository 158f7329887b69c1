/**
 What Node's TAP reporter writes for a forest of tests, as an input of the duration reader (perf/harness/suite.py):
 the version line, a block of marks for every test, plans, and the totals at the end.
 */
module NodeReporter {
  import opened Prelude
  import opened Text
  import opened TapDurations
  import opened TapText

  // ---------------------------------------------------------------------------------------
  // The layout
  // ---------------------------------------------------------------------------------------

  /** The lines that the reader has no pattern for. */
  datatype Remark =
    Version | Plan(count: string) | Opening | Closing | Kind(kind: string) | Count(topic: string, number: string)

  function RemarkText(r: Remark): string {
    match r
    case Version => "TAP version 13"
    case Plan(count) => "1.." + count
    case Opening => "---"
    case Closing => "..."
    case Kind(kind) => "type: '" + kind + "'"
    case Count(topic, number) => "# " + (topic + (" " + number))
  }

  function Mark(indent: nat, r: Remark): string {
    Spaces(indent) + RemarkText(r)
  }

  /** What a test's block says after the duration; lines of any number, written at the block's indentation. */
  type Details = (Test, nat) -> seq<string>

  function BlockEnd(t: Test, indent: nat, details: Details): seq<string> {
    details(t, indent) + [Mark(indent, Closing)]
  }

  function TailOutput(t: Test, indent: nat, details: Details): seq<string> {
    [OutcomeText(t, indent)] + [Mark(indent + 2, Opening)] + [DurationLine(t, indent)] + BlockEnd(t, indent + 2, details)
  }

  /** Tests are numbered from one, so the last one's number is their count. */
  function PlanOf(ts: seq<Test>): Remark {
    Plan(if ts == [] then "0" else ts[|ts| - 1].number)
  }

  function InnerPlan(ts: seq<Test>, indent: nat): seq<string> {
    if ts == [] then [] else [Mark(indent, PlanOf(ts))]
  }

  const WIDTH := 4

  function TestOutput(t: Test, indent: nat, details: Details): seq<string>
    decreases t, 1
  {
    [SubtestText(t, indent)] + ForestOutput(t.children, indent + WIDTH, details)
    + InnerPlan(t.children, indent + WIDTH) + TailOutput(t, indent, details)
  }

  function ForestOutput(ts: seq<Test>, indent: nat, details: Details): seq<string>
    decreases ts, 0
  {
    if ts == [] then [] else TestOutput(ts[0], indent, details) + ForestOutput(ts[1..], indent, details)
  }

  const LABELS := ["tests", "suites", "pass", "fail", "cancelled", "skipped", "todo", "duration_ms"]

  function Totals(numbers: seq<string>): (lines: seq<string>)
    requires |numbers| == |LABELS|
    ensures |lines| == |LABELS| && forall i :: 0 <= i < |lines| ==> lines[i] == Mark(0, Count(LABELS[i], numbers[i]))
  {
    seq(|LABELS|, i requires 0 <= i < |LABELS| => Mark(0, Count(LABELS[i], numbers[i])))
  }

  function Output(ts: seq<Test>, details: Details, numbers: seq<string>): seq<string>
    requires |numbers| == |LABELS|
  {
    [Mark(0, Version)] + ForestOutput(ts, 0, details) + [Mark(0, PlanOf(ts))] + Totals(numbers)
  }

  // ---------------------------------------------------------------------------------------
  // Notes and other lines
  // ---------------------------------------------------------------------------------------

  lemma CommentIsNote(topic: string, number: string)
    requires topic != "" && topic[0] != 'S'
    ensures IsNote(Mark(0, Count(topic, number)))
  {
    var s := RemarkText(Count(topic, number));
    CutSpaces(0, s);
    assert s[0] == '#' && s[2] == topic[0];
    assert "# Subtest: "[2] == 'S' && "duration_ms:"[0] == 'd' && "ok "[0] == 'o' && "not ok "[0] == 'n';
  }

  /** The version, plans and YAML marks that Node writes are notes. */
  lemma RemarkIsNote(indent: nat, r: Remark)
    requires !r.Count?
    ensures IsNote(Mark(indent, r))
  {
    var s := RemarkText(r);
    assert s[0] == 'T' || s[0] == '1' || s[0] == '-' || s[0] == '.' || s[0] == 't';
    NoteAt(indent, s);
  }

  predicate AllNotes(lines: seq<string>) {
    forall i :: 0 <= i < |lines| ==> IsNote(lines[i])
  }

  lemma LabelsAreLabels(i: nat)
    requires i < |LABELS|
    ensures LABELS[i] != "" && LABELS[i][0] != 'S' && OneLine(LABELS[i])
  {
  }

  lemma {:induction false} KeptConcat(a: seq<string>, b: seq<string>)
    ensures Kept(a + b) == Kept(a) + Kept(b)
    decreases |b|
  {
    if b == [] {
      assert a + b == a;
    } else {
      assert (a + b)[..|a + b| - 1] == a + b[..|b| - 1];
      KeptConcat(a, b[..|b| - 1]);
    }
  }

  lemma KeptFour(a: seq<string>, b: seq<string>, c: seq<string>, d: seq<string>)
    ensures Kept(a + b + c + d) == Kept(a) + Kept(b) + Kept(c) + Kept(d)
  {
    KeptConcat(a, b);
    KeptConcat(a + b, c);
    KeptConcat(a + b + c, d);
  }

  lemma {:induction false} NotesAreDropped(lines: seq<string>)
    requires AllNotes(lines)
    ensures Kept(lines) == []
  {
    if lines != [] {
      NotesAreDropped(lines[..|lines| - 1]);
    }
  }

  lemma TotalsAreDropped(numbers: seq<string>)
    requires |numbers| == |LABELS|
    ensures Kept(Totals(numbers)) == []
  {
    forall i | 0 <= i < |LABELS| ensures IsNote(Totals(numbers)[i]) {
      LabelsAreLabels(i);
      CommentIsNote(LABELS[i], numbers[i]);
    }
    NotesAreDropped(Totals(numbers));
  }

  lemma OneIsKept(line: string)
    requires Classify(line) != Other
    ensures Kept([line]) == [line]
  {
    if IsNote(line) {
      NoteIsOther(line);
    }
    assert [line][..0] == [];
  }

  // ---------------------------------------------------------------------------------------
  // The output is laid out as its forest
  // ---------------------------------------------------------------------------------------

  /** Whatever the block says after the duration, it is notes, each on one line. */
  ghost predicate Quiet(details: Details) {
    forall t, n, i :: 0 <= i < |details(t, n)| ==> IsNote(details(t, n)[i]) && OneLine(details(t, n)[i])
  }

  lemma MarkIsDropped(indent: nat, r: Remark)
    requires !r.Count?
    ensures Kept([Mark(indent, r)]) == []
  {
    RemarkIsNote(indent, r);
    NotesAreDropped([Mark(indent, r)]);
  }

  lemma BlockEndIsDropped(t: Test, indent: nat, details: Details)
    requires AllNotes(details(t, indent))
    ensures Kept(BlockEnd(t, indent, details)) == []
  {
    NotesAreDropped(details(t, indent));
    MarkIsDropped(indent, Closing);
    KeptConcat(details(t, indent), [Mark(indent, Closing)]);
  }

  lemma OutcomeIsKept(t: Test, indent: nat)
    requires t.title != "" && IsNumber(t.number)
    ensures Kept([OutcomeText(t, indent)]) == [OutcomeText(t, indent)]
  {
    SpelledOutcome(indent, t.number, t.title);
    OneIsKept(OutcomeText(t, indent));
  }

  lemma DurationIsKept(t: Test, indent: nat)
    requires IsDuration(t.ms)
    ensures Kept([DurationLine(t, indent)]) == [DurationLine(t, indent)]
  {
    SpelledDuration(indent + 2, t.ms);
    OneIsKept(DurationLine(t, indent));
  }

  lemma TailIsLaidOut(t: Test, indent: nat, details: Details)
    requires t.title != "" && IsNumber(t.number) && IsDuration(t.ms) && AllNotes(details(t, indent + 2))
    ensures Kept(TailOutput(t, indent, details)) == TailText(t, indent)
  {
    OutcomeIsKept(t, indent);
    MarkIsDropped(indent + 2, Opening);
    DurationIsKept(t, indent);
    BlockEndIsDropped(t, indent + 2, details);
    KeptFour([OutcomeText(t, indent)], [Mark(indent + 2, Opening)], [DurationLine(t, indent)],
             BlockEnd(t, indent + 2, details));
  }

  lemma SubtestIsKept(t: Test, indent: nat)
    requires t.name != ""
    ensures Kept([SubtestText(t, indent)]) == [SubtestText(t, indent)]
  {
    SpelledSubtest(indent, t.name);
    OneIsKept(SubtestText(t, indent));
  }

  lemma InnerPlanIsDropped(ts: seq<Test>, indent: nat)
    ensures Kept(InnerPlan(ts, indent)) == []
  {
    MarkIsDropped(indent, PlanOf(ts));
  }

  lemma {:induction false} TestIsLaidOut(t: Test, indent: nat, details: Details)
    requires Spellable(t) && Quiet(details)
    ensures Kept(TestOutput(t, indent, details)) == TestText(t, indent, WIDTH)
    decreases t, 1
  {
    SubtestIsKept(t, indent);
    ForestIsLaidOut(t.children, indent + WIDTH, details);
    InnerPlanIsDropped(t.children, indent + WIDTH);
    TailIsLaidOut(t, indent, details);
    KeptFour([SubtestText(t, indent)], ForestOutput(t.children, indent + WIDTH, details),
             InnerPlan(t.children, indent + WIDTH), TailOutput(t, indent, details));
  }

  lemma {:induction false} ForestIsLaidOut(ts: seq<Test>, indent: nat, details: Details)
    requires AllSpellable(ts) && Quiet(details)
    ensures Kept(ForestOutput(ts, indent, details)) == ForestText(ts, indent, WIDTH)
    decreases ts, 0
  {
    if ts != [] {
      TestIsLaidOut(ts[0], indent, details);
      ForestIsLaidOut(ts[1..], indent, details);
      KeptConcat(TestOutput(ts[0], indent, details), ForestOutput(ts[1..], indent, details));
    }
  }

  lemma OutputIsKept(ts: seq<Test>, details: Details, numbers: seq<string>)
    requires AllSpellable(ts) && Quiet(details) && |numbers| == |LABELS|
    ensures Kept(Output(ts, details, numbers)) == ForestText(ts, 0, WIDTH)
  {
    var version, body, plan := [Mark(0, Version)], ForestOutput(ts, 0, details), [Mark(0, PlanOf(ts))];
    MarkIsDropped(0, Version);
    MarkIsDropped(0, PlanOf(ts));
    TotalsAreDropped(numbers);
    ForestIsLaidOut(ts, 0, details);
    KeptFour(version, body, plan, Totals(numbers));
  }

  // ---------------------------------------------------------------------------------------
  // The output as one text
  // ---------------------------------------------------------------------------------------

  /** The lines, each ended by a line feed. */
  function Written(lines: seq<string>): string {
    if lines == [] then "" else lines[0] + ("\n" + Written(lines[1..]))
  }

  predicate AllOneLine(lines: seq<string>) {
    forall i :: 0 <= i < |lines| ==> OneLine(lines[i])
  }

  lemma {:induction false} LineEndOf(line: string, rest: string)
    requires OneLine(line) && rest != "" && IsLineBreak(rest[0])
    ensures LineEnd(line + rest) == |line|
  {
    if line == "" {
      assert line + rest == rest;
    } else {
      assert (line + rest)[1..] == line[1..] + rest;
      LineEndOf(line[1..], rest);
    }
  }

  /** What was written line by line is split into the same lines. */
  lemma {:induction false} SplitWritten(lines: seq<string>)
    requires AllOneLine(lines)
    ensures SplitLines(Written(lines)) == lines
  {
    if lines != [] {
      var line, rest := lines[0], "\n" + Written(lines[1..]);
      var s := line + rest;
      LineEndOf(line, rest);
      assert s[..|line|] == line && s[|line|] == '\n' && s[|line| + 1..] == Written(lines[1..]);
      SplitWritten(lines[1..]);
    }
  }

  /** Names and titles that str.splitlines does not break. */
  predicate OnOneLine(t: Test)
    decreases t, 1
  {
    OneLine(t.name) && OneLine(t.title) && AllOnOneLine(t.children)
  }

  predicate AllOnOneLine(ts: seq<Test>)
    decreases ts, 0
  {
    ts == [] || (OnOneLine(ts[0]) && AllOnOneLine(ts[1..]))
  }

  lemma OneLineConcat(a: string, b: string)
    requires OneLine(a) && OneLine(b)
    ensures OneLine(a + b)
  {
  }

  lemma AllOneLineConcat(a: seq<string>, b: seq<string>)
    requires AllOneLine(a) && AllOneLine(b)
    ensures AllOneLine(a + b)
  {
  }

  lemma AllOneLineFour(a: seq<string>, b: seq<string>, c: seq<string>, d: seq<string>)
    requires AllOneLine(a) && AllOneLine(b) && AllOneLine(c) && AllOneLine(d)
    ensures AllOneLine(a + b + c + d)
  {
  }

  predicate Plain(r: Remark) {
    match r
    case Plan(count) => OneLine(count)
    case Kind(kind) => OneLine(kind)
    case Count(topic, number) => OneLine(topic) && OneLine(number)
    case _ => true
  }

  lemma RemarkIsOneLine(r: Remark)
    requires Plain(r)
    ensures OneLine(RemarkText(r))
  {
    match r
    case Version =>
    case Plan(count) =>
      OneLineConcat("1..", count);
    case Opening =>
    case Closing =>
    case Kind(kind) =>
      OneLineConcat("type: '", kind);
      OneLineConcat("type: '" + kind, "'");
    case Count(topic, number) =>
      OneLineConcat(" ", number);
      OneLineConcat(topic, " " + number);
      OneLineConcat("# ", topic + (" " + number));
  }

  lemma MarkIsOneLine(indent: nat, r: Remark)
    requires Plain(r)
    ensures OneLine(Mark(indent, r))
  {
    RemarkIsOneLine(r);
    OneLineConcat(Spaces(indent), RemarkText(r));
  }

  lemma OutcomeIsOneLine(t: Test, indent: nat)
    requires OneLine(t.title) && IsNumber(t.number)
    ensures OneLine(OutcomeText(t, indent))
  {
    OneLineConcat(" - ", t.title);
    OneLineConcat(t.number, " - " + t.title);
    OneLineConcat("ok ", t.number + (" - " + t.title));
    OneLineConcat("not ", "ok " + (t.number + (" - " + t.title)));
  }

  lemma TailIsOneLine(t: Test, indent: nat, details: Details)
    requires OneLine(t.title) && IsNumber(t.number) && IsDuration(t.ms) && AllOneLine(details(t, indent + 2))
    ensures AllOneLine(TailOutput(t, indent, details))
  {
    OutcomeIsOneLine(t, indent);
    MarkIsOneLine(indent + 2, Opening);
    OneLineConcat("duration_ms:", " " + t.ms);
    MarkIsOneLine(indent + 2, Closing);
    AllOneLineConcat(details(t, indent + 2), [Mark(indent + 2, Closing)]);
    AllOneLineFour([OutcomeText(t, indent)], [Mark(indent + 2, Opening)], [DurationLine(t, indent)],
                   BlockEnd(t, indent + 2, details));
  }

  lemma {:induction false} LastIsSpellable(ts: seq<Test>)
    requires AllSpellable(ts) && ts != []
    ensures IsNumber(ts[|ts| - 1].number)
  {
    if |ts| > 1 {
      LastIsSpellable(ts[1..]);
    }
  }

  lemma PlanIsOneLine(ts: seq<Test>, indent: nat)
    requires AllSpellable(ts)
    ensures OneLine(Mark(indent, PlanOf(ts)))
  {
    if ts != [] {
      LastIsSpellable(ts);
    }
    MarkIsOneLine(indent, PlanOf(ts));
  }

  lemma {:induction false} TestIsOneLine(t: Test, indent: nat, details: Details)
    requires Spellable(t) && OnOneLine(t) && Quiet(details)
    ensures AllOneLine(TestOutput(t, indent, details))
    decreases t, 1
  {
    OneLineConcat("# Subtest: ", t.name);
    ForestIsOneLine(t.children, indent + WIDTH, details);
    PlanIsOneLine(t.children, indent + WIDTH);
    TailIsOneLine(t, indent, details);
    AllOneLineFour([SubtestText(t, indent)], ForestOutput(t.children, indent + WIDTH, details),
                   InnerPlan(t.children, indent + WIDTH), TailOutput(t, indent, details));
  }

  lemma {:induction false} ForestIsOneLine(ts: seq<Test>, indent: nat, details: Details)
    requires AllSpellable(ts) && AllOnOneLine(ts) && Quiet(details)
    ensures AllOneLine(ForestOutput(ts, indent, details))
    decreases ts, 0
  {
    if ts != [] {
      TestIsOneLine(ts[0], indent, details);
      ForestIsOneLine(ts[1..], indent, details);
      AllOneLineConcat(TestOutput(ts[0], indent, details), ForestOutput(ts[1..], indent, details));
    }
  }

  lemma OutputIsOneLine(ts: seq<Test>, details: Details, numbers: seq<string>)
    requires AllSpellable(ts) && AllOnOneLine(ts) && Quiet(details) && |numbers| == |LABELS| && AllOneLine(numbers)
    ensures AllOneLine(Output(ts, details, numbers))
  {
    MarkIsOneLine(0, Version);
    ForestIsOneLine(ts, 0, details);
    PlanIsOneLine(ts, 0);
    forall i | 0 <= i < |LABELS| ensures OneLine(Totals(numbers)[i]) {
      LabelsAreLabels(i);
      MarkIsOneLine(0, Count(LABELS[i], numbers[i]));
    }
    AllOneLineFour([Mark(0, Version)], ForestOutput(ts, 0, details), [Mark(0, PlanOf(ts))], Totals(numbers));
  }

  /** Node's output for a forest, whatever its blocks say after the durations, is laid out as that forest. */
  lemma OutputIsLaidOut(ts: seq<Test>, details: Details, numbers: seq<string>)
    requires AllSpellable(ts) && AllOnOneLine(ts) && Quiet(details) && |numbers| == |LABELS| && AllOneLine(numbers)
    ensures LaidOut(Written(Output(ts, details, numbers)), ts, WIDTH)
  {
    OutputIsOneLine(ts, details, numbers);
    SplitWritten(Output(ts, details, numbers));
    OutputIsKept(ts, details, numbers);
  }

  /** So what the reader makes of Node's output is a matter of the forest alone: exactly the joined leaf paths, each with
      the sum of its leaves' durations and nothing of any suite. */
  lemma OutputDurations(ts: seq<Test>, details: Details, numbers: seq<string>, float: Float, key: string)
    requires AllSpellable(ts) && AllOnOneLine(ts) && Quiet(details) && |numbers| == |LABELS| && AllOneLine(numbers)
    requires Numeric(LeavesAll(ts, []), float)
    ensures var r, leaves := TapText.Durations(Written(Output(ts, details, numbers)), float), LeavesAll(ts, []);
            && r.Some?
            && (key in r.value <==> exists i :: 0 <= i < |leaves| && Join(leaves[i].path) == key)
            && (key in r.value ==> r.value[key] == Sum(leaves, key, float))
  {
    OutputIsLaidOut(ts, details, numbers);
    TextDurations(Written(Output(ts, details, numbers)), ts, WIDTH, float, key);
  }

  /** What the blocks say after the durations and what the totals are changes nothing. */
  lemma DetailsAreIrrelevant(ts: seq<Test>, some: Details, other: Details, m: seq<string>, n: seq<string>, float: Float)
    requires AllSpellable(ts) && AllOnOneLine(ts) && Quiet(some) && Quiet(other)
    requires |m| == |LABELS| && |n| == |LABELS| && AllOneLine(m) && AllOneLine(n)
    ensures TapText.Durations(Written(Output(ts, some, m)), float) == TapText.Durations(Written(Output(ts, other, n)), float)
  {
    OutputIsLaidOut(ts, some, m);
    OutputIsLaidOut(ts, other, n);
    NotesAreIrrelevant(Written(Output(ts, some, m)), Written(Output(ts, other, n)), float);
  }

  // ---------------------------------------------------------------------------------------
  // Blocks with and without the kind
  // ---------------------------------------------------------------------------------------

  /** The kind of a test, which newer versions of Node name. */
  function Kinds(t: Test, indent: nat): seq<string> {
    [Mark(indent, Kind(if t.children == [] then "test" else "suite"))]
  }

  /** In older ones the block ends with the duration. */
  function NoKinds(t: Test, indent: nat): seq<string> {
    []
  }

  lemma KindsAreQuiet()
    ensures Quiet(Kinds) && Quiet(NoKinds)
  {
    forall t, n ensures IsNote(Kinds(t, n)[0]) && OneLine(Kinds(t, n)[0]) {
      var kind := if t.children == [] then "test" else "suite";
      RemarkIsNote(n, Kind(kind));
      MarkIsOneLine(n, Kind(kind));
    }
  }

  lemma LeafOutput(t: Test, indent: nat)
    requires t.children == []
    ensures TestOutput(t, indent, Kinds) ==
            [SubtestText(t, indent), OutcomeText(t, indent), Mark(indent + 2, Opening), DurationLine(t, indent),
             Mark(indent + 2, Kind("test")), Mark(indent + 2, Closing)]
  {
  }

  const SKIPPED := Test("a", [], "1", true, "1", "a # SKIP")

  lemma SkippedHead()
    ensures SubtestText(SKIPPED, 0) == "# Subtest: a" && OutcomeText(SKIPPED, 0) == "ok 1 - a # SKIP"
  {
    assert Spaces(0) == "";
    assert "ok " + ("1" + (" - " + "a # SKIP")) == "ok 1 - a # SKIP";
  }

  lemma SkippedBlock()
    ensures Mark(2, Opening) == "  ---" && DurationLine(SKIPPED, 0) == "  duration_ms: 1"
    ensures Mark(2, Kind("test")) == "  type: 'test'" && Mark(2, Closing) == "  ..."
  {
    assert Spaces(2) == "  ";
  }

  /** A skipped test's lines: its key will be the name, not the title. */
  lemma SkippedTest()
    ensures TestOutput(SKIPPED, 0, Kinds) ==
            ["# Subtest: a", "ok 1 - a # SKIP", "  ---", "  duration_ms: 1", "  type: 'test'", "  ..."]
  {
    LeafOutput(SKIPPED, 0);
    SkippedHead();
    SkippedBlock();
  }

  // ---------------------------------------------------------------------------------------
  // Two paths under one key
  // ---------------------------------------------------------------------------------------

  /** A test and, beside it, a suite and its test whose names join to the first one's. */
  function Colliding(): seq<Test> {
    [Test("a::b", [], "1", true, "1", "a::b"), Test("a", [Test("b", [], "2", true, "1", "b")], "2", true, "2", "a")]
  }

  /** The failing family is real: the reader books both tests under one key. */
  lemma ColonsCollide(float: Float, numbers: seq<string>)
    requires float("1") == Some(1.0) && float("2") == Some(2.0) && |numbers| == |LABELS| && AllOneLine(numbers)
    ensures var text, leaves := Written(Output(Colliding(), Kinds, numbers)), LeavesAll(Colliding(), []);
            && leaves == [Leaf(["a::b"], "1"), Leaf(["a", "b"], "2")]
            && TapText.Durations(text, float) == Some(map["a::b" := 0.003])
  {
    CollidingLeaves();
    CollidingIsSpellable();
    JoinsAlike();
    CollidingSum(float);
    KindsAreQuiet();
    OutputIsLaidOut(Colliding(), Kinds, numbers);
    OneKey(Written(Output(Colliding(), Kinds, numbers)), Colliding(), WIDTH, float, "a::b");
  }

  /** A forest all of whose leaf paths join to one key. */
  lemma OneKey(text: string, ts: seq<Test>, width: nat, float: Float, key: string)
    requires LaidOut(text, ts, width)
    requires width > 0 && AllSpellable(ts) && Numeric(LeavesAll(ts, []), float) && LeavesAll(ts, []) != []
    requires var leaves := LeavesAll(ts, []); forall i :: 0 <= i < |leaves| ==> Join(leaves[i].path) == key
    ensures TapText.Durations(text, float) == Some(map[key := Sum(LeavesAll(ts, []), key, float)])
  {
    LeafIsRead(text, ts, width, float, 0);
    var result := TapText.Durations(text, float).value;
    forall other ensures other in result <==> other == key {
      TextDurations(text, ts, width, float, other);
    }
    assert result.Keys == {key};
    assert result == map[key := result[key]];
  }

  lemma CollidingSum(float: Float)
    requires float("1") == Some(1.0) && float("2") == Some(2.0)
    ensures Sum([Leaf(["a::b"], "1"), Leaf(["a", "b"], "2")], "a::b", float) == 0.003
  {
    var x, y := Leaf(["a::b"], "1"), Leaf(["a", "b"], "2");
    JoinsAlike();
    assert [x, y][1..] == [y] && [y][1..] == [];
    assert Sum([y], "a::b", float) == 0.002;
  }

  lemma JoinsAlike()
    ensures Join(["a::b"]) == "a::b" && Join(["a", "b"]) == "a::b"
  {
    assert ["a", "b"][..1] == ["a"];
    assert Join(["a"]) == "a";
    assert "a" + "::" + "b" == "a::b";
  }

  lemma CollidingLeaves()
    ensures LeavesAll(Colliding(), []) == [Leaf(["a::b"], "1"), Leaf(["a", "b"], "2")]
  {
    var ts := Colliding();
    var inner := ts[1].children;
    assert inner[1..] == [];
    assert [] + ["a"] == ["a"] && ["a"] + ["b"] == ["a", "b"] && [] + ["a::b"] == ["a::b"];
    assert LeavesAll(inner, ["a"]) == [Leaf(["a", "b"], "2")];
    assert Leaves(ts[1], []) == [Leaf(["a", "b"], "2")];
    assert Leaves(ts[0], []) == [Leaf(["a::b"], "1")];
    assert ts[1..] == [ts[1]] && ts[1..][1..] == [];
    assert LeavesAll(ts[1..], []) == [Leaf(["a", "b"], "2")];
  }

  lemma CollidingIsSpellable()
    ensures AllSpellable(Colliding()) && AllOnOneLine(Colliding())
  {
    var ts := Colliding();
    var inner := ts[1].children;
    assert IsNumber("1") && IsNumber("2") && IsDuration("1") && IsDuration("2");
    assert inner[1..] == [];
    assert Spellable(inner[0]);
    assert AllSpellable(inner);
    assert ts[1..] == [ts[1]] && ts[1..][1..] == [];
    assert Spellable(ts[1]) && AllSpellable(ts[1..]);
    assert OnOneLine(inner[0]) && AllOnOneLine(inner);
    assert OnOneLine(ts[1]) && AllOnOneLine(ts[1..]);
  }
}
