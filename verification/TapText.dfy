/**
 TAP as text for the duration reader (perf/harness/suite.py): how forests of tests are written, what the
 reader makes of every such text, and when a key of its result stands for one test path.
 */
module TapText {
  import opened Prelude
  import opened Text
  import opened TapDurations

  // ---------------------------------------------------------------------------------------
  // How the lines are written
  // ---------------------------------------------------------------------------------------

  function Spaces(n: nat): (s: string)
    ensures |s| == n && forall i :: 0 <= i < n ==> s[i] == ' '
  {
    seq(n, _ => ' ')
  }

  lemma {:induction false} LeadingSpaces(n: nat, s: string)
    requires s != "" ==> !IsSpace(s[0])
    ensures Leading(Spaces(n) + s) == n
  {
    if n == 0 {
      assert Spaces(0) + s == s;
    } else {
      assert (Spaces(n) + s)[1..] == Spaces(n - 1) + s;
      LeadingSpaces(n - 1, s);
    }
  }

  lemma {:induction false} DigitsOf(number: string, s: string)
    requires forall i :: 0 <= i < |number| ==> IsDigit(number[i])
    requires s != "" ==> !IsDigit(s[0])
    ensures Digits(number + s) == |number|
  {
    if number == "" {
      assert number + s == s;
    } else {
      assert (number + s)[1..] == number[1..] + s;
      DigitsOf(number[1..], s);
    }
  }

  lemma {:induction false} NumberRunOf(ms: string)
    requires forall i :: 0 <= i < |ms| ==> NumberChar(ms[i])
    ensures NumberRun(ms) == |ms|
  {
    if ms != "" {
      NumberRunOf(ms[1..]);
    }
  }

  lemma Cut(p: string, s: string)
    ensures After(p + s, p) == Some(s)
  {
    assert (p + s)[..|p|] == p && (p + s)[|p|..] == s;
  }

  lemma CutSpaces(n: nat, s: string)
    requires s != "" ==> !IsSpace(s[0])
    ensures Leading(Spaces(n) + s) == n && (Spaces(n) + s)[n..] == s
  {
    LeadingSpaces(n, s);
  }

  /** Each pattern begins with a character of its own. */
  lemma SubtestHead(s: string)
    requires s != "" && s[0] != '#'
    ensures SubtestName(s) == None
  {
  }

  lemma OutcomeHead(s: string)
    requires s != "" && s[0] != 'o' && s[0] != 'n'
    ensures OutcomeTitle(s) == None
  {
  }

  lemma Indented(n: nat, s: string)
    requires s != "" ==> !IsSpace(s[0])
    ensures Classify(Spaces(n) + s) == ClassifyAt(n, s)
  {
    CutSpaces(n, s);
  }

  lemma SpelledSubtest(indent: nat, name: string)
    requires name != ""
    ensures Classify(Spaces(indent) + ("# Subtest: " + name)) == Subtest(indent, name)
  {
    Cut("# Subtest: ", name);
    Indented(indent, "# Subtest: " + name);
  }

  predicate IsNumber(number: string) {
    number != "" && forall i :: 0 <= i < |number| ==> IsDigit(number[i])
  }

  /** What follows the word ok. */
  lemma NumberedTitle(number: string, title: string)
    requires title != "" && IsNumber(number)
    ensures OutcomeTitle("ok " + (number + (" - " + title))) == Some(title)
  {
    var rest := number + (" - " + title);
    Cut("ok ", rest);
    DigitsOf(number, " - " + title);
    assert rest[|number|..] == " - " + title;
    Cut(" - ", title);
    assert ("ok " + rest)[0] == 'o';
  }

  lemma NegatedTitle(s: string)
    requires s != "" && s[0] == 'o'
    ensures OutcomeTitle("not " + s) == OutcomeTitle(s)
  {
    assert ("not " + s)[..4] == "not " && ("not " + s)[4..] == s;
  }

  lemma OutcomeLine(indent: nat, s: string)
    requires s != "" && (s[0] == 'o' || s[0] == 'n') && OutcomeTitle(s).Some?
    ensures Classify(Spaces(indent) + s) == Outcome(indent, OutcomeTitle(s).value)
  {
    SubtestHead(s);
    Indented(indent, s);
  }

  lemma SpelledOutcome(indent: nat, number: string, title: string)
    requires title != "" && IsNumber(number)
    ensures var s := "ok " + (number + (" - " + title));
            && Classify(Spaces(indent) + s) == Outcome(indent, title)
            && Classify(Spaces(indent) + ("not " + s)) == Outcome(indent, title)
  {
    var s := "ok " + (number + (" - " + title));
    NumberedTitle(number, title);
    NegatedTitle(s);
    OutcomeLine(indent, s);
    OutcomeLine(indent, "not " + s);
  }

  predicate IsDuration(ms: string) {
    ms != "" && forall i :: 0 <= i < |ms| ==> NumberChar(ms[i])
  }

  lemma DurationAfter(ms: string)
    requires IsDuration(ms)
    ensures DurationText("duration_ms:" + (" " + ms)) == Some(ms)
  {
    Cut("duration_ms:", " " + ms);
    assert Spaces(1) == " ";
    CutSpaces(1, ms);
    NumberRunOf(ms);
    assert ms[|ms|..] == "" && ms[..|ms|] == ms;
  }

  lemma SpelledDuration(indent: nat, ms: string)
    requires indent > 0 && IsDuration(ms)
    ensures Classify(Spaces(indent) + ("duration_ms:" + (" " + ms))) == Duration(ms)
  {
    var s := "duration_ms:" + (" " + ms);
    assert s[0] == 'd';
    DurationAfter(ms);
    SubtestHead(s);
    OutcomeHead(s);
    Indented(indent, s);
  }

  /** A line that, after its indentation, begins like none of the three patterns. */
  predicate IsNote(line: string) {
    var s := line[Leading(line)..];
    && !StartsWith(s, "# Subtest: ") && !StartsWith(s, "duration_ms:")
    && !StartsWith(s, "ok ") && !StartsWith(s, "not ok ")
  }

  /** Such a line is skipped. */
  lemma NoteIsOther(line: string)
    requires IsNote(line)
    ensures Classify(line) == Other
  {
    NotOk(line[Leading(line)..]);
  }

  lemma NotOk(s: string)
    ensures StartsWith(s, "not ") && StartsWith(s[4..], "ok ") ==> StartsWith(s, "not ok ")
  {
    if StartsWith(s, "not ") && StartsWith(s[4..], "ok ") {
      assert s[..7] == s[..4] + s[4..][..3];
    }
  }

  lemma NoteAt(indent: nat, s: string)
    requires s != "" && !IsSpace(s[0]) && s[0] != '#' && s[0] != 'o' && s[0] != 'n' && s[0] != 'd'
    ensures IsNote(Spaces(indent) + s)
  {
    CutSpaces(indent, s);
    assert "# Subtest: "[0] == '#' && "duration_ms:"[0] == 'd' && "ok "[0] == 'o' && "not ok "[0] == 'n';
  }

  // ---------------------------------------------------------------------------------------
  // Forests as text
  // ---------------------------------------------------------------------------------------

  function SubtestText(t: Test, indent: nat): string {
    Spaces(indent) + ("# Subtest: " + t.name)
  }

  function OutcomeText(t: Test, indent: nat): string {
    var s := "ok " + (t.number + (" - " + t.title));
    Spaces(indent) + (if t.passed then s else "not " + s)
  }

  function DurationLine(t: Test, indent: nat): string {
    Spaces(indent + 2) + ("duration_ms:" + (" " + t.ms))
  }

  function TailText(t: Test, indent: nat): seq<string> {
    [OutcomeText(t, indent), DurationLine(t, indent)]
  }

  /** The lines of one test at an indentation, `width` deeper for each level. */
  function TestText(t: Test, indent: nat, width: nat): seq<string>
    decreases t, 1
  {
    [SubtestText(t, indent)] + ForestText(t.children, indent + width, width) + TailText(t, indent)
  }

  function ForestText(ts: seq<Test>, indent: nat, width: nat): seq<string>
    decreases ts, 0
  {
    if ts == [] then [] else TestText(ts[0], indent, width) + ForestText(ts[1..], indent, width)
  }

  /** A name, a title, a number and a duration the patterns can match. */
  predicate Spellable(t: Test)
    decreases t, 1
  {
    t.name != "" && t.title != "" && IsNumber(t.number) && IsDuration(t.ms) && AllSpellable(t.children)
  }

  predicate AllSpellable(ts: seq<Test>)
    decreases ts, 0
  {
    ts == [] || (Spellable(ts[0]) && AllSpellable(ts[1..]))
  }

  lemma ClassifiedConcat(a: seq<string>, b: seq<string>)
    ensures Classified(a + b, Classify) == Classified(a, Classify) + Classified(b, Classify)
  {
  }

  lemma ClassifiedOne(line: string)
    ensures Classified([line], Classify) == [Classify(line)]
  {
  }

  lemma ClassifiedTwo(a: string, b: string, patterns: Patterns)
    ensures Classified([a, b], patterns) == [patterns(a), patterns(b)]
  {
  }

  lemma ClassifiedTail(t: Test, indent: nat)
    requires t.title != "" && IsNumber(t.number) && IsDuration(t.ms)
    ensures Classified(TailText(t, indent), Classify) == Tail(t, indent)
  {
    SpelledOutcome(indent, t.number, t.title);
    SpelledDuration(indent + 2, t.ms);
    ClassifiedTwo(OutcomeText(t, indent), DurationLine(t, indent), Classify);
  }

  /** The lines of a test are recognised as what they were written for. */
  lemma {:induction false} TestIsRecognised(t: Test, indent: nat, width: nat)
    requires Spellable(t)
    ensures Classified(TestText(t, indent, width), Classify) == Render(t, indent, width)
    decreases t, 1
  {
    var head, inner := [SubtestText(t, indent)], ForestText(t.children, indent + width, width);
    SpelledSubtest(indent, t.name);
    ClassifiedOne(SubtestText(t, indent));
    ForestIsRecognised(t.children, indent + width, width);
    ClassifiedTail(t, indent);
    ClassifiedConcat(head, inner);
    ClassifiedConcat(head + inner, TailText(t, indent));
  }

  lemma {:induction false} ForestIsRecognised(ts: seq<Test>, indent: nat, width: nat)
    requires AllSpellable(ts)
    ensures Classified(ForestText(ts, indent, width), Classify) == RenderAll(ts, indent, width)
    decreases ts, 0
  {
    if ts != [] {
      TestIsRecognised(ts[0], indent, width);
      ForestIsRecognised(ts[1..], indent, width);
      ClassifiedConcat(TestText(ts[0], indent, width), ForestText(ts[1..], indent, width));
    }
  }

  lemma {:induction false} SpellableIsNamed(ts: seq<Test>)
    requires AllSpellable(ts)
    ensures AllNamed(ts)
    decreases ts, 0
  {
    if ts != [] {
      SpellableTestIsNamed(ts[0]);
      SpellableIsNamed(ts[1..]);
    }
  }

  lemma {:induction false} SpellableTestIsNamed(t: Test)
    requires Spellable(t)
    ensures Named(t)
    decreases t, 1
  {
    SpellableIsNamed(t.children);
  }

  predicate NoOther(lines: seq<Line>) {
    forall i :: 0 <= i < |lines| ==> lines[i] != Other
  }

  lemma NoOtherConcat(a: seq<Line>, b: seq<Line>)
    requires NoOther(a) && NoOther(b)
    ensures NoOther(a + b)
  {
  }

  lemma {:induction false} AllEssential(lines: seq<Line>)
    requires NoOther(lines)
    ensures Essential(lines) == lines
  {
    if lines != [] {
      AllEssential(lines[..|lines| - 1]);
      assert lines == lines[..|lines| - 1] + [lines[|lines| - 1]];
    }
  }

  /** A forest is rendered in lines that match. */
  lemma {:induction false} TestHasNoOther(t: Test, indent: nat, width: nat)
    ensures NoOther(Render(t, indent, width))
    decreases t, 1
  {
    var head, inner := [Subtest(indent, t.name)], RenderAll(t.children, indent + width, width);
    ForestHasNoOther(t.children, indent + width, width);
    NoOtherConcat(head, inner);
    NoOtherConcat(head + inner, Tail(t, indent));
  }

  lemma {:induction false} ForestHasNoOther(ts: seq<Test>, indent: nat, width: nat)
    ensures NoOther(RenderAll(ts, indent, width))
    decreases ts, 0
  {
    if ts != [] {
      TestHasNoOther(ts[0], indent, width);
      ForestHasNoOther(ts[1..], indent, width);
      NoOtherConcat(Render(ts[0], indent, width), RenderAll(ts[1..], indent, width));
    }
  }

  // ---------------------------------------------------------------------------------------
  // The text as a whole
  // ---------------------------------------------------------------------------------------

  /** The lines that are no notes. */
  function Kept(lines: seq<string>): seq<string> {
    if lines == [] then []
    else
      var last := lines[|lines| - 1];
      Kept(lines[..|lines| - 1]) + (if IsNote(last) then [] else [last])
  }

  /** A text whose lines, apart from notes anywhere between them, are those of a forest. */
  predicate LaidOut(text: string, ts: seq<Test>, width: nat) {
    Kept(SplitLines(text)) == ForestText(ts, 0, width)
  }

  lemma EssentialSnoc(front: seq<string>, last: string, patterns: Patterns)
    ensures Essential(Classified(front + [last], patterns)) ==
            Essential(Classified(front, patterns)) + if patterns(last) == Other then [] else [patterns(last)]
  {
    assert Classified(front + [last], patterns)[..|front|] == Classified(front, patterns);
  }

  lemma KeptSnoc(front: seq<string>, last: string)
    ensures Kept(front + [last]) == if IsNote(last) then Kept(front) else Kept(front) + [last]
  {
    assert (front + [last])[..|front|] == front;
  }

  ghost predicate SkipsNotes(patterns: Patterns) {
    forall line :: IsNote(line) ==> patterns(line) == Other
  }

  lemma ClassifySkipsNotes()
    ensures SkipsNotes(Classify)
  {
    forall line | IsNote(line) ensures Classify(line) == Other {
      NoteIsOther(line);
    }
  }

  lemma KeptNext(front: seq<string>, last: string, patterns: Patterns)
    requires SkipsNotes(patterns)
    requires Essential(Classified(front, patterns)) == Essential(Classified(Kept(front), patterns))
    ensures Essential(Classified(front + [last], patterns)) == Essential(Classified(Kept(front + [last]), patterns))
  {
    KeptSnoc(front, last);
    EssentialSnoc(front, last, patterns);
    EssentialSnoc(Kept(front), last, patterns);
  }

  lemma {:induction false} KeptIsEssential(lines: seq<string>, patterns: Patterns)
    requires SkipsNotes(patterns)
    ensures Essential(Classified(lines, patterns)) == Essential(Classified(Kept(lines), patterns))
  {
    if lines != [] {
      var front, last := lines[..|lines| - 1], lines[|lines| - 1];
      KeptIsEssential(front, patterns);
      KeptNext(front, last, patterns);
      assert lines == front + [last];
    }
  }

  /** The reader's result for a text. */
  function Durations(text: string, float: Float): Option<TapDurations.Durations> {
    Total(SplitLines(text), Classify, float)
  }

  /** Notes never matter: texts that differ only in them give the same durations. */
  lemma NotesAreIrrelevant(a: string, b: string, float: Float)
    requires Kept(SplitLines(a)) == Kept(SplitLines(b))
    ensures Durations(a, float) == Durations(b, float)
  {
    ClassifySkipsNotes();
    KeptIsEssential(SplitLines(a), Classify);
    KeptIsEssential(SplitLines(b), Classify);
    ReadEssential(START, Classified(SplitLines(a), Classify), float);
    ReadEssential(START, Classified(SplitLines(b), Classify), float);
  }

  /** The lines of such a text that match a pattern are the forest's. */
  lemma LaidOutIsRendered(text: string, ts: seq<Test>, width: nat)
    requires LaidOut(text, ts, width) && AllSpellable(ts)
    ensures Essential(Classified(SplitLines(text), Classify)) == RenderAll(ts, 0, width)
  {
    ClassifySkipsNotes();
    KeptIsEssential(SplitLines(text), Classify);
    ForestIsRecognised(ts, 0, width);
    ForestHasNoOther(ts, 0, width);
    AllEssential(RenderAll(ts, 0, width));
  }

  /** For every text laid out as a forest, the reader returns exactly the joined leaf paths, each with the sum of its
      leaves' durations and nothing of any suite. */
  lemma TextDurations(text: string, ts: seq<Test>, width: nat, float: Float, key: string)
    requires LaidOut(text, ts, width)
    requires width > 0 && AllSpellable(ts) && Numeric(LeavesAll(ts, []), float)
    ensures var r, leaves := Durations(text, float), LeavesAll(ts, []);
            && r.Some?
            && (key in r.value <==> exists i :: 0 <= i < |leaves| && Join(leaves[i].path) == key)
            && (key in r.value ==> r.value[key] == Sum(leaves, key, float))
  {
    LaidOutIsRendered(text, ts, width);
    SpellableIsNamed(ts);
    ForestDurations(Classified(SplitLines(text), Classify), ts, width, float, key);
  }

  // ---------------------------------------------------------------------------------------
  // When a key stands for one path
  // ---------------------------------------------------------------------------------------

  /** The seconds of all leaves at exactly this path. */
  function PathSum(leaves: seq<Leaf>, path: seq<string>, float: Float): real {
    if leaves == [] then 0.0
    else (if leaves[0].path == path then Seconds(leaves[0], float) else 0.0) + PathSum(leaves[1..], path, float)
  }

  /** No two leaf paths join alike. */
  predicate DistinctKeys(leaves: seq<Leaf>) {
    forall i, j :: 0 <= i < |leaves| && 0 <= j < |leaves| && Join(leaves[i].path) == Join(leaves[j].path) ==>
      leaves[i].path == leaves[j].path
  }

  predicate Positive(leaves: seq<Leaf>, float: Float) {
    forall i :: 0 <= i < |leaves| ==> Seconds(leaves[i], float) > 0.0
  }

  /** Every key has the duration of each path it stands for. */
  ghost predicate KeysArePaths(leaves: seq<Leaf>, result: TapDurations.Durations, float: Float) {
    forall i :: 0 <= i < |leaves| ==>
      Join(leaves[i].path) in result && result[Join(leaves[i].path)] == PathSum(leaves, leaves[i].path, float)
  }

  ghost predicate KeysAreSums(leaves: seq<Leaf>, result: TapDurations.Durations, float: Float) {
    forall i :: 0 <= i < |leaves| ==>
      Join(leaves[i].path) in result && result[Join(leaves[i].path)] == Sum(leaves, Join(leaves[i].path), float)
  }

  lemma {:induction false} SumOfOnePath(leaves: seq<Leaf>, path: seq<string>, float: Float)
    requires forall i :: 0 <= i < |leaves| && Join(leaves[i].path) == Join(path) ==> leaves[i].path == path
    ensures Sum(leaves, Join(path), float) == PathSum(leaves, path, float)
  {
    if leaves != [] {
      SumOfOnePath(leaves[1..], path, float);
    }
  }

  lemma {:induction false} SumOfTwoPaths(leaves: seq<Leaf>, p: seq<string>, q: seq<string>, float: Float)
    requires Positive(leaves, float) && p != q && Join(p) == Join(q)
    ensures Sum(leaves, Join(p), float) >= PathSum(leaves, p, float) + PathSum(leaves, q, float)
  {
    if leaves != [] {
      SumOfTwoPaths(leaves[1..], p, q, float);
    }
  }

  lemma {:induction false} PathSumIsPositive(leaves: seq<Leaf>, i: nat, float: Float)
    requires Positive(leaves, float) && i < |leaves|
    ensures PathSum(leaves, leaves[i].path, float) > 0.0
  {
    PathSumIsNotNegative(leaves[1..], leaves[i].path, float);
    if i > 0 {
      PathSumIsPositive(leaves[1..], i - 1, float);
    }
  }

  lemma {:induction false} PathSumIsNotNegative(leaves: seq<Leaf>, path: seq<string>, float: Float)
    requires Positive(leaves, float)
    ensures PathSum(leaves, path, float) >= 0.0
  {
    if leaves != [] {
      PathSumIsNotNegative(leaves[1..], path, float);
    }
  }

  lemma LeafIsRead(text: string, ts: seq<Test>, width: nat, float: Float, i: nat)
    requires LaidOut(text, ts, width)
    requires width > 0 && AllSpellable(ts) && Numeric(LeavesAll(ts, []), float) && i < |LeavesAll(ts, [])|
    ensures var r, leaves := Durations(text, float), LeavesAll(ts, []);
            var key := Join(leaves[i].path);
            r.Some? && key in r.value && r.value[key] == Sum(leaves, key, float)
  {
    var key := Join(LeavesAll(ts, [])[i].path);
    TextDurations(text, ts, width, float, key);
  }

  lemma LeavesAreRead(text: string, ts: seq<Test>, width: nat, float: Float, leaves: seq<Leaf>)
    requires LaidOut(text, ts, width) && leaves == LeavesAll(ts, [])
    requires width > 0 && AllSpellable(ts) && Numeric(leaves, float)
    ensures Durations(text, float).Some? && KeysAreSums(leaves, Durations(text, float).value, float)
  {
    TextDurations(text, ts, width, float, "");
    var result := Durations(text, float).value;
    forall i | 0 <= i < |leaves|
      ensures Join(leaves[i].path) in result
      ensures result[Join(leaves[i].path)] == Sum(leaves, Join(leaves[i].path), float)
    {
      LeafIsRead(text, ts, width, float, i);
    }
  }

  lemma DistinctAreExact(leaves: seq<Leaf>, result: TapDurations.Durations, float: Float)
    requires KeysAreSums(leaves, result, float) && DistinctKeys(leaves)
    ensures KeysArePaths(leaves, result, float)
  {
    forall i | 0 <= i < |leaves|
      ensures Join(leaves[i].path) in result && result[Join(leaves[i].path)] == PathSum(leaves, leaves[i].path, float)
    {
      SumOfOnePath(leaves, leaves[i].path, float);
    }
  }

  lemma SharedIsTooLarge(leaves: seq<Leaf>, result: TapDurations.Durations, float: Float, i: nat, j: nat)
    requires KeysAreSums(leaves, result, float) && Positive(leaves, float) && i < |leaves| && j < |leaves|
    requires Join(leaves[i].path) == Join(leaves[j].path) && leaves[i].path != leaves[j].path
    ensures result[Join(leaves[i].path)] > PathSum(leaves, leaves[i].path, float)
  {
    SumOfTwoPaths(leaves, leaves[i].path, leaves[j].path, float);
    PathSumIsPositive(leaves, j, float);
  }

  /** For positive durations, every key the reader returns is one path's duration if and only if no two leaf
      paths of the forest join alike. */
  lemma KeysArePathsIffDistinct(text: string, ts: seq<Test>, width: nat, float: Float)
    requires LaidOut(text, ts, width)
    requires width > 0 && AllSpellable(ts) && Numeric(LeavesAll(ts, []), float) && Positive(LeavesAll(ts, []), float)
    ensures var r, leaves := Durations(text, float), LeavesAll(ts, []);
            r.Some? && (KeysArePaths(leaves, r.value, float) <==> DistinctKeys(leaves))
  {
    var leaves := LeavesAll(ts, []);
    LeavesAreRead(text, ts, width, float, leaves);
    var result := Durations(text, float).value;
    if DistinctKeys(leaves) {
      DistinctAreExact(leaves, result, float);
    } else {
      var i, j :| 0 <= i < |leaves| && 0 <= j < |leaves| && Join(leaves[i].path) == Join(leaves[j].path)
                  && leaves[i].path != leaves[j].path;
      SharedIsTooLarge(leaves, result, float, i, j);
    }
  }

  /** A name that cannot be mistaken for several: no double colon inside, no colon in front. */
  predicate Unambiguous(name: string) {
    && (name != "" ==> name[0] != ':')
    && forall i :: 0 <= i < |name| - 1 ==> !(name[i] == ':' && name[i + 1] == ':')
  }

  predicate AllUnambiguous(names: seq<string>) {
    forall i :: 0 <= i < |names| ==> Unambiguous(names[i])
  }

  lemma LastAgrees(x: string, a: string, y: string, b: string)
    requires x + "::" + a == y + "::" + b && Unambiguous(a) && Unambiguous(b)
    ensures x == y && a == b
  {
    var s, t := x + "::" + a, y + "::" + b;
    LastNotLonger(x, a, y, b);
    LastNotLonger(y, b, x, a);
    assert s[..|x|] == x && t[..|y|] == y;
    assert s[|x| + 2..] == a && t[|y| + 2..] == b;
  }

  lemma LastNotLonger(x: string, a: string, y: string, b: string)
    requires x + "::" + a == y + "::" + b && Unambiguous(b)
    ensures |b| <= |a|
  {
    var s := x + "::" + a;
    assert s[|x|] == ':' && s[|x| + 1] == ':';
    assert |x| + |a| == |y| + |b|;
    assert forall i :: 0 <= i < |b| ==> b[i] == s[i + |y| + 2];
    if |a| < |b| {
      assert false;
    }
  }

  lemma JoinIsAmbiguous(names: seq<string>)
    requires |names| > 1
    ensures !Unambiguous(Join(names))
  {
    var n := |Join(names[..|names| - 1])|;
    assert Join(names)[n] == ':' && Join(names)[n + 1] == ':';
  }

  /** Paths of such names join injectively. */
  lemma {:induction false} JoinInjective(a: seq<string>, b: seq<string>)
    requires a != [] && b != [] && AllUnambiguous(a) && AllUnambiguous(b) && Join(a) == Join(b)
    ensures a == b
    decreases |a|
  {
    if |a| > 1 && |b| > 1 {
      var m, n := |a| - 1, |b| - 1;
      LastAgrees(Join(a[..m]), a[m], Join(b[..n]), b[n]);
      JoinInjective(a[..m], b[..n]);
      assert a == a[..m] + [a[m]] && b == b[..n] + [b[n]];
    } else if |a| > 1 {
      JoinIsAmbiguous(a);
      assert false;
    } else if |b| > 1 {
      JoinIsAmbiguous(b);
      assert false;
    } else {
      assert a == [a[0]] && b == [b[0]];
    }
  }

  /** So a forest whose names have no double colon inside and no colon in front has distinct keys. */
  lemma UnambiguousNamesSuffice(leaves: seq<Leaf>)
    requires forall i :: 0 <= i < |leaves| ==> leaves[i].path != [] && AllUnambiguous(leaves[i].path)
    ensures DistinctKeys(leaves)
  {
    forall i, j | 0 <= i < |leaves| && 0 <= j < |leaves| && Join(leaves[i].path) == Join(leaves[j].path)
      ensures leaves[i].path == leaves[j].path
    {
      JoinInjective(leaves[i].path, leaves[j].path);
    }
  }
}
