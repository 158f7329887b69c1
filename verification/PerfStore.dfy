/**
 The perf history (perf/harness/store.py, with the result shape of perf/harness/schema.py and
 perf/harness/validate.py): when two results belong to one file, and how they merge.
 */
module PerfStore {
  import opened Prelude
  import opened Sorting
  import opened Text

  /** `extra` stands for the optional fields, which are only ever copied. */
  datatype Metric = Metric(id: string, family: string, unit: string, value: real, extra: string)

  /** A timestamp as written, and the instant it denotes in UTC microseconds. */
  datatype Timestamp = Timestamp(written: string, instant: int)

  datatype Run = Run(
    commit: string, branch: string, version: string, trigger: string, runner: string,
    toolchains: map<string, Option<string>>, typedb: Option<string>, startedAt: Timestamp, source: Option<string>)

  datatype Document = Document(run: Run, metrics: seq<Metric>)

  datatype Rejection = Invalid | MixedSdks | BadSeries | StoredInvalid

  const RELEASE_MATRIX := "release-matrix"
  const HEAD := "head"

  // ---------------------------------------------------------------------------------------
  // Validity
  // ---------------------------------------------------------------------------------------

  /** Python's str.split on one character. */
  function Split(s: string, c: char): (parts: seq<string>)
    ensures parts != [] && forall p :: p in parts ==> c !in p
  {
    if s == [] then [""]
    else
      var parts := Split(s[..|s| - 1], c);
      if s[|s| - 1] == c then parts + [""]
      else parts[..|parts| - 1] + [parts[|parts| - 1] + [s[|s| - 1]]]
  }

  predicate SegmentOk(s: string) {
    s != [] && forall i :: 0 <= i < |s| ==> 'a' <= s[i] <= 'z' || IsDigit(s[i]) || s[i] == '_'
  }

  predicate MetricIdOk(id: string) {
    var parts := Split(id, '.');
    2 <= |parts| && forall i :: 0 <= i < |parts| ==> SegmentOk(parts[i])
  }

  predicate CommitOk(s: string) {
    |s| == 40 && forall i :: 0 <= i < |s| ==> IsDigit(s[i]) || 'a' <= s[i] <= 'f'
  }

  predicate PlainTrigger(t: string) {
    t in {"push", "pull_request", "schedule", "workflow_dispatch", "release", "local"}
  }

  predicate DistinctIds(ms: seq<Metric>) {
    forall i, j :: 0 <= i < j < |ms| ==> ms[i].id != ms[j].id
  }

  predicate RunOk(r: Run) {
    && CommitOk(r.commit) && r.branch != "" && r.version != ""
    && (PlainTrigger(r.trigger) || r.trigger == RELEASE_MATRIX)
    && (r.source.Some? <==> r.trigger == RELEASE_MATRIX)
    && (r.source.Some? ==> r.source.value in {"registry", "tree"})
    && r.toolchains.Keys == {"rust", "python", "node", "cc"}
  }

  predicate Valid(d: Document) {
    && RunOk(d.run)
    && d.metrics != [] && DistinctIds(d.metrics)
    && forall i :: 0 <= i < |d.metrics| ==> MetricIdOk(d.metrics[i].id)
  }

  // ---------------------------------------------------------------------------------------
  // The file a result belongs to
  // ---------------------------------------------------------------------------------------

  /** The SDK a metric id names, if it is release.<sdk>.<op>. */
  function SdkOf(id: string): Option<string> {
    var parts := Split(id, '.');
    if 2 < |parts| && parts[0] == "release" then Some(parts[1]) else None
  }

  predicate AllOfSdk(ms: seq<Metric>, sdk: Option<string>) {
    forall i :: 0 <= i < |ms| ==> SdkOf(ms[i].id) == sdk
  }

  function ReleaseSdk(d: Document): Option<string> {
    if d.metrics != [] && SdkOf(d.metrics[0].id).Some? && AllOfSdk(d.metrics, SdkOf(d.metrics[0].id))
    then SdkOf(d.metrics[0].id) else None
  }

  predicate LabelOk(s: string) {
    && s != [] && IsAlnum(s[0])
    && forall i :: 0 <= i < |s| ==> IsAlnum(s[i]) || s[i] in {'.', '+', '_', '-'}
  }

  function Series(r: Run): Option<string> {
    var name := if r.source == Some("tree") then HEAD else r.version;
    if (name == HEAD && r.source != Some("tree")) || !LabelOk(name) then None else Some(name)
  }

  function Identity(d: Document): Result<string, Rejection> {
    var stem := d.run.commit + "-" + d.run.trigger;
    if d.run.trigger != RELEASE_MATRIX then Ok(stem)
    else if ReleaseSdk(d).None? then Err(MixedSdks)
    else if Series(d.run).None? then Err(BadSeries)
    else Ok(stem + "-" + ReleaseSdk(d).value + "-" + Series(d.run).value)
  }

  const DAY := 86_400_000_000

  /** The UTC date, as a day number. */
  function Day(d: Document): int {
    d.run.startedAt.instant / DAY
  }

  datatype Path = Path(day: int, stem: string)

  function FileOf(d: Document): Result<Path, Rejection> {
    var stem := Identity(d);
    if stem.Err? then Err(stem.error) else Ok(Path(Day(d), stem.value))
  }

  /** What the documentation says identifies a run. */
  ghost predicate SameRun(a: Document, b: Document) {
    && Day(a) == Day(b) && a.run.commit == b.run.commit && a.run.trigger == b.run.trigger
    && (a.run.trigger == RELEASE_MATRIX ==> ReleaseSdk(a) == ReleaseSdk(b) && Series(a.run) == Series(b.run))
  }

  lemma SdkHasNoDash(d: Document)
    requires Valid(d) && ReleaseSdk(d).Some?
    ensures '-' !in ReleaseSdk(d).value && ReleaseSdk(d).value != ""
  {
    var parts := Split(d.metrics[0].id, '.');
    assert MetricIdOk(d.metrics[0].id);
    assert SegmentOk(parts[1]);
  }

  lemma CutAtDash(a: string, b: string, x: string, y: string)
    requires a + "-" + x == b + "-" + y && '-' !in a && '-' !in b
    ensures a == b && x == y
  {
    var s := a + "-" + x;
    var t := b + "-" + y;
    assert s[|a|] == '-' && t[|b|] == '-';
    assert forall i :: 0 <= i < |a| ==> s[i] == a[i] && a[i] in a;
    assert forall i :: 0 <= i < |b| ==> t[i] == b[i] && b[i] in b;
    assert |a| == |b|;
    assert a == s[..|a|] == t[..|b|] == b;
    assert x == s[|a| + 1..] == t[|b| + 1..] == y;
  }

  lemma CutAt(a: string, b: string, x: string, y: string)
    requires a + x == b + y && |a| == |b|
    ensures a == b && x == y
  {
    assert a == (a + x)[..|a|] == (b + y)[..|b|] == b;
    assert x == (a + x)[|a|..] == (b + y)[|b|..] == y;
  }

  lemma PlainTriggerIsShort(t: string)
    requires PlainTrigger(t)
    ensures |t| <= 17 && t != RELEASE_MATRIX
  {
    assert RELEASE_MATRIX[7] == '-';
    assert |RELEASE_MATRIX| == 14;
  }

  /** The stem after the commit and its dash. */
  function Tail(d: Document): string {
    if d.run.trigger != RELEASE_MATRIX || ReleaseSdk(d).None? || Series(d.run).None? then d.run.trigger
    else RELEASE_MATRIX + "-" + ReleaseSdk(d).value + "-" + Series(d.run).value
  }

  lemma StemIs(d: Document)
    requires Identity(d).Ok?
    ensures Identity(d).value == d.run.commit + ("-" + Tail(d))
  {
    if d.run.trigger == RELEASE_MATRIX {
      RegroupStem(d.run.commit, RELEASE_MATRIX, ReleaseSdk(d).value, Series(d.run).value);
    } else {
      assert d.run.commit + "-" + d.run.trigger == d.run.commit + ("-" + d.run.trigger);
    }
  }

  lemma RegroupStem(c: string, trigger: string, sdk: string, series: string)
    ensures c + "-" + trigger + "-" + sdk + "-" + series == c + ("-" + (trigger + "-" + sdk + "-" + series))
  {
  }

  lemma TailsDiffer(a: Document, b: Document)
    requires Valid(a) && Valid(b) && Identity(a).Ok? && Identity(b).Ok?
    requires a.run.trigger == RELEASE_MATRIX && b.run.trigger != RELEASE_MATRIX
    ensures Tail(a) != Tail(b)
  {
    PlainTriggerIsShort(b.run.trigger);
    SdkHasNoDash(a);
    assert |RELEASE_MATRIX| == 14;
    assert |Tail(a)| >= 14 + 1 + 1 + 1 + 1;
  }

  lemma MatrixTails(a: Document, b: Document)
    requires Valid(a) && Valid(b) && Identity(a).Ok? && Identity(b).Ok?
    requires a.run.trigger == b.run.trigger == RELEASE_MATRIX && Tail(a) == Tail(b)
    ensures ReleaseSdk(a) == ReleaseSdk(b) && Series(a.run) == Series(b.run)
  {
    SdkHasNoDash(a);
    SdkHasNoDash(b);
    CutTail(RELEASE_MATRIX, ReleaseSdk(a).value, Series(a.run).value, ReleaseSdk(b).value, Series(b.run).value);
  }

  lemma CutTail(p: string, s: string, x: string, t: string, y: string)
    requires p + "-" + s + "-" + x == p + "-" + t + "-" + y && '-' !in s && '-' !in t
    ensures s == t && x == y
  {
    var q := p + "-";
    assert q + s + "-" + x == q + (s + "-" + x) && q + t + "-" + y == q + (t + "-" + y);
    CutAt(q, q, s + "-" + x, t + "-" + y);
    CutAtDash(s, t, x, y);
  }

  /** Two results share a file exactly when date, commit, trigger and, for a release matrix, SDK and series agree. */
  lemma SameFileIffSameRun(a: Document, b: Document)
    requires Valid(a) && Valid(b) && FileOf(a).Ok? && FileOf(b).Ok?
    ensures FileOf(a) == FileOf(b) <==> SameRun(a, b)
  {
    if FileOf(a) == FileOf(b) {
      StemIs(a);
      StemIs(b);
      CutAt(a.run.commit, b.run.commit, "-" + Tail(a), "-" + Tail(b));
      CutAt("-", "-", Tail(a), Tail(b));
      if a.run.trigger == RELEASE_MATRIX && b.run.trigger != RELEASE_MATRIX {
        TailsDiffer(a, b);
      } else if a.run.trigger != RELEASE_MATRIX && b.run.trigger == RELEASE_MATRIX {
        TailsDiffer(b, a);
      } else if a.run.trigger == RELEASE_MATRIX {
        MatrixTails(a, b);
      }
    }
  }

  /** The package built from the tree never shares a file with a release, whatever its version. */
  lemma HeadNeverMergesWithRelease(a: Document, b: Document)
    requires Valid(a) && Valid(b) && FileOf(a).Ok? && FileOf(b).Ok?
    requires a.run.source == Some("tree") && b.run.source == Some("registry")
    ensures FileOf(a) != FileOf(b)
  {
    SameFileIffSameRun(a, b);
    assert "tree"[0] != "registry"[0];
    assert Series(a.run) == Some(HEAD) && Series(b.run) != Some(HEAD);
  }

  // ---------------------------------------------------------------------------------------
  // Merging metrics
  // ---------------------------------------------------------------------------------------

  function Ids(ms: seq<Metric>): (ids: seq<string>)
    ensures |ids| == |ms| && forall i :: 0 <= i < |ms| ==> ids[i] == ms[i].id
  {
    seq(|ms|, i requires 0 <= i < |ms| => ms[i].id)
  }

  /** The metric with this id; the last one, as building a dictionary keeps. */
  function Lookup(ms: seq<Metric>, id: string): Option<Metric> {
    if ms == [] then None
    else if ms[|ms| - 1].id == id then Some(ms[|ms| - 1])
    else Lookup(ms[..|ms| - 1], id)
  }

  function Replaced(stored: seq<Metric>, incoming: seq<Metric>): (ms: seq<Metric>)
    ensures |ms| == |stored|
  {
    seq(|stored|, i requires 0 <= i < |stored| =>
      var m := Lookup(incoming, stored[i].id); if m.Some? then m.value else stored[i])
  }

  function Added(ids: seq<string>, incoming: seq<Metric>): seq<Metric> {
    if incoming == [] then []
    else
      var m := incoming[|incoming| - 1];
      Added(ids, incoming[..|incoming| - 1]) + (if m.id in ids then [] else [m])
  }

  function MergeMetrics(stored: seq<Metric>, incoming: seq<Metric>): seq<Metric> {
    Replaced(stored, incoming) + Added(Ids(stored), incoming)
  }

  /** The ids of `more` that are not in `ids`, in order. */
  function Fresh(ids: seq<string>, more: seq<string>): seq<string> {
    if more == [] then []
    else Fresh(ids, more[..|more| - 1]) + (if more[|more| - 1] in ids then [] else [more[|more| - 1]])
  }

  lemma IdsSnoc(ms: seq<Metric>)
    requires ms != []
    ensures Ids(ms) == Ids(ms[..|ms| - 1]) + [ms[|ms| - 1].id]
  {
  }

  lemma {:induction false} LookupFinds(ms: seq<Metric>, id: string)
    ensures Lookup(ms, id).Some? <==> id in Ids(ms)
    ensures Lookup(ms, id).Some? ==> Lookup(ms, id).value.id == id && Lookup(ms, id).value in ms
  {
    if ms != [] {
      LookupFinds(ms[..|ms| - 1], id);
      IdsSnoc(ms);
    }
  }

  lemma {:induction false} LookupAt(ms: seq<Metric>, i: nat)
    requires DistinctIds(ms) && i < |ms|
    ensures Lookup(ms, ms[i].id) == Some(ms[i])
  {
    var n := |ms| - 1;
    if i < n {
      assert ms[..n][i] == ms[i];
      LookupAt(ms[..n], i);
    }
  }

  lemma LookupIs(ms: seq<Metric>, id: string)
    ensures Lookup(ms, id).Some? <==> id in Ids(ms)
    ensures Lookup(ms, id).Some? ==> Lookup(ms, id).value.id == id && Lookup(ms, id).value in ms
    ensures DistinctIds(ms) ==> forall i :: 0 <= i < |ms| && ms[i].id == id ==> Lookup(ms, id) == Some(ms[i])
  {
    LookupFinds(ms, id);
    if DistinctIds(ms) {
      forall i | 0 <= i < |ms| && ms[i].id == id ensures Lookup(ms, id) == Some(ms[i]) {
        LookupAt(ms, i);
      }
    }
  }

  lemma {:induction false} AddedIs(ids: seq<string>, incoming: seq<Metric>)
    ensures Ids(Added(ids, incoming)) == Fresh(ids, Ids(incoming))
  {
    if incoming != [] {
      var front := incoming[..|incoming| - 1];
      AddedIs(ids, front);
      assert Ids(incoming)[..|incoming| - 1] == Ids(front);
    }
  }

  lemma {:induction false} AddedLookup(ids: seq<string>, incoming: seq<Metric>, id: string)
    ensures Lookup(Added(ids, incoming), id) == if id in ids then None else Lookup(incoming, id)
  {
    if incoming != [] {
      var n := |incoming| - 1;
      var front, m := incoming[..n], incoming[n];
      AddedLookup(ids, front, id);
      if m.id !in ids {
        assert Added(ids, incoming)[..|Added(ids, incoming)| - 1] == Added(ids, front);
      } else {
        assert Added(ids, incoming) == Added(ids, front);
      }
    }
  }

  lemma {:induction false} LookupConcat(a: seq<Metric>, b: seq<Metric>, id: string)
    ensures Lookup(a + b, id) == if Lookup(b, id).Some? then Lookup(b, id) else Lookup(a, id)
    decreases |b|
  {
    if b == [] {
      assert a + b == a;
    } else {
      assert (a + b)[..|a + b| - 1] == a + b[..|b| - 1];
      LookupConcat(a, b[..|b| - 1], id);
    }
  }

  lemma ReplacedIds(stored: seq<Metric>, incoming: seq<Metric>)
    ensures Ids(Replaced(stored, incoming)) == Ids(stored)
  {
    forall i | 0 <= i < |stored| ensures Replaced(stored, incoming)[i].id == stored[i].id {
      LookupIs(incoming, stored[i].id);
    }
  }

  lemma {:induction false} ReplacedLookup(stored: seq<Metric>, incoming: seq<Metric>, id: string)
    ensures Lookup(Replaced(stored, incoming), id) ==
            if id !in Ids(stored) then None
            else if Lookup(incoming, id).Some? then Lookup(incoming, id) else Lookup(stored, id)
  {
    if stored != [] {
      var n := |stored| - 1;
      var front := stored[..n];
      ReplacedLookup(front, incoming, id);
      assert Replaced(stored, incoming)[..n] == Replaced(front, incoming);
      assert Ids(stored) == Ids(front) + [stored[n].id];
      LookupIs(incoming, stored[n].id);
      LookupIs(front, id);
    }
  }

  lemma MergedIds(stored: seq<Metric>, incoming: seq<Metric>)
    ensures Ids(MergeMetrics(stored, incoming)) == Ids(stored) + Fresh(Ids(stored), Ids(incoming))
  {
    ReplacedIds(stored, incoming);
    AddedIs(Ids(stored), incoming);
  }

  lemma MergedLookup(stored: seq<Metric>, incoming: seq<Metric>, id: string)
    ensures Lookup(MergeMetrics(stored, incoming), id) ==
            if Lookup(incoming, id).Some? then Lookup(incoming, id) else Lookup(stored, id)
  {
    LookupConcat(Replaced(stored, incoming), Added(Ids(stored), incoming), id);
    AddedLookup(Ids(stored), incoming, id);
    ReplacedLookup(stored, incoming, id);
    LookupFinds(stored, id);
  }

  /** What merging does to the ids and to each metric. */
  lemma MergeMetricsIs(stored: seq<Metric>, incoming: seq<Metric>)
    ensures Ids(MergeMetrics(stored, incoming)) == Ids(stored) + Fresh(Ids(stored), Ids(incoming))
    ensures forall id :: Lookup(MergeMetrics(stored, incoming), id) ==
              if Lookup(incoming, id).Some? then Lookup(incoming, id) else Lookup(stored, id)
  {
    MergedIds(stored, incoming);
    forall id ensures Lookup(MergeMetrics(stored, incoming), id) ==
                      if Lookup(incoming, id).Some? then Lookup(incoming, id) else Lookup(stored, id) {
      MergedLookup(stored, incoming, id);
    }
  }

  /** Metrics with distinct ids are determined by their ids and what each id looks up. */
  lemma SameMetrics(a: seq<Metric>, b: seq<Metric>)
    requires DistinctIds(a) && Ids(a) == Ids(b) && forall id :: Lookup(a, id) == Lookup(b, id)
    ensures a == b
  {
    assert |a| == |Ids(a)| == |b|;
    assert forall i :: 0 <= i < |a| ==> a[i].id == Ids(a)[i] == Ids(b)[i] == b[i].id;
    forall i | 0 <= i < |a| ensures a[i] == b[i] {
      LookupIs(a, a[i].id);
      LookupIs(b, a[i].id);
    }
  }

  lemma DistinctIdsAre(ms: seq<Metric>)
    ensures DistinctIds(ms) <==> NoRepeats(Ids(ms))
  {
    assert forall i :: 0 <= i < |ms| ==> Ids(ms)[i] == ms[i].id;
  }

  lemma {:induction false} FreshIs(ids: seq<string>, more: seq<string>)
    ensures forall x :: x in Fresh(ids, more) <==> x in more && x !in ids
    ensures NoRepeats(more) ==> NoRepeats(Fresh(ids, more))
  {
    if more != [] {
      FreshIs(ids, more[..|more| - 1]);
      assert more == more[..|more| - 1] + [more[|more| - 1]];
    }
  }

  lemma FreshDistinct(ids: seq<string>, more: seq<string>)
    requires NoRepeats(ids) && NoRepeats(more)
    ensures NoRepeats(ids + Fresh(ids, more))
  {
    FreshIs(ids, more);
    var all := ids + Fresh(ids, more);
    forall i, j | 0 <= i < j < |all| ensures all[i] != all[j] {
      if i < |ids| <= j {
        assert all[j] in Fresh(ids, more) && all[i] in ids;
      }
    }
  }

  lemma FreshSnoc(ids: seq<string>, more: seq<string>, x: string)
    ensures Fresh(ids, more + [x]) == if x in ids then Fresh(ids, more) else Fresh(ids, more) + [x]
  {
    assert (more + [x])[..|more|] == more;
  }

  /** First appearances compose. */
  lemma {:induction false} FreshAssociative(a: seq<string>, b: seq<string>, c: seq<string>)
    ensures Fresh(a, b) + Fresh(a + Fresh(a, b), c) == Fresh(a, b + Fresh(b, c))
    decreases |c|
  {
    if c == [] {
      assert b + Fresh(b, c) == b;
    } else {
      var front, x := c[..|c| - 1], c[|c| - 1];
      assert c == front + [x];
      FreshAssociative(a, b, front);
      FreshStep(a, b, front, x);
    }
  }

  lemma FreshStep(a: seq<string>, b: seq<string>, front: seq<string>, x: string)
    requires Fresh(a, b) + Fresh(a + Fresh(a, b), front) == Fresh(a, b + Fresh(b, front))
    ensures Fresh(a, b) + Fresh(a + Fresh(a, b), front + [x]) == Fresh(a, b + Fresh(b, front + [x]))
  {
    InEither(a, b, x);
    FreshSnoc(a + Fresh(a, b), front, x);
    FreshSnoc(b, front, x);
    FreshSnoc(a, b + Fresh(b, front), x);
    Regroup(b, Fresh(b, front), x);
    Regroup(Fresh(a, b), Fresh(a + Fresh(a, b), front), x);
  }

  lemma Regroup(a: seq<string>, b: seq<string>, x: string)
    ensures a + (b + [x]) == (a + b) + [x]
  {
  }

  lemma InEither(a: seq<string>, b: seq<string>, x: string)
    ensures x in a + Fresh(a, b) <==> x in a || x in b
  {
    FreshIs(a, b);
  }

  lemma MergeMetricsAssociative(a: seq<Metric>, b: seq<Metric>, c: seq<Metric>)
    requires DistinctIds(a) && DistinctIds(b) && DistinctIds(c)
    ensures MergeMetrics(MergeMetrics(a, b), c) == MergeMetrics(a, MergeMetrics(b, c))
  {
    var left, right := MergeMetrics(MergeMetrics(a, b), c), MergeMetrics(a, MergeMetrics(b, c));
    MergedIdsAssociative(a, b, c);
    forall id ensures Lookup(left, id) == Lookup(right, id) {
      MergedLookupAssociative(a, b, c, id);
    }
    MergeMetricsDistinct(a, b);
    MergeMetricsDistinct(MergeMetrics(a, b), c);
    SameMetrics(left, right);
  }

  lemma MergedLookupAssociative(a: seq<Metric>, b: seq<Metric>, c: seq<Metric>, id: string)
    ensures Lookup(MergeMetrics(MergeMetrics(a, b), c), id) == Lookup(MergeMetrics(a, MergeMetrics(b, c)), id)
  {
    MergedLookup(a, b, id);
    MergedLookup(b, c, id);
    MergedLookup(MergeMetrics(a, b), c, id);
    MergedLookup(a, MergeMetrics(b, c), id);
  }

  lemma MergedIdsAssociative(a: seq<Metric>, b: seq<Metric>, c: seq<Metric>)
    ensures Ids(MergeMetrics(MergeMetrics(a, b), c)) == Ids(MergeMetrics(a, MergeMetrics(b, c)))
  {
    MergedIds(a, b);
    MergedIds(b, c);
    MergedIds(MergeMetrics(a, b), c);
    MergedIds(a, MergeMetrics(b, c));
    var x, y, z := Ids(a), Ids(b), Ids(c);
    FreshAssociative(x, y, z);
    RegroupAll(x, Fresh(x, y), Fresh(x + Fresh(x, y), z));
  }

  lemma RegroupAll(a: seq<string>, b: seq<string>, c: seq<string>)
    ensures a + b + c == a + (b + c)
  {
  }

  lemma MergeMetricsDistinct(a: seq<Metric>, b: seq<Metric>)
    requires DistinctIds(a) && DistinctIds(b)
    ensures DistinctIds(MergeMetrics(a, b))
  {
    MergeMetricsIs(a, b);
    DistinctIdsAre(a);
    DistinctIdsAre(b);
    FreshDistinct(Ids(a), Ids(b));
    DistinctIdsAre(MergeMetrics(a, b));
  }

  lemma {:induction false} FreshNone(ids: seq<string>, more: seq<string>)
    requires forall x :: x in more ==> x in ids
    ensures Fresh(ids, more) == []
  {
    if more != [] {
      FreshNone(ids, more[..|more| - 1]);
    }
  }

  lemma MergeMetricsIdempotent(a: seq<Metric>)
    requires DistinctIds(a)
    ensures MergeMetrics(a, a) == a
  {
    MergeMetricsIs(a, a);
    FreshNone(Ids(a), Ids(a));
    MergeMetricsDistinct(a, a);
    SameMetrics(MergeMetrics(a, a), a);
  }
}
