/**
 The index over the whole perf history (build_index in perf/harness/store.py): one point per run
 and metric in order of the instant, independent of the order files are enumerated in.
 */
module PerfIndex {
  import opened Prelude
  import opened Sorting
  import opened PerfStore
  import opened PerfHistory

  /** A stored file and its content. */
  datatype Entry = Entry(path: Path, doc: Document)

  datatype Point = Point(
    commit: string, version: string, trigger: string, at: string, value: real, unit: string, series: Option<string>)

  datatype MetricSeries = MetricSeries(family: string, unit: string, points: seq<Point>)

  type Table = map<string, MetricSeries>

  datatype Index = Index(runs: nat, versions: seq<string>, latest: Option<Path>, metrics: Table)

  // ---------------------------------------------------------------------------------------
  // The order of runs
  // ---------------------------------------------------------------------------------------

  /** Tuples compare by their first difference: instant, commit, trigger, stem. */
  predicate Before(a: Entry, b: Entry) {
    var x, y := a.doc.run, b.doc.run;
    if x.startedAt.instant != y.startedAt.instant then x.startedAt.instant < y.startedAt.instant
    else if x.commit != y.commit then StringLeq(x.commit, y.commit)
    else if x.trigger != y.trigger then StringLeq(x.trigger, y.trigger)
    else StringLeq(a.path.stem, b.path.stem)
  }

  lemma BeforeTotal(a: Entry, b: Entry)
    ensures Before(a, b) || Before(b, a)
  {
    StringLeqTotal(a.doc.run.commit, b.doc.run.commit);
    StringLeqTotal(a.doc.run.trigger, b.doc.run.trigger);
    StringLeqTotal(a.path.stem, b.path.stem);
  }

  lemma BeforeTransitive(a: Entry, b: Entry, c: Entry)
    requires Before(a, b) && Before(b, c)
    ensures Before(a, c)
  {
    var x, y, z := a.doc.run, b.doc.run, c.doc.run;
    if x.startedAt.instant == y.startedAt.instant == z.startedAt.instant {
      StringLeqTotal(x.commit, y.commit);
      StringLeqTotal(y.commit, z.commit);
      if StringLeq(x.commit, y.commit) && StringLeq(y.commit, z.commit) {
        StringLeqTransitive(x.commit, y.commit, z.commit);
      }
      if x.commit == y.commit == z.commit {
        StringLeqTotal(x.trigger, y.trigger);
        StringLeqTotal(y.trigger, z.trigger);
        if StringLeq(x.trigger, y.trigger) && StringLeq(y.trigger, z.trigger) {
          StringLeqTransitive(x.trigger, y.trigger, z.trigger);
        }
        if x.trigger == y.trigger == z.trigger {
          StringLeqTransitive(a.path.stem, b.path.stem, c.path.stem);
        }
      }
    }
  }

  lemma BeforeIsPreorder()
    ensures Preorder(Before)
  {
    forall a, b ensures Before(a, b) || Before(b, a) { BeforeTotal(a, b); }
    forall a, b, c | Before(a, b) && Before(b, c) ensures Before(a, c) { BeforeTransitive(a, b, c); }
  }

  /** The entries list a history: every file once, with its content. */
  ghost predicate Lists(entries: seq<Entry>, h: History) {
    && (forall e :: e in entries <==> e.path in h && h[e.path] == e.doc)
    && (NoRepeats(entries))
  }

  /** Two files of one history never tie: same instant and stem mean the same file. */
  lemma NoTiesInHistory(entries: seq<Entry>, h: History)
    requires WellFiled(h) && Lists(entries, h)
    ensures NoTies(entries, Before)
  {
    forall a, b | a in entries && b in entries && Before(a, b) && Before(b, a) ensures a == b {
      StringLeqTotal(a.doc.run.commit, b.doc.run.commit);
      StringLeqTotal(a.doc.run.trigger, b.doc.run.trigger);
      StringLeqTotal(a.path.stem, b.path.stem);
      assert FileOf(a.doc) == Ok(a.path) && FileOf(b.doc) == Ok(b.path);
      assert a.path == b.path;
    }
  }

  lemma SameListing(a: seq<Entry>, b: seq<Entry>, h: History)
    requires Lists(a, h) && Lists(b, h)
    ensures multiset(a) == multiset(b)
  {
    forall e: Entry ensures multiset(a)[e] == multiset(b)[e] {
      NoRepeatsCount(a, e);
      NoRepeatsCount(b, e);
      assert e in a <==> e in b;
    }
  }

  /** However the files are enumerated, the runs come out in the same order. */
  lemma SortIgnoresEnumeration(a: seq<Entry>, b: seq<Entry>, h: History)
    requires WellFiled(h) && Lists(a, h) && Lists(b, h)
    ensures Sort(a, Before) == Sort(b, Before)
  {
    BeforeIsPreorder();
    SameListing(a, b, h);
    SortSorts(a, Before);
    SortSorts(b, Before);
    NoTiesInHistory(a, h);
    SameElements(Sort(a, Before), a);
    OrderedUnique(Sort(a, Before), Sort(b, Before), Before);
  }

  // ---------------------------------------------------------------------------------------
  // Building
  // ---------------------------------------------------------------------------------------

  predicate Matrix(e: Entry) {
    e.doc.run.trigger == RELEASE_MATRIX
  }

  function PointOf(run: Run, m: Metric): Point {
    Point(run.commit, run.version, run.trigger, run.startedAt.written, m.value, m.unit,
          if run.trigger == RELEASE_MATRIX then Series(run) else None)
  }

  function AddMetric(t: Table, run: Run, m: Metric): Table {
    var points := if m.id in t then t[m.id].points else [];
    t[m.id := MetricSeries(m.family, m.unit, points + [PointOf(run, m)])]
  }

  function AddMetrics(t: Table, run: Run, ms: seq<Metric>): Table {
    if ms == [] then t else AddMetric(AddMetrics(t, run, ms[..|ms| - 1]), run, ms[|ms| - 1])
  }

  function TableOf(runs: seq<Entry>): Table {
    if runs == [] then map[]
    else
      var last := runs[|runs| - 1];
      AddMetrics(TableOf(runs[..|runs| - 1]), last.doc.run, last.doc.metrics)
  }

  function VersionsOf(runs: seq<Entry>): seq<string> {
    if runs == [] then []
    else
      var vs, last := VersionsOf(runs[..|runs| - 1]), runs[|runs| - 1];
      if Matrix(last) || last.doc.run.version in vs then vs else vs + [last.doc.run.version]
  }

  function LatestOf(runs: seq<Entry>): Option<Path> {
    if runs == [] then None
    else if Matrix(runs[|runs| - 1]) then LatestOf(runs[..|runs| - 1])
    else Some(runs[|runs| - 1].path)
  }

  /** A matrix run can be named a series. */
  predicate Indexable(e: Entry) {
    Matrix(e) ==> Series(e.doc.run).Some?
  }

  function IndexFor(runs: seq<Entry>): Index {
    Index(|runs|, VersionsOf(runs), LatestOf(runs), TableOf(runs))
  }

  function IndexOf(entries: seq<Entry>): Result<Index, Rejection> {
    if exists i :: 0 <= i < |entries| && !Valid(entries[i].doc) then Err(StoredInvalid)
    else if exists i :: 0 <= i < |entries| && !Indexable(entries[i]) then Err(BadSeries)
    else Ok(IndexFor(Sort(entries, Before)))
  }

  method BuildIndex(entries: seq<Entry>) returns (r: Result<Index, Rejection>)
    ensures r == IndexOf(entries)
  {
    for i := 0 to |entries|
      invariant forall k :: 0 <= k < i ==> Valid(entries[k].doc)
    {
      if !Valid(entries[i].doc) {
        return Err(StoredInvalid);
      }
    }
    var index := IndexRuns(Sort(entries, Before));
    SortedEntries(entries);
    IndexableEitherWay(entries, Sort(entries, Before));
    return if index.None? then Err(BadSeries) else Ok(index.value);
  }

  lemma IndexableEitherWay(entries: seq<Entry>, runs: seq<Entry>)
    requires forall e :: e in runs <==> e in entries
    ensures (exists i :: 0 <= i < |entries| && !Indexable(entries[i])) <==>
            (exists i :: 0 <= i < |runs| && !Indexable(runs[i]))
  {
    if i :| 0 <= i < |entries| && !Indexable(entries[i]) {
      assert entries[i] in runs;
    }
    if i :| 0 <= i < |runs| && !Indexable(runs[i]) {
      assert runs[i] in entries;
    }
  }

  /** The loop over one run's metrics. */
  method AppendPoints(t: Table, run: Run, ms: seq<Metric>) returns (table: Table)
    ensures table == AddMetrics(t, run, ms)
  {
    table := t;
    for j := 0 to |ms|
      invariant table == AddMetrics(t, run, ms[..j])
    {
      assert ms[..j + 1][..j] == ms[..j];
      table := AddMetric(table, run, ms[j]);
    }
    assert ms[..|ms|] == ms;
  }

  /** The loop over the sorted runs. */
  method IndexRuns(runs: seq<Entry>) returns (r: Option<Index>)
    ensures r.None? <==> exists i :: 0 <= i < |runs| && !Indexable(runs[i])
    ensures r.Some? ==> r.value == IndexFor(runs)
  {
    var versions: seq<string> := [];
    var latest: Option<Path> := None;
    var metrics: Table := map[];
    for i := 0 to |runs|
      invariant forall k :: 0 <= k < i ==> Indexable(runs[k])
      invariant versions == VersionsOf(runs[..i]) && latest == LatestOf(runs[..i]) && metrics == TableOf(runs[..i])
    {
      var entry := runs[i];
      var run := entry.doc.run;
      assert runs[..i + 1][..i] == runs[..i];
      var release := run.trigger == RELEASE_MATRIX;
      if !release {
        latest := Some(entry.path);
        if run.version !in versions {
          versions := versions + [run.version];
        }
      }
      if release && Series(run).None? {
        assert !Indexable(runs[i]);
        return None;
      }
      metrics := AppendPoints(metrics, run, entry.doc.metrics);
    }
    assert runs[..|runs|] == runs;
    return Some(Index(|runs|, versions, latest, metrics));
  }

  lemma SortedEntries(entries: seq<Entry>)
    ensures var runs := Sort(entries, Before);
            && |runs| == |entries|
            && (forall e :: e in runs <==> e in entries)
            && Ordered(runs, Before)
  {
    BeforeIsPreorder();
    SortSorts(entries, Before);
    SameElements(Sort(entries, Before), entries);
  }

  // ---------------------------------------------------------------------------------------
  // What the index says
  // ---------------------------------------------------------------------------------------

  /** The runs that measured `id`, in order. */
  function Measuring(runs: seq<Entry>, id: string): seq<Entry> {
    if runs == [] then []
    else
      var last := runs[|runs| - 1];
      Measuring(runs[..|runs| - 1], id) + (if Lookup(last.doc.metrics, id).Some? then [last] else [])
  }

  lemma {:induction false} AddMetricsIs(t: Table, run: Run, ms: seq<Metric>, id: string)
    requires DistinctIds(ms)
    ensures var after, m := AddMetrics(t, run, ms), Lookup(ms, id);
            && (id in after <==> id in t || m.Some?)
            && (m.None? && id in t ==> after[id] == t[id])
            && (m.Some? ==> after[id] == MetricSeries(m.value.family, m.value.unit,
                                           (if id in t then t[id].points else []) + [PointOf(run, m.value)]))
  {
    if ms != [] {
      var n := |ms| - 1;
      var front := ms[..n];
      AddMetricsIs(t, run, front, id);
      if ms[n].id == id {
        LookupIs(front, id);
        assert forall i :: 0 <= i < n ==> Ids(front)[i] == ms[i].id != ms[n].id;
      }
    }
  }

  /** The series of `id` has exactly one point per run that measured it, in the order of the runs. */
  lemma {:induction false} SeriesIs(runs: seq<Entry>, id: string)
    requires forall i :: 0 <= i < |runs| ==> DistinctIds(runs[i].doc.metrics)
    ensures var sources := Measuring(runs, id);
            && (id in TableOf(runs) <==> sources != [])
            && (id in TableOf(runs) ==>
                  var series, newest := TableOf(runs)[id], sources[|sources| - 1];
                  && |series.points| == |sources|
                  && Lookup(newest.doc.metrics, id).Some?
                  && series.family == Lookup(newest.doc.metrics, id).value.family
                  && series.unit == Lookup(newest.doc.metrics, id).value.unit
                  && forall j :: 0 <= j < |sources| ==>
                       && Lookup(sources[j].doc.metrics, id).Some?
                       && series.points[j] == PointOf(sources[j].doc.run, Lookup(sources[j].doc.metrics, id).value))
    decreases |runs|
  {
    if runs != [] {
      var n := |runs| - 1;
      SeriesIs(runs[..n], id);
      AddMetricsIs(TableOf(runs[..n]), runs[n].doc.run, runs[n].doc.metrics, id);
    }
  }

  lemma {:induction false} MeasuringIn(runs: seq<Entry>, id: string, e: Entry)
    ensures e in Measuring(runs, id) <==> e in runs && Lookup(e.doc.metrics, id).Some?
  {
    if runs != [] {
      var n := |runs| - 1;
      assert runs == runs[..n] + [runs[n]];
      MeasuringIn(runs[..n], id, e);
    }
  }

  lemma LastIsAfter(runs: seq<Entry>, e: Entry)
    requires runs != [] && Ordered(runs, Before) && e in runs[..|runs| - 1]
    ensures Before(e, runs[|runs| - 1])
  {
    var front := runs[..|runs| - 1];
    var i :| 0 <= i < |front| && front[i] == e;
    assert runs[i] == e;
  }

  lemma OrderedSnoc(s: seq<Entry>, x: Entry)
    requires Ordered(s, Before) && forall e :: e in s ==> Before(e, x)
    ensures Ordered(s + [x], Before)
  {
    var all := s + [x];
    forall i, j | 0 <= i < j < |all| ensures Before(all[i], all[j]) {
      assert all[i] == s[i] && s[i] in s;
      if j < |s| { assert all[j] == s[j]; }
    }
  }

  lemma OrderedFront(s: seq<Entry>)
    requires s != [] && Ordered(s, Before)
    ensures Ordered(s[..|s| - 1], Before)
  {
    var front := s[..|s| - 1];
    forall i, j | 0 <= i < j < |front| ensures Before(front[i], front[j]) {
      assert front[i] == s[i] && front[j] == s[j];
    }
  }

  /** The runs that measure a metric keep their order, each once. */
  lemma {:induction false} MeasuringFrom(runs: seq<Entry>, id: string)
    requires Ordered(runs, Before) && NoRepeats(runs)
    ensures Ordered(Measuring(runs, id), Before) && NoRepeats(Measuring(runs, id))
  {
    if runs != [] {
      var n := |runs| - 1;
      var front, last := runs[..n], runs[n];
      assert runs == front + [last];
      NoRepeatsSnoc(front, last);
      OrderedFront(runs);
      MeasuringFrom(front, id);
      if Lookup(last.doc.metrics, id).Some? {
        var ms := Measuring(front, id);
        forall e | e in ms ensures Before(e, last) && e in front {
          MeasuringIn(front, id, e);
          LastIsAfter(runs, e);
        }
        OrderedSnoc(ms, last);
        NoRepeatsSnoc(ms, last);
      }
    }
  }

  predicate InstantsRise(s: seq<Entry>) {
    forall i, j :: 0 <= i < j < |s| ==> s[i].doc.run.startedAt.instant <= s[j].doc.run.startedAt.instant
  }

  /** Points are in order of their instant. */
  lemma BeforeOrdersInstants(s: seq<Entry>)
    requires Ordered(s, Before)
    ensures InstantsRise(s)
  {
    forall i, j | 0 <= i < j < |s| ensures s[i].doc.run.startedAt.instant <= s[j].doc.run.startedAt.instant {
      assert Before(s[i], s[j]);
    }
  }

  /** Versions are those of the tree's own runs, each once, in order of first appearance. */
  function OwnVersions(runs: seq<Entry>): seq<string> {
    if runs == [] then []
    else OwnVersions(runs[..|runs| - 1]) + (if Matrix(runs[|runs| - 1]) then [] else [runs[|runs| - 1].doc.run.version])
  }

  lemma {:induction false} VersionsAre(runs: seq<Entry>)
    ensures VersionsOf(runs) == FirstAppearances(OwnVersions(runs))
  {
    if runs != [] {
      var front, last := runs[..|runs| - 1], runs[|runs| - 1];
      VersionsAre(front);
      FirstAppearancesIn(OwnVersions(front));
      if !Matrix(last) {
        assert OwnVersions(runs)[..|OwnVersions(runs)| - 1] == OwnVersions(front);
      } else {
        assert OwnVersions(runs) == OwnVersions(front);
      }
    }
  }

  /** `latest` is the last run that is not of a release matrix, or nothing. */
  lemma {:induction false} LatestIs(runs: seq<Entry>)
    ensures LatestOf(runs).None? <==> forall i :: 0 <= i < |runs| ==> Matrix(runs[i])
    ensures LatestOf(runs).Some? ==>
              exists i :: 0 <= i < |runs| && !Matrix(runs[i]) && LatestOf(runs) == Some(runs[i].path)
                          && forall j :: i < j < |runs| ==> Matrix(runs[j])
  {
    if runs != [] {
      var n := |runs| - 1;
      var front := runs[..n];
      assert forall i :: 0 <= i < n ==> front[i] == runs[i];
      LatestIs(front);
      if Matrix(runs[n]) {
        if LatestOf(runs).Some? {
          var i :| 0 <= i < n && !Matrix(front[i]) && LatestOf(front) == Some(front[i].path)
                   && forall j :: i < j < n ==> Matrix(front[j]);
          assert !Matrix(runs[i]) && forall j :: i < j < |runs| ==> Matrix(runs[j]);
        }
      } else {
        assert !Matrix(runs[n]) && LatestOf(runs) == Some(runs[n].path);
      }
    }
  }

  /** Every history can be indexed, whatever the order its files are listed in, with one result. */
  lemma IndexIsWellDefined(a: seq<Entry>, b: seq<Entry>, h: History)
    requires WellFiled(h) && Lists(a, h) && Lists(b, h)
    ensures IndexOf(a).Ok? && IndexOf(a) == IndexOf(b)
  {
    HistoryIsIndexable(a, h);
    HistoryIsIndexable(b, h);
    SortIgnoresEnumeration(a, b, h);
  }

  lemma HistoryIsIndexable(a: seq<Entry>, h: History)
    requires WellFiled(h) && Lists(a, h)
    ensures forall i :: 0 <= i < |a| ==> Valid(a[i].doc) && Indexable(a[i])
  {
    forall i | 0 <= i < |a| ensures Valid(a[i].doc) && Indexable(a[i]) {
      assert a[i] in a;
      assert FileOf(a[i].doc) == Ok(a[i].path);
    }
  }

  /** The stored files that measured an id. */
  ghost predicate Measures(sources: seq<Entry>, h: History, id: string) {
    forall e :: e in sources <==> e.path in h && h[e.path] == e.doc && Lookup(e.doc.metrics, id).Some?
  }

  lemma MeasuringAll(runs: seq<Entry>, h: History, id: string)
    requires forall e :: e in runs <==> e.path in h && h[e.path] == e.doc
    ensures Measures(Measuring(runs, id), h, id)
  {
    forall e ensures e in Measuring(runs, id) <==> e.path in h && h[e.path] == e.doc && Lookup(e.doc.metrics, id).Some? {
      MeasuringIn(runs, id, e);
    }
  }

  /** The series of an id: exactly the files that measured it, once each, ordered by instant. */
  lemma IndexHoldsEveryPointOnce(entries: seq<Entry>, h: History, id: string) returns (sources: seq<Entry>)
    requires WellFiled(h) && Lists(entries, h)
    ensures IndexOf(entries).Ok? && IndexOf(entries).value.runs == |entries|
    ensures Measures(sources, h, id) && NoRepeats(sources) && InstantsRise(sources)
    ensures var metrics := IndexOf(entries).value.metrics;
            && (id in metrics <==> sources != [])
            && (id in metrics ==>
                  && |metrics[id].points| == |sources|
                  && forall j :: 0 <= j < |sources| ==>
                       metrics[id].points[j] == PointOf(sources[j].doc.run, Lookup(sources[j].doc.metrics, id).value))
  {
    var runs := RunsOf(entries, h);
    sources := Measuring(runs, id);
    SeriesIs(runs, id);
    MeasuringFrom(runs, id);
    MeasuringAll(runs, h, id);
    BeforeOrdersInstants(sources);
  }

  /** The sorted runs of a history, and that the index is built from them. */
  lemma RunsOf(entries: seq<Entry>, h: History) returns (runs: seq<Entry>)
    requires WellFiled(h) && Lists(entries, h)
    ensures IndexOf(entries) == Ok(IndexFor(runs)) && |runs| == |entries|
    ensures forall e :: e in runs <==> e.path in h && h[e.path] == e.doc
    ensures Ordered(runs, Before) && NoRepeats(runs)
    ensures forall i :: 0 <= i < |runs| ==> DistinctIds(runs[i].doc.metrics)
  {
    runs := Sort(entries, Before);
    HistoryIsIndexable(entries, h);
    SortedEntries(entries);
    SortedDistinct(entries);
    forall i | 0 <= i < |runs| ensures DistinctIds(runs[i].doc.metrics) {
      assert runs[i] in entries;
    }
  }

  lemma SortedDistinct(entries: seq<Entry>)
    requires NoRepeats(entries)
    ensures NoRepeats(Sort(entries, Before))
  {
    BeforeIsPreorder();
    SortSorts(entries, Before);
    PermutedNoRepeats(entries, Sort(entries, Before));
  }

  /** A stored file that is not of a release matrix. */
  predicate Own(h: History, p: Path) {
    p in h && h[p].run.trigger != RELEASE_MATRIX
  }

  /** `p` is one of the tree's own runs, and none of them started or sorts after it. */
  ghost predicate Newest(h: History, p: Path) {
    && Own(h, p)
    && forall q :: Own(h, q) ==>
         && h[q].run.startedAt.instant <= h[p].run.startedAt.instant
         && (q == p || Before(Entry(q, h[q]), Entry(p, h[p])))
  }

  lemma LastOwnIsNewest(runs: seq<Entry>, h: History, i: nat)
    requires Ordered(runs, Before) && forall e :: e in runs <==> e.path in h && h[e.path] == e.doc
    requires i < |runs| && !Matrix(runs[i]) && forall j :: i < j < |runs| ==> Matrix(runs[j])
    ensures Newest(h, runs[i].path)
  {
    assert runs[i] in runs;
    forall q | Own(h, q)
      ensures h[q].run.startedAt.instant <= runs[i].doc.run.startedAt.instant
      ensures q == runs[i].path || Before(Entry(q, h[q]), runs[i])
    {
      var e := Entry(q, h[q]);
      assert e in runs;
      var k :| 0 <= k < |runs| && runs[k] == e;
    }
  }

  lemma NoneOwn(runs: seq<Entry>, h: History)
    requires forall e :: e in runs <==> e.path in h && h[e.path] == e.doc
    ensures (forall i :: 0 <= i < |runs| ==> Matrix(runs[i])) <==> forall p :: p in h ==> !Own(h, p)
  {
    if forall i :: 0 <= i < |runs| ==> Matrix(runs[i]) {
      forall p | p in h ensures !Own(h, p) {
        assert Entry(p, h[p]) in runs;
      }
    }
    forall i | 0 <= i < |runs| && !Matrix(runs[i]) ensures Own(h, runs[i].path) {
      assert runs[i] in runs;
    }
  }

  /** `latest` is the newest of the tree's own runs; there is none exactly when every stored run is a matrix run. */
  lemma LatestIsNewest(entries: seq<Entry>, h: History)
    requires WellFiled(h) && Lists(entries, h)
    ensures IndexOf(entries).Ok?
    ensures IndexOf(entries).value.latest.None? <==> forall p :: p in h ==> !Own(h, p)
    ensures IndexOf(entries).value.latest.Some? ==> Newest(h, IndexOf(entries).value.latest.value)
  {
    var runs := RunsOf(entries, h);
    LatestIs(runs);
    NoneOwn(runs, h);
    if LatestOf(runs).Some? {
      var i :| 0 <= i < |runs| && !Matrix(runs[i]) && LatestOf(runs) == Some(runs[i].path)
               && forall j :: i < j < |runs| ==> Matrix(runs[j]);
      LastOwnIsNewest(runs, h, i);
    }
  }
}
