/**
 Storing results (perf/harness/store.py): the merge of two results of one run as an algebra, and
 the history that any sequence of stores leaves behind.
 */
module PerfHistory {
  import opened Prelude
  import opened Sorting
  import opened PerfStore

  // ---------------------------------------------------------------------------------------
  // The merge
  // ---------------------------------------------------------------------------------------

  function Known<T>(preferred: Option<T>, fallback: Option<T>): Option<T> {
    if preferred.Some? then preferred else fallback
  }

  function Tool(tools: map<string, Option<string>>, name: string): Option<string> {
    if name in tools then tools[name] else None
  }

  /** Python's min: the first of equals. */
  function Earlier(a: Timestamp, b: Timestamp): Timestamp {
    if b.instant < a.instant then b else a
  }

  function MergeTools(stored: map<string, Option<string>>, incoming: map<string, Option<string>>)
    : map<string, Option<string>>
  {
    map name | name in stored.Keys + incoming.Keys :: Known(Tool(incoming, name), Tool(stored, name))
  }

  function MergeRun(stored: Run, incoming: Run): Run {
    incoming.(startedAt := Earlier(stored.startedAt, incoming.startedAt),
              typedb := Known(incoming.typedb, stored.typedb),
              toolchains := MergeTools(stored.toolchains, incoming.toolchains))
  }

  function Merge(stored: Document, incoming: Document): Document {
    Document(MergeRun(stored.run, incoming.run), MergeMetrics(stored.metrics, incoming.metrics))
  }

  lemma MergeToolsAssociative(a: map<string, Option<string>>, b: map<string, Option<string>>, c: map<string, Option<string>>)
    ensures MergeTools(MergeTools(a, b), c) == MergeTools(a, MergeTools(b, c))
  {
    var left, right := MergeTools(MergeTools(a, b), c), MergeTools(a, MergeTools(b, c));
    assert left.Keys == right.Keys;
    forall name | name in left ensures left[name] == right[name] {
      ToolMerged(a, b, name);
      ToolMerged(b, c, name);
    }
  }

  lemma ToolMerged(a: map<string, Option<string>>, b: map<string, Option<string>>, name: string)
    ensures Tool(MergeTools(a, b), name) == Known(Tool(b, name), Tool(a, name))
  {
  }

  /** Merging is associative. */
  lemma MergeAssociative(a: Document, b: Document, c: Document)
    requires Valid(a) && Valid(b) && Valid(c)
    ensures Merge(Merge(a, b), c) == Merge(a, Merge(b, c))
  {
    MergeMetricsAssociative(a.metrics, b.metrics, c.metrics);
    MergeToolsAssociative(a.run.toolchains, b.run.toolchains, c.run.toolchains);
  }

  /** Merging a result into itself changes nothing. */
  lemma MergeIdempotent(a: Document)
    requires Valid(a)
    ensures Merge(a, a) == a
  {
    MergeMetricsIdempotent(a.metrics);
    assert MergeTools(a.run.toolchains, a.run.toolchains) == a.run.toolchains;
  }

  lemma MergedMetricsFrom(a: seq<Metric>, b: seq<Metric>)
    ensures forall i :: 0 <= i < |MergeMetrics(a, b)| ==> MergeMetrics(a, b)[i] in a || MergeMetrics(a, b)[i] in b
    ensures |a| <= |MergeMetrics(a, b)|
  {
    var ms := MergeMetrics(a, b);
    AddedFrom(Ids(a), b);
    forall i | 0 <= i < |ms| ensures ms[i] in a || ms[i] in b {
      if i < |a| {
        LookupIs(b, a[i].id);
      } else {
        assert ms[i] in Added(Ids(a), b);
      }
    }
  }

  lemma {:induction false} AddedFrom(ids: seq<string>, b: seq<Metric>)
    ensures forall m :: m in Added(ids, b) ==> m in b
  {
    if b != [] {
      AddedFrom(ids, b[..|b| - 1]);
      assert b == b[..|b| - 1] + [b[|b| - 1]];
    }
  }

  /** Two valid results of one file merge to a valid result of that file. */
  lemma MergeKeepsFile(a: Document, b: Document)
    requires Valid(a) && Valid(b) && FileOf(a).Ok? && FileOf(a) == FileOf(b)
    ensures Valid(Merge(a, b)) && FileOf(Merge(a, b)) == FileOf(a)
  {
    SameFileIffSameRun(a, b);
    MergeMetricsDistinct(a.metrics, b.metrics);
    MergedMetricsFrom(a.metrics, b.metrics);
    var m := Merge(a, b);
    forall i | 0 <= i < |m.metrics| ensures MetricIdOk(m.metrics[i].id) {
      assert m.metrics[i] in a.metrics || m.metrics[i] in b.metrics;
    }
    if a.run.trigger == RELEASE_MATRIX {
      MergeKeepsSdk(a, b);
    }
    assert Series(m.run) == Series(b.run);
  }

  lemma MergeKeepsSdk(a: Document, b: Document)
    requires a.metrics != [] && ReleaseSdk(a).Some? && ReleaseSdk(a) == ReleaseSdk(b)
    ensures ReleaseSdk(Merge(a, b)) == ReleaseSdk(a)
  {
    MergedMetricsFrom(a.metrics, b.metrics);
    var ms := Merge(a, b).metrics;
    forall i | 0 <= i < |ms| ensures SdkOf(ms[i].id) == ReleaseSdk(a) {
      if ms[i] in a.metrics {
        var j :| 0 <= j < |a.metrics| && a.metrics[j] == ms[i];
      } else {
        var j :| 0 <= j < |b.metrics| && b.metrics[j] == ms[i];
      }
    }
  }

  // ---------------------------------------------------------------------------------------
  // Many results of one run
  // ---------------------------------------------------------------------------------------

  function MergeAll(docs: seq<Document>): Document
    requires docs != []
  {
    if |docs| == 1 then docs[0] else Merge(MergeAll(docs[..|docs| - 1]), docs[|docs| - 1])
  }

  /** The elements of `s` at their first appearance. */
  function FirstAppearances(s: seq<string>): seq<string> {
    if s == [] then []
    else
      var front, x := s[..|s| - 1], s[|s| - 1];
      FirstAppearances(front) + (if x in front then [] else [x])
  }

  function AllIds(docs: seq<Document>): seq<string> {
    if docs == [] then [] else AllIds(docs[..|docs| - 1]) + Ids(docs[|docs| - 1].metrics)
  }

  /** The metric most recently written under an id. */
  function LastWritten(docs: seq<Document>, id: string): Option<Metric> {
    if docs == [] then None
    else
      var m := Lookup(docs[|docs| - 1].metrics, id);
      if m.Some? then m else LastWritten(docs[..|docs| - 1], id)
  }

  function LastKnownTypedb(docs: seq<Document>): Option<string> {
    if docs == [] then None else Known(docs[|docs| - 1].run.typedb, LastKnownTypedb(docs[..|docs| - 1]))
  }

  function LastKnownTool(docs: seq<Document>, name: string): Option<string> {
    if docs == [] then None
    else Known(Tool(docs[|docs| - 1].run.toolchains, name), LastKnownTool(docs[..|docs| - 1], name))
  }

  /** `docs[i]` started first, and before anything stored earlier that started at the same instant. */
  predicate StartedFirst(docs: seq<Document>, i: int) {
    && 0 <= i < |docs|
    && (forall j :: 0 <= j < |docs| ==> docs[i].run.startedAt.instant <= docs[j].run.startedAt.instant)
    && (forall j :: 0 <= j < i ==> docs[i].run.startedAt.instant < docs[j].run.startedAt.instant)
  }

  lemma {:induction false} FirstAppearancesIn(s: seq<string>)
    ensures forall x :: x in FirstAppearances(s) <==> x in s
  {
    if s != [] {
      FirstAppearancesIn(s[..|s| - 1]);
      assert s == s[..|s| - 1] + [s[|s| - 1]];
    }
  }

  lemma {:induction false} FirstAppearancesAppend(s: seq<string>, more: seq<string>)
    requires NoRepeats(more)
    ensures FirstAppearances(s + more) == FirstAppearances(s) + Fresh(s, more)
    decreases |more|
  {
    if more == [] {
      assert s + more == s;
    } else {
      var front, x := more[..|more| - 1], more[|more| - 1];
      FirstAppearancesAppend(s, front);
      assert (s + more)[..|s + more| - 1] == s + front;
      assert x !in front;
    }
  }

  lemma {:induction false} FreshCongruent(a: seq<string>, b: seq<string>, more: seq<string>)
    requires forall x :: x in a <==> x in b
    ensures Fresh(a, more) == Fresh(b, more)
  {
    if more != [] {
      FreshCongruent(a, b, more[..|more| - 1]);
    }
  }

  /** The ids of merged results, in order of first appearance. */
  lemma {:induction false} MergeAllIds(docs: seq<Document>)
    requires docs != [] && forall i :: 0 <= i < |docs| ==> DistinctIds(docs[i].metrics)
    ensures Ids(MergeAll(docs).metrics) == FirstAppearances(AllIds(docs))
    decreases |docs|
  {
    var front, last := docs[..|docs| - 1], docs[|docs| - 1];
    var more := Ids(last.metrics);
    DistinctIdsAre(last.metrics);
    FirstAppearancesAppend(AllIds(front), more);
    if |docs| == 1 {
      FirstAppearancesAppend([], more);
      FreshOfNothing(more);
      assert AllIds(docs) == more;
      assert [] + more == more;
    } else {
      MergeAllIds(front);
      MergeMetricsIs(MergeAll(front).metrics, last.metrics);
      FirstAppearancesIn(AllIds(front));
      FreshCongruent(FirstAppearances(AllIds(front)), AllIds(front), more);
    }
  }

  lemma {:induction false} FreshOfNothing(more: seq<string>)
    ensures Fresh([], more) == more
  {
    if more != [] {
      FreshOfNothing(more[..|more| - 1]);
    }
  }

  /** Each id of merged results carries what was written last. */
  lemma {:induction false} MergeAllLookup(docs: seq<Document>, id: string)
    requires docs != []
    ensures Lookup(MergeAll(docs).metrics, id) == LastWritten(docs, id)
    decreases |docs|
  {
    if |docs| > 1 {
      var front, last := docs[..|docs| - 1], docs[|docs| - 1];
      MergeAllLookup(front, id);
      MergeMetricsIs(MergeAll(front).metrics, last.metrics);
    } else {
      assert LastWritten(docs[..0], id) == None;
    }
  }

  lemma {:induction false} MergeAllRun(docs: seq<Document>, name: string) returns (i: nat)
    requires docs != []
    ensures StartedFirst(docs, i)
    ensures var r, last := MergeAll(docs).run, docs[|docs| - 1].run;
            && r.startedAt == docs[i].run.startedAt
            && r.typedb == LastKnownTypedb(docs)
            && Tool(r.toolchains, name) == LastKnownTool(docs, name)
            && r == last.(startedAt := r.startedAt, typedb := r.typedb, toolchains := r.toolchains)
    decreases |docs|
  {
    var n := |docs| - 1;
    if n == 0 {
      i := 0;
    } else {
      var front := docs[..n];
      var j := MergeAllRun(front, name);
      assert forall k :: 0 <= k < n ==> front[k] == docs[k];
      i := if docs[n].run.startedAt.instant < front[j].run.startedAt.instant then n else j;
    }
  }

  // ---------------------------------------------------------------------------------------
  // The store
  // ---------------------------------------------------------------------------------------

  type History = map<Path, Document>

  datatype Status = NewFile | Merged | Unchanged

  datatype Stored = Stored(path: Path, status: Status)

  function StoreInto(h: History, d: Document): (History, Result<Stored, Rejection>) {
    if !Valid(d) then (h, Err(Invalid))
    else
      var file := FileOf(d);
      if file.Err? then (h, Err(file.error))
      else if file.value !in h then (h[file.value := d], Ok(Stored(file.value, NewFile)))
      else
        var stored := h[file.value];
        if !Valid(stored) then (h, Err(StoredInvalid))
        else if Merge(stored, d) == stored then (h, Ok(Stored(file.value, Unchanged)))
        else (h[file.value := Merge(stored, d)], Ok(Stored(file.value, Merged)))
  }

  class DataDir {
    var runs: History

    constructor ()
      ensures runs == map[]
    {
      runs := map[];
    }

    method Store(d: Document) returns (r: Result<Stored, Rejection>)
      modifies this
      ensures (runs, r) == StoreInto(old(runs), d)
    {
      if !Valid(d) {
        return Err(Invalid);
      }
      var file := FileOf(d);
      if file.Err? {
        return Err(file.error);
      }
      var target := file.value;
      var existed := target in runs;
      var document := d;
      if existed {
        var stored := runs[target];
        if !Valid(stored) {
          return Err(StoredInvalid);
        }
        document := Merge(stored, document);
        if document == stored {
          return Ok(Stored(target, Unchanged));
        }
      }
      runs := runs[target := document];
      return Ok(Stored(target, if existed then Merged else NewFile));
    }
  }

  /** Every stored run is valid and stands in its own file. */
  ghost predicate WellFiled(h: History) {
    forall p :: p in h ==> Valid(h[p]) && FileOf(h[p]) == Ok(p)
  }

  /** What a file holds after a result was stored in it. */
  function Filed(h: History, p: Path, d: Document): Document {
    if p in h then Merge(h[p], d) else d
  }

  lemma StoreIs(h: History, d: Document)
    requires WellFiled(h) && Valid(d) && FileOf(d).Ok?
    ensures var p := FileOf(d).value;
            StoreInto(h, d).0 == h[p := Filed(h, p, d)] && StoreInto(h, d).1.Ok?
  {
    var p := FileOf(d).value;
    if p in h && Merge(h[p], d) == h[p] {
      assert h[p := h[p]] == h;
    }
  }

  lemma FiledIsInPlace(h: History, p: Path, d: Document)
    requires WellFiled(h) && Valid(d) && FileOf(d) == Ok(p)
    ensures Valid(Filed(h, p, d)) && FileOf(Filed(h, p, d)) == Ok(p)
  {
    if p in h {
      MergeKeepsFile(h[p], d);
    }
  }

  lemma StoreKeepsWellFiled(h: History, d: Document)
    requires WellFiled(h)
    ensures WellFiled(StoreInto(h, d).0)
    ensures StoreInto(h, d).1.Ok? <==> Valid(d) && FileOf(d).Ok?
  {
    if Valid(d) && FileOf(d).Ok? {
      StoreIs(h, d);
      FiledIsInPlace(h, FileOf(d).value, d);
    }
  }

  /** A result that is already in the file adds nothing. */
  lemma FiledAbsorbs(h: History, p: Path, d: Document)
    requires WellFiled(h) && Valid(d)
    ensures Merge(Filed(h, p, d), d) == Filed(h, p, d)
  {
    MergeIdempotent(d);
    if p in h {
      MergeAssociative(h[p], d, d);
    }
  }

  lemma StoreUnchanged(h: History, p: Path, d: Document)
    requires Valid(d) && FileOf(d) == Ok(p) && p in h && Valid(h[p]) && Merge(h[p], d) == h[p]
    ensures StoreInto(h, d) == (h, Ok(Stored(p, Unchanged)))
  {
  }

  /** Storing the same result again changes nothing. */
  lemma StoringAgainIsUnchanged(h: History, d: Document)
    requires WellFiled(h) && StoreInto(h, d).1.Ok?
    ensures StoreInto(StoreInto(h, d).0, d) == (StoreInto(h, d).0, Ok(Stored(FileOf(d).value, Unchanged)))
  {
    var p := FileOf(d).value;
    StoreIs(h, d);
    FiledIsInPlace(h, p, d);
    FiledAbsorbs(h, p, d);
    StoreUnchanged(StoreInto(h, d).0, p, d);
  }

  function StoreAll(docs: seq<Document>): History {
    if docs == [] then map[] else StoreInto(StoreAll(docs[..|docs| - 1]), docs[|docs| - 1]).0
  }

  /** The storable results of one file, in the order they were stored. */
  function ResultsOf(docs: seq<Document>, p: Path): seq<Document> {
    if docs == [] then []
    else
      var last := docs[|docs| - 1];
      ResultsOf(docs[..|docs| - 1], p) + (if Valid(last) && FileOf(last) == Ok(p) then [last] else [])
  }

  /** After any sequence of stores, each file holds the merge of its own results in order, and nothing else exists. */
  lemma {:induction false} HistoryIs(docs: seq<Document>)
    ensures WellFiled(StoreAll(docs))
    ensures forall p :: p in StoreAll(docs) <==> ResultsOf(docs, p) != []
    ensures forall p :: p in StoreAll(docs) ==> StoreAll(docs)[p] == MergeAll(ResultsOf(docs, p))
    decreases |docs|
  {
    if docs != [] {
      var front, last := docs[..|docs| - 1], docs[|docs| - 1];
      HistoryIs(front);
      StoreKeepsWellFiled(StoreAll(front), last);
      forall p
        ensures p in StoreAll(docs) <==> ResultsOf(docs, p) != []
        ensures p in StoreAll(docs) ==> StoreAll(docs)[p] == MergeAll(ResultsOf(docs, p))
      {
        StoreStep(StoreAll(front), ResultsOf(front, p), last, p);
      }
    }
  }

  /** What one store does to one file. */
  lemma StoreAt(h: History, d: Document, p: Path)
    requires WellFiled(h)
    ensures var after := StoreInto(h, d).0;
            if Valid(d) && FileOf(d) == Ok(p) then p in after && after[p] == (if p in h then Merge(h[p], d) else d)
            else (p in after <==> p in h) && (p in h ==> after[p] == h[p])
  {
  }

  lemma MergeAllSnoc(docs: seq<Document>, d: Document)
    ensures MergeAll(docs + [d]) == if docs == [] then d else Merge(MergeAll(docs), d)
  {
    assert (docs + [d])[..|docs|] == docs;
  }

  /** A file that holds the merge of its results still does after one more store. */
  lemma StoreStep(h: History, results: seq<Document>, d: Document, p: Path)
    requires WellFiled(h) && (p in h <==> results != []) && (p in h ==> h[p] == MergeAll(results))
    ensures var after := StoreInto(h, d).0;
            var more := results + (if Valid(d) && FileOf(d) == Ok(p) then [d] else []);
            (p in after <==> more != []) && (p in after ==> after[p] == MergeAll(more))
  {
    StoreAt(h, d, p);
    MergeAllSnoc(results, d);
    assert results + [] == results;
  }

  lemma {:induction false} ResultsAreValid(docs: seq<Document>, p: Path)
    ensures forall i :: 0 <= i < |ResultsOf(docs, p)| ==>
              Valid(ResultsOf(docs, p)[i]) && FileOf(ResultsOf(docs, p)[i]) == Ok(p)
  {
    if docs != [] {
      ResultsAreValid(docs[..|docs| - 1], p);
    }
  }

  /** Many results of one run merged, in closed form. */
  ghost predicate MergedIs(results: seq<Document>, merged: Document, i: nat, id: string, tool: string)
    requires results != []
  {
    && StartedFirst(results, i) && merged.run.startedAt == results[i].run.startedAt
    && Ids(merged.metrics) == FirstAppearances(AllIds(results))
    && Lookup(merged.metrics, id) == LastWritten(results, id)
    && merged.run.typedb == LastKnownTypedb(results)
    && Tool(merged.run.toolchains, tool) == LastKnownTool(results, tool)
    && merged.run == results[|results| - 1].run.(
         startedAt := merged.run.startedAt, typedb := merged.run.typedb, toolchains := merged.run.toolchains)
  }

  lemma MergeAllIs(results: seq<Document>, id: string, tool: string) returns (i: nat)
    requires results != [] && forall k :: 0 <= k < |results| ==> DistinctIds(results[k].metrics)
    ensures MergedIs(results, MergeAll(results), i, id, tool)
  {
    MergeAllIds(results);
    MergeAllLookup(results, id);
    i := MergeAllRun(results, tool);
  }

  lemma ResultsAreDistinct(docs: seq<Document>, p: Path)
    ensures forall k :: 0 <= k < |ResultsOf(docs, p)| ==> DistinctIds(ResultsOf(docs, p)[k].metrics)
  {
    ResultsAreValid(docs, p);
  }

  /**
   The stored run of a file in closed form: ids in first-appearance order, each with its last
   written metric, the earliest start with ties to the first stored, the last known TypeDB and tool
   versions, and everything else from the last result.
   */
  lemma StoredRunIs(docs: seq<Document>, p: Path, id: string, tool: string) returns (i: nat)
    requires p in StoreAll(docs)
    ensures ResultsOf(docs, p) != [] && MergedIs(ResultsOf(docs, p), StoreAll(docs)[p], i, id, tool)
  {
    HistoryIs(docs);
    ResultsAreDistinct(docs, p);
    i := MergeAllIs(ResultsOf(docs, p), id, tool);
  }
}
