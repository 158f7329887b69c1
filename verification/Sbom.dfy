/**
 The software bill of materials of one artifact (scripts/ci/c_distribution_security.py): which packages
 the document lists, which relationships it carries, and what is reachable from the document itself.
 Relationships are those of section 11 of the SPDX 2.3 specification.
 */
module Sbom {
  import opened Prelude
  import opened Text
  import opened Sorting
  import opened DependencyClosure

  datatype Artifact = Artifact(filename: string, artifactId: string, sha256: string)

  datatype Entry = Entry(spdxId: string, name: string, version: string, location: string, license: string, checksum: string)

  datatype Kind = Contains | DependsOn | Describes

  datatype Relationship = Relationship(source: string, kind: Kind, related: string)

  datatype Document = Document(packages: seq<Entry>, relationships: seq<Relationship>)

  /** A lookup that raises, or two packages with one SPDX identifier. */
  datatype SbomError = Lookup | Collision

  const DOCUMENT := "SPDXRef-DOCUMENT"
  const ARTIFACT := "SPDXRef-Artifact-"
  const PACKAGE := "SPDXRef-Package-"
  const NOASSERTION := "NOASSERTION"

  // ---------------------------------------------------------------------------------------
  // What the document is made of
  // ---------------------------------------------------------------------------------------

  function Normalized(s: string): string {
    seq(|s|, i requires 0 <= i < |s| => if IsAlnum(s[i]) || s[i] == '.' || s[i] == '-' then s[i] else '-')
  }

  function PackageSpdxId(p: Package): string {
    PACKAGE + Normalized(if p.source != "" then p.id else "path+" + p.name + "@" + p.version)
  }

  function OrNone(s: string): string {
    if s != "" then s else NOASSERTION
  }

  function EntryOf(p: Package): Entry {
    Entry(PackageSpdxId(p), p.name, p.version, OrNone(p.source), OrNone(p.license), p.checksum)
  }

  function ArtifactEntry(a: Artifact, rootName: string): Entry {
    Entry(ARTIFACT + rootName, a.filename, a.artifactId, NOASSERTION, "MIT", a.sha256)
  }

  /** What the document is about: the metadata, the closure in iteration order, and the root's name. */
  datatype Input = Input(artifact: Artifact, packages: Packages, nodes: Nodes, closure: seq<string>, rootName: string)

  /** Every lookup the generator makes succeeds. */
  predicate Usable(i: Input) {
    && (forall x :: x in i.closure ==> x in i.packages && x in i.nodes)
    && exists x :: x in i.closure && i.packages[x].name == i.rootName
  }

  function SpdxId(i: Input, x: string): string
    requires x in i.packages
  {
    PackageSpdxId(i.packages[x])
  }

  /** The first identifier, in iteration order, with the root's name. */
  function Root(i: Input, ids: seq<string>): (r: Option<string>)
    requires forall x :: x in ids ==> x in i.packages
    ensures r.Some? ==> r.value in ids && i.packages[r.value].name == i.rootName
    ensures r.None? ==> forall x :: x in ids ==> i.packages[x].name != i.rootName
  {
    if ids == [] then None
    else if i.packages[ids[0]].name == i.rootName then Some(ids[0])
    else Root(i, ids[1..])
  }

  function DepRelations(i: Input, x: string, deps: seq<Dep>): seq<Relationship>
    requires x in i.packages && forall y :: y in i.closure ==> y in i.packages
  {
    if deps == [] then []
    else
      var d := deps[|deps| - 1];
      DepRelations(i, x, deps[..|deps| - 1])
      + (if d.pkg in i.closure && Normal(d) then [Relationship(SpdxId(i, x), DependsOn, SpdxId(i, d.pkg))] else [])
  }

  function Relations(i: Input, root: string, ids: seq<string>): seq<Relationship>
    requires Usable(i) && forall x :: x in ids ==> x in i.closure
  {
    if ids == [] then [Relationship(DOCUMENT, Describes, ARTIFACT + i.rootName)]
    else
      var x := ids[|ids| - 1];
      Relations(i, root, ids[..|ids| - 1])
      + (if x == root then [Relationship(ARTIFACT + i.rootName, Contains, SpdxId(i, x))] else [])
      + DepRelations(i, x, i.nodes[x])
  }

  function Entries(i: Input, ids: seq<string>): seq<Entry>
    requires forall x :: x in ids ==> x in i.packages
  {
    seq(|ids|, k requires 0 <= k < |ids| => EntryOf(i.packages[ids[k]]))
  }

  predicate ById(a: Entry, b: Entry) {
    StringLeq(a.spdxId, b.spdxId)
  }

  function KindName(k: Kind): string {
    match k case Contains => "CONTAINS" case DependsOn => "DEPENDS_ON" case Describes => "DESCRIBES"
  }

  predicate ByKey(a: Relationship, b: Relationship) {
    if a.source != b.source then StringLeq(a.source, b.source)
    else if a.kind != b.kind then StringLeq(KindName(a.kind), KindName(b.kind))
    else StringLeq(a.related, b.related)
  }

  predicate DistinctIds(entries: seq<Entry>) {
    forall j, k :: 0 <= j < k < |entries| ==> entries[j].spdxId != entries[k].spdxId
  }

  lemma SortedListsClosure(i: Input)
    ensures forall x :: x in Sort(i.closure, StringLeq) <==> x in i.closure
    ensures multiset(Sort(i.closure, StringLeq)) == multiset(i.closure)
    ensures |Sort(i.closure, StringLeq)| == |i.closure|
  {
    StringLeqIsOrder();
    SortSorts(i.closure, StringLeq);
    SameElements(Sort(i.closure, StringLeq), i.closure);
  }

  /** The closure's entries, sorted by package identifier, then the artifact's. */
  function AllEntries(i: Input): seq<Entry>
    requires Usable(i)
  {
    SortedListsClosure(i);
    Entries(i, Sort(i.closure, StringLeq)) + [ArtifactEntry(i.artifact, i.rootName)]
  }

  function AllRelations(i: Input): seq<Relationship>
    requires Usable(i)
  {
    SortedListsClosure(i);
    Relations(i, Root(i, i.closure).value, Sort(i.closure, StringLeq))
  }

  /** The whole generator. */
  function CargoSbom(i: Input): Result<Document, SbomError> {
    if !Usable(i) then Err(Lookup)
    else if !DistinctIds(AllEntries(i)) then Err(Collision)
    else Ok(Document(Sort(AllEntries(i), ById), Sort(AllRelations(i), ByKey)))
  }

  // ---------------------------------------------------------------------------------------
  // The generator
  // ---------------------------------------------------------------------------------------

  method FindRoot(i: Input) returns (root: Option<string>)
    ensures (forall x :: x in i.closure ==> x in i.packages) ==> root == Root(i, i.closure)
    ensures root.None? && (forall x :: x in i.closure ==> x in i.packages) ==> !Usable(i)
  {
    for k := 0 to |i.closure|
      invariant (forall x :: x in i.closure ==> x in i.packages) ==> Root(i, i.closure) == Root(i, i.closure[k..])
    {
      if i.closure[k] !in i.packages {
        return None;
      }
      if i.packages[i.closure[k]].name == i.rootName {
        return Some(i.closure[k]);
      }
      assert i.closure[k..][1..] == i.closure[k + 1..];
    }
    return None;
  }

  method AddDependencies(i: Input, x: string, relations0: seq<Relationship>) returns (relations: seq<Relationship>)
    requires x in i.packages && x in i.nodes && forall y :: y in i.closure ==> y in i.packages
    ensures relations == relations0 + DepRelations(i, x, i.nodes[x])
  {
    relations := relations0;
    var deps := i.nodes[x];
    for k := 0 to |deps|
      invariant relations == relations0 + DepRelations(i, x, deps[..k])
    {
      assert deps[..k + 1][..k] == deps[..k];
      if deps[k].pkg in i.closure && Normal(deps[k]) {
        relations := relations + [Relationship(SpdxId(i, x), DependsOn, SpdxId(i, deps[k].pkg))];
      }
    }
    assert deps[..|deps|] == deps;
  }

  /** What one more package adds. */
  lemma AssembledNext(i: Input, root: string, sorted: seq<string>, k: nat)
    requires Usable(i) && k < |sorted| && forall x :: x in sorted ==> x in i.closure
    ensures Entries(i, sorted[..k + 1]) == Entries(i, sorted[..k]) + [EntryOf(i.packages[sorted[k]])]
    ensures var before := Relations(i, root, sorted[..k]);
            var contains := Relationship(ARTIFACT + i.rootName, Contains, SpdxId(i, sorted[k]));
            Relations(i, root, sorted[..k + 1]) ==
            (if sorted[k] == root then before + [contains] else before) + DepRelations(i, sorted[k], i.nodes[sorted[k]])
  {
    assert sorted[..k + 1][..k] == sorted[..k];
  }

  /** The loop over the sorted closure. */
  method Assemble(i: Input, root: string, sorted: seq<string>)
    returns (entries: seq<Entry>, relations: seq<Relationship>)
    requires Usable(i) && forall x :: x in sorted ==> x in i.closure
    ensures entries == Entries(i, sorted) && relations == Relations(i, root, sorted)
  {
    entries := [];
    relations := [Relationship(DOCUMENT, Describes, ARTIFACT + i.rootName)];
    for k := 0 to |sorted|
      invariant entries == Entries(i, sorted[..k])
      invariant relations == Relations(i, root, sorted[..k])
    {
      var x := sorted[k];
      AssembledNext(i, root, sorted, k);
      entries := entries + [EntryOf(i.packages[x])];
      if x == root {
        relations := relations + [Relationship(ARTIFACT + i.rootName, Contains, SpdxId(i, x))];
      }
      relations := AddDependencies(i, x, relations);
    }
    assert sorted[..|sorted|] == sorted;
  }

  method GenerateSbom(i: Input) returns (r: Result<Document, SbomError>)
    ensures r == CargoSbom(i)
  {
    SortedListsClosure(i);
    var root := FindRoot(i);
    if root.None? || exists x :: x in i.closure && (x !in i.packages || x !in i.nodes) {
      return Err(Lookup);
    }
    assert Usable(i);
    var entries, relations := Assemble(i, root.value, Sort(i.closure, StringLeq));
    entries := entries + [ArtifactEntry(i.artifact, i.rootName)];
    assert entries == AllEntries(i) && relations == AllRelations(i);
    if !DistinctIds(entries) {
      return Err(Collision);
    }
    return Ok(Document(Sort(entries, ById), Sort(relations, ByKey)));
  }

  // ---------------------------------------------------------------------------------------
  // What a document says
  // ---------------------------------------------------------------------------------------

  lemma ByIdIsOrder()
    ensures Preorder(ById)
  {
    StringLeqIsOrder();
    forall x, y, z | ById(x, y) && ById(y, z) ensures ById(x, z) {
      StringLeqTransitive(x.spdxId, y.spdxId, z.spdxId);
    }
    forall x, y ensures ById(x, y) || ById(y, x) {
      StringLeqTotal(x.spdxId, y.spdxId);
    }
  }

  lemma ByKeyTotal(x: Relationship, y: Relationship)
    ensures ByKey(x, y) || ByKey(y, x)
  {
    StringLeqTotal(x.source, y.source);
    StringLeqTotal(KindName(x.kind), KindName(y.kind));
    StringLeqTotal(x.related, y.related);
  }

  /** Transitivity of one component followed by a tie-break. */
  lemma LexTransitive(a: string, b: string, c: string)
    requires StringLeq(a, b) && StringLeq(b, c)
    ensures StringLeq(a, c) && (a == c ==> a == b == c)
  {
    StringLeqTransitive(a, b, c);
    StringLeqTotal(a, b);
  }

  lemma ByKeyTransitive(x: Relationship, y: Relationship, z: Relationship)
    requires ByKey(x, y) && ByKey(y, z)
    ensures ByKey(x, z)
  {
    StringLeqTotal(x.source, y.source);
    StringLeqTotal(y.source, z.source);
    StringLeqTotal(KindName(x.kind), KindName(x.kind));
    if x.source != y.source || y.source != z.source {
      StringLeqTotal(x.source, x.source);
      LexTransitive(x.source, y.source, z.source);
    } else if x.kind != y.kind || y.kind != z.kind {
      KindNamesDiffer(x.kind, y.kind);
      KindNamesDiffer(y.kind, z.kind);
      StringLeqTotal(KindName(y.kind), KindName(y.kind));
      LexTransitive(KindName(x.kind), KindName(y.kind), KindName(z.kind));
    } else {
      StringLeqTransitive(x.related, y.related, z.related);
    }
  }

  lemma KindNamesDiffer(a: Kind, b: Kind)
    ensures KindName(a) == KindName(b) ==> a == b
  {
    assert KindName(a)[2] == KindName(b)[2] || KindName(a) != KindName(b);
  }

  lemma ByKeyIsOrder()
    ensures Preorder(ByKey)
  {
    forall x, y ensures ByKey(x, y) || ByKey(y, x) {
      ByKeyTotal(x, y);
    }
    forall x, y, z | ByKey(x, y) && ByKey(y, z) ensures ByKey(x, z) {
      ByKeyTransitive(x, y, z);
    }
  }

  lemma EntriesAre(i: Input, ids: seq<string>, e: Entry)
    requires forall x :: x in ids ==> x in i.packages
    ensures e in Entries(i, ids) <==> exists x :: x in ids && e == EntryOf(i.packages[x])
  {
    var entries := Entries(i, ids);
    if x :| x in ids && e == EntryOf(i.packages[x]) {
      var k :| 0 <= k < |ids| && ids[k] == x;
      assert entries[k] == e;
    }
    if e in entries {
      var k :| 0 <= k < |entries| && entries[k] == e;
      assert ids[k] in ids;
    }
  }

  lemma SortedEntries(entries: seq<Entry>, e: Entry)
    ensures |Sort(entries, ById)| == |entries| && Ordered(Sort(entries, ById), ById)
    ensures e in Sort(entries, ById) <==> e in entries
  {
    ByIdIsOrder();
    SortSorts(entries, ById);
    SameElements(Sort(entries, ById), entries);
  }

  lemma AllEntriesAre(i: Input, e: Entry)
    requires Usable(i)
    ensures |AllEntries(i)| == |i.closure| + 1
    ensures e in AllEntries(i) <==>
            e == ArtifactEntry(i.artifact, i.rootName) || exists x :: x in i.closure && e == EntryOf(i.packages[x])
  {
    SortedListsClosure(i);
    EntriesAre(i, Sort(i.closure, StringLeq), e);
  }

  /** The document lists the closure and the artifact, each once, in the order of their identifiers. */
  lemma ListsExactlyTheClosure(i: Input, e: Entry)
    requires CargoSbom(i).Ok?
    ensures var listed := CargoSbom(i).value.packages;
            && |listed| == |i.closure| + 1
            && Ordered(listed, ById)
            && (e in listed <==>
                e == ArtifactEntry(i.artifact, i.rootName) || exists x :: x in i.closure && e == EntryOf(i.packages[x]))
  {
    AllEntriesAre(i, e);
    SortedEntries(AllEntries(i), e);
  }

  /** No two members of the closure share an identifier. */
  ghost predicate Injective(i: Input)
    requires Usable(i)
  {
    forall x, y :: x in i.closure && y in i.closure && SpdxId(i, x) == SpdxId(i, y) ==> x == y
  }

  lemma DistinctAt(entries: seq<Entry>, j: nat, k: nat)
    requires DistinctIds(entries) && j < |entries| && k < |entries| && entries[j].spdxId == entries[k].spdxId
    ensures j == k
  {
  }

  lemma SameIdSamePackage(i: Input, ids: seq<string>, rest: seq<Entry>, x: string, y: string)
    requires forall z :: z in ids ==> z in i.packages
    requires DistinctIds(Entries(i, ids) + rest) && x in ids && y in ids && SpdxId(i, x) == SpdxId(i, y)
    ensures x == y
  {
    var entries := Entries(i, ids) + rest;
    var j :| 0 <= j < |ids| && ids[j] == x;
    var k :| 0 <= k < |ids| && ids[k] == y;
    assert entries[j] == EntryOf(i.packages[x]) && entries[k] == EntryOf(i.packages[y]);
    DistinctAt(entries, j, k);
  }

  lemma IdsAreDistinct(i: Input)
    requires CargoSbom(i).Ok?
    ensures Injective(i)
  {
    SortedListsClosure(i);
    forall x, y | x in i.closure && y in i.closure && SpdxId(i, x) == SpdxId(i, y) ensures x == y {
      SameIdSamePackage(i, Sort(i.closure, StringLeq), [ArtifactEntry(i.artifact, i.rootName)], x, y);
    }
  }

  lemma DistinctEntries(i: Input, ids: seq<string>)
    requires Usable(i) && Injective(i) && NoRepeats(ids) && forall x :: x in ids ==> x in i.closure
    ensures DistinctIds(Entries(i, ids) + [ArtifactEntry(i.artifact, i.rootName)])
  {
    var entries := Entries(i, ids) + [ArtifactEntry(i.artifact, i.rootName)];
    forall j, k | 0 <= j < k < |entries| ensures entries[j].spdxId != entries[k].spdxId {
      assert ids[j] in ids && entries[j].spdxId == SpdxId(i, ids[j]);
      if k < |ids| {
        assert ids[k] in ids && entries[k].spdxId == SpdxId(i, ids[k]);
      } else {
        PrefixesDiffer(i, ids[j]);
      }
    }
  }

  /** A document is generated exactly when every lookup succeeds and no two packages collide. */
  lemma GeneratedIff(i: Input)
    requires NoRepeats(i.closure)
    ensures CargoSbom(i).Ok? <==> Usable(i) && Injective(i)
  {
    if Usable(i) && Injective(i) {
      SortedListsClosure(i);
      PermutedNoRepeats(i.closure, Sort(i.closure, StringLeq));
      DistinctEntries(i, Sort(i.closure, StringLeq));
    }
    if CargoSbom(i).Ok? {
      IdsAreDistinct(i);
    }
  }

  /** The relationships a document should carry. */
  ghost predicate Expected(i: Input, root: string, ids: seq<string>, r: Relationship)
    requires Usable(i)
  {
    || r == Relationship(DOCUMENT, Describes, ARTIFACT + i.rootName)
    || (root in ids && root in i.closure && r == Relationship(ARTIFACT + i.rootName, Contains, SpdxId(i, root)))
    || exists x, y :: x in ids && x in i.closure && y in i.closure && (x, y) in NormalEdges(i.nodes)
                      && r == Relationship(SpdxId(i, x), DependsOn, SpdxId(i, y))
  }

  lemma {:induction false} DepRelationsAre(i: Input, x: string, deps: seq<Dep>, r: Relationship)
    requires Usable(i) && x in i.packages
    ensures r in DepRelations(i, x, deps) <==>
            exists d :: d in deps && Normal(d) && d.pkg in i.closure && r == Relationship(SpdxId(i, x), DependsOn, SpdxId(i, d.pkg))
  {
    if deps != [] {
      var n := |deps| - 1;
      DepRelationsAre(i, x, deps[..n], r);
      assert deps == deps[..n] + [deps[n]];
    }
  }

  lemma {:induction false} RelationsAre(i: Input, root: string, ids: seq<string>, r: Relationship)
    requires Usable(i) && forall x :: x in ids ==> x in i.closure
    ensures r in Relations(i, root, ids) <==> Expected(i, root, ids, r)
  {
    if ids != [] {
      var n := |ids| - 1;
      var x := ids[n];
      assert ids == ids[..n] + [x];
      RelationsAre(i, root, ids[..n], r);
      DepRelationsAre(i, x, i.nodes[x], r);
      OneMore(i, root, ids[..n], x, r);
    }
  }

  lemma OneMore(i: Input, root: string, ids: seq<string>, x: string, r: Relationship)
    requires Usable(i) && x in i.closure
    ensures Expected(i, root, ids + [x], r) <==>
            || Expected(i, root, ids, r)
            || (x == root && r == Relationship(ARTIFACT + i.rootName, Contains, SpdxId(i, x)))
            || exists d :: d in i.nodes[x] && Normal(d) && d.pkg in i.closure
                           && r == Relationship(SpdxId(i, x), DependsOn, SpdxId(i, d.pkg))
  {
    if d :| d in i.nodes[x] && Normal(d) && d.pkg in i.closure && r == Relationship(SpdxId(i, x), DependsOn, SpdxId(i, d.pkg)) {
      assert (x, d.pkg) in NormalEdges(i.nodes) && x in ids + [x];
    }
    if y :| y in i.closure && (x, y) in NormalEdges(i.nodes) && r == Relationship(SpdxId(i, x), DependsOn, SpdxId(i, y)) {
      var d :| d in i.nodes[x] && Normal(d) && d.pkg == y;
    }
  }

  lemma SortedRelations(relations: seq<Relationship>, r: Relationship)
    ensures Ordered(Sort(relations, ByKey), ByKey) && |Sort(relations, ByKey)| == |relations|
    ensures r in Sort(relations, ByKey) <==> r in relations
  {
    ByKeyIsOrder();
    SortSorts(relations, ByKey);
    SameElements(Sort(relations, ByKey), relations);
  }

  /** The document carries exactly the expected relationships: none is missing and none invented. */
  lemma CarriesExactlyTheRelations(i: Input, r: Relationship)
    requires CargoSbom(i).Ok?
    ensures r in CargoSbom(i).value.relationships <==> Expected(i, Root(i, i.closure).value, i.closure, r)
    ensures Ordered(CargoSbom(i).value.relationships, ByKey)
  {
    var sorted := Sort(i.closure, StringLeq);
    var root := Root(i, i.closure).value;
    SortedListsClosure(i);
    SortedRelations(AllRelations(i), r);
    RelationsAre(i, root, sorted, r);
    assert Expected(i, root, sorted, r) <==> Expected(i, root, i.closure, r);
  }

  // ---------------------------------------------------------------------------------------
  // Reachability from the document
  // ---------------------------------------------------------------------------------------

  function DocumentEdges(d: Document): Edges {
    set r | r in d.relationships :: (r.source, r.related)
  }

  function Members(i: Input): set<string> {
    set x | x in i.closure
  }

  lemma PrefixesDiffer(i: Input, x: string)
    requires x in i.packages
    ensures SpdxId(i, x) != DOCUMENT && SpdxId(i, x) != ARTIFACT + i.rootName && DOCUMENT != ARTIFACT + i.rootName
  {
    assert DOCUMENT[8] == 'D' && (ARTIFACT + i.rootName)[8] == 'A' && SpdxId(i, x)[8] == 'P';
  }

  /** The members the root reaches. */
  ghost function FromRoot(i: Input, root: string): set<string> {
    set x | x in i.closure && Reachable(NormalEdges(i.nodes), {root}, x)
  }

  lemma FromRootIsClosed(i: Input, root: string)
    requires Closed(NormalEdges(i.nodes), Members(i))
    ensures Closed(NormalEdges(i.nodes), FromRoot(i, root))
  {
    forall e | e in NormalEdges(i.nodes) && e.0 in FromRoot(i, root) ensures e.1 in FromRoot(i, root) {
      assert e.0 in Members(i);
      EdgeExtends(NormalEdges(i.nodes), {root}, e.0, e.1);
    }
  }

  /** A document with the expected relationships, over a closed set of distinctly named packages. */
  ghost predicate Faithful(i: Input, root: string, d: Document) {
    && Usable(i) && Injective(i) && Closed(NormalEdges(i.nodes), Members(i)) && root in i.closure
    && forall r :: r in d.relationships <==> Expected(i, root, i.closure, r)
  }

  lemma GeneratedIsFaithful(i: Input)
    requires CargoSbom(i).Ok? && Closed(NormalEdges(i.nodes), Members(i))
    ensures Faithful(i, Root(i, i.closure).value, CargoSbom(i).value)
  {
    IdsAreDistinct(i);
    forall r ensures r in CargoSbom(i).value.relationships <==> Expected(i, Root(i, i.closure).value, i.closure, r) {
      CarriesExactlyTheRelations(i, r);
    }
  }

  /** Identifiers the document may lead to. */
  ghost function Allowed(i: Input, root: string): set<string>
    requires Usable(i)
  {
    {DOCUMENT, ARTIFACT + i.rootName} + set x | x in FromRoot(i, root) :: SpdxId(i, x)
  }

  lemma AllowedComesFrom(i: Input, root: string, id: string) returns (z: string)
    requires Usable(i) && id in Allowed(i, root) && id != DOCUMENT && id != ARTIFACT + i.rootName
    ensures z in FromRoot(i, root) && SpdxId(i, z) == id
  {
    z :| z in FromRoot(i, root) && SpdxId(i, z) == id;
  }

  lemma AllowedIsPackage(i: Input, root: string, x: string)
    requires Usable(i) && Injective(i) && x in i.closure && SpdxId(i, x) in Allowed(i, root)
    ensures x in FromRoot(i, root)
  {
    PrefixesDiffer(i, x);
    var z := AllowedComesFrom(i, root, SpdxId(i, x));
    assert z in i.closure;
  }

  lemma AllowedRelation(i: Input, root: string, r: Relationship)
    requires Usable(i) && Injective(i) && Closed(NormalEdges(i.nodes), Members(i)) && root in i.closure
    requires Expected(i, root, i.closure, r) && r.source in Allowed(i, root)
    ensures r.related in Allowed(i, root)
  {
    RootIsReachable(NormalEdges(i.nodes), {root}, root);
    assert root in FromRoot(i, root);
    if x, y :| x in i.closure && y in i.closure && (x, y) in NormalEdges(i.nodes)
               && r == Relationship(SpdxId(i, x), DependsOn, SpdxId(i, y)) {
      AllowedIsPackage(i, root, x);
      FromRootIsClosed(i, root);
      assert (x, y).1 in FromRoot(i, root);
    }
  }

  lemma ReachedFromRoot(i: Input, root: string, d: Document, x: string)
    requires Faithful(i, root, d) && x in i.closure
    requires Reachable(DocumentEdges(d), {DOCUMENT}, SpdxId(i, x))
    ensures Reachable(NormalEdges(i.nodes), {root}, x)
  {
    forall e | e in DocumentEdges(d) && e.0 in Allowed(i, root) ensures e.1 in Allowed(i, root) {
      var r :| r in d.relationships && (r.source, r.related) == e;
      AllowedRelation(i, root, r);
    }
    ReachableStays(DocumentEdges(d), {DOCUMENT}, Allowed(i, root), SpdxId(i, x));
    AllowedIsPackage(i, root, x);
  }

  lemma ExpectedExtends(i: Input, root: string, d: Document, r: Relationship)
    requires Faithful(i, root, d) && Expected(i, root, i.closure, r)
    requires Reachable(DocumentEdges(d), {DOCUMENT}, r.source)
    ensures Reachable(DocumentEdges(d), {DOCUMENT}, r.related)
  {
    assert (r.source, r.related) in DocumentEdges(d);
    EdgeExtends(DocumentEdges(d), {DOCUMENT}, r.source, r.related);
  }

  lemma DocumentReachesRoot(i: Input, root: string, d: Document)
    requires Faithful(i, root, d)
    ensures Reachable(DocumentEdges(d), {DOCUMENT}, SpdxId(i, root))
  {
    var middle := ARTIFACT + i.rootName;
    RootIsReachable(DocumentEdges(d), {DOCUMENT}, DOCUMENT);
    ExpectedExtends(i, root, d, Relationship(DOCUMENT, Describes, middle));
    ExpectedExtends(i, root, d, Relationship(middle, Contains, SpdxId(i, root)));
  }

  lemma ReachedFromDocument(i: Input, root: string, d: Document, x: string)
    requires Faithful(i, root, d) && x in i.closure && Reachable(NormalEdges(i.nodes), {root}, x)
    ensures Reachable(DocumentEdges(d), {DOCUMENT}, SpdxId(i, x))
  {
    var good := set y | y in i.closure && Reachable(DocumentEdges(d), {DOCUMENT}, SpdxId(i, y));
    DocumentReachesRoot(i, root, d);
    forall e | e in NormalEdges(i.nodes) && e.0 in good ensures e.1 in good {
      assert e.0 in Members(i) && e.1 in Members(i);
      ExpectedExtends(i, root, d, Relationship(SpdxId(i, e.0), DependsOn, SpdxId(i, e.1)));
    }
    ReachableStays(NormalEdges(i.nodes), {root}, good, x);
  }

  /** The input's closure is the one computed from the root's name. */
  ghost predicate FromClosure(i: Input) {
    IsClosure(i.packages, i.nodes, [i.rootName], Ok(Members(i)))
  }

  lemma ClosureIsClosed(i: Input)
    requires FromClosure(i)
    ensures Closed(NormalEdges(i.nodes), Members(i)) && RootIds(i.packages, [i.rootName]) <= Members(i)
  {
    var ids := RootIds(i.packages, [i.rootName]);
    forall e | e in NormalEdges(i.nodes) && e.0 in Members(i) ensures e.1 in Members(i) {
      EdgeExtends(NormalEdges(i.nodes), ids, e.0, e.1);
    }
    forall id | id in ids ensures id in Members(i) {
      RootIsReachable(NormalEdges(i.nodes), ids, id);
    }
  }

  /** Every normal edge out of a listed package is carried, and leads to a listed package. */
  lemma EveryEdgeIsCarried(i: Input, x: string, y: string)
    requires CargoSbom(i).Ok? && FromClosure(i) && x in i.closure && (x, y) in NormalEdges(i.nodes)
    ensures y in i.closure && Relationship(SpdxId(i, x), DependsOn, SpdxId(i, y)) in CargoSbom(i).value.relationships
  {
    ClosureIsClosed(i);
    assert (x, y).0 in Members(i) && (x, y).1 in Members(i);
    CarriesExactlyTheRelations(i, Relationship(SpdxId(i, x), DependsOn, SpdxId(i, y)));
  }

  /** The document reaches every listed package. */
  ghost predicate ReachesClosure(i: Input, d: Document)
    requires forall x :: x in i.closure ==> x in i.packages
  {
    forall x :: x in i.closure ==> Reachable(DocumentEdges(d), {DOCUMENT}, SpdxId(i, x))
  }

  /** The root reaches every package of its name. */
  ghost predicate ReachesNamesakes(i: Input, root: string) {
    forall id :: id in RootIds(i.packages, [i.rootName]) ==> Reachable(NormalEdges(i.nodes), {root}, id)
  }

  lemma RootReaches(i: Input, root: string, d: Document)
    requires Faithful(i, root, d) && FromClosure(i) && ReachesClosure(i, d)
    ensures ReachesNamesakes(i, root)
  {
    ClosureIsClosed(i);
    forall id | id in RootIds(i.packages, [i.rootName]) ensures Reachable(NormalEdges(i.nodes), {root}, id) {
      assert id in Members(i);
      ReachedFromRoot(i, root, d, id);
    }
  }

  lemma DocumentReaches(i: Input, root: string, d: Document)
    requires Faithful(i, root, d) && FromClosure(i) && ReachesNamesakes(i, root)
    ensures ReachesClosure(i, d)
  {
    var ids := RootIds(i.packages, [i.rootName]);
    ClosureIsClosed(i);
    FromRootIsClosed(i, root);
    assert ids <= FromRoot(i, root);
    forall x | x in i.closure ensures Reachable(DocumentEdges(d), {DOCUMENT}, SpdxId(i, x)) {
      assert x in Members(i);
      ReachableStays(NormalEdges(i.nodes), ids, FromRoot(i, root), x);
      ReachedFromDocument(i, root, d, x);
    }
  }

  /** What a faithful document reaches. */
  lemma FaithfulReaches(i: Input, root: string, d: Document)
    requires Faithful(i, root, d) && FromClosure(i)
    ensures ReachesClosure(i, d) <==> ReachesNamesakes(i, root)
  {
    if ReachesClosure(i, d) {
      RootReaches(i, root, d);
    }
    if ReachesNamesakes(i, root) {
      DocumentReaches(i, root, d);
    }
  }

  /** Over its own closure, the document reaches every package exactly when the chosen root reaches every
      package of that name: so always when the name is unique. */
  lemma DocumentReachesAll(i: Input)
    requires CargoSbom(i).Ok? && FromClosure(i)
    ensures (forall x :: x in i.closure ==> Reachable(DocumentEdges(CargoSbom(i).value), {DOCUMENT}, SpdxId(i, x)))
       <==> (forall id :: id in RootIds(i.packages, [i.rootName]) ==>
               Reachable(NormalEdges(i.nodes), {Root(i, i.closure).value}, id))
  {
    ClosureIsClosed(i);
    GeneratedIsFaithful(i);
    FaithfulReaches(i, Root(i, i.closure).value, CargoSbom(i).value);
  }

  /** With one package of the root's name, the document reaches everything it lists. */
  lemma UniqueRootReachesAll(i: Input, x: string)
    requires CargoSbom(i).Ok? && FromClosure(i) && x in i.closure
    requires forall a, b :: a in i.packages && b in i.packages && i.packages[a].name == i.packages[b].name == i.rootName ==> a == b
    ensures Reachable(DocumentEdges(CargoSbom(i).value), {DOCUMENT}, SpdxId(i, x))
  {
    OnlyNamesake(i, Root(i, i.closure).value);
    DocumentReachesAll(i);
  }

  lemma OnlyNamesake(i: Input, root: string)
    requires root in i.packages && i.packages[root].name == i.rootName
    requires forall a, b :: a in i.packages && b in i.packages && i.packages[a].name == i.packages[b].name == i.rootName ==> a == b
    ensures ReachesNamesakes(i, root)
  {
    RootIsReachable(NormalEdges(i.nodes), {root}, root);
  }

  /** Two packages of the root's name, neither depending on the other. */
  function TwoRoots(): Input {
    var a, b := Package("a", "r", "1", "s", "", ""), Package("b", "r", "1", "s", "", "");
    Input(Artifact("f", "v", "x"), map["a" := a, "b" := b], map["a" := [], "b" := []], ["a", "b"], "r")
  }

  lemma NoEdges(nodes: Nodes)
    requires forall x :: x in nodes ==> nodes[x] == []
    ensures NormalEdges(nodes) == {}
  {
  }

  lemma WithoutEdges(roots: set<string>, x: string)
    ensures Reachable({}, roots, x) <==> x in roots
  {
    if x in roots {
      RootIsReachable({}, roots, x);
    }
    if Reachable({}, roots, x) {
      ReachableStays({}, roots, roots, x);
    }
  }

  /** Of two packages from a registry, the identifiers differ where the ids begin to. */
  lemma IdsDiffer(p: Package, q: Package)
    requires p.source != "" && q.source != "" && p.id != "" && q.id != ""
    requires IsAlnum(p.id[0]) && IsAlnum(q.id[0]) && p.id[0] != q.id[0]
    ensures PackageSpdxId(p) != PackageSpdxId(q)
  {
    assert PackageSpdxId(p)[|PACKAGE|] == p.id[0] && PackageSpdxId(q)[|PACKAGE|] == q.id[0];
  }

  lemma TwoRootsAreUsable()
    ensures Usable(TwoRoots()) && Injective(TwoRoots()) && NoRepeats(TwoRoots().closure)
  {
    var i := TwoRoots();
    assert i.closure[0] == "a" && i.closure[1] == "b";
    assert "a" in i.closure && i.packages["a"].name == i.rootName;
    TwoRootsDiffer();
  }

  lemma TwoRootsDiffer()
    ensures PackageSpdxId(TwoRoots().packages["a"]) != PackageSpdxId(TwoRoots().packages["b"])
  {
    assert "a"[0] == 'a' && "b"[0] == 'b';
    IdsDiffer(TwoRoots().packages["a"], TwoRoots().packages["b"]);
  }

  /** Without dependencies the closure is the roots. */
  lemma EdgelessClosure(packages: Packages, nodes: Nodes, name: string, s: set<string>)
    requires (forall x :: x in nodes ==> nodes[x] == []) && s <= nodes.Keys
    requires s == RootIds(packages, [name]) && s != {}
    ensures IsClosure(packages, nodes, [name], Ok(s))
  {
    NoEdges(nodes);
    forall x ensures x in s <==> Reachable(NormalEdges(nodes), s, x) {
      WithoutEdges(s, x);
    }
    var id :| id in s;
    assert id in packages && packages[id].name == name;
  }

  lemma TwoRootsAreTheirClosure()
    ensures FromClosure(TwoRoots())
  {
    var i := TwoRoots();
    assert i.closure[0] == "a" && i.closure[1] == "b";
    assert RootIds(i.packages, [i.rootName]) == {"a", "b"};
    assert Members(i) == {"a", "b"};
    EdgelessClosure(i.packages, i.nodes, i.rootName, Members(i));
  }

  /** The failing family is real: the second root is listed but not reached. */
  lemma SecondRootIsUnreached()
    ensures var i := TwoRoots();
            && CargoSbom(i).Ok? && FromClosure(i) && "b" in i.closure
            && !Reachable(DocumentEdges(CargoSbom(i).value), {DOCUMENT}, SpdxId(i, "b"))
  {
    var i := TwoRoots();
    TwoRootsAreUsable();
    GeneratedIff(i);
    TwoRootsAreTheirClosure();
    ClosureIsClosed(i);
    GeneratedIsFaithful(i);
    NoEdges(i.nodes);
    assert i.closure[0] == "a" && i.closure[1] == "b";
    assert "a"[0] != "b"[0];
    WithoutEdges({"a"}, "b");
    if Reachable(DocumentEdges(CargoSbom(i).value), {DOCUMENT}, SpdxId(i, "b")) {
      ReachedFromRoot(i, "a", CargoSbom(i).value, "b");
    }
  }
}
