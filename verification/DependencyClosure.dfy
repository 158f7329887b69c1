/**
 The packages a release artifact links (scripts/ci/c_distribution_security.py): a worklist over the
 resolved Cargo dependency graph, against reachability along normal dependency edges.
 */
module DependencyClosure {
  import opened Prelude

  datatype Package = Package(id: string, name: string, version: string, source: string, license: string, checksum: string)

  /** A dependency of a node; a missing kind is the normal one. */
  datatype Dep = Dep(pkg: string, kinds: seq<Option<string>>)

  type Packages = map<string, Package>
  type Nodes = map<string, seq<Dep>>

  datatype ClosureError = OmittedRoots | OmittedNode(id: string)

  predicate Normal(d: Dep) {
    None in d.kinds
  }

  type Edges = set<(string, string)>

  /** The dependency edges having a normal kind. */
  function NormalEdges(nodes: Nodes): Edges {
    set x, d | x in nodes && d in nodes[x] && Normal(d) :: (x, d.pkg)
  }

  predicate Walk(p: seq<string>, edges: Edges) {
    p != [] && forall i :: 0 <= i < |p| - 1 ==> (p[i], p[i + 1]) in edges
  }

  ghost predicate Reachable(edges: Edges, roots: set<string>, x: string) {
    exists p :: Walk(p, edges) && p[0] in roots && p[|p| - 1] == x
  }

  lemma RootIsReachable(edges: Edges, roots: set<string>, x: string)
    requires x in roots
    ensures Reachable(edges, roots, x)
  {
    assert Walk([x], edges) && [x][0] in roots && [x][|[x]| - 1] == x;
  }

  lemma EdgeExtends(edges: Edges, roots: set<string>, x: string, y: string)
    requires Reachable(edges, roots, x) && (x, y) in edges
    ensures Reachable(edges, roots, y)
  {
    var p :| Walk(p, edges) && p[0] in roots && p[|p| - 1] == x;
    var q := p + [y];
    forall i | 0 <= i < |q| - 1 ensures (q[i], q[i + 1]) in edges {
      if i < |p| - 1 { assert (p[i], p[i + 1]) in edges; }
    }
    assert Walk(q, edges) && q[0] in roots && q[|q| - 1] == y;
  }

  predicate Closed(edges: Edges, s: set<string>) {
    forall e :: e in edges && e.0 in s ==> e.1 in s
  }

  lemma {:induction false} WalkStays(edges: Edges, s: set<string>, p: seq<string>)
    requires Closed(edges, s) && Walk(p, edges) && p[0] in s
    ensures p[|p| - 1] in s
  {
    if |p| > 1 {
      assert (p[0], p[1]) in edges;
      forall i | 0 <= i < |p| - 2 ensures (p[1..][i], p[1..][i + 1]) in edges {
        assert (p[i + 1], p[i + 2]) in edges;
      }
      WalkStays(edges, s, p[1..]);
    }
  }

  /** Nothing reachable leaves a closed set that has the roots. */
  lemma ReachableStays(edges: Edges, roots: set<string>, s: set<string>, x: string)
    requires Closed(edges, s) && roots <= s && Reachable(edges, roots, x)
    ensures x in s
  {
    var p :| Walk(p, edges) && p[0] in roots && p[|p| - 1] == x;
    WalkStays(edges, s, p);
  }

  // ---------------------------------------------------------------------------------------
  // The worklist
  // ---------------------------------------------------------------------------------------

  function RootIds(packages: Packages, roots: seq<string>): set<string> {
    set id | id in packages && packages[id].name in roots
  }

  predicate AllNamed(packages: Packages, roots: seq<string>) {
    forall name :: name in roots ==> exists id :: id in packages && packages[id].name == name
  }

  /** Exactly the reachable packages, or what is missing from the metadata. */
  ghost predicate IsClosure(packages: Packages, nodes: Nodes, roots: seq<string>, r: Result<set<string>, ClosureError>) {
    var edges, ids := NormalEdges(nodes), RootIds(packages, roots);
    match r
    case Ok(closure) =>
      && AllNamed(packages, roots)
      && (forall x :: x in closure <==> Reachable(edges, ids, x))
      && closure <= nodes.Keys
    case Err(OmittedRoots) => !AllNamed(packages, roots)
    case Err(OmittedNode(x)) => AllNamed(packages, roots) && Reachable(edges, ids, x) && x !in nodes
  }

  /** A set in some iteration order. */
  method Listed(s: set<string>) returns (l: seq<string>)
    ensures forall x :: x in l <==> x in s
  {
    l := [];
    var rest := s;
    while rest != {}
      invariant rest <= s && forall x :: x in l <==> x in s - rest
      decreases |rest|
    {
      var x :| x in rest;
      l := l + [x];
      rest := rest - {x};
    }
  }

  /** Everything that can ever enter the worklist. */
  function Universe(nodes: Nodes, ids: set<string>): set<string> {
    ids + set e | e in NormalEdges(nodes) :: e.1
  }

  /** Edges lead from what is reachable to what is reachable, within `all`. */
  ghost predicate Sound(reach: string -> bool, edges: Edges, all: set<string>) {
    forall e :: e in edges && reach(e.0) ==> reach(e.1) && e.1 in all
  }

  /** What holds between two steps of the worklist; `busy` is the node being expanded. */
  ghost predicate Working(
    reach: string -> bool, edges: Edges, known: set<string>, all: set<string>, ids: set<string>,
    closure: set<string>, pending: seq<string>, busy: set<string>)
  {
    && ids <= closure <= all
    && (forall x :: x in closure ==> reach(x))
    && (forall x :: x in pending ==> x in closure)
    && (forall x :: x in closure && x !in pending && x !in busy ==> x in known)
    && (forall e :: e in edges && e.0 in closure && e.0 !in pending && e.0 !in busy ==> e.1 in closure)
  }

  lemma WorkDone(nodes: Nodes, ids: set<string>, closure: set<string>)
    requires var edges := NormalEdges(nodes);
             Working(x => Reachable(edges, ids, x), edges, nodes.Keys, Universe(nodes, ids), ids, closure, [], {})
    ensures closure <= nodes.Keys
    ensures forall x :: x in closure <==> Reachable(NormalEdges(nodes), ids, x)
  {
    assert Closed(NormalEdges(nodes), closure);
    forall x | Reachable(NormalEdges(nodes), ids, x) ensures x in closure {
      ReachableStays(NormalEdges(nodes), ids, closure, x);
    }
  }

  lemma GraphIsSound(nodes: Nodes, ids: set<string>)
    ensures var edges := NormalEdges(nodes); Sound(x => Reachable(edges, ids, x), edges, Universe(nodes, ids))
    ensures forall x :: x in ids ==> Reachable(NormalEdges(nodes), ids, x)
  {
    var edges := NormalEdges(nodes);
    forall x | x in ids ensures Reachable(edges, ids, x) {
      RootIsReachable(edges, ids, x);
    }
    forall e | e in edges && Reachable(edges, ids, e.0) ensures Reachable(edges, ids, e.1) {
      assert (e.0, e.1) == e;
      EdgeExtends(edges, ids, e.0, e.1);
    }
  }

  lemma WorkPops(
    reach: string -> bool, edges: Edges, known: set<string>, all: set<string>, ids: set<string>,
    closure: set<string>, pending: seq<string>)
    requires pending != [] && Working(reach, edges, known, all, ids, closure, pending, {})
    ensures Working(reach, edges, known, all, ids, closure, pending[..|pending| - 1], {pending[|pending| - 1]})
  {
    var n := |pending| - 1;
    assert pending == pending[..n] + [pending[n]];
  }

  lemma WorkPushes(
    reach: string -> bool, edges: Edges, known: set<string>, all: set<string>, ids: set<string>,
    closure: set<string>, pending: seq<string>, x: string, y: string)
    requires Working(reach, edges, known, all, ids, closure, pending, {x}) && Sound(reach, edges, all)
    requires x in closure && (x, y) in edges
    ensures Working(reach, edges, known, all, ids, closure + {y}, pending + [y], {x})
  {
    assert reach((x, y).0);
  }

  /** The normal dependencies of `x` are its edges. */
  lemma EdgesOf(nodes: Nodes, x: string)
    requires x in nodes
    ensures forall i :: 0 <= i < |nodes[x]| && Normal(nodes[x][i]) ==> (x, nodes[x][i].pkg) in NormalEdges(nodes)
    ensures forall e :: e in NormalEdges(nodes) && e.0 == x ==>
              exists i :: 0 <= i < |nodes[x]| && Normal(nodes[x][i]) && nodes[x][i].pkg == e.1
  {
    forall i | 0 <= i < |nodes[x]| && Normal(nodes[x][i]) ensures (x, nodes[x][i].pkg) in NormalEdges(nodes) {
      assert nodes[x][i] in nodes[x];
    }
  }

  lemma WorkExpanded(
    reach: string -> bool, edges: Edges, known: set<string>, all: set<string>, ids: set<string>,
    closure: set<string>, pending: seq<string>, x: string)
    requires Working(reach, edges, known, all, ids, closure, pending, {x}) && x in known
    requires forall e :: e in edges && e.0 == x ==> e.1 in closure
    ensures Working(reach, edges, known, all, ids, closure, pending, {})
  {
  }

  method RuntimeClosure(packages: Packages, nodes: Nodes, roots: seq<string>)
    returns (r: Result<set<string>, ClosureError>)
    ensures IsClosure(packages, nodes, roots, r)
  {
    var ids := RootIds(packages, roots);
    RootsNamed(packages, roots);
    if (set id | id in ids :: packages[id].name) != (set name | name in roots) {
      return Err(OmittedRoots);
    }
    ghost var edges := NormalEdges(nodes);
    GraphIsSound(nodes, ids);
    r := CloseOver(nodes, ids, x => Reachable(edges, ids, x), edges, Universe(nodes, ids));
    if r.Ok? {
      WorkDone(nodes, ids, r.value);
    }
  }

  /** The worklist from the root packages on. */
  method CloseOver(nodes: Nodes, ids: set<string>, ghost reach: string -> bool, ghost edges: Edges, ghost all: set<string>)
    returns (r: Result<set<string>, ClosureError>)
    requires edges == NormalEdges(nodes) && Sound(reach, edges, all) && ids <= all && forall x :: x in ids ==> reach(x)
    ensures match r
            case Ok(closure) => Working(reach, edges, nodes.Keys, all, ids, closure, [], {})
            case Err(OmittedRoots) => false
            case Err(OmittedNode(x)) => reach(x) && x !in nodes
  {
    var closure := ids;
    var pending := Listed(ids);
    while pending != []
      invariant Working(reach, edges, nodes.Keys, all, ids, closure, pending, {})
      decreases |all - closure|, |pending|
    {
      var n := |pending| - 1;
      var identifier := pending[n];
      WorkPops(reach, edges, nodes.Keys, all, ids, closure, pending);
      pending := pending[..n];
      if identifier !in nodes {
        return Err(OmittedNode(identifier));
      }
      EdgesOf(nodes, identifier);
      closure, pending := Expand(nodes[identifier], reach, edges, nodes.Keys, all, ids, closure, pending, identifier);
    }
    return Ok(closure);
  }

  /** The dependencies of one node that are new go to the end of the list. */
  method Expand(
    deps: seq<Dep>, ghost reach: string -> bool, ghost edges: Edges, ghost known: set<string>, ghost all: set<string>,
    ghost ids: set<string>, closure0: set<string>, pending0: seq<string>, ghost identifier: string)
    returns (closure: set<string>, pending: seq<string>)
    requires Working(reach, edges, known, all, ids, closure0, pending0, {identifier}) && Sound(reach, edges, all)
    requires identifier in known && identifier in closure0
    requires forall i :: 0 <= i < |deps| && Normal(deps[i]) ==> (identifier, deps[i].pkg) in edges
    requires forall e :: e in edges && e.0 == identifier ==>
               exists i :: 0 <= i < |deps| && Normal(deps[i]) && deps[i].pkg == e.1
    ensures Working(reach, edges, known, all, ids, closure, pending, {})
    ensures closure0 <= closure && (closure == closure0 ==> pending == pending0)
    ensures |all - closure| < |all - closure0| || closure == closure0
  {
    closure, pending := closure0, pending0;
    for i := 0 to |deps|
      invariant Working(reach, edges, known, all, ids, closure, pending, {identifier})
      invariant closure0 <= closure && (closure == closure0 ==> pending == pending0)
      invariant forall j :: 0 <= j < i && Normal(deps[j]) ==> deps[j].pkg in closure
    {
      if Normal(deps[i]) && deps[i].pkg !in closure {
        WorkPushes(reach, edges, known, all, ids, closure, pending, identifier, deps[i].pkg);
        closure := closure + {deps[i].pkg};
        pending := pending + [deps[i].pkg];
      }
    }
    WorkExpanded(reach, edges, known, all, ids, closure, pending, identifier);
    Shrinks(all, closure0, closure);
  }

  lemma Shrinks(u: set<string>, a: set<string>, b: set<string>)
    requires a <= b <= u
    ensures |u - b| < |u - a| || a == b
  {
    if a != b {
      var x :| x in b && x !in a;
      assert u - b <= u - a - {x};
      Smaller(u - b, u - a - {x});
    }
  }

  lemma {:induction false} Smaller(a: set<string>, b: set<string>)
    requires a <= b
    ensures |a| <= |b|
  {
    if a != {} {
      var x :| x in a;
      Smaller(a - {x}, b - {x});
    }
  }

  /** The comparison of the two sets of names asks whether every root is the name of a package. */
  lemma RootsNamed(packages: Packages, roots: seq<string>)
    ensures (set id | id in RootIds(packages, roots) :: packages[id].name) == (set name | name in roots)
       <==> AllNamed(packages, roots)
  {
    var names := set id | id in RootIds(packages, roots) :: packages[id].name;
    if AllNamed(packages, roots) {
      forall name | name in roots ensures name in names {
        var id :| id in packages && packages[id].name == name;
        assert id in RootIds(packages, roots);
      }
      assert names == (set name | name in roots);
    }
    if names == (set name | name in roots) {
      forall name | name in roots ensures exists id :: id in packages && packages[id].name == name {
        assert name in (set n | n in roots);
        assert name in names;
      }
    }
  }

  /** There is one closure, whatever order the worklist takes. */
  lemma ClosureIsUnique(packages: Packages, nodes: Nodes, roots: seq<string>,
                        a: Result<set<string>, ClosureError>, b: Result<set<string>, ClosureError>)
    requires IsClosure(packages, nodes, roots, a) && IsClosure(packages, nodes, roots, b)
    ensures a.Ok? <==> b.Ok?
    ensures a.Ok? ==> a == b
  {
    if a.Ok? && b.Ok? {
      assert a.value == b.value;
    }
  }
}
