/**
 The union of the inventories of all distribution roots and its exactness checks
 (merge_payloads in scripts/ci/generate_native_dependency_notice.py).
 */
module NoticeUnion {
  import opened Prelude
  import opened Spdx
  import opened SpdxSatisfaction
  import opened NoticeInventory

  /** One root's name and what was read for it. */
  datatype Contribution = Contribution(root: string, inv: Inventory)

  ghost predicate TextsAgree(a: Texts, b: Texts) {
    forall t :: t in a && t in b ==> a[t] == b[t]
  }

  predicate SameRecord(a: Record, b: Record) {
    a.expression == b.expression && a.texts == b.texts
  }

  ghost predicate PackagesAgree(a: Packages, b: Packages) {
    forall k :: k in a && k in b ==> SameRecord(a[k], b[k])
  }

  function JoinPackages(a: Packages, b: Packages): Packages {
    map k | k in a.Keys + b.Keys ::
      if k !in a then b[k] else if k !in b then a[k] else a[k].(roots := a[k].roots + b[k].roots)
  }

  ghost function Join(a: Inventory, b: Inventory): Result<Inventory, Rejection> {
    if !TextsAgree(a.texts, b.texts) then Err(Collision)
    else if !PackagesAgree(a.packages, b.packages) then Err(Disagreement)
    else Ok(Inventory(JoinPackages(a.packages, b.packages), a.texts + b.texts))
  }

  ghost function Union(cs: seq<Contribution>): Result<Inventory, Rejection> {
    if cs == [] then Ok(Inventory(map[], map[]))
    else
      var front := Union(cs[..|cs| - 1]);
      if front.Err? then front else Join(front.value, cs[|cs| - 1].inv)
  }

  /** The loop over one root's texts. */
  method JoinTexts(a: Texts, b: Texts) returns (r: Option<Texts>)
    ensures r.Some? <==> TextsAgree(a, b)
    ensures r.Some? ==> r.value == a + b
  {
    var texts := a;
    var todo := b.Keys;
    while todo != {}
      invariant todo <= b.Keys
      invariant texts.Keys == a.Keys + (b.Keys - todo)
      invariant forall t :: t in a ==> texts[t] == a[t]
      invariant forall t :: t in b && t !in todo ==> texts[t] == b[t]
      decreases todo
    {
      var t :| t in todo;
      if t in texts && texts[t] != b[t] {
        return None;
      }
      texts := texts[t := b[t]];
      todo := todo - {t};
    }
    assert texts == a + b;
    return Some(texts);
  }

  /** The loop over one root's packages. */
  method JoinRecords(a: Packages, b: Packages) returns (r: Option<Packages>)
    ensures r.Some? <==> PackagesAgree(a, b)
    ensures r.Some? ==> r.value == JoinPackages(a, b)
  {
    var packages := a;
    var left := b.Keys;
    while left != {}
      invariant left <= b.Keys
      invariant packages.Keys == a.Keys + (b.Keys - left)
      invariant forall k :: k in left && k in a ==> packages[k] == a[k]
      invariant forall k :: k in packages && k !in left ==> packages[k] == JoinPackages(a, b)[k]
      invariant forall k :: k in a && k in b && k !in left ==> SameRecord(a[k], b[k])
      decreases left
    {
      var k :| k in left;
      var incoming := b[k];
      if k !in packages {
        packages := packages[k := incoming];
      } else {
        var current := packages[k];
        if current.expression != incoming.expression || current.texts != incoming.texts {
          return None;
        }
        packages := packages[k := current.(roots := current.roots + incoming.roots)];
      }
      left := left - {k};
    }
    assert packages == JoinPackages(a, b);
    return Some(packages);
  }

  method JoinInto(a: Inventory, b: Inventory) returns (r: Result<Inventory, Rejection>)
    ensures r == Join(a, b)
  {
    var texts := JoinTexts(a.texts, b.texts);
    if texts.None? {
      return Err(Collision);
    }
    var packages := JoinRecords(a.packages, b.packages);
    if packages.None? {
      return Err(Disagreement);
    }
    return Ok(Inventory(packages.value, texts.value));
  }

  // ---------------------------------------------------------------------------------------
  // What the union contains
  // ---------------------------------------------------------------------------------------

  ghost predicate WellNamed(cs: seq<Contribution>) {
    forall i, k :: 0 <= i < |cs| && k in cs[i].inv.packages ==> cs[i].inv.packages[k].roots == {cs[i].root}
  }

  /** The roots that contribute package `k`. */
  function RootsWith(cs: seq<Contribution>, k: PackageKey): set<string> {
    set i | 0 <= i < |cs| && k in cs[i].inv.packages :: cs[i].root
  }

  /** A package of the union comes from some contribution. */
  lemma {:induction false} PackageFrom(cs: seq<Contribution>, k: PackageKey) returns (i: nat)
    requires Union(cs).Ok? && k in Union(cs).value.packages
    ensures i < |cs| && k in cs[i].inv.packages
    decreases |cs|
  {
    var n := |cs| - 1;
    if k in cs[n].inv.packages {
      i := n;
    } else {
      i := PackageFrom(cs[..n], k);
    }
  }

  lemma {:induction false} TextFrom(cs: seq<Contribution>, t: TextKey) returns (i: nat)
    requires Union(cs).Ok? && t in Union(cs).value.texts
    ensures i < |cs| && t in cs[i].inv.texts
    decreases |cs|
  {
    var n := |cs| - 1;
    if t in cs[n].inv.texts {
      i := n;
    } else {
      i := TextFrom(cs[..n], t);
    }
  }

  lemma RootsStep(cs: seq<Contribution>, k: PackageKey)
    requires cs != []
    ensures RootsWith(cs, k) == RootsWith(cs[..|cs| - 1], k)
              + if k in cs[|cs| - 1].inv.packages then {cs[|cs| - 1].root} else {}
  {
    var n := |cs| - 1;
    var front := cs[..n];
    forall r | r in RootsWith(cs, k)
      ensures r in RootsWith(front, k) || (k in cs[n].inv.packages && r == cs[n].root)
    {
      var i :| 0 <= i < |cs| && k in cs[i].inv.packages && cs[i].root == r;
      if i < n { assert front[i] == cs[i]; }
    }
    forall r | r in RootsWith(front, k) ensures r in RootsWith(cs, k) {
      var i :| 0 <= i < n && k in front[i].inv.packages && front[i].root == r;
      assert cs[i] == front[i];
    }
  }

  /** What a join makes of one package. */
  lemma JoinedPackage(a: Packages, b: Packages, k: PackageKey)
    requires PackagesAgree(a, b) && (k in a || k in b)
    ensures k in JoinPackages(a, b)
    ensures k in a ==> SameRecord(JoinPackages(a, b)[k], a[k])
    ensures k in b ==> SameRecord(JoinPackages(a, b)[k], b[k])
    ensures JoinPackages(a, b)[k].roots == (if k in a then a[k].roots else {}) + if k in b then b[k].roots else {}
  {
  }

  lemma UnionStep(cs: seq<Contribution>)
    requires cs != [] && Union(cs).Ok?
    ensures var front, last := Union(cs[..|cs| - 1]), cs[|cs| - 1].inv;
            && front.Ok? && PackagesAgree(front.value.packages, last.packages)
            && Union(cs).value.packages == JoinPackages(front.value.packages, last.packages)
  {
  }

  lemma WellNamedFront(cs: seq<Contribution>)
    requires cs != [] && WellNamed(cs)
    ensures WellNamed(cs[..|cs| - 1])
  {
    var front := cs[..|cs| - 1];
    forall i, k | 0 <= i < |front| && k in front[i].inv.packages ensures front[i].inv.packages[k].roots == {front[i].root} {
      assert front[i] == cs[i];
    }
  }

  /** A package of the union has exactly its contributors as roots. */
  lemma {:induction false} UnionRoots(cs: seq<Contribution>, k: PackageKey)
    requires WellNamed(cs) && Union(cs).Ok?
    ensures k in Union(cs).value.packages ==> Union(cs).value.packages[k].roots == RootsWith(cs, k)
    ensures k !in Union(cs).value.packages ==> RootsWith(cs, k) == {}
    decreases |cs|
  {
    if cs != [] {
      var front, last := Union(cs[..|cs| - 1]).value.packages, cs[|cs| - 1].inv.packages;
      UnionStep(cs);
      WellNamedFront(cs);
      UnionRoots(cs[..|cs| - 1], k);
      RootsStep(cs, k);
      assert k in last ==> last[k].roots == {cs[|cs| - 1].root};
      if k in front || k in last {
        JoinedPackage(front, last, k);
      }
    }
  }

  lemma {:induction false} UnionRecord(cs: seq<Contribution>, i: nat, k: PackageKey)
    requires Union(cs).Ok? && i < |cs| && k in cs[i].inv.packages
    ensures k in Union(cs).value.packages && SameRecord(Union(cs).value.packages[k], cs[i].inv.packages[k])
    decreases |cs|
  {
    var n := |cs| - 1;
    UnionStep(cs);
    if i < n {
      assert cs[..n][i] == cs[i];
      UnionRecord(cs[..n], i, k);
    }
    JoinedPackage(Union(cs[..n]).value.packages, cs[n].inv.packages, k);
  }

  /** A package of the union has exactly its contributors as roots, and their common record. */
  lemma UnionPackage(cs: seq<Contribution>, i: nat, k: PackageKey)
    requires WellNamed(cs) && Union(cs).Ok? && i < |cs| && k in cs[i].inv.packages
    ensures k in Union(cs).value.packages
    ensures SameRecord(Union(cs).value.packages[k], cs[i].inv.packages[k])
    ensures Union(cs).value.packages[k].roots == RootsWith(cs, k)
  {
    UnionRecord(cs, i, k);
    UnionRoots(cs, k);
  }

  lemma {:induction false} UnionText(cs: seq<Contribution>, i: nat, t: TextKey)
    requires Union(cs).Ok? && i < |cs| && t in cs[i].inv.texts
    ensures t in Union(cs).value.texts && Union(cs).value.texts[t] == cs[i].inv.texts[t]
    decreases |cs|
  {
    var n := |cs| - 1;
    if i < n {
      assert cs[..n][i] == cs[i];
      UnionText(cs[..n], i, t);
    }
  }

  ghost predicate AllAgree(cs: seq<Contribution>) {
    forall i, j :: 0 <= i < j < |cs| ==>
      TextsAgree(cs[i].inv.texts, cs[j].inv.texts) && PackagesAgree(cs[i].inv.packages, cs[j].inv.packages)
  }

  /** The union exists exactly when the roots agree pairwise. */
  lemma {:induction false} UnionExistsIffAgreed(cs: seq<Contribution>)
    ensures Union(cs).Ok? <==> AllAgree(cs)
    decreases |cs|
  {
    if cs != [] {
      var n := |cs| - 1;
      var front := cs[..n];
      UnionExistsIffAgreed(front);
      if Union(front).Ok? {
        JoinAgrees(cs);
      } else {
        AllAgreeFront(cs);
      }
    }
  }

  lemma JoinAgrees(cs: seq<Contribution>)
    requires cs != [] && Union(cs[..|cs| - 1]).Ok? && AllAgree(cs[..|cs| - 1])
    ensures var u, last := Union(cs[..|cs| - 1]).value, cs[|cs| - 1].inv;
            (TextsAgree(u.texts, last.texts) && PackagesAgree(u.packages, last.packages)) <==> AllAgree(cs)
  {
    var n := |cs| - 1;
    var front, last := cs[..n], cs[n].inv;
    var u := Union(front).value;
    if TextsAgree(u.texts, last.texts) && PackagesAgree(u.packages, last.packages) {
      forall i | 0 <= i < n
        ensures TextsAgree(cs[i].inv.texts, last.texts) && PackagesAgree(cs[i].inv.packages, last.packages)
      {
        assert front[i] == cs[i];
        PartAgrees(front, i, last);
      }
      AllAgreeGrows(cs);
    }
    if AllAgree(cs) {
      forall i | 0 <= i < n
        ensures TextsAgree(front[i].inv.texts, last.texts) && PackagesAgree(front[i].inv.packages, last.packages)
      {
        assert front[i] == cs[i];
      }
      UnionAgrees(front, last);
    }
  }

  /** What agrees with the union agrees with every part of it. */
  lemma PartAgrees(cs: seq<Contribution>, i: nat, last: Inventory)
    requires Union(cs).Ok? && i < |cs|
    requires TextsAgree(Union(cs).value.texts, last.texts) && PackagesAgree(Union(cs).value.packages, last.packages)
    ensures TextsAgree(cs[i].inv.texts, last.texts) && PackagesAgree(cs[i].inv.packages, last.packages)
  {
    forall t | t in cs[i].inv.texts && t in last.texts ensures cs[i].inv.texts[t] == last.texts[t] {
      UnionText(cs, i, t);
    }
    forall k | k in cs[i].inv.packages && k in last.packages
      ensures SameRecord(cs[i].inv.packages[k], last.packages[k])
    {
      UnionRecord(cs, i, k);
    }
  }

  /** What agrees with every part agrees with the union. */
  lemma UnionAgrees(cs: seq<Contribution>, last: Inventory)
    requires Union(cs).Ok?
    requires forall i :: 0 <= i < |cs| ==>
               TextsAgree(cs[i].inv.texts, last.texts) && PackagesAgree(cs[i].inv.packages, last.packages)
    ensures TextsAgree(Union(cs).value.texts, last.texts) && PackagesAgree(Union(cs).value.packages, last.packages)
  {
    var u := Union(cs).value;
    forall t | t in u.texts && t in last.texts ensures u.texts[t] == last.texts[t] {
      var i := TextFrom(cs, t);
      UnionText(cs, i, t);
    }
    forall k | k in u.packages && k in last.packages ensures SameRecord(u.packages[k], last.packages[k]) {
      var i := PackageFrom(cs, k);
      UnionRecord(cs, i, k);
    }
  }

  lemma AllAgreeFront(cs: seq<Contribution>)
    requires cs != []
    ensures AllAgree(cs) ==> AllAgree(cs[..|cs| - 1])
  {
    var front := cs[..|cs| - 1];
    assert forall j :: 0 <= j < |front| ==> front[j] == cs[j];
  }

  lemma AllAgreeGrows(cs: seq<Contribution>)
    requires cs != [] && AllAgree(cs[..|cs| - 1])
    requires var n := |cs| - 1;
             forall i :: 0 <= i < n ==>
               TextsAgree(cs[i].inv.texts, cs[n].inv.texts) && PackagesAgree(cs[i].inv.packages, cs[n].inv.packages)
    ensures AllAgree(cs)
  {
    var front := cs[..|cs| - 1];
    forall i, j | 0 <= i < j < |cs|
      ensures TextsAgree(cs[i].inv.texts, cs[j].inv.texts) && PackagesAgree(cs[i].inv.packages, cs[j].inv.packages)
    {
      if j < |cs| - 1 {
        assert front[i] == cs[i] && front[j] == cs[j];
      }
    }
  }

  /** If every contribution lists exactly the texts it uses, so does the union. */
  lemma UnionIsReferenced(cs: seq<Contribution>)
    requires Union(cs).Ok? && forall i :: 0 <= i < |cs| ==> Referenced(cs[i].inv)
    ensures Referenced(Union(cs).value)
  {
    var u := Union(cs).value;
    forall t | t in u.texts ensures exists k :: k in u.packages && t in u.packages[k].texts {
      var i := TextFrom(cs, t);
      assert Referenced(cs[i].inv);
      var k :| k in cs[i].inv.packages && t in cs[i].inv.packages[k].texts;
      UnionRecord(cs, i, k);
    }
    forall t, k | k in u.packages && t in u.packages[k].texts ensures t in u.texts {
      var i := PackageFrom(cs, k);
      UnionRecord(cs, i, k);
      assert Referenced(cs[i].inv);
      UnionText(cs, i, t);
    }
  }

  // ---------------------------------------------------------------------------------------
  // Reading all roots, and the checks on the union
  // ---------------------------------------------------------------------------------------

  type Reader = string -> Result<Inventory, Rejection>

  /** How a root is read: its payload must be there and be accepted. */
  function ReaderOf(payloads: map<string, Payload>, parse: Parser, allowed: set<string>, digest: Digest): Reader {
    root => if root in payloads then ReadPayload(payloads[root], root, parse, allowed, digest) else Err(MissingRoot)
  }

  /** The contributions of all roots, in order. */
  ghost function GatherWith(roots: seq<string>, read: Reader): Result<seq<Contribution>, Rejection> {
    if roots == [] then Ok([])
    else
      var front := GatherWith(roots[..|roots| - 1], read);
      var root := roots[|roots| - 1];
      if front.Err? then front
      else if read(root).Err? then Err(read(root).error)
      else Ok(front.value + [Contribution(root, read(root).value)])
  }

  ghost function Gather(roots: seq<string>, payloads: map<string, Payload>, parse: Parser, allowed: set<string>, digest: Digest)
    : Result<seq<Contribution>, Rejection>
  {
    GatherWith(roots, ReaderOf(payloads, parse, allowed, digest))
  }

  /** The selected texts of a package. */
  function Selected(r: Record, texts: Texts): set<Selection> {
    set t | t in r.texts && t in texts :: Selection(t, texts[t])
  }

  predicate PackageSatisfied(r: Record, texts: Texts, parse: Parser) {
    var node := parse(r.expression);
    node.Some? && Satisfied(node.value, Selected(r, texts))
  }

  /** The policy entry is an atom of the package's expression and satisfied by its texts. */
  predicate UsesEntry(r: Record, texts: Texts, parse: Parser, entry: Atom) {
    var node := parse(r.expression);
    node.Some? && entry in Atoms(node.value) && AtomSatisfied(entry, Selected(r, texts))
  }

  ghost predicate EverySatisfied(inv: Inventory, parse: Parser) {
    forall k :: k in inv.packages ==> PackageSatisfied(inv.packages[k], inv.texts, parse)
  }

  ghost predicate NoStaleEntry(inv: Inventory, parse: Parser, accepted: seq<Atom>) {
    forall e :: e in accepted ==> UsedIn(inv, inv.packages.Keys, parse, e)
  }

  /** The license ids the policy lets cargo-about select. */
  function AllowedIds(accepted: seq<Atom>): set<string> {
    set i | 0 <= i < |accepted| :: accepted[i].license
  }

  /** Gathering and folding in one go: the union of all roots, or why there is none. */
  ghost function UnionOfRoots(roots: seq<string>, payloads: map<string, Payload>, parse: Parser, allowed: set<string>, digest: Digest)
    : Option<Inventory>
  {
    var g := Gather(roots, payloads, parse, allowed, digest);
    if g.Err? || Union(g.value).Err? then None else Some(Union(g.value).value)
  }

  method UniteRoots(roots: seq<string>, payloads: map<string, Payload>, parse: Parser, allowed: set<string>, digest: Digest)
    returns (r: Result<Inventory, Rejection>)
    ensures r.Ok? <==> UnionOfRoots(roots, payloads, parse, allowed, digest).Some?
    ensures r.Ok? ==> UnionOfRoots(roots, payloads, parse, allowed, digest) == Some(r.value)
  {
    var union := Inventory(map[], map[]);
    ghost var cs: seq<Contribution> := [];
    ghost var read := ReaderOf(payloads, parse, allowed, digest);
    for n := 0 to |roots|
      invariant GatherWith(roots[..n], read) == Ok(cs)
      invariant Union(cs) == Ok(union)
    {
      ReaderReads(payloads, parse, allowed, digest, roots[n]);
      GatherNext(roots, n, read, cs);
      if roots[n] !in payloads {
        return Err(MissingRoot);
      }
      var inv := ParsePayload(payloads[roots[n]], roots[n], parse, allowed, digest);
      if inv.Err? {
        return Err(inv.error);
      }
      var joined := JoinInto(union, inv.value);
      if joined.Err? {
        return Err(joined.error);
      }
      cs := cs + [Contribution(roots[n], inv.value)];
      union := joined.value;
    }
    assert roots[..|roots|] == roots;
    return Ok(union);
  }

  lemma ReaderReads(payloads: map<string, Payload>, parse: Parser, allowed: set<string>, digest: Digest, root: string)
    ensures ReaderOf(payloads, parse, allowed, digest)(root) ==
            if root in payloads then ReadPayload(payloads[root], root, parse, allowed, digest) else Err(MissingRoot)
  {
  }

  /** What reading one more root does to the gathered contributions, and that a failure is final. */
  lemma GatherNext(roots: seq<string>, n: nat, read: Reader, cs: seq<Contribution>)
    requires n < |roots| && GatherWith(roots[..n], read) == Ok(cs) && Union(cs).Ok?
    ensures read(roots[n]).Err? ==> GatherWith(roots, read).Err?
    ensures read(roots[n]).Ok? ==>
              var more, joined := cs + [Contribution(roots[n], read(roots[n]).value)], Join(Union(cs).value, read(roots[n]).value);
              && GatherWith(roots[..n + 1], read) == Ok(more) && Union(more) == joined
              && (joined.Err? ==> var g := GatherWith(roots, read); g.Err? || Union(g.value).Err?)
  {
    assert roots[..n + 1][..n] == roots[..n];
    if read(roots[n]).Err? {
      GatherStops(roots, n + 1, read);
    } else {
      var more := cs + [Contribution(roots[n], read(roots[n]).value)];
      assert more[..|more| - 1] == cs;
      if Union(more).Err? {
        GatherThenUnionStops(roots, n + 1, read);
      }
    }
  }

  /** Every package is satisfied, and every policy entry is needed by some package. */
  method CheckUnion(union: Inventory, parse: Parser, accepted: seq<Atom>) returns (complaint: Option<Rejection>)
    ensures complaint.None? <==> EverySatisfied(union, parse) && NoStaleEntry(union, parse, accepted)
  {
    var used: set<Atom> := {};
    var todo := union.packages.Keys;
    while todo != {}
      invariant todo <= union.packages.Keys
      invariant forall k :: k in union.packages && k !in todo ==> PackageSatisfied(union.packages[k], union.texts, parse)
      invariant forall e :: e in accepted ==> (e in used <==> UsedIn(union, union.packages.Keys - todo, parse, e))
      decreases todo
    {
      var k :| k in todo;
      var record := union.packages[k];
      if !PackageSatisfied(record, union.texts, parse) {
        return Some(Unsatisfied);
      }
      var newly := set e | e in accepted && UsesEntry(record, union.texts, parse, e);
      UsedInStep(union, todo, parse, accepted, used, newly, k);
      used := used + newly;
      todo := todo - {k};
    }
    assert union.packages.Keys - todo == union.packages.Keys;
    var stale := SomeStale(accepted, used);
    return if stale then Some(StalePolicy) else None;
  }

  method SomeStale(accepted: seq<Atom>, used: set<Atom>) returns (stale: bool)
    ensures stale <==> exists e :: e in accepted && e !in used
  {
    for i := 0 to |accepted|
      invariant forall j :: 0 <= j < i ==> accepted[j] in used
    {
      if accepted[i] !in used {
        return true;
      }
    }
    return false;
  }

  ghost predicate UsedIn(inv: Inventory, keys: set<PackageKey>, parse: Parser, e: Atom) {
    exists k :: k in keys && k in inv.packages && UsesEntry(inv.packages[k], inv.texts, parse, e)
  }

  /** The entries the packages outside `todo` use, when `k` leaves it. */
  lemma UsedInStep(
    inv: Inventory, todo: set<PackageKey>, parse: Parser, accepted: seq<Atom>, used: set<Atom>, newly: set<Atom>, k: PackageKey)
    requires k in inv.packages && k in todo
    requires forall e :: e in accepted ==> (e in used <==> UsedIn(inv, inv.packages.Keys - todo, parse, e))
    requires forall e :: e in accepted ==> (e in newly <==> UsesEntry(inv.packages[k], inv.texts, parse, e))
    ensures forall e :: e in accepted ==> (e in used + newly <==> UsedIn(inv, inv.packages.Keys - (todo - {k}), parse, e))
  {
    forall e | e in accepted ensures e in used + newly <==> UsedIn(inv, inv.packages.Keys - (todo - {k}), parse, e) {
      UsedInMore(inv, todo, parse, e, k);
    }
  }

  lemma UsedInMore(inv: Inventory, todo: set<PackageKey>, parse: Parser, e: Atom, k: PackageKey)
    requires k in inv.packages && k in todo
    ensures UsedIn(inv, inv.packages.Keys - (todo - {k}), parse, e) <==>
            UsedIn(inv, inv.packages.Keys - todo, parse, e) || UsesEntry(inv.packages[k], inv.texts, parse, e)
  {
  }

  /** Accepted exactly when all roots are read and agree, every package is satisfied and no entry is stale. */
  method MergePayloads(roots: seq<string>, payloads: map<string, Payload>, parse: Parser, accepted: seq<Atom>, digest: Digest)
    returns (r: Result<Inventory, Rejection>)
    ensures var u := UnionOfRoots(roots, payloads, parse, AllowedIds(accepted), digest);
            && (r.Ok? <==> u.Some? && EverySatisfied(u.value, parse) && NoStaleEntry(u.value, parse, accepted))
            && (r.Ok? ==> r.value == u.value)
  {
    r := UniteRoots(roots, payloads, parse, AllowedIds(accepted), digest);
    if r.Ok? {
      var complaint := CheckUnion(r.value, parse, accepted);
      if complaint.Some? {
        return Err(complaint.value);
      }
    }
  }

  lemma {:induction false} GatherStops(roots: seq<string>, n: nat, read: Reader)
    requires n <= |roots| && GatherWith(roots[..n], read).Err?
    ensures GatherWith(roots, read).Err?
    decreases |roots| - n
  {
    if n < |roots| {
      assert roots[..n + 1][..n] == roots[..n];
      GatherStops(roots, n + 1, read);
    } else {
      assert roots[..n] == roots;
    }
  }

  lemma {:induction false} GatherThenUnionStops(roots: seq<string>, n: nat, read: Reader)
    requires n <= |roots|
    requires var g := GatherWith(roots[..n], read); g.Ok? && Union(g.value).Err?
    ensures var g := GatherWith(roots, read); g.Err? || Union(g.value).Err?
    decreases |roots| - n
  {
    if n < |roots| {
      assert roots[..n + 1][..n] == roots[..n];
      var g := GatherWith(roots[..n], read);
      var h := GatherWith(roots[..n + 1], read);
      if h.Ok? {
        assert h.value[..|h.value| - 1] == g.value;
        GatherThenUnionStops(roots, n + 1, read);
      } else {
        GatherStops(roots, n + 1, read);
      }
    } else {
      assert roots[..n] == roots;
    }
  }

  /** Every root was read, in order, and what it contributes is exactly its inventory. */
  lemma {:induction false} GatheredWith(roots: seq<string>, read: Reader, i: nat)
    requires GatherWith(roots, read).Ok? && i < |roots|
    ensures var cs := GatherWith(roots, read).value;
            |cs| == |roots| && cs[i].root == roots[i] && read(roots[i]) == Ok(cs[i].inv)
  {
    var n := |roots| - 1;
    if n > 0 {
      GatheredWith(roots[..n], read, if i < n then i else 0);
    }
  }

  lemma GatheredAre(
    roots: seq<string>, payloads: map<string, Payload>, parse: Parser, allowed: set<string>, digest: Digest, i: nat)
    requires Gather(roots, payloads, parse, allowed, digest).Ok? && i < |roots|
    ensures var cs := Gather(roots, payloads, parse, allowed, digest).value;
            && |cs| == |roots| && cs[i].root == roots[i] && roots[i] in payloads
            && ReadPayload(payloads[roots[i]], roots[i], parse, allowed, digest) == Ok(cs[i].inv)
  {
    GatheredWith(roots, ReaderOf(payloads, parse, allowed, digest), i);
  }

  /** What is promised of an accepted merge, in terms of the payloads alone. */
  ghost predicate ExactUnion(roots: seq<string>, payloads: map<string, Payload>, digest: Digest, u: Inventory)
    requires forall r :: r in roots ==> r in payloads
  {
    && (forall k :: k in u.packages <==> exists r :: r in roots && k in Keys(payloads[r].crates))
    && (forall k :: k in u.packages ==>
          u.packages[k].roots == set r | r in roots && k in Keys(payloads[r].crates))
    && (forall r, i :: r in roots && 0 <= i < |payloads[r].crates| ==>
          RecordFor(u.packages, payloads[r].crates[i], TextsFor(payloads[r].licenses, payloads[r].crates[i].id, digest)))
    && Referenced(u)
    && (forall r, i :: r in roots && 0 <= i < |payloads[r].licenses| ==> HoldsText(u.texts, payloads[r].licenses[i], digest))
    && (forall t :: t in u.texts ==> exists r :: r in roots && t in TextKeys(payloads[r].licenses, digest))
  }

  /** The bytes behind a text key are those of the row that selected it. */
  predicate HoldsText(texts: Texts, row: LicenseRow, digest: Digest) {
    KeyOf(row, digest) in texts && texts[KeyOf(row, digest)] == Normalize(row.text)
  }

  ghost predicate RecordFor(packages: Packages, c: Crate, texts: set<TextKey>) {
    c.key in packages && packages[c.key].expression == c.expression && packages[c.key].texts == texts
  }

  lemma ReadIsNamed(p: Payload, root: string, parse: Parser, allowed: set<string>, digest: Digest, k: PackageKey)
    requires ReadPayload(p, root, parse, allowed, digest).Ok? && k in ReadPayload(p, root, parse, allowed, digest).value.packages
    ensures ReadPayload(p, root, parse, allowed, digest).value.packages[k].roots == {root}
  {
    PayloadIsRead(p, root, parse, allowed, digest);
    var inv := ReadPayload(p, root, parse, allowed, digest).value;
    NamedByInventory(p, root, digest, inv, k);
  }

  lemma NamedByInventory(p: Payload, root: string, digest: Digest, inv: Inventory, k: PackageKey)
    requires IsInventory(p, root, digest, inv) && k in inv.packages
    ensures inv.packages[k].roots == {root}
  {
    var i :| 0 <= i < |p.crates| && p.crates[i].key == k;
  }

  /** Facts about the gathered contributions, one root at a time. */
  lemma GatheredFacts(
    roots: seq<string>, payloads: map<string, Payload>, parse: Parser, allowed: set<string>, digest: Digest)
    requires Gather(roots, payloads, parse, allowed, digest).Ok?
    ensures var cs := Gather(roots, payloads, parse, allowed, digest).value;
            && (roots != [] ==> |cs| == |roots|) && WellNamed(cs)
            && (forall i :: 0 <= i < |cs| ==> Referenced(cs[i].inv))
  {
    var cs := Gather(roots, payloads, parse, allowed, digest).value;
    if roots != [] { GatheredAre(roots, payloads, parse, allowed, digest, 0); }
    forall i, k | 0 <= i < |cs| && k in cs[i].inv.packages ensures cs[i].inv.packages[k].roots == {cs[i].root} {
      GatheredAre(roots, payloads, parse, allowed, digest, i);
      ReadIsNamed(payloads[roots[i]], roots[i], parse, allowed, digest, k);
    }
    forall i | 0 <= i < |cs| ensures Referenced(cs[i].inv) {
      GatheredAre(roots, payloads, parse, allowed, digest, i);
      AcceptedIsReferenced(payloads[roots[i]], roots[i], parse, allowed, digest);
    }
  }

  lemma GatheredInventory(
    roots: seq<string>, payloads: map<string, Payload>, parse: Parser, allowed: set<string>, digest: Digest, i: nat)
    requires Gather(roots, payloads, parse, allowed, digest).Ok? && i < |roots|
    ensures var cs := Gather(roots, payloads, parse, allowed, digest).value;
            |cs| == |roots| && roots[i] in payloads && cs[i].root == roots[i]
            && IsInventory(payloads[roots[i]], roots[i], digest, cs[i].inv)
  {
    GatheredAre(roots, payloads, parse, allowed, digest, i);
    PayloadIsRead(payloads[roots[i]], roots[i], parse, allowed, digest);
  }

  /** An accepted merge is the exact union: packages, root sets, records and texts. */
  lemma MergeIsExactUnion(
    roots: seq<string>, payloads: map<string, Payload>, parse: Parser, allowed: set<string>, digest: Digest)
    requires Gather(roots, payloads, parse, allowed, digest).Ok?
    requires Union(Gather(roots, payloads, parse, allowed, digest).value).Ok?
    ensures forall r :: r in roots ==> r in payloads
    ensures ExactUnion(roots, payloads, digest, Union(Gather(roots, payloads, parse, allowed, digest).value).value)
  {
    var cs := Gather(roots, payloads, parse, allowed, digest).value;
    var u := Union(cs).value;
    forall r | r in roots ensures r in payloads {
      var i :| 0 <= i < |roots| && roots[i] == r;
      GatheredAre(roots, payloads, parse, allowed, digest, i);
    }
    forall i | 0 <= i < |roots|
      ensures |cs| == |roots| && cs[i].root == roots[i] && IsInventory(payloads[roots[i]], roots[i], digest, cs[i].inv)
    {
      GatheredInventory(roots, payloads, parse, allowed, digest, i);
    }
    GatheredFacts(roots, payloads, parse, allowed, digest);
    UnionIsReferenced(cs);
    ContributionsGiveUnion(roots, payloads, digest, cs, u);
  }

  lemma ContributionsGiveUnion(
    roots: seq<string>, payloads: map<string, Payload>, digest: Digest, cs: seq<Contribution>, u: Inventory)
    requires forall r :: r in roots ==> r in payloads
    requires |cs| == |roots| && WellNamed(cs) && Union(cs) == Ok(u) && Referenced(u)
    requires forall i :: 0 <= i < |roots| ==>
               cs[i].root == roots[i] && IsInventory(payloads[roots[i]], roots[i], digest, cs[i].inv)
    ensures ExactUnion(roots, payloads, digest, u)
  {
    forall k ensures k in u.packages <==> exists r :: r in roots && k in Keys(payloads[r].crates) {
      PackagesAre(roots, payloads, cs, u, k);
    }
    forall k | k in u.packages
      ensures u.packages[k].roots == set r | r in roots && k in Keys(payloads[r].crates)
    {
      UnionRoots(cs, k);
      ContributorsAre(roots, payloads, cs, k);
    }
    forall r, i | r in roots && 0 <= i < |payloads[r].crates|
      ensures RecordFor(u.packages, payloads[r].crates[i], TextsFor(payloads[r].licenses, payloads[r].crates[i].id, digest))
    {
      var n :| 0 <= n < |roots| && roots[n] == r;
      UnionRecord(cs, n, payloads[r].crates[i].key);
    }
    ContributionsGiveTexts(roots, payloads, digest, cs, u);
  }

  lemma PackagesAre(roots: seq<string>, payloads: map<string, Payload>, cs: seq<Contribution>, u: Inventory, k: PackageKey)
    requires forall r :: r in roots ==> r in payloads
    requires |cs| == |roots| && Union(cs) == Ok(u)
    requires forall i :: 0 <= i < |roots| ==> cs[i].inv.packages.Keys == Keys(payloads[roots[i]].crates)
    ensures k in u.packages <==> exists r :: r in roots && k in Keys(payloads[r].crates)
  {
    if k in u.packages {
      var i := PackageFrom(cs, k);
      assert roots[i] in roots && k in Keys(payloads[roots[i]].crates);
    }
    forall r | r in roots && k in Keys(payloads[r].crates) ensures k in u.packages {
      var i :| 0 <= i < |roots| && roots[i] == r;
      UnionRecord(cs, i, k);
    }
  }

  lemma ContributionsGiveTexts(
    roots: seq<string>, payloads: map<string, Payload>, digest: Digest, cs: seq<Contribution>, u: Inventory)
    requires forall r :: r in roots ==> r in payloads
    requires |cs| == |roots| && Union(cs) == Ok(u)
    requires forall i :: 0 <= i < |roots| ==>
               cs[i].root == roots[i] && IsInventory(payloads[roots[i]], roots[i], digest, cs[i].inv)
    ensures forall r, i :: r in roots && 0 <= i < |payloads[r].licenses| ==> HoldsText(u.texts, payloads[r].licenses[i], digest)
    ensures forall t :: t in u.texts ==> exists r :: r in roots && t in TextKeys(payloads[r].licenses, digest)
  {
    forall r, i | r in roots && 0 <= i < |payloads[r].licenses| ensures HoldsText(u.texts, payloads[r].licenses[i], digest) {
      var n :| 0 <= n < |roots| && roots[n] == r;
      RowIsHeld(cs, u, n, payloads[r].licenses, digest, i);
    }
    forall t | t in u.texts ensures exists r :: r in roots && t in TextKeys(payloads[r].licenses, digest) {
      var n := TextFrom(cs, t);
      assert roots[n] in roots && t in TextKeys(payloads[roots[n]].licenses, digest);
    }
  }

  lemma RowIsHeld(cs: seq<Contribution>, u: Inventory, n: nat, rows: seq<LicenseRow>, digest: Digest, i: nat)
    requires Union(cs) == Ok(u) && n < |cs| && TextsOf(rows, digest, cs[n].inv.texts) && i < |rows|
    ensures HoldsText(u.texts, rows[i], digest)
  {
    UnionText(cs, n, KeyOf(rows[i], digest));
  }

  lemma ContributorsAre(roots: seq<string>, payloads: map<string, Payload>, cs: seq<Contribution>, k: PackageKey)
    requires forall r :: r in roots ==> r in payloads
    requires |cs| == |roots|
    requires forall i :: 0 <= i < |roots| ==>
               cs[i].root == roots[i] && cs[i].inv.packages.Keys == Keys(payloads[roots[i]].crates)
    ensures RootsWith(cs, k) == set r | r in roots && k in Keys(payloads[r].crates)
  {
    var stated := set r | r in roots && k in Keys(payloads[r].crates);
    forall r | r in RootsWith(cs, k) ensures r in stated {
      var j :| 0 <= j < |cs| && k in cs[j].inv.packages && cs[j].root == r;
      assert roots[j] in roots;
    }
    forall r | r in stated ensures r in RootsWith(cs, k) {
      var j :| 0 <= j < |roots| && roots[j] == r;
      assert k in cs[j].inv.packages;
    }
  }

  /** In an accepted merge each package's texts satisfy some clause of its expression's normal form. */
  lemma SatisfiedPackageHasClause(u: Inventory, parse: Parser, k: PackageKey)
    requires EverySatisfied(u, parse) && k in u.packages
    ensures parse(u.packages[k].expression).Some?
    ensures exists c :: c in Dnf(parse(u.packages[k].expression).value)
                        && ClauseSatisfied(c, Selected(u.packages[k], u.texts))
  {
    assert PackageSatisfied(u.packages[k], u.texts, parse);
    SatisfiedIffSomeClause(parse(u.packages[k].expression).value, Selected(u.packages[k], u.texts));
  }

  /** The four native distribution roots, in the order they are merged. */
  const ROOTS := ["Python", "Node", "CLI", "C"]

  /** What an accepted set of four payloads guarantees, all together. */
  lemma AcceptedMergeIsExact(payloads: map<string, Payload>, accepted: seq<Atom>, digest: Digest, u: Inventory)
    requires UnionOfRoots(ROOTS, payloads, ParseExpression, AllowedIds(accepted), digest) == Some(u)
    requires EverySatisfied(u, ParseExpression)
    ensures forall r :: r in ROOTS ==> r in payloads
    ensures ExactUnion(ROOTS, payloads, digest, u)
    ensures forall k :: k in u.packages ==>
              && ParseExpression(u.packages[k].expression).Some?
              && exists c :: c in Dnf(ParseExpression(u.packages[k].expression).value)
                             && ClauseSatisfied(c, Selected(u.packages[k], u.texts))
  {
    MergeIsExactUnion(ROOTS, payloads, ParseExpression, AllowedIds(accepted), digest);
    forall k | k in u.packages
      ensures ParseExpression(u.packages[k].expression).Some?
      ensures exists c :: c in Dnf(ParseExpression(u.packages[k].expression).value)
                          && ClauseSatisfied(c, Selected(u.packages[k], u.texts))
    {
      SatisfiedPackageHasClause(u, ParseExpression, k);
    }
  }
}
