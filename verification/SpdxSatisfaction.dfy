/**
 When selected license texts satisfy an SPDX expression
 (scripts/ci/generate_native_dependency_notice.py), against disjunctive normal form.
 */
module SpdxSatisfaction {
  import opened Prelude
  import opened Text
  import opened Spdx

  datatype TextKey = TextKey(license: string, digest: string)

  datatype Selection = Selection(key: TextKey, text: string)

  datatype Atom = Atom(license: Token, exception: Option<Token>)

  /** The notice-text markers known for each license exception. */
  const EXCEPTION_MARKERS: map<string, seq<string>> :=
    map["LLVM-exception" := ["LLVM Exceptions to the Apache 2.0 License"]]

  predicate MarkersIn(exception: Token, text: string) {
    && exception in EXCEPTION_MARKERS
    && forall i :: 0 <= i < |EXCEPTION_MARKERS[exception]| ==> Contains(text, EXCEPTION_MARKERS[exception][i])
  }

  predicate Supports(atom: Atom, s: Selection) {
    s.key.license == atom.license && (atom.exception.None? || MarkersIn(atom.exception.value, s.text))
  }

  predicate AtomSatisfied(atom: Atom, selected: set<Selection>) {
    exists s :: s in selected && Supports(atom, s)
  }

  method AtomIsSatisfied(atom: Atom, selected: seq<Selection>) returns (r: bool)
    ensures r == AtomSatisfied(atom, set s | s in selected)
  {
    for i := 0 to |selected|
      invariant forall k :: 0 <= k < i ==> !Supports(atom, selected[k])
    {
      assert selected[i] in selected;
      if selected[i].key.license != atom.license {
        continue;
      }
      if atom.exception.None? {
        assert Supports(atom, selected[i]);
        return true;
      }
      if MarkersIn(atom.exception.value, selected[i].text) {
        assert Supports(atom, selected[i]);
        return true;
      }
    }
    return false;
  }

  function Satisfied(n: Node, selected: set<Selection>): bool {
    match n
    case License(id) => AtomSatisfied(Atom(id, None), selected)
    case With(id, e) => AtomSatisfied(Atom(id, Some(e)), selected)
    case And(l, r) => Satisfied(l, selected) && Satisfied(r, selected)
    case Or(l, r) => Satisfied(l, selected) || Satisfied(r, selected)
  }

  /** The atoms of an expression, left to right. */
  function Atoms(n: Node): seq<Atom> {
    match n
    case License(id) => [Atom(id, None)]
    case With(id, e) => [Atom(id, Some(e))]
    case And(l, r) => Atoms(l) + Atoms(r)
    case Or(l, r) => Atoms(l) + Atoms(r)
  }

  type Clause = set<Atom>

  /** The clauses of the disjunctive normal form. */
  function Dnf(n: Node): set<Clause> {
    match n
    case License(id) => {{Atom(id, None)}}
    case With(id, e) => {{Atom(id, Some(e))}}
    case And(l, r) => set c, d | c in Dnf(l) && d in Dnf(r) :: c + d
    case Or(l, r) => Dnf(l) + Dnf(r)
  }

  ghost predicate ClauseSatisfied(c: Clause, selected: set<Selection>) {
    forall a :: a in c ==> AtomSatisfied(a, selected)
  }

  ghost predicate SomeClause(clauses: set<Clause>, selected: set<Selection>) {
    exists c :: c in clauses && ClauseSatisfied(c, selected)
  }

  lemma OneAtom(a: Atom, selected: set<Selection>)
    ensures AtomSatisfied(a, selected) <==> SomeClause({{a}}, selected)
  {
    assert {a} in {{a}};
    assert ClauseSatisfied({a}, selected) <==> AtomSatisfied(a, selected);
  }

  lemma EitherClause(a: set<Clause>, b: set<Clause>, selected: set<Selection>)
    ensures SomeClause(a + b, selected) <==> SomeClause(a, selected) || SomeClause(b, selected)
  {
    if c :| c in a && ClauseSatisfied(c, selected) { assert c in a + b; }
    if c :| c in b && ClauseSatisfied(c, selected) { assert c in a + b; }
  }

  lemma BothClauses(a: set<Clause>, b: set<Clause>, selected: set<Selection>)
    ensures SomeClause(set c, d | c in a && d in b :: c + d, selected)
       <==> SomeClause(a, selected) && SomeClause(b, selected)
  {
    var both := set c, d | c in a && d in b :: c + d;
    if SomeClause(a, selected) && SomeClause(b, selected) {
      var c :| c in a && ClauseSatisfied(c, selected);
      var d :| d in b && ClauseSatisfied(d, selected);
      assert c + d in both && ClauseSatisfied(c + d, selected);
    }
    if SomeClause(both, selected) {
      var e :| e in both && ClauseSatisfied(e, selected);
      var c, d :| c in a && d in b && e == c + d;
      assert ClauseSatisfied(c, selected) && ClauseSatisfied(d, selected);
    }
  }

  /** An expression is satisfied exactly when some clause of its normal form is, atom by atom. */
  lemma {:induction false} SatisfiedIffSomeClause(n: Node, selected: set<Selection>)
    ensures Satisfied(n, selected) <==> SomeClause(Dnf(n), selected)
  {
    match n
    case License(id) =>
      OneAtom(Atom(id, None), selected);
    case With(id, e) =>
      OneAtom(Atom(id, Some(e)), selected);
    case Or(l, r) =>
      SatisfiedIffSomeClause(l, selected);
      SatisfiedIffSomeClause(r, selected);
      EitherClause(Dnf(l), Dnf(r), selected);
    case And(l, r) =>
      SatisfiedIffSomeClause(l, selected);
      SatisfiedIffSomeClause(r, selected);
      BothClauses(Dnf(l), Dnf(r), selected);
  }

  /** More texts never make a satisfied expression unsatisfied. */
  lemma {:induction false} SatisfactionIsMonotone(n: Node, selected: set<Selection>, more: set<Selection>)
    requires Satisfied(n, selected) && selected <= more
    ensures Satisfied(n, more)
  {
    match n
    case License(_) =>
    case With(_, _) =>
    case And(l, r) =>
      SatisfactionIsMonotone(l, selected, more);
      SatisfactionIsMonotone(r, selected, more);
    case Or(l, r) =>
      if Satisfied(l, selected) { SatisfactionIsMonotone(l, selected, more); }
      else { SatisfactionIsMonotone(r, selected, more); }
  }
}
