/**
 SPDX license expressions (scripts/ci/generate_native_dependency_notice.py): the tokenizer and the
 recursive-descent parser with its mutable index.

 The grammar is stated separately as derivation trees, and the parser is proved to accept exactly
 the token sequences that have one, giving the tree's meaning. Operators and precedence are those
 of section D.4 of Annex D of the SPDX 2.3 specification, except that parentheses leave no node, so
 `(MIT) WITH X` is accepted.
 */
module Spdx {
  import opened Prelude
  import opened Text

  type Token = string

  datatype Node =
    | License(id: Token)
    | With(id: Token, exception: Token)
    | And(left: Node, right: Node)
    | Or(left: Node, right: Node)

  predicate Reserved(t: Token) {
    t == "(" || t == ")" || t == "AND" || t == "OR" || t == "WITH"
  }

  datatype Parsed = Failed | Parsed(node: Node, next: nat)

  predicate At(ts: seq<Token>, i: nat, t: Token) {
    i < |ts| && ts[i] == t
  }

  predicate IdentifierAt(ts: seq<Token>, i: nat) {
    i < |ts| && !Reserved(ts[i])
  }

  // ---------------------------------------------------------------------------------------
  // The parser as functions of the index
  // ---------------------------------------------------------------------------------------

  function ParseOr(ts: seq<Token>, i: nat): (r: Parsed)
    requires i <= |ts|
    ensures r.Parsed? ==> i < r.next <= |ts|
    decreases |ts| - i, 6
  {
    var first := ParseAnd(ts, i);
    if first.Failed? then Failed else OrTail(ts, first.node, first.next)
  }

  function OrTail(ts: seq<Token>, node: Node, i: nat): (r: Parsed)
    requires i <= |ts|
    ensures r.Parsed? ==> i <= r.next <= |ts|
    decreases |ts| - i, 5
  {
    if !At(ts, i, "OR") then Parsed(node, i)
    else
      var right := ParseAnd(ts, i + 1);
      if right.Failed? then Failed else OrTail(ts, Or(node, right.node), right.next)
  }

  function ParseAnd(ts: seq<Token>, i: nat): (r: Parsed)
    requires i <= |ts|
    ensures r.Parsed? ==> i < r.next <= |ts|
    decreases |ts| - i, 4
  {
    var first := ParseWith(ts, i);
    if first.Failed? then Failed else AndTail(ts, first.node, first.next)
  }

  function AndTail(ts: seq<Token>, node: Node, i: nat): (r: Parsed)
    requires i <= |ts|
    ensures r.Parsed? ==> i <= r.next <= |ts|
    decreases |ts| - i, 3
  {
    if !At(ts, i, "AND") then Parsed(node, i)
    else
      var right := ParseWith(ts, i + 1);
      if right.Failed? then Failed else AndTail(ts, And(node, right.node), right.next)
  }

  function ParseWith(ts: seq<Token>, i: nat): (r: Parsed)
    requires i <= |ts|
    ensures r.Parsed? ==> i < r.next <= |ts|
    decreases |ts| - i, 2
  {
    var p := ParsePrimary(ts, i);
    if p.Failed? || !At(ts, p.next, "WITH") then p
    else if !p.node.License? || !IdentifierAt(ts, p.next + 1) then Failed
    else Parsed(With(p.node.id, ts[p.next + 1]), p.next + 2)
  }

  function ParsePrimary(ts: seq<Token>, i: nat): (r: Parsed)
    requires i <= |ts|
    ensures r.Parsed? ==> i < r.next <= |ts|
    decreases |ts| - i, 1
  {
    if At(ts, i, "(") then
      var inner := ParseOr(ts, i + 1);
      if inner.Failed? || !At(ts, inner.next, ")") then Failed else Parsed(inner.node, inner.next + 1)
    else if IdentifierAt(ts, i) then Parsed(License(ts[i]), i + 1)
    else Failed
  }

  function Parse(ts: seq<Token>): Option<Node> {
    var r := ParseOr(ts, 0);
    if r.Parsed? && r.next == |ts| then Some(r.node) else None
  }

  // ---------------------------------------------------------------------------------------
  // The grammar
  // ---------------------------------------------------------------------------------------

  datatype OrTree = OrOne(a: AndTree) | OrMore(l: OrTree, a: AndTree)
  datatype AndTree = AndOne(w: WithTree) | AndMore(l: AndTree, w: WithTree)
  datatype WithTree = Plain(p: Primary) | Excepted(p: Primary, exception: Token)
  datatype Primary = Id(id: Token) | Paren(o: OrTree)

  function OrYield(o: OrTree): seq<Token> {
    match o
    case OrOne(a) => AndYield(a)
    case OrMore(l, a) => OrYield(l) + ["OR"] + AndYield(a)
  }

  function AndYield(a: AndTree): seq<Token> {
    match a
    case AndOne(w) => WithYield(w)
    case AndMore(l, w) => AndYield(l) + ["AND"] + WithYield(w)
  }

  function WithYield(w: WithTree): seq<Token> {
    match w
    case Plain(p) => PrimaryYield(p)
    case Excepted(p, e) => PrimaryYield(p) + ["WITH", e]
  }

  function PrimaryYield(p: Primary): seq<Token> {
    match p
    case Id(id) => [id]
    case Paren(o) => ["("] + OrYield(o) + [")"]
  }

  function OrAst(o: OrTree): Node {
    match o
    case OrOne(a) => AndAst(a)
    case OrMore(l, a) => Or(OrAst(l), AndAst(a))
  }

  function AndAst(a: AndTree): Node {
    match a
    case AndOne(w) => WithAst(w)
    case AndMore(l, w) => And(AndAst(l), WithAst(w))
  }

  function WithAst(w: WithTree): Node {
    match w
    case Plain(p) => PrimaryAst(p)
    case Excepted(p, e) => With(if PrimaryAst(p).License? then PrimaryAst(p).id else "", e)
  }

  function PrimaryAst(p: Primary): Node {
    match p
    case Id(id) => License(id)
    case Paren(o) => OrAst(o)
  }

  /** Identifiers are not reserved, and WITH follows something that means one license. */
  predicate OrOk(o: OrTree) {
    match o
    case OrOne(a) => AndOk(a)
    case OrMore(l, a) => OrOk(l) && AndOk(a)
  }

  predicate AndOk(a: AndTree) {
    match a
    case AndOne(w) => WithOk(w)
    case AndMore(l, w) => AndOk(l) && WithOk(w)
  }

  predicate WithOk(w: WithTree) {
    match w
    case Plain(p) => PrimaryOk(p)
    case Excepted(p, e) => PrimaryOk(p) && PrimaryAst(p).License? && !Reserved(e)
  }

  predicate PrimaryOk(p: Primary) {
    match p
    case Id(id) => !Reserved(id)
    case Paren(o) => OrOk(o)
  }

  // ---------------------------------------------------------------------------------------
  // Every derivation is parsed
  // ---------------------------------------------------------------------------------------

  /** `part` stands in `ts` from `i` on. */
  predicate StandsAt(ts: seq<Token>, i: nat, part: seq<Token>) {
    i + |part| <= |ts| && ts[i..i + |part|] == part
  }

  lemma StandsAtSplit(ts: seq<Token>, i: nat, a: seq<Token>, b: seq<Token>)
    requires StandsAt(ts, i, a + b)
    ensures StandsAt(ts, i, a) && StandsAt(ts, i + |a|, b)
  {
    assert ts[i..i + |a|] == (a + b)[..|a|] == a;
    assert ts[i + |a|..i + |a| + |b|] == (a + b)[|a|..] == b;
  }

  lemma StandsAtOne(ts: seq<Token>, i: nat, t: Token)
    requires StandsAt(ts, i, [t])
    ensures At(ts, i, t)
  {
    assert ts[i..i + 1][0] == ts[i];
  }

  lemma OneOperatorAt(ts: seq<Token>, i: nat)
    ensures At(ts, i, "OR") ==> !At(ts, i, "AND") && !At(ts, i, "WITH")
    ensures At(ts, i, "AND") ==> !At(ts, i, "WITH")
  {
    assert "OR"[0] == 'O' && "AND"[0] == 'A' && "WITH"[0] == 'W';
  }

  /** One turn of the OR loop. */
  lemma OrTurn(ts: seq<Token>, node: Node, m: nat, right: Node, e: nat)
    requires m < e <= |ts| && At(ts, m, "OR") && !At(ts, e, "AND")
    requires ParseAnd(ts, m + 1) == AndTail(ts, right, e)
    ensures OrTail(ts, node, m) == OrTail(ts, Or(node, right), e)
  {
  }

  /** One turn of the AND loop. */
  lemma AndTurn(ts: seq<Token>, node: Node, m: nat, right: Node, e: nat)
    requires m < e <= |ts| && At(ts, m, "AND")
    requires ParseWith(ts, m + 1) == Parsed(right, e)
    ensures AndTail(ts, node, m) == AndTail(ts, And(node, right), e)
  {
  }

  /** The first operand of the OR loop. */
  lemma OrStarts(ts: seq<Token>, i: nat, node: Node, e: nat)
    requires i <= e <= |ts| && ParseAnd(ts, i) == AndTail(ts, node, e) && !At(ts, e, "AND")
    ensures ParseOr(ts, i) == OrTail(ts, node, e)
  {
  }

  lemma OrMoreStands(ts: seq<Token>, i: nat, l: OrTree, a: AndTree)
    requires StandsAt(ts, i, OrYield(OrMore(l, a)))
    ensures var m := i + |OrYield(l)|;
            && StandsAt(ts, i, OrYield(l)) && At(ts, m, "OR") && !At(ts, m, "AND") && !At(ts, m, "WITH")
            && StandsAt(ts, m + 1, AndYield(a)) && |OrYield(OrMore(l, a))| == |OrYield(l)| + 1 + |AndYield(a)|
  {
    var m := i + |OrYield(l)|;
    StandsAtSplit(ts, i, OrYield(l) + ["OR"], AndYield(a));
    StandsAtSplit(ts, i, OrYield(l), ["OR"]);
    StandsAtOne(ts, m, "OR");
    OneOperatorAt(ts, m);
  }

  /** After an OR-level derivation that is not followed by AND or WITH, the OR loop is at its end. */
  lemma {:induction false} OrParses(ts: seq<Token>, i: nat, o: OrTree)
    requires OrOk(o) && StandsAt(ts, i, OrYield(o))
    requires !At(ts, i + |OrYield(o)|, "AND") && !At(ts, i + |OrYield(o)|, "WITH")
    ensures ParseOr(ts, i) == OrTail(ts, OrAst(o), i + |OrYield(o)|)
    decreases o, 1
  {
    match o
    case OrOne(a) =>
      AndParses(ts, i, a);
      OrStarts(ts, i, AndAst(a), i + |AndYield(a)|);
    case OrMore(l, a) =>
      OrMoreStands(ts, i, l, a);
      OrMoreParses(ts, i, o, i + |OrYield(l)|, i + |OrYield(o)|);
  }

  /** The left operand ends at `m`, the whole at `e`. */
  lemma {:induction false} OrMoreParses(ts: seq<Token>, i: nat, o: OrTree, m: nat, e: nat)
    requires o.OrMore? && OrOk(o.l) && AndOk(o.a)
    requires m == i + |OrYield(o.l)| && StandsAt(ts, i, OrYield(o.l))
    requires At(ts, m, "OR") && !At(ts, m, "AND") && !At(ts, m, "WITH")
    requires e == m + 1 + |AndYield(o.a)| && StandsAt(ts, m + 1, AndYield(o.a))
    requires !At(ts, e, "AND") && !At(ts, e, "WITH")
    ensures ParseOr(ts, i) == OrTail(ts, Or(OrAst(o.l), AndAst(o.a)), e)
    decreases o, 0
  {
    OrParses(ts, i, o.l);
    AndParses(ts, m + 1, o.a);
    OrTurn(ts, OrAst(o.l), m, AndAst(o.a), e);
  }

  lemma {:induction false} AndParses(ts: seq<Token>, i: nat, a: AndTree)
    requires AndOk(a) && StandsAt(ts, i, AndYield(a))
    requires !At(ts, i + |AndYield(a)|, "WITH")
    ensures ParseAnd(ts, i) == AndTail(ts, AndAst(a), i + |AndYield(a)|)
    decreases a, 1
  {
    match a
    case AndOne(w) =>
      WithParses(ts, i, w);
      AndStarts(ts, i, WithAst(w), i + |WithYield(w)|);
    case AndMore(l, w) =>
      AndMoreStands(ts, i, l, w);
      AndMoreParses(ts, i, a, i + |AndYield(l)|, i + |AndYield(a)|);
  }

  /** The left operand ends at `m`, the whole at `e`. */
  lemma {:induction false} AndMoreParses(ts: seq<Token>, i: nat, a: AndTree, m: nat, e: nat)
    requires a.AndMore? && AndOk(a.l) && WithOk(a.w)
    requires m == i + |AndYield(a.l)| && StandsAt(ts, i, AndYield(a.l)) && At(ts, m, "AND") && !At(ts, m, "WITH")
    requires e == m + 1 + |WithYield(a.w)| && StandsAt(ts, m + 1, WithYield(a.w)) && !At(ts, e, "WITH")
    ensures ParseAnd(ts, i) == AndTail(ts, And(AndAst(a.l), WithAst(a.w)), e)
    decreases a, 0
  {
    AndParses(ts, i, a.l);
    WithParses(ts, m + 1, a.w);
    AndTurn(ts, AndAst(a.l), m, WithAst(a.w), e);
  }

  /** The first operand of the AND loop. */
  lemma AndStarts(ts: seq<Token>, i: nat, node: Node, e: nat)
    requires i <= e <= |ts| && ParseWith(ts, i) == Parsed(node, e)
    ensures ParseAnd(ts, i) == AndTail(ts, node, e)
  {
  }

  lemma AndMoreStands(ts: seq<Token>, i: nat, l: AndTree, w: WithTree)
    requires StandsAt(ts, i, AndYield(AndMore(l, w)))
    ensures var m := i + |AndYield(l)|;
            && StandsAt(ts, i, AndYield(l)) && At(ts, m, "AND") && !At(ts, m, "WITH")
            && StandsAt(ts, m + 1, WithYield(w)) && |AndYield(AndMore(l, w))| == |AndYield(l)| + 1 + |WithYield(w)|
  {
    var m := i + |AndYield(l)|;
    StandsAtSplit(ts, i, AndYield(l) + ["AND"], WithYield(w));
    StandsAtSplit(ts, i, AndYield(l), ["AND"]);
    StandsAtOne(ts, m, "AND");
    OneOperatorAt(ts, m);
  }

  lemma {:induction false} WithParses(ts: seq<Token>, i: nat, w: WithTree)
    requires WithOk(w) && StandsAt(ts, i, WithYield(w))
    requires !At(ts, i + |WithYield(w)|, "WITH")
    ensures ParseWith(ts, i) == Parsed(WithAst(w), i + |WithYield(w)|)
    decreases w
  {
    match w
    case Plain(p) =>
      PrimaryParses(ts, i, p);
    case Excepted(p, e) =>
      ExceptionStands(ts, i, PrimaryYield(p), e);
      PrimaryParses(ts, i, p);
      WithTakes(ts, i, PrimaryAst(p), i + |PrimaryYield(p)|, e);
  }

  lemma ExceptionStands(ts: seq<Token>, i: nat, license: seq<Token>, e: Token)
    requires StandsAt(ts, i, license + ["WITH", e])
    ensures StandsAt(ts, i, license) && At(ts, i + |license|, "WITH") && At(ts, i + |license| + 1, e)
  {
    StandsAtSplit(ts, i, license, ["WITH", e]);
    assert ["WITH", e] == ["WITH"] + [e];
    StandsAtSplit(ts, i + |license|, ["WITH"], [e]);
    StandsAtOne(ts, i + |license|, "WITH");
    StandsAtOne(ts, i + |license| + 1, e);
  }

  /** WITH and an exception after one license. */
  lemma WithTakes(ts: seq<Token>, i: nat, node: Node, j: nat, e: Token)
    requires i <= j && i <= |ts| && ParsePrimary(ts, i) == Parsed(node, j)
    requires node.License? && At(ts, j, "WITH") && At(ts, j + 1, e) && !Reserved(e)
    ensures ParseWith(ts, i) == Parsed(With(node.id, e), j + 2)
  {
  }

  lemma {:induction false} PrimaryParses(ts: seq<Token>, i: nat, p: Primary)
    requires PrimaryOk(p) && StandsAt(ts, i, PrimaryYield(p))
    ensures ParsePrimary(ts, i) == Parsed(PrimaryAst(p), i + |PrimaryYield(p)|)
    decreases p
  {
    match p
    case Id(id) =>
      StandsAtOne(ts, i, id);
    case Paren(o) =>
      StandsAtSplit(ts, i, ["("] + OrYield(o), [")"]);
      StandsAtSplit(ts, i, ["("], OrYield(o));
      StandsAtOne(ts, i, "(");
      StandsAtOne(ts, i + 1 + |OrYield(o)|, ")");
      OrParses(ts, i + 1, o);
  }

  // ---------------------------------------------------------------------------------------
  // Everything parsed has a derivation
  // ---------------------------------------------------------------------------------------

  lemma {:induction false} OrDerives(ts: seq<Token>, i: nat) returns (o: OrTree)
    requires i <= |ts| && ParseOr(ts, i).Parsed?
    ensures var r := ParseOr(ts, i); OrOk(o) && OrYield(o) == ts[i..r.next] && OrAst(o) == r.node
    decreases |ts| - i, 6
  {
    var a := AndDerives(ts, i);
    o := OrTailDerives(ts, i, OrOne(a), ParseAnd(ts, i).next);
  }

  lemma SpanJoins(ts: seq<Token>, i: nat, j: nat, k: nat, t: Token)
    requires i <= j < k <= |ts| && ts[j] == t
    ensures ts[i..k] == ts[i..j] + [t] + ts[j + 1..k]
  {
  }

  lemma {:induction false} OrTailDerives(ts: seq<Token>, i: nat, l: OrTree, j: nat) returns (o: OrTree)
    requires i < j <= |ts| && OrOk(l) && OrYield(l) == ts[i..j]
    requires OrTail(ts, OrAst(l), j).Parsed?
    ensures var r := OrTail(ts, OrAst(l), j); OrOk(o) && OrYield(o) == ts[i..r.next] && OrAst(o) == r.node
    decreases |ts| - j, 5
  {
    if At(ts, j, "OR") {
      var a := AndDerives(ts, j + 1);
      var k := ParseAnd(ts, j + 1).next;
      SpanJoins(ts, i, j, k, "OR");
      o := OrTailDerives(ts, i, OrMore(l, a), k);
    } else {
      o := l;
    }
  }

  lemma {:induction false} AndDerives(ts: seq<Token>, i: nat) returns (a: AndTree)
    requires i <= |ts| && ParseAnd(ts, i).Parsed?
    ensures var r := ParseAnd(ts, i); AndOk(a) && AndYield(a) == ts[i..r.next] && AndAst(a) == r.node
    decreases |ts| - i, 4
  {
    var w := WithDerives(ts, i);
    a := AndTailDerives(ts, i, AndOne(w), ParseWith(ts, i).next);
  }

  lemma {:induction false} AndTailDerives(ts: seq<Token>, i: nat, l: AndTree, j: nat) returns (a: AndTree)
    requires i < j <= |ts| && AndOk(l) && AndYield(l) == ts[i..j]
    requires AndTail(ts, AndAst(l), j).Parsed?
    ensures var r := AndTail(ts, AndAst(l), j); AndOk(a) && AndYield(a) == ts[i..r.next] && AndAst(a) == r.node
    decreases |ts| - j, 3
  {
    if At(ts, j, "AND") {
      var w := WithDerives(ts, j + 1);
      var k := ParseWith(ts, j + 1).next;
      SpanJoins(ts, i, j, k, "AND");
      a := AndTailDerives(ts, i, AndMore(l, w), k);
    } else {
      a := l;
    }
  }

  lemma {:induction false} WithDerives(ts: seq<Token>, i: nat) returns (w: WithTree)
    requires i <= |ts| && ParseWith(ts, i).Parsed?
    ensures var r := ParseWith(ts, i); WithOk(w) && WithYield(w) == ts[i..r.next] && WithAst(w) == r.node
    decreases |ts| - i, 2
  {
    var p := PrimaryDerives(ts, i);
    var j := ParsePrimary(ts, i).next;
    if At(ts, j, "WITH") {
      w := Excepted(p, ts[j + 1]);
      assert ts[i..j + 2] == ts[i..j] + ["WITH", ts[j + 1]];
    } else {
      w := Plain(p);
    }
  }

  lemma {:induction false} PrimaryDerives(ts: seq<Token>, i: nat) returns (p: Primary)
    requires i <= |ts| && ParsePrimary(ts, i).Parsed?
    ensures var r := ParsePrimary(ts, i); PrimaryOk(p) && PrimaryYield(p) == ts[i..r.next] && PrimaryAst(p) == r.node
    decreases |ts| - i, 1
  {
    if At(ts, i, "(") {
      var o := OrDerives(ts, i + 1);
      var j := ParseOr(ts, i + 1).next;
      assert ts[i..j + 1] == ["("] + ts[i + 1..j] + [")"];
      p := Paren(o);
    } else {
      p := Id(ts[i]);
      assert ts[i..i + 1] == [ts[i]];
    }
  }

  /** The parser accepts exactly the derivable token sequences, and gives the derivation's meaning. */
  lemma ParserIsTheGrammar(ts: seq<Token>, n: Node)
    ensures Parse(ts) == Some(n) <==> exists o :: OrOk(o) && OrYield(o) == ts && OrAst(o) == n
  {
    if Parse(ts) == Some(n) {
      var o := OrDerives(ts, 0);
      assert ts[0..|ts|] == ts;
    }
    forall o | OrOk(o) && OrYield(o) == ts && OrAst(o) == n ensures Parse(ts) == Some(n) {
      DerivationParses(o);
    }
  }

  lemma DerivationParses(o: OrTree)
    requires OrOk(o)
    ensures Parse(OrYield(o)) == Some(OrAst(o))
  {
    var ts := OrYield(o);
    assert ts[0..|ts|] == ts;
    OrParses(ts, 0, o);
  }

  // ---------------------------------------------------------------------------------------
  // Printing with minimal parentheses
  // ---------------------------------------------------------------------------------------

  function OrRank(n: Node): nat { if n.Or? then 0 else if n.And? then 1 else 2 }
  function AndRank(n: Node): nat { if n.Or? then 2 else if n.And? then 0 else 1 }
  function WithRank(n: Node): nat { if n.Or? then 1 else if n.And? then 2 else 0 }

  function ToOr(n: Node): OrTree
    decreases n, OrRank(n)
  {
    if n.Or? then OrMore(ToOr(n.left), ToAnd(n.right)) else OrOne(ToAnd(n))
  }

  function ToAnd(n: Node): AndTree
    decreases n, AndRank(n)
  {
    if n.And? then AndMore(ToAnd(n.left), ToWith(n.right)) else AndOne(ToWith(n))
  }

  function ToWith(n: Node): WithTree
    decreases n, WithRank(n)
  {
    match n
    case License(id) => Plain(Id(id))
    case With(id, e) => Excepted(Id(id), e)
    case And(_, _) => Plain(Paren(ToOr(n)))
    case Or(_, _) => Plain(Paren(ToOr(n)))
  }

  function Print(n: Node): seq<Token> {
    OrYield(ToOr(n))
  }

  predicate Printable(n: Node) {
    match n
    case License(id) => !Reserved(id)
    case With(id, e) => !Reserved(id) && !Reserved(e)
    case And(l, r) => Printable(l) && Printable(r)
    case Or(l, r) => Printable(l) && Printable(r)
  }

  lemma ToShapes(n: Node)
    ensures !n.Or? ==> ToOr(n) == OrOne(ToAnd(n))
    ensures !n.And? ==> ToAnd(n) == AndOne(ToWith(n))
    ensures n.And? || n.Or? ==> ToWith(n) == Plain(Paren(ToOr(n)))
    ensures n.Or? ==> ToOr(n) == OrMore(ToOr(n.left), ToAnd(n.right))
    ensures n.And? ==> ToAnd(n) == AndMore(ToAnd(n.left), ToWith(n.right))
  {
  }

  /** A derivation means the same one level up, and inside parentheses. */
  lemma LevelsMeanTheSame(o: OrTree, a: AndTree, w: WithTree)
    ensures OrOk(OrOne(a)) == AndOk(a) && OrAst(OrOne(a)) == AndAst(a)
    ensures AndOk(AndOne(w)) == WithOk(w) && AndAst(AndOne(w)) == WithAst(w)
    ensures WithOk(Plain(Paren(o))) == OrOk(o) && WithAst(Plain(Paren(o))) == OrAst(o)
  {
  }

  lemma {:induction false} PrintedMeansNode(n: Node)
    requires Printable(n)
    ensures OrOk(ToOr(n)) && OrAst(ToOr(n)) == n
    ensures AndOk(ToAnd(n)) && AndAst(ToAnd(n)) == n
    ensures WithOk(ToWith(n)) && WithAst(ToWith(n)) == n
  {
    ToShapes(n);
    LevelsMeanTheSame(ToOr(n), ToAnd(n), ToWith(n));
    if n.Or? {
      PrintedMeansNode(n.left);
      PrintedMeansNode(n.right);
    } else if n.And? {
      PrintedMeansNode(n.left);
      PrintedMeansNode(n.right);
    } else {
      assert WithOk(ToWith(n)) && WithAst(ToWith(n)) == n;
    }
  }

  /** Parsing a printed tree gives it back: left association, WITH over AND over OR. */
  lemma PrintParses(n: Node)
    requires Printable(n)
    ensures Parse(Print(n)) == Some(n)
  {
    PrintedMeansNode(n);
    DerivationParses(ToOr(n));
  }

  /** How many pairs of parentheses a derivation uses. */
  function OrParens(o: OrTree): nat {
    match o
    case OrOne(a) => AndParens(a)
    case OrMore(l, a) => OrParens(l) + AndParens(a)
  }

  function AndParens(a: AndTree): nat {
    match a
    case AndOne(w) => WithParens(w)
    case AndMore(l, w) => AndParens(l) + WithParens(w)
  }

  function WithParens(w: WithTree): nat {
    PrimaryParens(w.p)
  }

  function PrimaryParens(p: Primary): nat {
    match p
    case Id(_) => 0
    case Paren(o) => 1 + OrParens(o)
  }

  lemma LevelsNest(n: Node)
    ensures OrParens(ToOr(n)) <= AndParens(ToAnd(n)) <= WithParens(ToWith(n)) <= 1 + OrParens(ToOr(n))
  {
  }

  /** No derivation of the same meaning uses fewer parentheses than printing does. */
  lemma {:induction false} PrintIsMinimal(o: OrTree)
    requires OrOk(o)
    ensures OrParens(ToOr(OrAst(o))) <= OrParens(o)
  {
    LevelsNest(OrAst(o));
    match o
    case OrOne(a) => AndMinimal(a);
    case OrMore(l, a) => PrintIsMinimal(l); AndMinimal(a);
  }

  lemma {:induction false} AndMinimal(a: AndTree)
    requires AndOk(a)
    ensures AndParens(ToAnd(AndAst(a))) <= AndParens(a)
  {
    LevelsNest(AndAst(a));
    match a
    case AndOne(w) => WithMinimal(w);
    case AndMore(l, w) => AndMinimal(l); WithMinimal(w);
  }

  lemma {:induction false} WithMinimal(w: WithTree)
    requires WithOk(w)
    ensures WithParens(ToWith(WithAst(w))) <= WithParens(w)
  {
    match w
    case Plain(p) =>
      match p {
        case Id(_) =>
        case Paren(o) => PrintIsMinimal(o); LevelsNest(OrAst(o));
      }
    case Excepted(p, e) =>
  }

  // ---------------------------------------------------------------------------------------
  // The parser object
  // ---------------------------------------------------------------------------------------

  class SpdxParser {
    const tokens: seq<Token>
    var index: nat

    constructor (tokens: seq<Token>)
      ensures this.tokens == tokens && index == 0
    {
      this.tokens := tokens;
      index := 0;
    }

    /** The outcome of a parsing method agrees with the function at the index it started from. */
    ghost predicate Follows(r: Option<Node>, spec: Parsed)
      reads this
    {
      match spec
      case Failed => r == None
      case Parsed(node, next) => r == Some(node) && index == next <= |tokens|
    }

    method Take(token: Token) returns (taken: bool)
      requires index <= |tokens|
      modifies this
      ensures taken <==> At(tokens, old(index), token)
      ensures index == if taken then old(index) + 1 else old(index)
    {
      if index < |tokens| && tokens[index] == token {
        index := index + 1;
        return true;
      }
      return false;
    }

    method TakeIdentifier() returns (r: Option<Token>)
      requires index <= |tokens|
      modifies this
      ensures r.Some? <==> IdentifierAt(tokens, old(index))
      ensures r.Some? ==> r.value == tokens[old(index)] && index == old(index) + 1
    {
      if index >= |tokens| {
        return None;
      }
      var token := tokens[index];
      if token in {"(", ")", "AND", "OR", "WITH"} {
        return None;
      }
      index := index + 1;
      return Some(token);
    }

    method ParseOrLevel() returns (r: Option<Node>)
      requires index <= |tokens|
      modifies this
      ensures Follows(r, ParseOr(tokens, old(index)))
      decreases |tokens| - index, 3
    {
      ghost var start := index;
      r := ParseAndLevel();
      if r.None? {
        return None;
      }
      var node := r.value;
      while true
        invariant start < index <= |tokens|
        invariant ParseOr(tokens, start) == OrTail(tokens, node, index)
        decreases |tokens| - index
      {
        var more := Take("OR");
        if !more {
          return Some(node);
        }
        var right := ParseAndLevel();
        if right.None? {
          return None;
        }
        node := Or(node, right.value);
      }
    }

    method ParseAndLevel() returns (r: Option<Node>)
      requires index <= |tokens|
      modifies this
      ensures Follows(r, ParseAnd(tokens, old(index)))
      decreases |tokens| - index, 2
    {
      ghost var start := index;
      r := ParseWithLevel();
      if r.None? {
        return None;
      }
      var node := r.value;
      while true
        invariant start < index <= |tokens|
        invariant ParseAnd(tokens, start) == AndTail(tokens, node, index)
        decreases |tokens| - index
      {
        var more := Take("AND");
        if !more {
          return Some(node);
        }
        var right := ParseWithLevel();
        if right.None? {
          return None;
        }
        node := And(node, right.value);
      }
    }

    method ParseWithLevel() returns (r: Option<Node>)
      requires index <= |tokens|
      modifies this
      ensures Follows(r, ParseWith(tokens, old(index)))
      decreases |tokens| - index, 1
    {
      r := ParsePrimaryLevel();
      if r.None? {
        return None;
      }
      var taken := Take("WITH");
      if taken {
        if !r.value.License? {
          return None;
        }
        var exception := TakeIdentifier();
        if exception.None? {
          return None;
        }
        return Some(With(r.value.id, exception.value));
      }
    }

    method ParsePrimaryLevel() returns (r: Option<Node>)
      requires index <= |tokens|
      modifies this
      ensures Follows(r, ParsePrimary(tokens, old(index)))
      decreases |tokens| - index, 0
    {
      var open := Take("(");
      if open {
        r := ParseOrLevel();
        if r.None? {
          return None;
        }
        var closed := Take(")");
        if !closed {
          return None;
        }
        return r;
      }
      var id := TakeIdentifier();
      if id.None? {
        return None;
      }
      return Some(License(id.value));
    }

    method ParseAll() returns (r: Option<Node>)
      requires index == 0
      modifies this
      ensures r == Parse(tokens)
    {
      r := ParseOrLevel();
      if r.Some? && index != |tokens| {
        return None;
      }
    }
  }

  // ---------------------------------------------------------------------------------------
  // The tokenizer
  // ---------------------------------------------------------------------------------------

  predicate WordChar(c: char) {
    IsAlnum(c) || c == '.' || c == '+' || c == '-'
  }

  /** The end of the longest run of word characters from `i` on. */
  function WordEnd(s: string, i: nat): (j: nat)
    requires i <= |s|
    ensures i <= j <= |s| && (forall k :: i <= k < j ==> WordChar(s[k])) && (j < |s| ==> !WordChar(s[j]))
    decreases |s| - i
  {
    if i < |s| && WordChar(s[i]) then WordEnd(s, i + 1) else i
  }

  function Scan(s: string, i: nat, done: seq<Token>): Option<seq<Token>>
    requires i <= |s|
    decreases |s| - i
  {
    if i == |s| then Some(done)
    else if s[i] == '(' || s[i] == ')' then Scan(s, i + 1, done + [[s[i]]])
    else if IsAlnum(s[i]) then
      var j := WordEnd(s, i + 1);
      Scan(s, j, done + [s[i..j]])
    else if IsSpace(s[i]) then Scan(s, i + 1, done)
    else None
  }

  function Tokenize(s: string): Option<seq<Token>> {
    var ts := Scan(s, 0, []);
    if ts == Some([]) then None else ts
  }

  method TokenizeSpdx(s: string) returns (r: Option<seq<Token>>)
    ensures r == Tokenize(s)
  {
    var tokens: seq<Token> := [];
    var cursor := 0;
    while cursor < |s|
      invariant 0 <= cursor <= |s|
      invariant Scan(s, 0, []) == Scan(s, cursor, tokens)
    {
      var c := s[cursor];
      if c == '(' || c == ')' {
        tokens := tokens + [[c]];
        cursor := cursor + 1;
      } else if IsAlnum(c) {
        var end := WordEnd(s, cursor + 1);
        tokens := tokens + [s[cursor..end]];
        cursor := end;
      } else if IsSpace(c) {
        cursor := cursor + 1;
      } else {
        return None;
      }
    }
    if tokens == [] {
      return None;
    }
    return Some(tokens);
  }

  function ParseExpression(s: string): Option<Node> {
    var ts := Tokenize(s);
    if ts.None? then None else Parse(ts.value)
  }

  method ParseSpdxExpression(s: string) returns (r: Option<Node>)
    ensures r == ParseExpression(s)
  {
    var ts := TokenizeSpdx(s);
    if ts.None? {
      return None;
    }
    var parser := new SpdxParser(ts.value);
    r := parser.ParseAll();
  }

  predicate IsWord(t: Token) {
    t != [] && IsAlnum(t[0]) && forall i :: 0 <= i < |t| ==> WordChar(t[i])
  }

  predicate IsToken(t: Token) {
    t == "(" || t == ")" || IsWord(t)
  }

  /** The tokens, each followed by a space. */
  function Spell(ts: seq<Token>): string {
    if ts == [] then "" else Spell(ts[..|ts| - 1]) + ts[|ts| - 1] + " "
  }

  lemma {:induction false} WordEndIs(s: string, i: nat, j: nat)
    requires i <= j < |s| && (forall k :: i <= k < j ==> WordChar(s[k])) && !WordChar(s[j])
    ensures WordEnd(s, i) == j
    decreases j - i
  {
    if i < j { WordEndIs(s, i + 1, j); }
  }

  /** One token and the space after it are scanned back. */
  lemma ScanOne(s: string, i: nat, t: Token, done: seq<Token>)
    requires IsToken(t) && i + |t| < |s| && s[i..i + |t|] == t && s[i + |t|] == ' '
    ensures Scan(s, i, done) == Scan(s, i + |t| + 1, done + [t])
  {
    assert s[i] == t[0];
    if t != "(" && t != ")" {
      forall k | i + 1 <= k < i + |t| ensures WordChar(s[k]) {
        assert s[k] == t[k - i];
      }
      WordEndIs(s, i + 1, i + |t|);
    } else {
      assert t == [s[i]];
    }
    assert Scan(s, i, done) == Scan(s, i + |t|, done + [t]);
  }

  lemma PrefixParts(s: string, front: string, t: Token)
    requires front + t + " " <= s
    ensures var i := |front|; front <= s && i + |t| < |s| && s[i..i + |t|] == t && s[i + |t|] == ' '
  {
    var i, all := |front|, front + t + " ";
    assert s[..i] == all[..i] == front;
    assert s[i..i + |t|] == all[i..i + |t|] == t;
    assert s[i + |t|] == all[i + |t|] == ' ';
  }

  lemma {:induction false} ScanSpelled(s: string, ts: seq<Token>)
    requires forall t :: t in ts ==> IsToken(t)
    requires Spell(ts) <= s
    ensures Scan(s, 0, []) == Scan(s, |Spell(ts)|, ts)
    decreases |ts|
  {
    if ts != [] {
      var front, t := ts[..|ts| - 1], ts[|ts| - 1];
      var i := |Spell(front)|;
      PrefixParts(s, Spell(front), t);
      ScanSpelled(s, front);
      ScanOne(s, i, t, front);
      assert front + [t] == ts;
    }
  }

  lemma SpelledTokensScanBack(ts: seq<Token>)
    requires ts != [] && forall t :: t in ts ==> IsToken(t)
    ensures Tokenize(Spell(ts)) == Some(ts)
  {
    ScanSpelled(Spell(ts), ts);
  }

  /** Every tree over well-formed identifiers survives being written out as text and parsed again. */
  predicate WellSpelled(n: Node) {
    match n
    case License(id) => IsWord(id)
    case With(id, e) => IsWord(id) && IsWord(e)
    case And(l, r) => WellSpelled(l) && WellSpelled(r)
    case Or(l, r) => WellSpelled(l) && WellSpelled(r)
  }

  lemma {:induction false} PrintedAreTokens(n: Node)
    requires WellSpelled(n)
    ensures forall t :: t in OrYield(ToOr(n)) ==> IsToken(t)
    ensures forall t :: t in AndYield(ToAnd(n)) ==> IsToken(t)
    ensures forall t :: t in WithYield(ToWith(n)) ==> IsToken(t)
    ensures OrYield(ToOr(n)) != []
  {
    assert IsWord("AND") && IsWord("OR") && IsWord("WITH");
    ToShapes(n);
    if n.Or? {
      PrintedAreTokens(n.left);
      PrintedAreTokens(n.right);
      assert OrYield(ToOr(n)) == OrYield(ToOr(n.left)) + ["OR"] + AndYield(ToAnd(n.right));
      assert WithYield(ToWith(n)) == ["("] + OrYield(ToOr(n)) + [")"];
    } else if n.And? {
      PrintedAreTokens(n.left);
      PrintedAreTokens(n.right);
      assert AndYield(ToAnd(n)) == AndYield(ToAnd(n.left)) + ["AND"] + WithYield(ToWith(n.right));
      assert WithYield(ToWith(n)) == ["("] + OrYield(ToOr(n)) + [")"];
    } else {
      assert WithYield(ToWith(n)) == if n.License? then [n.id] else [n.id, "WITH", n.exception];
      assert AndYield(ToAnd(n)) == WithYield(ToWith(n)) == OrYield(ToOr(n));
    }
  }

  lemma TextRoundTrip(n: Node)
    requires Printable(n) && WellSpelled(n)
    ensures ParseExpression(Spell(Print(n))) == Some(n)
  {
    PrintedAreTokens(n);
    SpelledTokensScanBack(Print(n));
    PrintParses(n);
  }
}
