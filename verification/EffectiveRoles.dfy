/**
 The roles a relation class effectively has (type_bridge/_rust_runtime.py): a loop that drops and appends
 roles from the root ancestor down, against a closed form that looks at each level and the ones below it.
 */
module EffectiveRoles {
  import opened Prelude

  datatype Role = Role(name: string, overrides: Option<string>)

  /** A class of the method resolution order: whether it is a proper relation subclass, and its own roles. */
  datatype Base = Base(relation: bool, own: seq<Role>)

  type Level = seq<Role>

  predicate Overrides(level: Level, name: string) {
    exists i :: 0 <= i < |level| && level[i].overrides == Some(name)
  }

  function Without(roles: seq<Role>, level: Level): seq<Role> {
    if roles == [] then []
    else
      var last := roles[|roles| - 1];
      Without(roles[..|roles| - 1], level) + (if Overrides(level, last.name) then [] else [last])
  }

  /** One step down the chain. */
  function Specialize(inherited: seq<Role>, level: Level): seq<Role> {
    Without(inherited, level) + level
  }

  /** All steps, root ancestor first. */
  function Accumulated(chain: seq<Level>): seq<Role> {
    if chain == [] then [] else Specialize(Accumulated(chain[..|chain| - 1]), chain[|chain| - 1])
  }

  /** The relation classes of a resolution order, root ancestor first. */
  function Chain(mro: seq<Base>): seq<Level> {
    if mro == [] then [] else Chain(mro[1..]) + (if mro[0].relation then [mro[0].own] else [])
  }

  function Kept(mro: seq<Base>): seq<Level> {
    if mro == [] then []
    else Kept(mro[..|mro| - 1]) + (if mro[|mro| - 1].relation then [mro[|mro| - 1].own] else [])
  }

  function Reversed(s: seq<Level>): (r: seq<Level>)
    ensures |r| == |s| && forall i :: 0 <= i < |s| ==> r[i] == s[|s| - 1 - i]
  {
    seq(|s|, i requires 0 <= i < |s| => s[|s| - 1 - i])
  }

  lemma {:induction false} ChainIsReversed(mro: seq<Base>)
    ensures Chain(mro) == Reversed(Kept(mro))
  {
    if mro != [] {
      ChainIsReversed(mro[1..]);
      KeptFront(mro);
      assert Reversed(Kept(mro)) == Reversed(Kept(mro[1..])) + (if mro[0].relation then [mro[0].own] else []);
    }
  }

  lemma {:induction false} KeptFront(mro: seq<Base>)
    requires mro != []
    ensures Kept(mro) == (if mro[0].relation then [mro[0].own] else []) + Kept(mro[1..])
  {
    var n := |mro| - 1;
    if n > 0 {
      KeptFront(mro[..n]);
      assert mro[..n][1..] == mro[1..][..n - 1];
    }
  }

  method EffectiveRolesOf(mro: seq<Base>) returns (effective: seq<Role>)
    ensures effective == Accumulated(Chain(mro))
  {
    var chain: seq<Level> := [];
    for i := 0 to |mro|
      invariant chain == Kept(mro[..i])
    {
      assert mro[..i + 1][..i] == mro[..i];
      if mro[i].relation {
        chain := chain + [mro[i].own];
      }
    }
    assert mro[..|mro|] == mro;
    chain := Reversed(chain);
    ChainIsReversed(mro);
    effective := [];
    for i := 0 to |chain|
      invariant effective == Accumulated(chain[..i])
    {
      assert chain[..i + 1][..i] == chain[..i];
      var kept := Filter(effective, chain[i]);
      effective := kept + chain[i];
    }
    assert chain[..|chain|] == chain;
  }

  method Filter(roles: seq<Role>, level: Level) returns (kept: seq<Role>)
    ensures kept == Without(roles, level)
  {
    kept := [];
    for i := 0 to |roles|
      invariant kept == Without(roles[..i], level)
    {
      assert roles[..i + 1][..i] == roles[..i];
      if !Overrides(level, roles[i].name) {
        kept := kept + [roles[i]];
      }
    }
    assert roles[..|roles|] == roles;
  }

  // ---------------------------------------------------------------------------------------
  // The closed form
  // ---------------------------------------------------------------------------------------

  predicate OverriddenBy(levels: seq<Level>, name: string) {
    exists j :: 0 <= j < |levels| && Overrides(levels[j], name)
  }

  /** A level's own roles that no level of `later` overrides. */
  function Surviving(level: Level, later: seq<Level>): seq<Role> {
    if level == [] then []
    else
      var last := level[|level| - 1];
      Surviving(level[..|level| - 1], later) + (if OverriddenBy(later, last.name) then [] else [last])
  }

  /** Level by level, root ancestor first. */
  function Effective(chain: seq<Level>): seq<Role> {
    if chain == [] then [] else Surviving(chain[0], chain[1..]) + Effective(chain[1..])
  }

  lemma {:induction false} WithoutConcat(a: seq<Role>, b: seq<Role>, level: Level)
    ensures Without(a + b, level) == Without(a, level) + Without(b, level)
  {
    if b == [] {
      assert a + b == a;
    } else {
      assert (a + b)[..|a + b| - 1] == a + b[..|b| - 1];
      WithoutConcat(a, b[..|b| - 1], level);
    }
  }

  lemma OverriddenByMore(later: seq<Level>, level: Level, name: string)
    ensures OverriddenBy(later + [level], name) <==> OverriddenBy(later, name) || Overrides(level, name)
  {
    var all := later + [level];
    if OverriddenBy(later, name) {
      var j :| 0 <= j < |later| && Overrides(later[j], name);
      assert all[j] == later[j];
    }
    if Overrides(level, name) {
      assert all[|later|] == level;
    }
  }

  /** One more level below takes away what it overrides. */
  lemma {:induction false} SurvivingMore(own: Level, later: seq<Level>, level: Level)
    ensures Surviving(own, later + [level]) == Without(Surviving(own, later), level)
  {
    if own != [] {
      var n := |own| - 1;
      SurvivingMore(own[..n], later, level);
      OverriddenByMore(later, level, own[n].name);
      var kept := if OverriddenBy(later, own[n].name) then [] else [own[n]];
      WithoutConcat(Surviving(own[..n], later), kept, level);
    }
  }

  lemma {:induction false} SurvivingAll(own: Level)
    ensures Surviving(own, []) == own
  {
    if own != [] {
      SurvivingAll(own[..|own| - 1]);
    }
  }

  /** The closed form composes: a child's list is one step applied to its parent's. */
  lemma {:induction false} EffectiveComposes(chain: seq<Level>, level: Level)
    ensures Effective(chain + [level]) == Specialize(Effective(chain), level)
  {
    if chain == [] {
      assert [level][1..] == [] && chain + [level] == [level];
      SurvivingAll(level);
    } else {
      var rest := chain[1..];
      assert (chain + [level])[1..] == rest + [level];
      EffectiveComposes(rest, level);
      SurvivingMore(chain[0], rest, level);
      WithoutConcat(Surviving(chain[0], rest), Effective(rest), level);
    }
  }

  /** The loop computes the closed form. */
  lemma {:induction false} AccumulatedIsEffective(chain: seq<Level>)
    ensures Accumulated(chain) == Effective(chain)
  {
    if chain != [] {
      var n := |chain| - 1;
      AccumulatedIsEffective(chain[..n]);
      EffectiveComposes(chain[..n], chain[n]);
      assert chain == chain[..n] + [chain[n]];
    }
  }

  /** The list of a direct subclass is one step from its parent's. */
  lemma ChildSpecializesParent(child: Base, parents: seq<Base>)
    requires child.relation
    ensures Effective(Chain([child] + parents)) == Specialize(Effective(Chain(parents)), child.own)
  {
    assert ([child] + parents)[1..] == parents;
    EffectiveComposes(Chain(parents), child.own);
  }
}
