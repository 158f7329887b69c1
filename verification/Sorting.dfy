/** Python's `sorted`: a stable insertion sort over any total preorder, and string order. */
module Sorting {

  ghost predicate Preorder<T(!new)>(le: (T, T) -> bool) {
    && (forall x, y :: le(x, y) || le(y, x))
    && (forall x, y, z :: le(x, y) && le(y, z) ==> le(x, z))
  }

  /** Among the elements of `s`, only equals are tied. */
  ghost predicate NoTies<T>(s: seq<T>, le: (T, T) -> bool) {
    forall x, y :: x in s && y in s && le(x, y) && le(y, x) ==> x == y
  }

  predicate Ordered<T>(s: seq<T>, le: (T, T) -> bool) {
    forall i, j :: 0 <= i < j < |s| ==> le(s[i], s[j])
  }

  /** `x` goes before the first element strictly above it, so after its equals. */
  function Insert<T>(s: seq<T>, x: T, le: (T, T) -> bool): seq<T> {
    if s == [] then [x]
    else if le(s[|s| - 1], x) then s + [x]
    else Insert(s[..|s| - 1], x, le) + [s[|s| - 1]]
  }

  function Sort<T>(s: seq<T>, le: (T, T) -> bool): seq<T> {
    if s == [] then [] else Insert(Sort(s[..|s| - 1], le), s[|s| - 1], le)
  }

  lemma {:induction false} InsertPermutes<T>(s: seq<T>, x: T, le: (T, T) -> bool)
    ensures multiset(Insert(s, x, le)) == multiset(s) + multiset{x}
  {
    if s != [] {
      assert s == s[..|s| - 1] + [s[|s| - 1]];
      InsertPermutes(s[..|s| - 1], x, le);
    }
  }

  lemma {:induction false} InsertOrders<T(!new)>(s: seq<T>, x: T, le: (T, T) -> bool)
    requires Preorder(le) && Ordered(s, le)
    ensures Ordered(Insert(s, x, le), le)
  {
    if s != [] && !le(s[|s| - 1], x) {
      var last := s[|s| - 1];
      var front := Insert(s[..|s| - 1], x, le);
      InsertOrders(s[..|s| - 1], x, le);
      InsertPermutes(s[..|s| - 1], x, le);
      forall i | 0 <= i < |front| ensures le(front[i], last) {
        assert front[i] in multiset(front);
        if front[i] != x {
          assert front[i] in s[..|s| - 1];
        }
      }
    } else if s != [] {
      var r := Insert(s, x, le);
      forall i, j | 0 <= i < j < |r| ensures le(r[i], r[j]) {
        if j == |s| { assert i == |s| - 1 || le(s[i], s[|s| - 1]); }
      }
    }
  }

  /** Sorting permutes and orders. */
  lemma {:induction false} SortSorts<T(!new)>(s: seq<T>, le: (T, T) -> bool)
    requires Preorder(le)
    ensures multiset(Sort(s, le)) == multiset(s) && Ordered(Sort(s, le), le) && |Sort(s, le)| == |s|
  {
    if s != [] {
      var front := s[..|s| - 1];
      assert s == front + [s[|s| - 1]];
      SortSorts(front, le);
      InsertPermutes(Sort(front, le), s[|s| - 1], le);
      InsertOrders(Sort(front, le), s[|s| - 1], le);
    }
    assert |multiset(Sort(s, le))| == |multiset(s)|;
  }

  lemma SameElements<T>(a: seq<T>, b: seq<T>)
    requires multiset(a) == multiset(b)
    ensures forall x :: x in a <==> x in b
  {
    forall x ensures x in a <==> x in b {
      assert x in a <==> x in multiset(a);
      assert x in b <==> x in multiset(b);
    }
  }

  lemma SameLast<T(!new)>(a: seq<T>, b: seq<T>, le: (T, T) -> bool)
    requires Preorder(le) && NoTies(a, le)
    requires Ordered(a, le) && Ordered(b, le) && multiset(a) == multiset(b) && |a| == |b| > 0
    ensures a[|a| - 1] == b[|b| - 1]
  {
    var n := |a| - 1;
    SameElements(a, b);
    assert a[n] in b && b[n] in a;
    var i :| 0 <= i < |b| && b[i] == a[n];
    var j :| 0 <= j < |a| && a[j] == b[n];
  }

  lemma DropLast<T>(a: seq<T>)
    requires a != []
    ensures multiset(a[..|a| - 1]) == multiset(a) - multiset{a[|a| - 1]}
  {
    assert a == a[..|a| - 1] + [a[|a| - 1]];
  }

  lemma FrontKeeps<T(!new)>(a: seq<T>, le: (T, T) -> bool)
    requires a != [] && Ordered(a, le)
    ensures Ordered(a[..|a| - 1], le)
    ensures NoTies(a, le) ==> NoTies(a[..|a| - 1], le)
  {
    var front := a[..|a| - 1];
    forall i, j | 0 <= i < j < |front| ensures le(front[i], front[j]) {
      assert le(a[i], a[j]);
    }
    forall x | x in front ensures x in a {
    }
  }

  lemma SameLength<T>(a: seq<T>, b: seq<T>)
    requires multiset(a) == multiset(b)
    ensures |a| == |b|
  {
    assert |a| == |multiset(a)| == |multiset(b)| == |b|;
  }

  lemma SameFront<T(!new)>(a: seq<T>, b: seq<T>, le: (T, T) -> bool)
    requires Preorder(le) && NoTies(a, le)
    requires Ordered(a, le) && Ordered(b, le) && multiset(a) == multiset(b) && |a| == |b| > 0
    ensures a[|a| - 1] == b[|b| - 1] && multiset(a[..|a| - 1]) == multiset(b[..|b| - 1])
  {
    SameLast(a, b, le);
    DropLast(a);
    DropLast(b);
  }

  lemma SameSnoc<T>(a: seq<T>, b: seq<T>)
    requires |a| == |b| > 0 && a[..|a| - 1] == b[..|b| - 1] && a[|a| - 1] == b[|b| - 1]
    ensures a == b
  {
    assert a == a[..|a| - 1] + [a[|a| - 1]] && b == b[..|b| - 1] + [b[|b| - 1]];
  }

  /** There is only one way to order a given collection by an order. */
  lemma {:induction false} OrderedUnique<T(!new)>(a: seq<T>, b: seq<T>, le: (T, T) -> bool)
    requires Preorder(le) && NoTies(a, le)
    requires Ordered(a, le) && Ordered(b, le) && multiset(a) == multiset(b)
    ensures a == b
  {
    SameLength(a, b);
    if a != [] {
      SameFront(a, b, le);
      FrontKeeps(a, le);
      FrontKeeps(b, le);
      OrderedUnique(a[..|a| - 1], b[..|b| - 1], le);
      SameSnoc(a, b);
    }
  }

  predicate NoRepeats<T(==)>(s: seq<T>) {
    forall j, k :: 0 <= j < k < |s| ==> s[j] != s[k]
  }

  lemma NoRepeatsSnoc<T>(s: seq<T>, x: T)
    ensures NoRepeats(s + [x]) <==> NoRepeats(s) && x !in s
  {
    if NoRepeats(s + [x]) {
      forall j, k | 0 <= j < k < |s| ensures s[j] != s[k] {
        assert (s + [x])[j] != (s + [x])[k];
      }
      forall j | 0 <= j < |s| ensures s[j] != x {
        assert (s + [x])[j] != (s + [x])[|s|];
      }
    }
  }

  lemma {:induction false} NoRepeatsCount<T>(s: seq<T>, x: T)
    requires NoRepeats(s)
    ensures multiset(s)[x] == if x in s then 1 else 0
  {
    if s != [] {
      var n := |s| - 1;
      assert s == s[..n] + [s[n]];
      NoRepeatsCount(s[..n], x);
      assert s[n] !in s[..n];
    }
  }

  lemma RepeatCounts<T>(s: seq<T>, j: nat, k: nat)
    requires j < k < |s| && s[j] == s[k]
    ensures multiset(s)[s[k]] >= 2
  {
    assert s == s[..k] + [s[k]] + s[k + 1..];
    assert s[j] in s[..k];
    assert multiset(s[..k])[s[k]] >= 1;
  }

  lemma PermutedNoRepeats<T>(s: seq<T>, t: seq<T>)
    requires NoRepeats(s) && multiset(s) == multiset(t)
    ensures NoRepeats(t)
  {
    forall j, k | 0 <= j < k < |t| ensures t[j] != t[k] {
      if t[j] == t[k] {
        RepeatCounts(t, j, k);
        NoRepeatsCount(s, t[k]);
        assert false;
      }
    }
  }

  /** Python compares strings by code point, position by position. */
  predicate StringLeq(a: string, b: string) {
    if a == [] then true
    else if b == [] then false
    else if a[0] != b[0] then a[0] < b[0]
    else StringLeq(a[1..], b[1..])
  }

  lemma {:induction false} StringLeqTotal(a: string, b: string)
    ensures StringLeq(a, b) || StringLeq(b, a)
    ensures StringLeq(a, b) && StringLeq(b, a) ==> a == b
  {
    if a != [] && b != [] && a[0] == b[0] {
      StringLeqTotal(a[1..], b[1..]);
      assert a == [a[0]] + a[1..] && b == [b[0]] + b[1..];
    }
  }

  lemma {:induction false} StringLeqTransitive(a: string, b: string, c: string)
    requires StringLeq(a, b) && StringLeq(b, c)
    ensures StringLeq(a, c)
  {
    if a != [] && b != [] && c != [] && a[0] == b[0] == c[0] {
      StringLeqTransitive(a[1..], b[1..], c[1..]);
    }
  }

  lemma StringLeqIsOrder()
    ensures Preorder(StringLeq)
    ensures forall x, y :: StringLeq(x, y) && StringLeq(y, x) ==> x == y
  {
    forall x, y ensures (StringLeq(x, y) || StringLeq(y, x)) && (StringLeq(x, y) && StringLeq(y, x) ==> x == y) {
      StringLeqTotal(x, y);
    }
    forall x, y, z | StringLeq(x, y) && StringLeq(y, z) ensures StringLeq(x, z) {
      StringLeqTransitive(x, y, z);
    }
  }
}
