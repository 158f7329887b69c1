/**
 The generated block inside a hand-maintained notice
 (scripts/ci/generate_native_dependency_notice.py): finding it by its markers and replacing it.
 */
module NoticeBlock {
  import opened Prelude
  import opened Text

  datatype Problem =
    | MarkerCount | EndBeforeBegin | NoAppendix | NotRegular | NotUtf8 | Differ | SkeletonsDiffer | Stale | WriteFailed

  // ---------------------------------------------------------------------------------------
  // Counting and finding markers
  // ---------------------------------------------------------------------------------------

  /** Python's str.count from `i` on: occurrences that do not overlap. */
  function Count(s: string, m: string, i: nat): nat
    decreases |s| - i
  {
    if m == [] || i + |m| > |s| then 0
    else if OccursAt(s, m, i) then 1 + Count(s, m, i + |m|)
    else Count(s, m, i + 1)
  }

  /** Python's str.find from `i` on. */
  function Find(s: string, m: string, i: nat): Option<nat>
    decreases |s| - i
  {
    if i + |m| > |s| then None
    else if OccursAt(s, m, i) then Some(i)
    else Find(s, m, i + 1)
  }

  method CountOccurrences(s: string, m: string) returns (n: nat)
    requires m != []
    ensures n == Count(s, m, 0)
  {
    n := 0;
    var i := 0;
    while i + |m| <= |s|
      invariant 0 <= i
      invariant n + Count(s, m, i) == Count(s, m, 0)
      decreases |s| - i
    {
      if s[i..i + |m|] == m {
        n := n + 1;
        i := i + |m|;
      } else {
        i := i + 1;
      }
    }
  }

  /** A marker begins with `<` and ends with `>`, and has neither in between. */
  predicate Marker(m: string) {
    && 2 <= |m| && m[0] == '<' && m[|m| - 1] == '>'
    && (forall i :: 0 < i < |m| ==> m[i] != '<')
    && (forall i :: 0 <= i < |m| - 1 ==> m[i] != '>')
    && '\n' !in m
  }

  /** A pair of markers, neither of which can stand where the other does. */
  datatype Markers = Markers(begin: string, end: string)

  ghost predicate Proper(mk: Markers) {
    && Marker(mk.begin) && Marker(mk.end)
    && exists k :: 0 <= k < |mk.begin| && k < |mk.end| && mk.begin[k] != mk.end[k]
  }

  /** `m` is not counted in `s`. */
  predicate Free(s: string, m: string) {
    Count(s, m, 0) == 0
  }

  /** `m` is counted once in `s` and found at `p`. */
  predicate OnlyAt(s: string, m: string, p: nat) {
    Count(s, m, 0) == 1 && Find(s, m, 0) == Some(p)
  }

  lemma CharOf(s: string, m: string, i: int, k: int)
    requires OccursAt(s, m, i) && 0 <= k < |m|
    ensures s[i + k] == m[k]
  {
    assert s[i..i + |m|][k] == s[i + k];
  }

  /** Two occurrences of markers never overlap. */
  lemma Apart(s: string, m: string, n: string, i: int, j: int)
    requires Marker(m) && Marker(n) && OccursAt(s, m, i) && OccursAt(s, n, j) && i < j
    ensures i + |m| <= j
  {
    CharOf(s, n, j, 0);
    if j < i + |m| {
      CharOf(s, m, i, j - i);
    }
  }

  lemma {:induction false} CountZero(s: string, m: string, i: nat)
    requires Marker(m)
    ensures Count(s, m, i) == 0 <==> forall j :: i <= j <= |s| ==> !OccursAt(s, m, j)
    decreases |s| - i
  {
    if i + |m| <= |s| && !OccursAt(s, m, i) {
      CountZero(s, m, i + 1);
    }
  }

  /** From `i` on, `m` stands at `p` only. */
  predicate OnlyFrom(s: string, m: string, i: nat, p: int) {
    i <= p <= |s| && OccursAt(s, m, p) && forall j :: i <= j <= |s| && OccursAt(s, m, j) ==> j == p
  }

  lemma OnlyThere(s: string, m: string, i: nat)
    requires Marker(m) && OccursAt(s, m, i)
    ensures (exists p :: OnlyFrom(s, m, i, p)) <==> forall j :: i + |m| <= j <= |s| ==> !OccursAt(s, m, j)
  {
    forall j | i < j <= |s| && OccursAt(s, m, j) ensures i + |m| <= j {
      Apart(s, m, m, i, j);
    }
    if forall j :: i + |m| <= j <= |s| ==> !OccursAt(s, m, j) {
      assert OnlyFrom(s, m, i, i);
    }
  }

  lemma OnlyLater(s: string, m: string, i: nat, n: nat)
    requires !OccursAt(s, m, i) && n == i + 1
    ensures (exists p :: OnlyFrom(s, m, i, p)) <==> (exists p :: OnlyFrom(s, m, n, p))
  {
    if p :| OnlyFrom(s, m, i, p) { assert OnlyFrom(s, m, n, p); }
    if p :| OnlyFrom(s, m, n, p) { assert OnlyFrom(s, m, i, p); }
  }

  /** Exactly one counted means exactly one there. */
  lemma {:induction false} CountOne(s: string, m: string, i: nat)
    requires Marker(m)
    ensures Count(s, m, i) == 1 <==> exists p :: OnlyFrom(s, m, i, p)
    decreases |s| - i
  {
    if i + |m| <= |s| {
      if OccursAt(s, m, i) {
        CountZero(s, m, i + |m|);
        OnlyThere(s, m, i);
      } else {
        CountOne(s, m, i + 1);
        OnlyLater(s, m, i, i + 1);
      }
    }
  }

  lemma {:induction false} FindIs(s: string, m: string, i: nat)
    requires Marker(m)
    ensures Find(s, m, i).None? <==> forall j :: i <= j <= |s| ==> !OccursAt(s, m, j)
    ensures Find(s, m, i).Some? ==> i <= Find(s, m, i).value && OccursAt(s, m, Find(s, m, i).value)
    decreases |s| - i
  {
    if i + |m| <= |s| && !OccursAt(s, m, i) {
      FindIs(s, m, i + 1);
    }
  }

  // ---------------------------------------------------------------------------------------
  // Bounds, skeleton and replacement
  // ---------------------------------------------------------------------------------------

  function Bounds(mk: Markers, notice: string): Result<Option<(nat, nat)>, Problem> {
    var begins, ends := Count(notice, mk.begin, 0), Count(notice, mk.end, 0);
    if begins == 0 && ends == 0 then Ok(None)
    else if begins != 1 || ends != 1 then Err(MarkerCount)
    else
      var begin := Find(notice, mk.begin, 0);
      if begin.None? then Err(MarkerCount)
      else
        var end := Find(notice, mk.end, begin.value);
        if end.None? then Err(EndBeforeBegin) else Ok(Some((begin.value, end.value + |mk.end|)))
  }

  /** The notice with an empty generated block. */
  function Skeleton(mk: Markers, notice: string): Result<Option<string>, Problem> {
    var bounds := Bounds(mk, notice);
    if bounds.Err? then Err(bounds.error)
    else if bounds.value.None? then Ok(None)
    else
      var (begin, end) := bounds.value.value;
      if begin <= end <= |notice| then Ok(Some(notice[..begin] + mk.begin + mk.end + notice[end..])) else Err(EndBeforeBegin)
  }

  function Separator(notice: string): string {
    var n := |notice|;
    if 2 <= n && notice[n - 2..] == "\n\n" then ""
    else if 1 <= n && notice[n - 1] == '\n' then "\n"
    else "\n\n"
  }

  function Replace(mk: Markers, notice: string, block: string, allowMissing: bool): Result<string, Problem> {
    var bounds := Bounds(mk, notice);
    if bounds.Err? then Err(bounds.error)
    else if bounds.value.None? then
      if allowMissing then Ok(notice + Separator(notice) + block + "\n") else Err(NoAppendix)
    else
      var (begin, end) := bounds.value.value;
      if begin <= end <= |notice| then Ok(notice[..begin] + block + notice[end..]) else Err(EndBeforeBegin)
  }

  /** A block begins and ends with its markers, and contains each of them once. */
  predicate Block(mk: Markers, block: string) {
    OnlyAt(block, mk.begin, 0) && |mk.end| <= |block| && OnlyAt(block, mk.end, |block| - |mk.end|)
  }

  predicate MarkerFree(mk: Markers, s: string) {
    Free(s, mk.begin) && Free(s, mk.end)
  }

  /** No occurrence of a marker straddles the edge of a block. */
  lemma NoStraddle(a: string, block: string, c: string, m: string, i: int)
    requires Marker(m) && block != [] && block[0] == '<' && block[|block| - 1] == '>'
    requires OccursAt(a + block + c, m, i)
    ensures i + |m| <= |a| || (|a| <= i && i + |m| <= |a| + |block|) || |a| + |block| <= i
  {
    var s := a + block + c;
    assert s[|a|] == '<' && s[|a| + |block| - 1] == '>';
    if i < |a| < i + |m| {
      CharOf(s, m, i, |a| - i);
    }
    if i < |a| + |block| < i + |m| {
      CharOf(s, m, i, |a| + |block| - 1 - i);
    }
  }

  /** So an occurrence in the whole is an occurrence in one of the three parts. */
  lemma OccurrenceInPart(a: string, block: string, c: string, m: string, i: int)
    requires Marker(m) && block != [] && block[0] == '<' && block[|block| - 1] == '>'
    requires OccursAt(a + block + c, m, i)
    ensures OccursAt(a, m, i) || OccursAt(block, m, i - |a|) || OccursAt(c, m, i - |a| - |block|)
  {
    var s := a + block + c;
    NoStraddle(a, block, c, m, i);
    if i + |m| <= |a| {
      assert s[i..i + |m|] == a[i..i + |m|];
    } else if |a| <= i && i + |m| <= |a| + |block| {
      assert s[i..i + |m|] == block[i - |a|..i - |a| + |m|];
    } else {
      var k := i - |a| - |block|;
      assert s[i..i + |m|] == c[k..k + |m|];
    }
  }

  /** A marker that is counted once stands exactly where it is found. */
  lemma OnlyAtIs(s: string, m: string, p: nat)
    requires Marker(m)
    ensures OnlyAt(s, m, p) <==> OnlyFrom(s, m, 0, p)
  {
    CountOne(s, m, 0);
    FindIs(s, m, 0);
  }

  /** Wherever the search starts before it, it is found. */
  lemma FoundFrom(s: string, m: string, p: nat, i: nat)
    requires Marker(m) && OnlyAt(s, m, p) && i <= p
    ensures Find(s, m, i) == Some(p)
  {
    OnlyAtIs(s, m, p);
    FindIs(s, m, i);
  }

  lemma OnlyInBlock(a: string, block: string, c: string, m: string, p: nat)
    requires Marker(m) && block != [] && block[0] == '<' && block[|block| - 1] == '>'
    requires Free(a, m) && Free(c, m) && OnlyAt(block, m, p)
    ensures OnlyAt(a + block + c, m, |a| + p)
  {
    var s := a + block + c;
    CountZero(a, m, 0);
    CountZero(c, m, 0);
    OnlyAtIs(block, m, p);
    assert s[|a| + p..|a| + p + |m|] == block[p..p + |m|];
    forall i | 0 <= i <= |s| && OccursAt(s, m, i) ensures i == |a| + p {
      OccurrenceInPart(a, block, c, m, i);
    }
    OnlyAtIs(s, m, |a| + p);
  }

  lemma BlockEnds(mk: Markers, block: string)
    requires Proper(mk) && Block(mk, block)
    ensures block != [] && block[0] == '<' && block[|block| - 1] == '>'
  {
    OnlyAtIs(block, mk.begin, 0);
    OnlyAtIs(block, mk.end, |block| - |mk.end|);
    CharOf(block, mk.begin, 0, 0);
    CharOf(block, mk.end, |block| - |mk.end|, |mk.end| - 1);
  }

  lemma BlockIsOnly(mk: Markers, a: string, block: string, c: string)
    requires Proper(mk) && Block(mk, block) && MarkerFree(mk, a) && MarkerFree(mk, c)
    ensures OnlyAt(a + block + c, mk.begin, |a|)
    ensures OnlyAt(a + block + c, mk.end, |a| + |block| - |mk.end|)
  {
    BlockEnds(mk, block);
    OnlyInBlock(a, block, c, mk.begin, 0);
    OnlyInBlock(a, block, c, mk.end, |block| - |mk.end|);
  }

  /** The bounds where each marker stands once. */
  lemma BoundsFromOnly(mk: Markers, s: string, p: nat, q: nat)
    requires Marker(mk.end) && OnlyAt(s, mk.begin, p) && OnlyAt(s, mk.end, q) && p <= q
    ensures Bounds(mk, s) == Ok(Some((p, q + |mk.end|)))
  {
    FoundFrom(s, mk.end, q, p);
  }

  /** The bounds of a block placed between two marker-free texts. */
  lemma BoundsOfBlock(mk: Markers, a: string, block: string, c: string)
    requires Proper(mk) && Block(mk, block) && MarkerFree(mk, a) && MarkerFree(mk, c)
    ensures Bounds(mk, a + block + c) == Ok(Some((|a|, |a| + |block|)))
  {
    BlockIsOnly(mk, a, block, c);
    BoundsFromOnly(mk, a + block + c, |a|, |a| + |block| - |mk.end|);
  }

  /** Bounds mean that each marker occurs once, the beginning first. */
  lemma BoundsToOnly(mk: Markers, s: string) returns (p: nat, q: nat)
    requires Proper(mk) && Bounds(mk, s).Ok? && Bounds(mk, s).value.Some?
    ensures Bounds(mk, s).value.value == (p, q + |mk.end|)
    ensures OnlyAt(s, mk.begin, p) && OnlyAt(s, mk.end, q) && p + |mk.begin| <= q
  {
    p := Find(s, mk.begin, 0).value;
    q := Find(s, mk.end, p).value;
    FoundOnly(s, mk.end, p);
    OnlyAtIs(s, mk.begin, p);
    OnlyAtIs(s, mk.end, q);
    MarkersApart(mk, s, p, q);
  }

  /** If a marker is counted once, wherever it is found is its only place. */
  lemma FoundOnly(s: string, m: string, i: nat)
    requires Marker(m) && Count(s, m, 0) == 1
    ensures Find(s, m, i).Some? ==> i <= Find(s, m, i).value && OnlyAt(s, m, Find(s, m, i).value)
  {
    CountOne(s, m, 0);
    var p :| OnlyFrom(s, m, 0, p);
    FindIs(s, m, i);
    OnlyAtIs(s, m, p);
  }

  lemma MarkersApart(mk: Markers, s: string, p: nat, q: nat)
    requires Proper(mk) && OccursAt(s, mk.begin, p) && OccursAt(s, mk.end, q) && p <= q
    ensures p + |mk.begin| <= q
  {
    var k :| 0 <= k < |mk.begin| && k < |mk.end| && mk.begin[k] != mk.end[k];
    CharOf(s, mk.begin, p, k);
    CharOf(s, mk.end, q, k);
    Apart(s, mk.begin, mk.end, p, q);
  }

  /** So they split a notice into marker-free text around one block. */
  lemma BoundsSplit(mk: Markers, s: string)
    requires Proper(mk) && Bounds(mk, s).Ok? && Bounds(mk, s).value.Some?
    ensures var (begin, end) := Bounds(mk, s).value.value;
            begin < end <= |s| && MarkerFree(mk, s[..begin]) && MarkerFree(mk, s[end..])
  {
    var p, q := BoundsToOnly(mk, s);
    MarkersSplit(mk, s, p, q);
  }

  lemma MarkersSplit(mk: Markers, s: string, p: nat, q: nat)
    requires Proper(mk) && OnlyAt(s, mk.begin, p) && OnlyAt(s, mk.end, q) && p + |mk.begin| <= q
    ensures p < q + |mk.end| <= |s| && MarkerFree(mk, s[..p]) && MarkerFree(mk, s[q + |mk.end|..])
  {
    OnlyAtIs(s, mk.end, q);
    FreeAround(s, mk.begin, p, p, q + |mk.end|);
    FreeAround(s, mk.end, q, p, q + |mk.end|);
  }

  lemma OccursInWhole(s: string, lo: nat, part: string, m: string, i: int)
    requires lo + |part| <= |s| && OccursAt(part, m, i) && forall k :: 0 <= k < |part| ==> part[k] == s[lo + k]
    ensures OccursAt(s, m, lo + i)
  {
    var there := s[lo + i..lo + i + |m|];
    assert forall k :: 0 <= k < |m| ==> there[k] == part[i + k] == m[k] by {
      forall k | 0 <= k < |m| ensures part[i + k] == m[k] { CharOf(part, m, i, k); }
    }
    assert there == m;
  }

  lemma FreeAround(s: string, m: string, p: nat, begin: nat, end: nat)
    requires Marker(m) && begin <= p && p + |m| <= end <= |s| && OnlyAt(s, m, p)
    ensures Free(s[..begin], m) && Free(s[end..], m)
  {
    OnlyAtIs(s, m, p);
    CountZero(s[..begin], m, 0);
    CountZero(s[end..], m, 0);
    forall i | 0 <= i <= begin ensures !OccursAt(s[..begin], m, i) {
      if OccursAt(s[..begin], m, i) { OccursInWhole(s, 0, s[..begin], m, i); }
    }
    forall i | 0 <= i <= |s| - end ensures !OccursAt(s[end..], m, i) {
      if OccursAt(s[end..], m, i) { OccursInWhole(s, end, s[end..], m, i); }
    }
  }

  /** A marker does not end in line feeds. */
  lemma EndsBefore(s: string, tail: string, m: string, i: int)
    requires Marker(m) && OccursAt(s + tail, m, i) && forall j :: 0 <= j < |tail| ==> tail[j] == '\n'
    ensures OccursAt(s, m, i)
  {
    CharOf(s + tail, m, i, |m| - 1);
    assert i + |m| <= |s|;
    assert (s + tail)[i..i + |m|] == s[i..i + |m|];
  }

  /** Line feeds at the end of marker-free text create no marker. */
  lemma FreeWithNewlines(s: string, tail: string, m: string)
    requires Marker(m) && Free(s, m) && forall i :: 0 <= i < |tail| ==> tail[i] == '\n'
    ensures Free(s + tail, m)
  {
    var t := s + tail;
    CountZero(s, m, 0);
    CountZero(t, m, 0);
    forall i | 0 <= i <= |t| ensures !OccursAt(t, m, i) {
      if OccursAt(t, m, i) {
        EndsBefore(s, tail, m, i);
      }
    }
  }

  /** The text before and after the block that `Replace` leaves in place. */
  lemma ReplacedShape(mk: Markers, notice: string, block: string, allowMissing: bool) returns (a: string, c: string)
    requires Proper(mk) && Block(mk, block) && Replace(mk, notice, block, allowMissing).Ok?
    ensures Replace(mk, notice, block, allowMissing) == Ok(a + block + c)
    ensures MarkerFree(mk, a) && MarkerFree(mk, c)
    ensures Bounds(mk, notice).value.Some? ==>
              var (begin, end) := Bounds(mk, notice).value.value;
              begin <= end <= |notice| && a == notice[..begin] && c == notice[end..]
    ensures Bounds(mk, notice).value.None? ==> a == notice + Separator(notice) && c == "\n"
  {
    if Bounds(mk, notice).value.Some? {
      BoundsSplit(mk, notice);
      var (begin, end) := Bounds(mk, notice).value.value;
      a, c := notice[..begin], notice[end..];
    } else {
      a, c := notice + Separator(notice), "\n";
      FreeWithNewlines(notice, Separator(notice), mk.begin);
      FreeWithNewlines(notice, Separator(notice), mk.end);
      FreeWithNewlines("", "\n", mk.begin);
      FreeWithNewlines("", "\n", mk.end);
      assert "" + "\n" == c;
    }
  }

  lemma PartsOf(a: string, block: string, c: string)
    ensures var s := a + block + c; s[..|a|] == a && s[|a| + |block|..] == c
  {
  }

  /** Replacing a block between two marker-free texts. */
  lemma ReplaceInside(mk: Markers, a: string, block: string, c: string, newer: string)
    requires Proper(mk) && Block(mk, block) && MarkerFree(mk, a) && MarkerFree(mk, c)
    ensures Replace(mk, a + block + c, newer, false) == Ok(a + newer + c)
  {
    BoundsOfBlock(mk, a, block, c);
    PartsOf(a, block, c);
  }

  lemma SkeletonInside(mk: Markers, a: string, block: string, c: string)
    requires Proper(mk) && Block(mk, block) && MarkerFree(mk, a) && MarkerFree(mk, c)
    ensures Skeleton(mk, a + block + c) == Ok(Some(a + mk.begin + mk.end + c))
  {
    BoundsOfBlock(mk, a, block, c);
    PartsOf(a, block, c);
  }

  /** Replacing is idempotent, also after an appendix was first added. */
  lemma ReplaceIsIdempotent(mk: Markers, notice: string, block: string, allowMissing: bool)
    requires Proper(mk) && Block(mk, block) && Replace(mk, notice, block, allowMissing).Ok?
    ensures Replace(mk, Replace(mk, notice, block, allowMissing).value, block, false) ==
            Replace(mk, notice, block, allowMissing)
  {
    var a, c := ReplacedShape(mk, notice, block, allowMissing);
    ReplaceInside(mk, a, block, c, block);
  }

  /** Replacing with any block keeps the hand-maintained text; adding an appendix only appends to it. */
  lemma ReplaceKeepsSkeleton(mk: Markers, notice: string, block: string, allowMissing: bool)
    requires Proper(mk) && Block(mk, block) && Replace(mk, notice, block, allowMissing).Ok?
    ensures Bounds(mk, notice).value.Some? ==> Skeleton(mk, Replace(mk, notice, block, allowMissing).value) == Skeleton(mk, notice)
    ensures Bounds(mk, notice).value.None? ==>
              Skeleton(mk, Replace(mk, notice, block, allowMissing).value) ==
              Ok(Some(notice + Separator(notice) + mk.begin + mk.end + "\n"))
  {
    var a, c := ReplacedShape(mk, notice, block, allowMissing);
    SkeletonInside(mk, a, block, c);
  }

  /** Two replacements in a row are the second one. */
  lemma LastReplacementWins(mk: Markers, notice: string, block: string, newer: string, allowMissing: bool)
    requires Proper(mk) && Block(mk, block) && Block(mk, newer) && Replace(mk, notice, block, allowMissing).Ok?
    ensures Replace(mk, Replace(mk, notice, block, allowMissing).value, newer, false) == Replace(mk, notice, newer, allowMissing)
  {
    var a, c := ReplacedShape(mk, notice, block, allowMissing);
    var a', c' := ReplacedShape(mk, notice, newer, allowMissing);
    ReplaceInside(mk, a, block, c, newer);
  }
}
