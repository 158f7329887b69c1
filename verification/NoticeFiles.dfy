/**
 Keeping the copies of the notice in step (check_or_write_notices in
 scripts/ci/generate_native_dependency_notice.py): all copies are read, the generated block of the
 first is replaced, and every copy is rewritten, one file after the other. The last copy may be
 missing when writing.
 */
module NoticeFiles {
  import opened Prelude
  import opened NoticeBlock

  function Tag(name: string): string {
    "<" + name + ">"
  }

  const BEGIN := Tag("!-- BEGIN " + SUBJECT)
  const END := Tag("!-- END " + SUBJECT)
  const SUBJECT := "GENERATED" + " RUST" + " DEPENDENCY" + " NOTICE --"

  predicate Plain(s: string) {
    '<' !in s && '>' !in s && '\n' !in s
  }

  lemma TagIsMarker(name: string)
    requires Plain(name)
    ensures Marker(Tag(name))
  {
    var m := Tag(name);
    assert forall i :: 0 < i < |m| - 1 ==> m[i] == name[i - 1] && m[i] in name;
  }

  lemma PlainJoin(a: string, b: string)
    requires Plain(a) && Plain(b)
    ensures Plain(a + b)
  {
  }

  lemma SubjectIsPlain()
    ensures Plain(SUBJECT)
  {
    PlainJoin("GENERATED", " RUST");
    PlainJoin("GENERATED" + " RUST", " DEPENDENCY");
    PlainJoin("GENERATED" + " RUST" + " DEPENDENCY", " NOTICE --");
  }

  /** Two tags whose names differ early are proper markers. */
  lemma TagsAreProper(a: string, b: string, k: nat)
    requires Plain(a) && Plain(b) && k < |a| && k < |b| && a[k] != b[k]
    ensures Proper(Markers(Tag(a), Tag(b)))
  {
    TagIsMarker(a);
    TagIsMarker(b);
    assert Tag(a)[k + 1] == a[k] && Tag(b)[k + 1] == b[k];
  }

  /** The markers of the real notice are proper ones. */
  lemma NoticeMarkersAreProper()
    ensures Proper(Markers(BEGIN, END))
  {
    SubjectIsPlain();
    PlainJoin("!-- BEGIN ", SUBJECT);
    PlainJoin("!-- END ", SUBJECT);
    TagsAreProper("!-- BEGIN " + SUBJECT, "!-- END " + SUBJECT, 4);
  }

  /**
   A path: absent, a regular file, a link to one, a file that is not UTF-8, a directory, something else that
   exists such as a link to a directory, or a link to nothing, whose target may or may not be creatable.
   */
  datatype File =
    | Missing
    | Regular(text: string)
    | Linked(text: string)
    | Binary(linked: bool)
    | Directory
    | Special
    | Dangling(creatable: bool)

  predicate IsFile(f: File) {
    f.Regular? || f.Linked? || f.Binary?
  }

  predicate IsLink(f: File) {
    f.Linked? || f == Binary(true) || f.Dangling?
  }

  predicate HasText(f: File) {
    f.Regular? || f.Linked?
  }

  /** Writing replaces what exists by a regular file, and creates what does not, through a dangling link. */
  function WrittenTo(f: File, text: string): File {
    if f.Dangling? then Linked(text) else Regular(text)
  }

  predicate Unwritable(f: File) {
    f.Directory? || f == Dangling(false)
  }

  /** Path `i` may take part: only the last may be absent or linked, and only when writing. */
  predicate PathOk(files: seq<File>, i: nat, write: bool)
    requires i < |files|
  {
    files[i].Regular? || files[i] == Binary(false) || (write && i == |files| - 1)
  }

  predicate SameText(files: seq<File>, s: string) {
    forall i :: 0 <= i < |files| && HasText(files[i]) ==> files[i].text == s
  }

  predicate SameSkeleton(mk: Markers, files: seq<File>, sk: Result<Option<string>, Problem>) {
    forall i :: 0 <= i < |files| && HasText(files[i]) ==> Skeleton(mk, files[i].text) == sk
  }

  function First(files: seq<File>): string
    requires files != []
  {
    if HasText(files[0]) then files[0].text else ""
  }

  /** The text every copy should have, or why there is none. */
  function Expected(mk: Markers, files: seq<File>, block: string, write: bool): Result<string, Problem>
    requires 2 <= |files|
  {
    if exists i :: 0 <= i < |files| && !PathOk(files, i, write) then Err(NotRegular)
    else if exists i :: 0 <= i < |files| && files[i].Binary? then Err(NotUtf8)
    else if !SameText(files, First(files)) && !write then Err(Differ)
    else
      var sk := Skeleton(mk, First(files));
      if !SameText(files, First(files)) && (sk.Err? || sk.value.None? || !SameSkeleton(mk, files, sk)) then
        Err(SkeletonsDiffer)
      else Replace(mk, First(files), block, write)
  }

  /** The first `k` copies rewritten. */
  function Written(files: seq<File>, text: string, k: nat): seq<File>
    requires k <= |files|
  {
    seq(|files|, i requires 0 <= i < |files| => if i < k then WrittenTo(files[i], text) else files[i])
  }

  function Check(mk: Markers, files: seq<File>, block: string): Option<Problem>
    requires 2 <= |files|
  {
    var e := Expected(mk, files, block, false);
    if e.Err? then Some(e.error) else if First(files) != e.value then Some(Stale) else None
  }

  /** Rewriting all copies, which a directory or a link into nowhere in the last place prevents. */
  function Rewrite(files: seq<File>, text: string): (seq<File>, Option<Problem>)
    requires 2 <= |files|
  {
    var n := |files|;
    if Unwritable(files[n - 1]) then (Written(files, text, n - 1), Some(WriteFailed)) else (Written(files, text, n), None)
  }

  function Write(mk: Markers, files: seq<File>, block: string): (seq<File>, Option<Problem>)
    requires 2 <= |files|
  {
    var e := Expected(mk, files, block, true);
    if e.Err? then (files, Some(e.error)) else Rewrite(files, e.value)
  }

  // ---------------------------------------------------------------------------------------
  // Write, then check
  // ---------------------------------------------------------------------------------------

  lemma UniformExpected(mk: Markers, files: seq<File>, block: string, write: bool, s: string)
    requires 2 <= |files| && AllRegular(files, s)
    ensures Expected(mk, files, block, write) == Replace(mk, s, block, write)
  {
    assert forall i :: 0 <= i < |files| ==> PathOk(files, i, write);
  }

  /** Every copy has the text. */
  predicate AllHave(files: seq<File>, text: string) {
    forall i :: 0 <= i < |files| ==> HasText(files[i]) && files[i].text == text
  }

  /** Only the last of the paths that may be written can be a dangling link. */
  lemma OnlyLastDangles(mk: Markers, files: seq<File>, block: string)
    requires 2 <= |files| && Expected(mk, files, block, true).Ok?
    ensures forall i :: 0 <= i < |files| - 1 ==> !files[i].Dangling?
  {
    forall i | 0 <= i < |files| - 1 ensures !files[i].Dangling? {
      assert PathOk(files, i, true);
    }
  }

  /** Every copy is a regular file with the text. */
  predicate AllRegular(files: seq<File>, text: string) {
    forall i :: 0 <= i < |files| ==> files[i] == Regular(text)
  }

  lemma WrittenRegular(files: seq<File>, e: string)
    requires files != [] && (forall i :: 0 <= i < |files| - 1 ==> !files[i].Dangling?) && !files[|files| - 1].Dangling?
    ensures AllRegular(Written(files, e, |files|), e)
  {
  }

  lemma WriteIs(mk: Markers, files: seq<File>, block: string, e: string)
    requires 2 <= |files| && Write(mk, files, block).1.None? && Expected(mk, files, block, true) == Ok(e)
    ensures Write(mk, files, block) == (Written(files, e, |files|), None)
  {
  }

  /** A rewrite leaves regular files everywhere but behind a dangling link. */
  lemma WrittenLeaves(files: seq<File>, e: string)
    requires files != [] && forall i :: 0 <= i < |files| - 1 ==> !files[i].Dangling?
    ensures var after, n := Written(files, e, |files|), |files| - 1;
            && |after| == |files| && AllHave(after, e) && (forall i :: 0 <= i < n ==> after[i] == Regular(e))
            && after[n] == (if files[n].Dangling? then Linked(e) else Regular(e))
  {
  }

  lemma RewriteLeaves(mk: Markers, files: seq<File>, block: string)
    requires 2 <= |files| && Write(mk, files, block).1.None?
    ensures var after, e, n := Write(mk, files, block).0, Expected(mk, files, block, true).value, |files| - 1;
            && |after| == |files| && AllHave(after, e) && (forall i :: 0 <= i < n ==> after[i] == Regular(e))
            && after[n] == (if files[n].Dangling? then Linked(e) else Regular(e))
  {
    OnlyLastDangles(mk, files, block);
    WrittenLeaves(files, Expected(mk, files, block, true).value);
  }

  /** After a successful write the check with the same block succeeds, and writing again changes nothing, if and
      only if the last path was no dangling link: that is written through and stays a link, which the check rejects. */
  lemma WriteThenCheck(mk: Markers, files: seq<File>, block: string)
    requires Proper(mk) && 2 <= |files| && Block(mk, block) && Write(mk, files, block).1.None?
    ensures var after, dangling := Write(mk, files, block).0, files[|files| - 1].Dangling?;
            && (Check(mk, after, block).None? <==> !dangling)
            && (Write(mk, after, block) == (after, None) <==> !dangling)
            && (dangling ==> Check(mk, after, block) == Some(NotRegular))
  {
    if files[|files| - 1].Dangling? {
      LinkIsRejected(mk, files, block);
    } else {
      RegularIsAccepted(mk, files, block);
    }
  }

  lemma RegularIsAccepted(mk: Markers, files: seq<File>, block: string)
    requires Proper(mk) && 2 <= |files| && Block(mk, block) && Write(mk, files, block).1.None?
    requires !files[|files| - 1].Dangling?
    ensures var after := Write(mk, files, block).0; Check(mk, after, block).None? && Write(mk, after, block) == (after, None)
  {
    var e := ExpectedIsStable(mk, files, block);
    WriteIs(mk, files, block, e);
    OnlyLastDangles(mk, files, block);
    WrittenRegular(files, e);
    UniformAccepted(mk, Written(files, e, |files|), block, e);
  }

  /** The expected text is what it would itself be replaced by. */
  lemma ExpectedIsStable(mk: Markers, files: seq<File>, block: string) returns (e: string)
    requires Proper(mk) && 2 <= |files| && Block(mk, block) && Expected(mk, files, block, true).Ok?
    ensures Expected(mk, files, block, true) == Ok(e)
    ensures Replace(mk, e, block, false) == Replace(mk, e, block, true) == Ok(e)
  {
    FirstReplaced(mk, files, block);
    ReplacedIsStable(mk, files[0].text, block);
    e := Replace(mk, files[0].text, block, true).value;
  }

  lemma UniformAccepted(mk: Markers, files: seq<File>, block: string, e: string)
    requires 2 <= |files| && AllRegular(files, e)
    requires Replace(mk, e, block, false) == Replace(mk, e, block, true) == Ok(e)
    ensures Check(mk, files, block).None? && Write(mk, files, block) == (files, None)
  {
    UniformExpected(mk, files, block, false, e);
    UniformExpected(mk, files, block, true, e);
    assert Written(files, e, |files|) == files;
  }

  lemma LinkIsRejected(mk: Markers, files: seq<File>, block: string)
    requires Proper(mk) && 2 <= |files| && Block(mk, block) && Write(mk, files, block).1.None?
    requires files[|files| - 1].Dangling?
    ensures var after := Write(mk, files, block).0;
            Check(mk, after, block) == Some(NotRegular) && Write(mk, after, block).0 != after
  {
    var after, n := Write(mk, files, block).0, |files| - 1;
    RewriteLeaves(mk, files, block);
    assert !PathOk(after, n, false);
    WriteStays(mk, files, block);
    assert Write(mk, after, block).0[n].Regular? && after[n].Linked?;
  }

  /** Writing again always succeeds with the same text, now with regular files everywhere. */
  lemma WriteStays(mk: Markers, files: seq<File>, block: string)
    requires Proper(mk) && 2 <= |files| && Block(mk, block) && Write(mk, files, block).1.None?
    ensures var e := Expected(mk, files, block, true).value;
            var (again, problem) := Write(mk, Write(mk, files, block).0, block);
            problem == None && |again| == |files| && forall i :: 0 <= i < |files| ==> again[i] == Regular(e)
  {
    var after := Write(mk, files, block).0;
    RewriteLeaves(mk, files, block);
    var e := ExpectedIsStable(mk, files, block);
    AgreeingExpected(mk, after, block, e);
    assert forall i :: 0 <= i < |after| ==> WrittenTo(after[i], e) == Regular(e);
  }

  /** So a second write makes the check succeed whatever the last path was. */
  lemma WriteTwiceThenCheck(mk: Markers, files: seq<File>, block: string)
    requires Proper(mk) && 2 <= |files| && Block(mk, block) && Write(mk, files, block).1.None?
    ensures Check(mk, Write(mk, Write(mk, files, block).0, block).0, block).None?
  {
    var after := Write(mk, files, block).0;
    WriteStays(mk, files, block);
    RewriteLeaves(mk, files, block);
    WriteThenCheck(mk, after, block);
  }

  /** The failing family is real: three notices and a dangling link. */
  lemma DanglingLinkFailsTheCheck(mk: Markers, block: string)
    requires Proper(mk) && Block(mk, block)
    ensures var files := [Regular(""), Regular(""), Regular(""), Dangling(true)];
            var (after, problem) := Write(mk, files, block);
            problem == None && after[3].Linked? && Check(mk, after, block) == Some(NotRegular)
  {
    var files := [Regular(""), Regular(""), Regular(""), Dangling(true)];
    FreshNotice(mk, block);
    assert forall i :: 0 <= i < |files| ==> PathOk(files, i, true);
    AgreeingExpected(mk, files, block, "");
    WriteThenCheck(mk, files, block);
  }

  lemma FreshNotice(mk: Markers, block: string)
    requires Proper(mk)
    ensures Bounds(mk, "") == Ok(None) && Replace(mk, "", block, true).Ok?
  {
    CountZero("", mk.begin, 0);
    CountZero("", mk.end, 0);
  }

  lemma FirstReplaced(mk: Markers, files: seq<File>, block: string)
    requires 2 <= |files| && Expected(mk, files, block, true).Ok?
    ensures files[0].Regular?
    ensures Expected(mk, files, block, true) == Replace(mk, files[0].text, block, true)
  {
    assert PathOk(files, 0, true);
  }

  lemma ReplaceAllowsMore(mk: Markers, notice: string, block: string)
    requires Replace(mk, notice, block, false).Ok?
    ensures Replace(mk, notice, block, true) == Replace(mk, notice, block, false)
  {
  }

  /** The hand-maintained text of the first copy survives a write in every copy. */
  lemma WriteKeepsSkeleton(mk: Markers, files: seq<File>, block: string, i: nat)
    requires Proper(mk) && 2 <= |files| && Block(mk, block) && Write(mk, files, block).1.None? && i < |files|
    ensures files[0].Regular? && Bounds(mk, files[0].text).Ok? && HasText(Write(mk, files, block).0[i])
    ensures Bounds(mk, files[0].text).value.Some? ==>
              Skeleton(mk, Write(mk, files, block).0[i].text) == Skeleton(mk, files[0].text)
    ensures Bounds(mk, files[0].text).value.None? ==>
              Skeleton(mk, Write(mk, files, block).0[i].text)
              == Ok(Some(files[0].text + Separator(files[0].text) + mk.begin + mk.end + "\n"))
  {
    FirstReplaced(mk, files, block);
    RewriteLeaves(mk, files, block);
    ReplaceKeepsSkeleton(mk, files[0].text, block, true);
  }

  // ---------------------------------------------------------------------------------------
  // Interrupted writes
  // ---------------------------------------------------------------------------------------

  /** Had the notice a generated block before the write began? */
  predicate HadBlock(mk: Markers, files: seq<File>)
    requires 2 <= |files|
  {
    files[0].Regular? && Bounds(mk, files[0].text).Ok? && Bounds(mk, files[0].text).value.Some?
  }

  /**
   A write interrupted after `k` copies is completed by writing again exactly when the notice already
   had a block, or nothing had been written, or no unwritten copy has a text.
   */
  lemma InterruptedWriteRecovers(mk: Markers, files: seq<File>, block: string, k: nat)
    requires Proper(mk) && 2 <= |files| && Block(mk, block) && Write(mk, files, block).1.None? && k <= |files|
    ensures var e := Expected(mk, files, block, true).value;
            Completes(mk, Written(files, e, k), block, e) <==>
            HadBlock(mk, files) || k == 0 || forall i :: k <= i < |files| ==> !HasText(files[i])
  {
    var e := Expected(mk, files, block, true).value;
    var partly := Written(files, e, k);
    PartlyWritable(mk, files, block, e, k);
    if k == 0 {
      assert partly == files;
      RewriteAgain(mk, partly, block, e);
    } else if HadBlock(mk, files) {
      PartlyWithBlock(mk, files, block, k);
      RewriteAgain(mk, partly, block, e);
    } else if forall i :: k <= i < |files| ==> !HasText(files[i]) {
      PartlyComplete(mk, files, block, k);
      RewriteAgain(mk, partly, block, e);
    } else {
      PartlyWithoutBlock(mk, files, block, k);
      DoesNotComplete(mk, partly, block, e);
    }
  }

  lemma PartlyWritable(mk: Markers, files: seq<File>, block: string, e: string, k: nat)
    requires 2 <= |files| && Write(mk, files, block).1.None? && k <= |files|
    ensures !Unwritable(Written(files, e, k)[|files| - 1])
  {
    assert !Unwritable(files[|files| - 1]);
  }

  lemma DoesNotComplete(mk: Markers, files: seq<File>, block: string, e: string)
    requires 2 <= |files| && Expected(mk, files, block, true).Err?
    ensures !Completes(mk, files, block, e)
  {
  }

  /** Writing succeeds and gives every copy the text. */
  predicate Completes(mk: Markers, files: seq<File>, block: string, text: string)
    requires 2 <= |files|
  {
    Write(mk, files, block).1 == None && AllHave(Write(mk, files, block).0, text)
  }

  lemma RewriteAgain(mk: Markers, files: seq<File>, block: string, e: string)
    requires 2 <= |files| && !Unwritable(files[|files| - 1]) && Expected(mk, files, block, true) == Ok(e)
    ensures Completes(mk, files, block, e)
  {
    AllWritten(files, e);
  }

  lemma AllWritten(files: seq<File>, text: string)
    ensures AllHave(Written(files, text, |files|), text)
  {
  }

  /** The failing family is real: four notices without a block, interrupted after the first. */
  lemma InterruptedWriteCanStick(mk: Markers, block: string)
    requires Proper(mk) && Block(mk, block)
    ensures var files := [Regular(""), Regular(""), Regular(""), Regular("")];
            && Write(mk, files, block).1 == None
            && Write(mk, Written(files, Expected(mk, files, block, true).value, 1), block).1 == Some(SkeletonsDiffer)
  {
    var files := [Regular(""), Regular(""), Regular(""), Regular("")];
    FreshNotice(mk, block);
    assert forall i :: 0 <= i < |files| ==> PathOk(files, i, true);
    AgreeingExpected(mk, files, block, "");
    assert HasText(files[1]);
    PartlyWithoutBlock(mk, files, block, 1);
  }

  lemma PartlyPaths(mk: Markers, files: seq<File>, block: string, e: string, k: nat)
    requires 2 <= |files| && 0 < k <= |files| && Expected(mk, files, block, true).Ok?
    ensures var partly := Written(files, e, k);
            && (forall i :: 0 <= i < |partly| ==> PathOk(partly, i, true) && !partly[i].Binary?)
            && partly[0] == Regular(e)
  {
    var partly := Written(files, e, k);
    forall i | 0 <= i < |partly| ensures PathOk(partly, i, true) && !partly[i].Binary? {
      assert PathOk(files, i, true) && !files[i].Binary?;
    }
  }

  lemma PartlyWithBlock(mk: Markers, files: seq<File>, block: string, k: nat)
    requires Proper(mk) && 2 <= |files| && Block(mk, block) && 0 < k <= |files|
    requires Expected(mk, files, block, true).Ok? && HadBlock(mk, files)
    ensures var e := Expected(mk, files, block, true).value;
            Expected(mk, Written(files, e, k), block, true) == Ok(e)
  {
    var e := ExpectedIsStable(mk, files, block);
    PartlyPaths(mk, files, block, e, k);
    PartlySkeletons(mk, files, block, k);
    BlockedExpected(mk, Written(files, e, k), block, e);
  }

  lemma PartlySkeletons(mk: Markers, files: seq<File>, block: string, k: nat)
    requires Proper(mk) && 2 <= |files| && Block(mk, block) && 0 < k <= |files|
    requires Expected(mk, files, block, true).Ok? && HadBlock(mk, files)
    ensures var e := Expected(mk, files, block, true).value;
            && Skeleton(mk, e).Ok? && Skeleton(mk, e).value.Some?
            && SameSkeleton(mk, Written(files, e, k), Skeleton(mk, e))
  {
    var e := Expected(mk, files, block, true).value;
    var partly := Written(files, e, k);
    FirstReplaced(mk, files, block);
    ReplaceKeepsSkeleton(mk, files[0].text, block, true);
    BoundsSplit(mk, files[0].text);
    forall i | 0 <= i < |partly| && HasText(partly[i]) ensures Skeleton(mk, partly[i].text) == Skeleton(mk, e) {
      if k <= i {
        assert partly[i] == files[i];
      }
    }
  }

  /** Copies that differ only inside their blocks. */
  lemma BlockedExpected(mk: Markers, files: seq<File>, block: string, s: string)
    requires 2 <= |files| && files[0] == Regular(s)
    requires Skeleton(mk, s).Ok? && Skeleton(mk, s).value.Some? && SameSkeleton(mk, files, Skeleton(mk, s))
    requires forall i :: 0 <= i < |files| ==> PathOk(files, i, true) && !files[i].Binary?
    ensures Expected(mk, files, block, true) == Replace(mk, s, block, true)
  {
  }

  lemma ReplacedIsStable(mk: Markers, notice: string, block: string)
    requires Proper(mk) && Block(mk, block) && Replace(mk, notice, block, true).Ok?
    ensures var e := Replace(mk, notice, block, true).value; Replace(mk, e, block, false) == Replace(mk, e, block, true) == Ok(e)
  {
    ReplaceIsIdempotent(mk, notice, block, true);
    ReplaceAllowsMore(mk, Replace(mk, notice, block, true).value, block);
  }

  lemma AgreeingExpected(mk: Markers, files: seq<File>, block: string, s: string)
    requires 2 <= |files| && files[0] == Regular(s) && SameText(files, s)
    requires forall i :: 0 <= i < |files| ==> PathOk(files, i, true) && !files[i].Binary?
    ensures Expected(mk, files, block, true) == Replace(mk, s, block, true)
  {
  }

  lemma PartlyComplete(mk: Markers, files: seq<File>, block: string, k: nat)
    requires Proper(mk) && 2 <= |files| && Block(mk, block) && 0 < k <= |files|
    requires Expected(mk, files, block, true).Ok? && forall i :: k <= i < |files| ==> !HasText(files[i])
    ensures var e := Expected(mk, files, block, true).value;
            Expected(mk, Written(files, e, k), block, true) == Ok(e)
  {
    var e := ExpectedIsStable(mk, files, block);
    PartlyPaths(mk, files, block, e, k);
    PartlySameText(files, e, k);
    AgreeingExpected(mk, Written(files, e, k), block, e);
  }

  lemma PartlySameText(files: seq<File>, e: string, k: nat)
    requires k <= |files| && forall i :: k <= i < |files| ==> !HasText(files[i])
    ensures SameText(Written(files, e, k), e)
  {
  }

  lemma PartlyWithoutBlock(mk: Markers, files: seq<File>, block: string, k: nat)
    requires Proper(mk) && 2 <= |files| && Block(mk, block) && 0 < k <= |files|
    requires Write(mk, files, block).1.None? && !HadBlock(mk, files)
    requires exists i :: k <= i < |files| && HasText(files[i])
    ensures var e := Expected(mk, files, block, true).value;
            Expected(mk, Written(files, e, k), block, true) == Err(SkeletonsDiffer)
  {
    var e := Expected(mk, files, block, true).value;
    var i :| k <= i < |files| && HasText(files[i]);
    PartlyPaths(mk, files, block, e, k);
    UnwrittenHasNoBlock(mk, files, block, i);
    FirstReplaced(mk, files, block);
    ReplaceKeepsSkeleton(mk, files[0].text, block, true);
    SkeletonsDisagree(mk, Written(files, e, k), block, e, i);
  }

  /** A copy without a block beside a first one that has one. */
  lemma SkeletonsDisagree(mk: Markers, files: seq<File>, block: string, e: string, i: nat)
    requires 2 <= |files| && i < |files| && files[0] == Regular(e)
    requires forall i :: 0 <= i < |files| ==> PathOk(files, i, true) && !files[i].Binary?
    requires HasText(files[i]) && Skeleton(mk, files[i].text) == Ok(None) != Skeleton(mk, e)
    ensures Expected(mk, files, block, true) == Err(SkeletonsDiffer)
  {
    assert !SameText(files, e) && !SameSkeleton(mk, files, Skeleton(mk, e));
  }

  /** Without a block all copies were identical, so a copy that exists has none either. */
  lemma UnwrittenHasNoBlock(mk: Markers, files: seq<File>, block: string, i: nat)
    requires 2 <= |files| && Write(mk, files, block).1.None? && !HadBlock(mk, files)
    requires i < |files| && HasText(files[i])
    ensures Skeleton(mk, files[i].text) == Ok(None)
  {
    FirstReplaced(mk, files, block);
    assert PathOk(files, i, true);
    assert !files[i].Binary?;
    assert Skeleton(mk, files[0].text) == Ok(None);
    assert SameText(files, files[0].text);
  }

  // ---------------------------------------------------------------------------------------
  // The files themselves
  // ---------------------------------------------------------------------------------------

  class Workspace {
    var files: seq<File>

    constructor (files: seq<File>)
      ensures this.files == files
    {
      this.files := files;
    }

    method ReadAll(mk: Markers, block: string, write: bool) returns (r: Result<string, Problem>)
      requires 2 <= |files|
      ensures r == Expected(mk, files, block, write)
    {
      for i := 0 to |files|
        invariant forall k :: 0 <= k < i ==> PathOk(files, k, write)
      {
        if (!IsFile(files[i]) || IsLink(files[i])) && !(write && i == |files| - 1) {
          assert !PathOk(files, i, write);
          return Err(NotRegular);
        }
      }
      for i := 0 to |files|
        invariant forall k :: 0 <= k < i ==> !files[k].Binary?
      {
        if files[i].Binary? {
          return Err(NotUtf8);
        }
      }
      assert PathOk(files, 0, write);
      var first := files[0].text;
      var same := SameText(files, first);
      if !same {
        if !write {
          return Err(Differ);
        }
        var sk := Skeleton(mk, first);
        if sk.Err? || sk.value.None? || !SameSkeleton(mk, files, sk) {
          return Err(SkeletonsDiffer);
        }
      }
      return Replace(mk, first, block, write);
    }

    /** Check, or rewrite one copy after the other; `stop` copies are written before an interruption. */
    method CheckOrWrite(mk: Markers, block: string, write: bool, stop: nat) returns (problem: Option<Problem>)
      requires 2 <= |files|
      modifies this
      ensures |files| == |old(files)|
      ensures !write ==> files == old(files) && problem == Check(mk, files, block)
      ensures write && |files| <= stop ==> (files, problem) == Write(mk, old(files), block)
      ensures write && stop < |files| ==>
                files == old(files) ||
                (Expected(mk, old(files), block, true).Ok?
                 && files == Written(old(files), Expected(mk, old(files), block, true).value, stop))
    {
      ghost var was := files;
      var e := ReadAll(mk, block, write);
      if e.Err? {
        return Some(e.error);
      }
      if !write {
        if First(files) != e.value {
          return Some(Stale);
        }
        return None;
      }
      assert Written(was, e.value, 0) == was;
      for i := 0 to |files|
        invariant i <= stop && |files| == |was|
        invariant forall k :: 0 <= k < i ==> !Unwritable(was[k])
        invariant files == Written(was, e.value, i)
      {
        if i == stop {
          return Some(WriteFailed);
        }
        if Unwritable(files[i]) {
          assert PathOk(was, i, true);
          return Some(WriteFailed);
        }
        files := files[i := WrittenTo(files[i], e.value)];
        assert files == Written(was, e.value, i + 1);
      }
      return None;
    }
  }
}
