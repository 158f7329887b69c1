/**
 Promotion of the C release payloads onto an existing draft (scripts/ci/promote_c_release.py).

 A run checks every selected asset already on the draft, signs what has no bundle yet and uploads
 the missing names. It can be killed between any two of these actions; only uploads are visible
 outside. Whoever else works on the draft may change it meanwhile; most results let them change everything
 but the selected names. Each run has an output directory of its own: its files are created exclusively, so a
 used one cannot be used again.
 */
module Promotion {
  import opened Prelude
  import opened Sorting
  import opened Text

  type Name = string
  newtype Byte = b: int | 0 <= b < 256
  type Bytes = seq<Byte>
  type Assets = map<Name, Bytes>

  const SUFFIX := ".sigstore.json"

  function BundleOf(name: Name): Name {
    name + SUFFIX
  }

  predicate IsBundle(name: Name) {
    |SUFFIX| <= |name| && name[|name| - |SUFFIX|..] == SUFFIX
  }

  function PayloadOf(name: Name): Name {
    if IsBundle(name) then name[..|name| - |SUFFIX|] else name
  }

  lemma BundleRoundTrip(name: Name)
    ensures IsBundle(BundleOf(name)) && PayloadOf(BundleOf(name)) == name
    ensures IsBundle(name) ==> BundleOf(PayloadOf(name)) == name
  {
  }

  /** What one promotion works with; `valid(payload, bundle)` is the signature verification. */
  datatype Job = Job(files: seq<Name>, staged: map<Name, Bytes>, source: string, valid: (Bytes, Bytes) -> bool)

  predicate WellFormed(job: Job) {
    && NoRepeats(job.files)
    && (forall f :: f in job.files ==> f in job.staged && !IsBundle(f))
  }

  /** The record of an asset is its bytes, for which its size and digest stand, and whatever else is `listed` of it;
      what is listed under a name without an asset has no meaning. */
  datatype Release =
    Release(draft: bool, prerelease: bool, target: string, body: string, assets: Assets, listed: Name -> string)

  predicate SameRecord(a: Release, b: Release, n: Name)
    requires n in a.assets && n in b.assets
  {
    a.assets[n] == b.assets[n] && a.listed(n) == b.listed(n)
  }

  function Bundles(files: seq<Name>): seq<Name> {
    if files == [] then [] else [BundleOf(files[0])] + Bundles(files[1..])
  }

  /** All selected names in sorted order. */
  function Selected(files: seq<Name>): seq<Name> {
    Sort(files + Bundles(files), StringLeq)
  }

  function OnDraft(names: seq<Name>, assets: Assets): seq<Name> {
    if names == [] then []
    else
      var last := names[|names| - 1];
      OnDraft(names[..|names| - 1], assets) + (if last in assets then [last] else [])
  }

  function NotOnDraft(names: seq<Name>, assets: Assets): seq<Name> {
    if names == [] then []
    else
      var last := names[|names| - 1];
      NotOnDraft(names[..|names| - 1], assets) + (if last !in assets then [last] else [])
  }

  function Unsigned(files: seq<Name>, assets: Assets): seq<Name> {
    if files == [] then []
    else
      var last := files[|files| - 1];
      Unsigned(files[..|files| - 1], assets) + (if BundleOf(last) !in assets then [last] else [])
  }

  datatype Action = Check(name: Name) | Sign(name: Name) | Upload(name: Name)

  function Checks(names: seq<Name>): (actions: seq<Action>)
    ensures |actions| == |names| && forall i :: 0 <= i < |names| ==> actions[i] == Check(names[i])
  {
    seq(|names|, i requires 0 <= i < |names| => Check(names[i]))
  }

  function Signatures(names: seq<Name>): (actions: seq<Action>)
    ensures |actions| == |names| && forall i :: 0 <= i < |names| ==> actions[i] == Sign(names[i])
  {
    seq(|names|, i requires 0 <= i < |names| => Sign(names[i]))
  }

  function Uploads(names: seq<Name>): (actions: seq<Action>)
    ensures |actions| == |names| && forall i :: 0 <= i < |names| ==> actions[i] == Upload(names[i])
  {
    seq(|names|, i requires 0 <= i < |names| => Upload(names[i]))
  }

  /** Everything one uninterrupted run does to a draft holding `assets`, in order. */
  function Actions(job: Job, assets: Assets): seq<Action> {
    Checks(OnDraft(Selected(job.files), assets))
    + Signatures(Unsigned(job.files, assets))
    + Uploads(NotOnDraft(Selected(job.files), assets))
  }

  /** An asset on the draft agrees with staging: identical payload, or a bundle that verifies it. */
  predicate AgreesWith(job: Job, name: Name, bytes: Bytes) {
    if name in job.files then name in job.staged && bytes == job.staged[name]
    else PayloadOf(name) in job.staged && job.valid(job.staged[PayloadOf(name)], bytes)
  }

  predicate ActionOk(job: Job, signer: Name -> Bytes, assets: Assets, a: Action) {
    match a
    case Check(n) => n in assets && AgreesWith(job, n, assets[n])
    case Sign(f) => f in job.staged && job.valid(job.staged[f], signer(f))
    case Upload(_) => true
  }

  /** The staged bytes behind a selected name, after signing. */
  function Payload(job: Job, signer: Name -> Bytes, assets: Assets, name: Name): Bytes {
    if name in job.files && name in job.staged then job.staged[name]
    else if name in assets then assets[name]
    else signer(PayloadOf(name))
  }

  /** The draft after performing `actions`, having started from `assets`. */
  function After(job: Job, signer: Name -> Bytes, assets: Assets, actions: seq<Action>): Assets {
    if actions == [] then assets
    else
      var before := After(job, signer, assets, actions[..|actions| - 1]);
      var a := actions[|actions| - 1];
      if a.Upload? then before[a.name := Payload(job, signer, assets, a.name)] else before
  }

  predicate Admissible(job: Job, r: Release) {
    && r.draft && !r.prerelease && r.target == job.source
    && forall n :: n in r.assets && (StartsWith(n, "type-bridge-c-") || StartsWith(n, "type-bridge-cli-")) ==>
         n in Selected(job.files)
  }

  /** Every selected asset on the draft agrees with staging. */
  predicate Clean(job: Job, assets: Assets) {
    forall n :: n in Selected(job.files) && n in assets ==> AgreesWith(job, n, assets[n])
  }

  predicate Complete(job: Job, assets: Assets) {
    forall n :: n in Selected(job.files) ==> n in assets
  }

  /** Every selected asset has the staged bytes. */
  predicate Delivered(job: Job, signer: Name -> Bytes, before: Assets, after: Assets) {
    forall n :: n in Selected(job.files) ==> n in after && after[n] == Payload(job, signer, before, n)
  }

  /** Every file is verified by its bundle. */
  predicate Verified(job: Job, assets: Assets) {
    forall f :: f in job.files ==> f in assets && BundleOf(f) in assets && job.valid(assets[f], assets[BundleOf(f)])
  }

  /** Whether the draft is accepted when it is read back at the end. */
  predicate FinalOk(job: Job, signer: Name -> Bytes, before: Release, after: Release) {
    && after.draft && after.target == job.source && after.body == before.body
    && Delivered(job, signer, before.assets, after.assets) && Verified(job, after.assets)
    && (forall n :: n in before.assets && n !in Selected(job.files) ==>
          n in after.assets && SameRecord(after, before, n))
    && (forall n :: n in after.assets && n !in Selected(job.files) ==> n in before.assets)
  }

  datatype Outcome = Inadmissible | Killed | BadAsset | Drifted | Promoted

  /** What one run from `before` does, killed when it has performed `kill` actions, and what it makes of the draft
      it reads back in the end, whoever changed that meanwhile. */
  predicate Acted(job: Job, signer: Name -> Bytes, kill: nat, before: Release, after: Release,
                  log: seq<Action>, outcome: Outcome)
  {
    var plan := Actions(job, before.assets);
    && log <= plan
    && (forall i :: 0 <= i < |log| ==> ActionOk(job, signer, before.assets, log[i]))
    && match outcome
       case Inadmissible => log == [] && !Admissible(job, before)
       case Killed => Admissible(job, before) && |log| == kill < |plan|
       case BadAsset =>
         Admissible(job, before) && |log| < |plan| && |log| < kill && !ActionOk(job, signer, before.assets, plan[|log|])
       case Drifted => Admissible(job, before) && log == plan && !FinalOk(job, signer, before, after)
       case Promoted => Admissible(job, before) && log == plan && FinalOk(job, signer, before, after)
  }

  predicate SameSelected(job: Job, a: Assets, b: Assets) {
    forall n :: n in Selected(job.files) ==>
      (n in a <==> n in b) && (n in a && n in b ==> a[n] == b[n])
  }

  /** One run from `before` to `after`, while others change the draft but not its selected names. */
  predicate Ran(job: Job, signer: Name -> Bytes, kill: nat, before: Release, after: Release,
                log: seq<Action>, outcome: Outcome)
  {
    && Acted(job, signer, kill, before, after, log, outcome)
    && SameSelected(job, After(job, signer, before.assets, log), after.assets)
  }

  // ---------------------------------------------------------------------------------------
  // Names
  // ---------------------------------------------------------------------------------------

  lemma {:induction false} BundlesAre(files: seq<Name>, n: Name)
    ensures n in Bundles(files) <==> IsBundle(n) && PayloadOf(n) in files
  {
    if files != [] {
      BundlesAre(files[1..], n);
      BundleRoundTrip(files[0]);
      BundleRoundTrip(n);
      assert files == [files[0]] + files[1..];
    }
  }

  lemma SelectedAre(files: seq<Name>, n: Name)
    ensures n in Selected(files) <==> n in files || (IsBundle(n) && PayloadOf(n) in files)
  {
    StringLeqIsOrder();
    SortSorts(files + Bundles(files), StringLeq);
    SameElements(Selected(files), files + Bundles(files));
    BundlesAre(files, n);
  }

  lemma {:induction false} BundlesDistinct(files: seq<Name>)
    requires NoRepeats(files)
    ensures |Bundles(files)| == |files| && NoRepeats(Bundles(files))
  {
    if files != [] {
      BundlesDistinct(files[1..]);
      BundlesAre(files[1..], BundleOf(files[0]));
      BundleRoundTrip(files[0]);
      assert files[0] !in files[1..];
      assert BundleOf(files[0]) !in Bundles(files[1..]);
    }
  }

  lemma SelectedDistinct(job: Job)
    requires WellFormed(job)
    ensures NoRepeats(Selected(job.files))
  {
    var all := job.files + Bundles(job.files);
    BundlesDistinct(job.files);
    forall i, j | 0 <= i < j < |all| ensures all[i] != all[j] {
      if i < |job.files| <= j {
        BundlesAre(job.files, all[j]);
        assert all[j] in Bundles(job.files);
        assert all[i] in job.files;
      } else if |job.files| <= i {
        assert all[i] == Bundles(job.files)[i - |job.files|];
        assert all[j] == Bundles(job.files)[j - |job.files|];
      }
    }
    StringLeqIsOrder();
    SortSorts(all, StringLeq);
    PermutedNoRepeats(all, Selected(job.files));
  }

  lemma {:induction false} OnDraftAre(names: seq<Name>, assets: Assets, n: Name)
    ensures n in OnDraft(names, assets) <==> n in names && n in assets
    ensures n in NotOnDraft(names, assets) <==> n in names && n !in assets
  {
    if names != [] {
      assert names == names[..|names| - 1] + [names[|names| - 1]];
      OnDraftAre(names[..|names| - 1], assets, n);
    }
  }

  lemma {:induction false} UnsignedAre(files: seq<Name>, assets: Assets, f: Name)
    ensures f in Unsigned(files, assets) <==> f in files && BundleOf(f) !in assets
  {
    if files != [] {
      assert files == files[..|files| - 1] + [files[|files| - 1]];
      UnsignedAre(files[..|files| - 1], assets, f);
    }
  }

  lemma {:induction false} NotOnDraftDistinct(names: seq<Name>, assets: Assets)
    requires NoRepeats(names)
    ensures NoRepeats(NotOnDraft(names, assets))
  {
    if names != [] {
      var k := |names| - 1;
      NotOnDraftDistinct(names[..k], assets);
      OnDraftAre(names[..k], assets, names[k]);
      assert names[k] !in names[..k];
    }
  }

  /** Where each kind of action stands in the plan. */
  lemma PlanShape(job: Job, assets: Assets, i: nat)
    requires i < |Actions(job, assets)|
    ensures var plan := Actions(job, assets);
            var c := |OnDraft(Selected(job.files), assets)|;
            var s := |Unsigned(job.files, assets)|;
            && (i < c ==> plan[i] == Check(OnDraft(Selected(job.files), assets)[i]))
            && (c <= i < c + s ==> plan[i] == Sign(Unsigned(job.files, assets)[i - c]))
            && (c + s <= i ==> plan[i] == Upload(NotOnDraft(Selected(job.files), assets)[i - c - s]))
  {
  }

  lemma PlannedUploads(job: Job, assets: Assets, i: nat)
    requires WellFormed(job) && i < |Actions(job, assets)| && Actions(job, assets)[i].Upload?
    ensures var n := Actions(job, assets)[i].name;
            && n in Selected(job.files) && n !in assets
            && forall j :: 0 <= j < i ==> Actions(job, assets)[j] != Actions(job, assets)[i]
  {
    var plan := Actions(job, assets);
    var missing := NotOnDraft(Selected(job.files), assets);
    PlanShape(job, assets, i);
    OnDraftAre(Selected(job.files), assets, plan[i].name);
    assert plan[i].name in missing;
    SelectedDistinct(job);
    NotOnDraftDistinct(Selected(job.files), assets);
    forall j | 0 <= j < i ensures plan[j] != plan[i] {
      PlanShape(job, assets, j);
    }
  }

  // ---------------------------------------------------------------------------------------
  // One run
  // ---------------------------------------------------------------------------------------

  /** The draft after any part of a run: the old assets and the uploads so far. */
  lemma {:induction false} AfterAre(job: Job, signer: Name -> Bytes, assets: Assets, log: seq<Action>, n: Name)
    ensures var after := After(job, signer, assets, log);
            && (n in after <==> n in assets || Upload(n) in log)
            && (n in after && Upload(n) in log ==> after[n] == Payload(job, signer, assets, n))
            && (n in after && Upload(n) !in log ==> n in assets && after[n] == assets[n])
    decreases |log|
  {
    if log != [] {
      AfterAre(job, signer, assets, log[..|log| - 1], n);
      assert log == log[..|log| - 1] + [log[|log| - 1]];
    }
  }

  /** Whatever comes after the checks comes after all of them. */
  lemma CheckedBefore(job: Job, assets: Assets, log: seq<Action>, i: nat, m: Name)
    requires log <= Actions(job, assets) && i < |log| && !log[i].Check?
    requires m in Selected(job.files) && m in assets
    ensures Check(m) in log
  {
    var existing := OnDraft(Selected(job.files), assets);
    PlanShape(job, assets, i);
    OnDraftAre(Selected(job.files), assets, m);
    var j :| 0 <= j < |existing| && existing[j] == m;
    assert log[j] == Actions(job, assets)[j] == Check(m);
  }

  /** Whatever comes after the signatures comes after all of them. */
  lemma SignedBefore(job: Job, assets: Assets, log: seq<Action>, i: nat, f: Name)
    requires log <= Actions(job, assets) && i < |log| && log[i].Upload?
    requires f in job.files && BundleOf(f) !in assets
    ensures Sign(f) in log
  {
    var existing, unsigned := OnDraft(Selected(job.files), assets), Unsigned(job.files, assets);
    PlanShape(job, assets, i);
    UnsignedAre(job.files, assets, f);
    var j :| 0 <= j < |unsigned| && unsigned[j] == f;
    assert log[|existing| + j] == Actions(job, assets)[|existing| + j] == Sign(f);
  }

  /** An upload is only ever reached after every check and every needed signature of the plan. */
  lemma UploadComesLast(job: Job, assets: Assets, log: seq<Action>, n: Name)
    requires log <= Actions(job, assets) && Upload(n) in log
    ensures forall m :: m in Selected(job.files) && m in assets ==> Check(m) in log
    ensures forall f :: f in job.files && BundleOf(f) !in assets ==> Sign(f) in log
  {
    var i :| 0 <= i < |log| && log[i] == Upload(n);
    forall m | m in Selected(job.files) && m in assets ensures Check(m) in log {
      CheckedBefore(job, assets, log, i, m);
    }
    forall f | f in job.files && BundleOf(f) !in assets ensures Sign(f) in log {
      SignedBefore(job, assets, log, i, f);
    }
  }

  /** Nothing is signed before every existing asset has been checked. */
  lemma SignComesAfterChecks(job: Job, assets: Assets, log: seq<Action>, f: Name)
    requires log <= Actions(job, assets) && Sign(f) in log
    ensures forall m :: m in Selected(job.files) && m in assets ==> Check(m) in log
  {
    var i :| 0 <= i < |log| && log[i] == Sign(f);
    forall m | m in Selected(job.files) && m in assets ensures Check(m) in log {
      CheckedBefore(job, assets, log, i, m);
    }
  }

  /** For a draft that disagrees with staging anywhere nothing is signed and nothing uploaded. */
  lemma DisagreementOnlyChecks(
    job: Job, signer: Name -> Bytes, kill: nat, before: Release, after: Release, log: seq<Action>, outcome: Outcome, a: Action)
    requires WellFormed(job) && Ran(job, signer, kill, before, after, log, outcome)
    requires !Clean(job, before.assets) && a in log
    ensures a.Check?
  {
    var bad :| bad in Selected(job.files) && bad in before.assets && !AgreesWith(job, bad, before.assets[bad]);
    if a.Sign? {
      SignComesAfterChecks(job, before.assets, log, a.name);
      CheckedAgrees(job, signer, before.assets, log, bad);
    } else if a.Upload? {
      UploadComesLast(job, before.assets, log, a.name);
      CheckedAgrees(job, signer, before.assets, log, bad);
    }
  }

  /** So its selected assets are left as they are. */
  lemma DisagreementLeavesDraft(
    job: Job, signer: Name -> Bytes, kill: nat, before: Release, after: Release, log: seq<Action>, outcome: Outcome)
    requires WellFormed(job) && Ran(job, signer, kill, before, after, log, outcome) && !Clean(job, before.assets)
    ensures SameSelected(job, before.assets, after.assets)
  {
    forall a | a in log ensures a.Check? {
      DisagreementOnlyChecks(job, signer, kill, before, after, log, outcome, a);
    }
    UntouchedWithoutUpload(job, signer, before.assets, log);
  }

  /** And the run never gets to its end: one that does found every selected asset in agreement. */
  lemma FinishedFoundAgreement(
    job: Job, signer: Name -> Bytes, kill: nat, before: Release, after: Release, log: seq<Action>, outcome: Outcome, n: Name)
    requires WellFormed(job) && Ran(job, signer, kill, before, after, log, outcome)
    requires outcome == Promoted || outcome == Drifted
    requires n in Selected(job.files) && n in before.assets
    ensures AgreesWith(job, n, before.assets[n])
  {
    OnDraftAre(Selected(job.files), before.assets, n);
    var existing := OnDraft(Selected(job.files), before.assets);
    var j :| 0 <= j < |existing| && existing[j] == n;
    PlanShape(job, before.assets, j);
    CheckedAgrees(job, signer, before.assets, log, n);
  }

  lemma CheckedAgrees(job: Job, signer: Name -> Bytes, assets: Assets, log: seq<Action>, n: Name)
    requires forall i :: 0 <= i < |log| ==> ActionOk(job, signer, assets, log[i])
    requires Check(n) in log
    ensures n in assets && AgreesWith(job, n, assets[n])
  {
  }

  lemma {:induction false} UntouchedWithoutUpload(job: Job, signer: Name -> Bytes, assets: Assets, log: seq<Action>)
    requires forall a :: a in log ==> !a.Upload?
    ensures After(job, signer, assets, log) == assets
    decreases |log|
  {
    if log != [] {
      UntouchedWithoutUpload(job, signer, assets, log[..|log| - 1]);
    }
  }

  /** However a run ends, a clean draft stays clean, and no selected asset is lost or changed. */
  lemma RunKeepsClean(
    job: Job, signer: Name -> Bytes, kill: nat, before: Release, after: Release, log: seq<Action>, outcome: Outcome)
    requires WellFormed(job) && Ran(job, signer, kill, before, after, log, outcome)
    requires Clean(job, before.assets)
    ensures Clean(job, after.assets)
    ensures forall n :: n in Selected(job.files) && n in before.assets ==>
              n in after.assets && after.assets[n] == before.assets[n]
  {
    var here := After(job, signer, before.assets, log);
    forall n | n in Selected(job.files) && n in after.assets ensures AgreesWith(job, n, after.assets[n]) {
      AfterAre(job, signer, before.assets, log, n);
      if Upload(n) in log {
        UploadAgrees(job, signer, before.assets, log, n);
      }
    }
    forall n | n in Selected(job.files) && n in before.assets
      ensures n in after.assets && after.assets[n] == before.assets[n]
    {
      AfterAre(job, signer, before.assets, log, n);
      if Upload(n) in log {
        var i :| 0 <= i < |log| && log[i] == Upload(n);
        PlannedUploads(job, before.assets, i);
      }
    }
  }

  lemma UploadAgrees(job: Job, signer: Name -> Bytes, assets: Assets, log: seq<Action>, n: Name)
    requires WellFormed(job) && log <= Actions(job, assets) && Upload(n) in log
    requires forall i :: 0 <= i < |log| ==> ActionOk(job, signer, assets, log[i])
    ensures AgreesWith(job, n, Payload(job, signer, assets, n))
  {
    var i :| 0 <= i < |log| && log[i] == Upload(n);
    PlannedUploads(job, assets, i);
    SelectedAre(job.files, n);
    if n !in job.files {
      BundleRoundTrip(n);
      UploadComesLast(job, assets, log, n);
      var f := PayloadOf(n);
      var k :| 0 <= k < |log| && log[k] == Sign(f);
      assert ActionOk(job, signer, assets, log[k]);
    }
  }

  /** Any signer whose bundles verify can finish a clean, admissible draft. */
  ghost predicate Signs(job: Job, signer: Name -> Bytes) {
    forall f :: f in job.files ==> f in job.staged && job.valid(job.staged[f], signer(f))
  }

  /** From a clean admissible draft an unkilled run uploads exactly the missing names, once each, and
      completes it; only a change others made to the ordinary part can then make it report failure. */
  lemma CleanDraftCompletes(
    job: Job, signer: Name -> Bytes, kill: nat, before: Release, after: Release, log: seq<Action>, outcome: Outcome)
    requires WellFormed(job) && Ran(job, signer, kill, before, after, log, outcome)
    requires Admissible(job, before) && Clean(job, before.assets) && Signs(job, signer)
    requires |Actions(job, before.assets)| <= kill
    ensures log == Actions(job, before.assets) && (outcome == Promoted || outcome == Drifted)
    ensures Clean(job, after.assets) && Complete(job, after.assets)
    ensures forall n :: Upload(n) in log <==> n in Selected(job.files) && n !in before.assets
  {
    var plan := Actions(job, before.assets);
    if outcome == BadAsset {
      PlannedActionsSucceed(job, signer, before.assets, |log|);
    }
    RunKeepsClean(job, signer, kill, before, after, log, outcome);
    forall n ensures Upload(n) in log <==> n in Selected(job.files) && n !in before.assets {
      UploadsAreMissing(job, before.assets, n);
    }
    forall n | n in Selected(job.files) ensures n in after.assets {
      AfterAre(job, signer, before.assets, log, n);
    }
  }

  lemma UploadsAreMissing(job: Job, assets: Assets, n: Name)
    requires WellFormed(job)
    ensures Upload(n) in Actions(job, assets) <==> n in Selected(job.files) && n !in assets
  {
    if Upload(n) in Actions(job, assets) {
      var i :| 0 <= i < |Actions(job, assets)| && Actions(job, assets)[i] == Upload(n);
      PlannedUploads(job, assets, i);
    } else if n in Selected(job.files) && n !in assets {
      MissingIsPlanned(job, assets, n);
    }
  }

  lemma MissingIsPlanned(job: Job, assets: Assets, n: Name)
    requires n in Selected(job.files) && n !in assets
    ensures Upload(n) in Actions(job, assets)
  {
    var missing := NotOnDraft(Selected(job.files), assets);
    OnDraftAre(Selected(job.files), assets, n);
    var j :| 0 <= j < |missing| && missing[j] == n;
    var c := |OnDraft(Selected(job.files), assets)| + |Unsigned(job.files, assets)|;
    assert Actions(job, assets)[c + j] == Upload(n);
  }

  lemma PlannedActionsSucceed(job: Job, signer: Name -> Bytes, assets: Assets, i: nat)
    requires Clean(job, assets) && Signs(job, signer) && i < |Actions(job, assets)|
    ensures ActionOk(job, signer, assets, Actions(job, assets)[i])
  {
    var a := Actions(job, assets)[i];
    PlanShape(job, assets, i);
    OnDraftAre(Selected(job.files), assets, a.name);
    UnsignedAre(job.files, assets, a.name);
  }

  /** Draft flag, target, body and the record of every ordinary asset are as they were found. */
  ghost predicate LeftAlone(job: Job, before: Release, after: Release) {
    && after.draft == before.draft && after.target == before.target && after.body == before.body
    && forall n :: n !in Selected(job.files) ==>
         (n in after.assets <==> n in before.assets)
         && (n in after.assets && n in before.assets ==> SameRecord(after, before, n))
  }

  /** Whatever others did in the meantime, even to the selected names: a promoted draft is complete, everything
      selected agrees with staging, and everything else is as it was found. */
  lemma PromotedIsExact(
    job: Job, signer: Name -> Bytes, kill: nat, before: Release, after: Release, log: seq<Action>)
    requires WellFormed(job) && Acted(job, signer, kill, before, after, log, Promoted)
    ensures Complete(job, after.assets) && Clean(job, after.assets) && LeftAlone(job, before, after)
  {
    forall n | n in Selected(job.files) ensures AgreesWith(job, n, after.assets[n]) {
      SelectedAre(job.files, n);
      DeliveredAgrees(job, signer, before.assets, after.assets, n);
    }
  }

  /** A delivered name agrees with staging if the bundles verify. */
  lemma DeliveredAgrees(job: Job, signer: Name -> Bytes, before: Assets, after: Assets, n: Name)
    requires WellFormed(job) && Delivered(job, signer, before, after) && Verified(job, after) && n in Selected(job.files)
    ensures n in after && AgreesWith(job, n, after[n])
  {
    SelectedAre(job.files, n);
    if n !in job.files {
      var f := PayloadOf(n);
      BundleRoundTrip(n);
      SelectedAre(job.files, f);
      assert job.valid(after[f], after[BundleOf(f)]);
    }
  }

  /** A run that others leave the selected names to delivers them. */
  lemma CleanRunDelivers(job: Job, signer: Name -> Bytes, before: Assets, after: Assets, log: seq<Action>)
    requires WellFormed(job) && Clean(job, before) && Clean(job, after) && Complete(job, after)
    requires log == Actions(job, before) && SameSelected(job, After(job, signer, before, log), after)
    ensures Delivered(job, signer, before, after) && Verified(job, after)
  {
    forall n | n in Selected(job.files) ensures after[n] == Payload(job, signer, before, n) {
      AfterAre(job, signer, before, log, n);
      UploadsAreMissing(job, before, n);
    }
    forall f | f in job.files
      ensures f in after && BundleOf(f) in after && job.valid(after[f], after[BundleOf(f)])
    {
      BundleIsSelected(job, f);
      assert AgreesWith(job, f, after[f]) && AgreesWith(job, BundleOf(f), after[BundleOf(f)]);
    }
  }

  lemma BundleIsSelected(job: Job, f: Name)
    requires WellFormed(job) && f in job.files
    ensures f in Selected(job.files) && BundleOf(f) in Selected(job.files) && BundleOf(f) !in job.files
    ensures PayloadOf(BundleOf(f)) == f
  {
    BundleRoundTrip(f);
    SelectedAre(job.files, f);
    SelectedAre(job.files, BundleOf(f));
  }

  /** From a clean admissible draft, an unkilled run whose selected names others left alone succeeds if and only if
      they also left the ordinary part of the release as it was found. */
  lemma PromotedIffLeftAlone(
    job: Job, signer: Name -> Bytes, kill: nat, before: Release, after: Release, log: seq<Action>, outcome: Outcome)
    requires WellFormed(job) && Ran(job, signer, kill, before, after, log, outcome)
    requires Admissible(job, before) && Clean(job, before.assets) && Signs(job, signer)
    requires |Actions(job, before.assets)| <= kill
    ensures outcome == Promoted <==> LeftAlone(job, before, after)
  {
    CleanDraftCompletes(job, signer, kill, before, after, log, outcome);
    CleanRunDelivers(job, signer, before.assets, after.assets, log);
    FinalOkIs(job, signer, before, after);
  }

  lemma FinalOkIs(job: Job, signer: Name -> Bytes, before: Release, after: Release)
    requires Admissible(job, before)
    requires Delivered(job, signer, before.assets, after.assets) && Verified(job, after.assets)
    ensures FinalOk(job, signer, before, after) <==> LeftAlone(job, before, after)
  {
  }

  // ---------------------------------------------------------------------------------------
  // Any number of runs
  // ---------------------------------------------------------------------------------------

  datatype Attempt = Attempt(signer: Name -> Bytes, kill: nat, log: seq<Action>, outcome: Outcome)

  /** `drafts[i]` is the draft before attempt `i`; the same staged payloads are used throughout. */
  ghost predicate History(job: Job, drafts: seq<Release>, attempts: seq<Attempt>) {
    && |drafts| == |attempts| + 1
    && forall i :: 0 <= i < |attempts| ==>
         Ran(job, attempts[i].signer, attempts[i].kill, drafts[i], drafts[i + 1], attempts[i].log, attempts[i].outcome)
  }

  /** How often `n` was uploaded in one log. */
  function UploadsIn(log: seq<Action>, n: Name): nat {
    multiset(log)[Upload(n)]
  }

  function UploadsOf(attempts: seq<Attempt>, n: Name): nat {
    if attempts == [] then 0
    else UploadsOf(attempts[..|attempts| - 1], n) + UploadsIn(attempts[|attempts| - 1].log, n)
  }

  lemma {:induction false} OnceInLog(log: seq<Action>, a: Action)
    requires forall i, j :: 0 <= j < i < |log| && log[i] == a ==> log[j] != a
    ensures multiset(log)[a] == if a in log then 1 else 0
  {
    if log != [] {
      var front := log[..|log| - 1];
      assert log == front + [log[|log| - 1]];
      OnceInLog(front, a);
      if log[|log| - 1] == a {
        assert a !in front;
      }
    }
  }

  /** In one run the copies on the draft grow by exactly the uploads made. */
  lemma RunBalances(
    job: Job, signer: Name -> Bytes, kill: nat, before: Release, after: Release, log: seq<Action>, outcome: Outcome,
    n: Name)
    requires WellFormed(job) && Ran(job, signer, kill, before, after, log, outcome) && n in Selected(job.files)
    ensures (if n in before.assets then 1 else 0) + UploadsIn(log, n) == if n in after.assets then 1 else 0
  {
    AfterAre(job, signer, before.assets, log, n);
    forall i, j | 0 <= j < i < |log| && log[i] == Upload(n) ensures log[j] != Upload(n) {
      PlannedUploads(job, before.assets, i);
    }
    OnceInLog(log, Upload(n));
    if Upload(n) in log {
      var i :| 0 <= i < |log| && log[i] == Upload(n);
      PlannedUploads(job, before.assets, i);
    }
  }

  lemma HistoryPrefix(job: Job, drafts: seq<Release>, attempts: seq<Attempt>, k: nat)
    requires History(job, drafts, attempts) && k <= |attempts|
    ensures History(job, drafts[..k + 1], attempts[..k])
  {
  }

  /** Over any history of killed, failed and finished runs each selected name is uploaded at most once
      in total, and exactly the uploaded names appear; a clean draft is clean after every run. */
  lemma {:induction false} HistoryBalances(job: Job, drafts: seq<Release>, attempts: seq<Attempt>, n: Name)
    requires WellFormed(job) && History(job, drafts, attempts) && n in Selected(job.files)
    ensures (if n in drafts[0].assets then 1 else 0) + UploadsOf(attempts, n)
            == if n in drafts[|attempts|].assets then 1 else 0
    decreases |attempts|
  {
    if attempts != [] {
      var k := |attempts| - 1;
      HistoryPrefix(job, drafts, attempts, k);
      HistoryBalances(job, drafts[..k + 1], attempts[..k], n);
      var a := attempts[k];
      RunBalances(job, a.signer, a.kill, drafts[k], drafts[k + 1], a.log, a.outcome, n);
    }
  }

  lemma {:induction false} HistoryKeepsClean(job: Job, drafts: seq<Release>, attempts: seq<Attempt>)
    requires WellFormed(job) && History(job, drafts, attempts) && Clean(job, drafts[0].assets)
    ensures Clean(job, drafts[|attempts|].assets)
    decreases |attempts|
  {
    if attempts != [] {
      var k := |attempts| - 1;
      HistoryPrefix(job, drafts, attempts, k);
      HistoryKeepsClean(job, drafts[..k + 1], attempts[..k]);
      var a := attempts[k];
      RunKeepsClean(job, a.signer, a.kill, drafts[k], drafts[k + 1], a.log, a.outcome);
    }
  }

  /** After any history from a clean draft, one more undisturbed run completes the promotion. */
  lemma RestartCompletes(
    job: Job, drafts: seq<Release>, attempts: seq<Attempt>,
    signer: Name -> Bytes, kill: nat, after: Release, log: seq<Action>, outcome: Outcome)
    requires WellFormed(job) && History(job, drafts, attempts) && Clean(job, drafts[0].assets)
    requires var last := drafts[|attempts|];
             && Admissible(job, last) && Signs(job, signer) && |Actions(job, last.assets)| <= kill
             && Ran(job, signer, kill, last, after, log, outcome)
             && after == last.(assets := After(job, signer, last.assets, log))
    ensures outcome == Promoted && Complete(job, after.assets) && Clean(job, after.assets)
  {
    var last := drafts[|attempts|];
    HistoryKeepsClean(job, drafts, attempts);
    CleanDraftCompletes(job, signer, kill, last, after, log, outcome);
    UndisturbedIsLeftAlone(job, signer, last, after, log);
    PromotedIffLeftAlone(job, signer, kill, last, after, log, outcome);
  }

  lemma UndisturbedIsLeftAlone(job: Job, signer: Name -> Bytes, before: Release, after: Release, log: seq<Action>)
    requires WellFormed(job) && log == Actions(job, before.assets)
    requires after == before.(assets := After(job, signer, before.assets, log))
    ensures LeftAlone(job, before, after)
  {
    forall n | n !in Selected(job.files)
      ensures (n in after.assets <==> n in before.assets)
              && (n in after.assets && n in before.assets ==> SameRecord(after, before, n))
    {
      UploadsAreMissing(job, before.assets, n);
      AfterAre(job, signer, before.assets, log, n);
    }
  }

  // ---------------------------------------------------------------------------------------
  // The run as the source performs it
  // ---------------------------------------------------------------------------------------

  /** The remote draft, changed in place by uploads and by others. */
  class Draft {
    var release: Release

    constructor (release: Release)
      ensures this.release == release
    {
      this.release := release;
    }
  }

  lemma UnsignedPrefix(files: seq<Name>, assets: Assets, i: nat)
    requires i < |files|
    ensures Unsigned(files[..i + 1], assets) ==
            Unsigned(files[..i], assets) + (if BundleOf(files[i]) !in assets then [files[i]] else [])
    ensures Unsigned(files[..i + 1], assets) <= Unsigned(files, assets)
    decreases |files| - i
  {
    assert files[..i + 1][..i] == files[..i];
    if i + 1 < |files| {
      UnsignedPrefix(files, assets, i + 1);
    } else {
      assert files[..i + 1] == files;
    }
  }

  lemma AfterStep(job: Job, signer: Name -> Bytes, assets: Assets, log: seq<Action>, a: Action)
    ensures After(job, signer, assets, log + [a]) ==
            if a.Upload? then After(job, signer, assets, log)[a.name := Payload(job, signer, assets, a.name)]
            else After(job, signer, assets, log)
  {
    assert (log + [a])[..|log|] == log;
  }

  /** A loop that has performed `log`, the first of `all` its actions, within its budget. */
  predicate Underway(job: Job, signer: Name -> Bytes, existing: Assets, all: seq<Action>, budget: nat, log: seq<Action>) {
    log <= all && |log| <= budget && forall i :: 0 <= i < |log| ==> ActionOk(job, signer, existing, log[i])
  }

  /** One of the three loops when it ends or stops. */
  predicate Stage(job: Job, signer: Name -> Bytes, existing: Assets, all: seq<Action>, budget: nat,
                  log: seq<Action>, stopped: Option<Outcome>)
  {
    && Underway(job, signer, existing, all, budget, log)
    && match stopped
       case None => log == all
       case Some(Killed) => |log| == budget < |all|
       case Some(BadAsset) => |log| < budget && |log| < |all| && !ActionOk(job, signer, existing, all[|log|])
       case Some(_) => false
  }

  lemma OneFurther(job: Job, signer: Name -> Bytes, existing: Assets, all: seq<Action>, budget: nat, log: seq<Action>, a: Action)
    requires Underway(job, signer, existing, all, budget, log) && |log| < budget
    requires |log| < |all| && all[|log|] == a && ActionOk(job, signer, existing, a)
    ensures Underway(job, signer, existing, all, budget, log + [a])
  {
    assert log + [a] <= all;
  }

  lemma SelectedAsset(job: Job, existing: Assets, name: Name)
    requires WellFormed(job) && name in OnDraft(Selected(job.files), existing)
    ensures name in existing && (name in job.files || (IsBundle(name) && PayloadOf(name) in job.files))
  {
    OnDraftAre(Selected(job.files), existing, name);
    SelectedAre(job.files, name);
  }

  method CheckExisting(job: Job, signer: Name -> Bytes, kill: nat, existing: Assets)
    returns (log: seq<Action>, stopped: Option<Outcome>)
    requires WellFormed(job)
    ensures Stage(job, signer, existing, Checks(OnDraft(Selected(job.files), existing)), kill, log, stopped)
  {
    var names := OnDraft(Selected(job.files), existing);
    ghost var all := Checks(names);
    log := [];
    for i := 0 to |names|
      invariant |log| == i && Underway(job, signer, existing, all, kill, log)
    {
      var name := names[i];
      SelectedAsset(job, existing, name);
      if |log| == kill {
        return log, Some(Killed);
      }
      var bytes := existing[name];
      if name in job.files {
        if bytes != job.staged[name] {
          return log, Some(BadAsset);
        }
      } else if !job.valid(job.staged[PayloadOf(name)], bytes) {
        return log, Some(BadAsset);
      }
      OneFurther(job, signer, existing, all, kill, log, Check(name));
      log := log + [Check(name)];
    }
    return log, None;
  }

  /** The staging directory holds every payload, and the bundles of the first `i` files. */
  ghost predicate StagedUpTo(job: Job, signer: Name -> Bytes, existing: Assets, payloads: map<Name, Bytes>, i: nat)
    requires i <= |job.files|
  {
    && (forall f :: f in job.files ==> f in payloads && f in job.staged && payloads[f] == job.staged[f])
    && (forall k :: 0 <= k < i ==> StagedBundle(job, signer, existing, payloads, job.files[k]))
  }

  predicate StagedBundle(job: Job, signer: Name -> Bytes, existing: Assets, payloads: map<Name, Bytes>, f: Name) {
    BundleOf(f) in payloads && payloads[BundleOf(f)] == Payload(job, signer, existing, BundleOf(f))
  }

  lemma StagedStep(job: Job, signer: Name -> Bytes, existing: Assets, payloads: map<Name, Bytes>, i: nat)
    requires WellFormed(job) && i < |job.files| && StagedUpTo(job, signer, existing, payloads, i)
    ensures var bundle := BundleOf(job.files[i]);
            var bytes := if bundle in existing then existing[bundle] else signer(job.files[i]);
            StagedUpTo(job, signer, existing, payloads[bundle := bytes], i + 1)
  {
    var bundle := BundleOf(job.files[i]);
    var bytes := if bundle in existing then existing[bundle] else signer(job.files[i]);
    BundleRoundTrip(job.files[i]);
    assert bundle !in job.files;
    forall k | 0 <= k < i + 1 ensures StagedBundle(job, signer, existing, payloads[bundle := bytes], job.files[k]) {
      BundleRoundTrip(job.files[k]);
    }
  }

  lemma StagedAll(job: Job, signer: Name -> Bytes, existing: Assets, payloads: map<Name, Bytes>)
    requires WellFormed(job) && StagedUpTo(job, signer, existing, payloads, |job.files|)
    ensures forall n :: n in Selected(job.files) && n !in existing ==>
              n in payloads && payloads[n] == Payload(job, signer, existing, n)
  {
    forall n | n in Selected(job.files) && n !in existing
      ensures n in payloads && payloads[n] == Payload(job, signer, existing, n)
    {
      SelectedAre(job.files, n);
      BundleRoundTrip(n);
      if n !in job.files {
        var k :| 0 <= k < |job.files| && job.files[k] == PayloadOf(n);
        assert StagedBundle(job, signer, existing, payloads, job.files[k]);
      }
    }
  }

  /** Where file `i` stands among the signatures to make. */
  lemma NextSignature(files: seq<Name>, assets: Assets, i: nat)
    requires i < |files|
    ensures var done, all := Signatures(Unsigned(files[..i], assets)), Signatures(Unsigned(files, assets));
            && done <= all
            && (BundleOf(files[i]) in assets ==> Signatures(Unsigned(files[..i + 1], assets)) == done)
            && (BundleOf(files[i]) !in assets ==>
                  && Signatures(Unsigned(files[..i + 1], assets)) == done + [Sign(files[i])]
                  && |done| < |all| && all[|done|] == Sign(files[i]))
  {
    UnsignedPrefix(files, assets, i);
  }

  method SignMissing(job: Job, signer: Name -> Bytes, budget: nat, existing: Assets)
    returns (log: seq<Action>, payloads: map<Name, Bytes>, stopped: Option<Outcome>)
    requires WellFormed(job)
    ensures Stage(job, signer, existing, Signatures(Unsigned(job.files, existing)), budget, log, stopped)
    ensures stopped == None ==> forall n :: n in Selected(job.files) && n !in existing ==>
              n in payloads && payloads[n] == Payload(job, signer, existing, n)
  {
    ghost var all := Signatures(Unsigned(job.files, existing));
    log := [];
    payloads := job.staged;
    for i := 0 to |job.files|
      invariant log == Signatures(Unsigned(job.files[..i], existing))
      invariant Underway(job, signer, existing, all, budget, log)
      invariant StagedUpTo(job, signer, existing, payloads, i)
    {
      var name := job.files[i];
      var bundle := BundleOf(name);
      NextSignature(job.files, existing, i);
      StagedStep(job, signer, existing, payloads, i);
      if bundle in existing {
        payloads := payloads[bundle := existing[bundle]];
      } else {
        if |log| == budget {
          return log, payloads, Some(Killed);
        }
        payloads := payloads[bundle := signer(name)];
        if !job.valid(job.staged[name], signer(name)) {
          return log, payloads, Some(BadAsset);
        }
        OneFurther(job, signer, existing, all, budget, log, Sign(name));
        log := log + [Sign(name)];
      }
    }
    assert job.files[..|job.files|] == job.files;
    StagedAll(job, signer, existing, payloads);
    return log, payloads, None;
  }

  method UploadMissing(job: Job, signer: Name -> Bytes, budget: nat, draft: Draft, payloads: map<Name, Bytes>)
    returns (log: seq<Action>, killed: bool)
    requires forall n :: n in Selected(job.files) && n !in draft.release.assets ==>
               n in payloads && payloads[n] == Payload(job, signer, draft.release.assets, n)
    modifies draft
    ensures var all := Uploads(NotOnDraft(Selected(job.files), old(draft.release.assets)));
            Stage(job, signer, old(draft.release.assets), all, budget, log, if killed then Some(Killed) else None)
    ensures draft.release == old(draft.release).(assets := After(job, signer, old(draft.release.assets), log))
  {
    var existing := draft.release.assets;
    var missing := NotOnDraft(Selected(job.files), existing);
    ghost var all := Uploads(missing);
    log := [];
    for i := 0 to |missing|
      invariant |log| == i && Underway(job, signer, existing, all, budget, log)
      invariant draft.release == old(draft.release).(assets := After(job, signer, existing, log))
    {
      var name := missing[i];
      OnDraftAre(Selected(job.files), existing, name);
      if |log| == budget {
        return log, true;
      }
      OneFurther(job, signer, existing, all, budget, log, Upload(name));
      AfterStep(job, signer, existing, log, Upload(name));
      draft.release := draft.release.(assets := draft.release.assets[name := payloads[name]]);
      log := log + [Upload(name)];
    }
    return log, false;
  }

  /** One run, killed once it has performed `kill` actions; `others` is the release as it is read back in the end. */
  method Publish(job: Job, signer: Name -> Bytes, kill: nat, draft: Draft, others: Release)
    returns (log: seq<Action>, outcome: Outcome)
    requires WellFormed(job)
    modifies draft
    ensures Acted(job, signer, kill, old(draft.release), draft.release, log, outcome)
    ensures outcome in {Inadmissible, Killed, BadAsset} ==>
              draft.release == old(draft.release).(assets := After(job, signer, old(draft.release.assets), log))
  {
    var before := draft.release;
    var existing := before.assets;
    if !Admissible(job, before) {
      return [], Inadmissible;
    }
    var checks, stopped := CheckExisting(job, signer, kill, existing);
    if stopped.Some? {
      StoppedInChecks(job, signer, kill, before, checks, stopped);
      return checks, stopped.value;
    }
    var signs, payloads;
    signs, payloads, stopped := SignMissing(job, signer, kill - |checks|, existing);
    if stopped.Some? {
      StoppedInSigning(job, signer, kill, before, checks, signs, stopped);
      return checks + signs, stopped.value;
    }
    var uploads, killed := UploadMissing(job, signer, kill - |checks| - |signs|, draft, payloads);
    log := checks + signs + uploads;
    OnlyUploadsCount(job, signer, kill, existing, checks, signs, uploads);
    if killed {
      StoppedInUploads(job, signer, kill, before, checks, signs, uploads);
      return log, Killed;
    }
    draft.release := others;
    outcome := if FinalOk(job, signer, before, draft.release) then Promoted else Drifted;
    RanToTheEnd(job, signer, kill, before, draft.release, checks, signs, uploads, outcome);
  }

  lemma {:induction false} AfterSkips(
    job: Job, signer: Name -> Bytes, assets: Assets, quiet: seq<Action>, log: seq<Action>)
    requires forall a :: a in quiet ==> !a.Upload?
    ensures After(job, signer, assets, quiet + log) == After(job, signer, assets, log)
    decreases |log|
  {
    if log == [] {
      assert quiet + log == quiet;
      UntouchedWithoutUpload(job, signer, assets, quiet);
    } else {
      AfterSkips(job, signer, assets, quiet, log[..|log| - 1]);
      assert (quiet + log)[..|quiet + log| - 1] == quiet + log[..|log| - 1];
    }
  }

  lemma OnlyUploadsCount(
    job: Job, signer: Name -> Bytes, kill: nat, existing: Assets,
    checks: seq<Action>, signs: seq<Action>, uploads: seq<Action>)
    requires |checks| <= kill
    requires Stage(job, signer, existing, Checks(OnDraft(Selected(job.files), existing)), kill, checks, None)
    requires Stage(job, signer, existing, Signatures(Unsigned(job.files, existing)), kill - |checks|, signs, None)
    ensures After(job, signer, existing, checks + signs + uploads) == After(job, signer, existing, uploads)
  {
    AfterSkips(job, signer, existing, checks + signs, uploads);
  }

  lemma RanToTheEnd(
    job: Job, signer: Name -> Bytes, kill: nat, before: Release, after: Release,
    checks: seq<Action>, signs: seq<Action>, uploads: seq<Action>, outcome: Outcome)
    requires Admissible(job, before) && |checks| + |signs| <= kill
    requires Stage(job, signer, before.assets, Checks(OnDraft(Selected(job.files), before.assets)), kill, checks, None)
    requires Stage(job, signer, before.assets, Signatures(Unsigned(job.files, before.assets)), kill - |checks|, signs, None)
    requires Stage(job, signer, before.assets, Uploads(NotOnDraft(Selected(job.files), before.assets)),
                   kill - |checks| - |signs|, uploads, None)
    requires outcome == if FinalOk(job, signer, before, after) then Promoted else Drifted
    ensures Acted(job, signer, kill, before, after, checks + signs + uploads, outcome)
  {
  }

  lemma StoppedInChecks(
    job: Job, signer: Name -> Bytes, kill: nat, r: Release, checks: seq<Action>, stopped: Option<Outcome>)
    requires Admissible(job, r) && stopped.Some?
    requires Stage(job, signer, r.assets, Checks(OnDraft(Selected(job.files), r.assets)), kill, checks, stopped)
    ensures Ran(job, signer, kill, r, r, checks, stopped.value)
    ensures After(job, signer, r.assets, checks) == r.assets
  {
    UntouchedWithoutUpload(job, signer, r.assets, checks);
  }

  lemma StoppedInSigning(
    job: Job, signer: Name -> Bytes, kill: nat, r: Release, checks: seq<Action>, signs: seq<Action>,
    stopped: Option<Outcome>)
    requires Admissible(job, r) && stopped.Some? && |checks| <= kill
    requires Stage(job, signer, r.assets, Checks(OnDraft(Selected(job.files), r.assets)), kill, checks, None)
    requires Stage(job, signer, r.assets, Signatures(Unsigned(job.files, r.assets)), kill - |checks|, signs, stopped)
    ensures Ran(job, signer, kill, r, r, checks + signs, stopped.value)
    ensures After(job, signer, r.assets, checks + signs) == r.assets
  {
    UntouchedWithoutUpload(job, signer, r.assets, checks + signs);
    var all := Signatures(Unsigned(job.files, r.assets));
    assert Actions(job, r.assets)[|checks + signs|] == all[|signs|];
  }

  lemma StoppedInUploads(
    job: Job, signer: Name -> Bytes, kill: nat, r: Release,
    checks: seq<Action>, signs: seq<Action>, uploads: seq<Action>)
    requires Admissible(job, r) && |checks| + |signs| <= kill
    requires Stage(job, signer, r.assets, Checks(OnDraft(Selected(job.files), r.assets)), kill, checks, None)
    requires Stage(job, signer, r.assets, Signatures(Unsigned(job.files, r.assets)), kill - |checks|, signs, None)
    requires Stage(job, signer, r.assets, Uploads(NotOnDraft(Selected(job.files), r.assets)),
                   kill - |checks| - |signs|, uploads, Some(Killed))
    ensures var log := checks + signs + uploads;
            Ran(job, signer, kill, r, r.(assets := After(job, signer, r.assets, log)), log, Killed)
  {
  }
}
