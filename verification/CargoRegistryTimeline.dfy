/**
 Publishers against a write-once registry with two lagging authorities. A timeline gives the
 registry at each instant; a run sees it at instants of its own choosing, so several runs over one
 timeline are several publishers in any interleaving.
 */
module CargoRegistryTimeline {
  import opened Prelude
  import opened CargoPublisher
  import opened CargoPublisherSafety

  /** The accepted versions, and which of them each authority already shows. */
  datatype Registry = Registry(truth: map<Key, Checksum>, api: set<Key>, index: set<Key>)

  type Timeline = nat -> Registry

  ghost predicate Next(r: Registry, r': Registry) {
    && (forall k :: k in r.truth ==> k in r'.truth && r'.truth[k] == r.truth[k])
    && r.api <= r'.api && r.index <= r'.index
  }

  /** One checksum per version for ever, and visibility only moves from absent to present. */
  ghost predicate WriteOnce(w: Timeline) {
    forall n: nat :: w(n).api <= w(n).truth.Keys && w(n).index <= w(n).truth.Keys && Next(w(n), w(n + 1))
  }

  /** `r` is an answer an authority showing `visible` may give; yanking and failing are always possible. */
  predicate MayAnswer(reg: Registry, visible: set<Key>, k: Key, r: Reading) {
    match r
    case Unreadable => true
    case Absent => k !in visible
    case Present(sum) => k in visible && k in reg.truth && reg.truth[k] == sum
    case Yanked(sum) => k in visible && k in reg.truth && reg.truth[k] == sum
  }

  /** The run's event `i` happened at instant `times[i]` of the timeline. */
  ghost predicate Observes(w: Timeline, times: seq<nat>, t: Trace) {
    && |times| == |t|
    && (forall i, j :: 0 <= i <= j < |times| ==> times[i] <= times[j])
    && (forall i :: 0 <= i < |t| && t[i].GetApi? ==>
          MayAnswer(w(times[i]), w(times[i]).api, t[i].c.key, t[i].r))
    && (forall i :: 0 <= i < |t| && t[i].GetIndex? ==>
          MayAnswer(w(times[i]), w(times[i]).index, t[i].c.key, t[i].r))
  }

  lemma {:induction false} NeverChanges(w: Timeline, m: nat, n: nat)
    requires WriteOnce(w) && m <= n
    ensures Next(w(m), w(n))
    decreases n - m
  {
    if m < n {
      NeverChanges(w, m + 1, n);
    }
  }

  /** A confirmed package is recorded, with its accepted checksum, and visible at both authorities. */
  lemma ConfirmedIsRecorded(w: Timeline, times: seq<nat>, t: Trace, c: Candidate) returns (n: nat)
    requires WriteOnce(w) && Observes(w, times, t) && Confirmed(t, 0, |t|, c)
    ensures n in times
    ensures c.key in w(n).truth && w(n).truth[c.key] == c.archive
    ensures c.key in w(n).api && c.key in w(n).index
  {
    var j :| 0 <= j && j + 1 < |t| && PairAt(t, j, c, Present(c.archive));
    assert t[j].GetApi? && t[j + 1].GetIndex?;
    n := times[j + 1];
    NeverChanges(w, times[j], n);
  }

  /** Two publishers can both succeed only if they publish the same bytes for every shared version. */
  lemma SuccessfulPublishersAgree(
    w: Timeline,
    b1: Bundle, token1: Token, s1: Settings, env1: Env, times1: seq<nat>,
    b2: Bundle, token2: Token, s2: Settings, env2: Env, times2: seq<nat>,
    c1: Candidate, c2: Candidate)
    requires WriteOnce(w)
    requires Process(b1, Publish, token1, s1, env1).result.Ok?
    requires Process(b2, Publish, token2, s2, env2).result.Ok?
    requires Observes(w, times1, Process(b1, Publish, token1, s1, env1).trace)
    requires Observes(w, times2, Process(b2, Publish, token2, s2, env2).trace)
    requires c1 in b1 && c2 in b2 && c1.key == c2.key
    ensures c1.archive == c2.archive
  {
    OkRunIsTrue(b1, Publish, token1, s1, env1);
    OkRunIsTrue(b2, Publish, token2, s2, env2);
    var n1 := ConfirmedIsRecorded(w, times1, Process(b1, Publish, token1, s1, env1).trace, c1);
    var n2 := ConfirmedIsRecorded(w, times2, Process(b2, Publish, token2, s2, env2).trace, c2);
    if n1 <= n2 { NeverChanges(w, n1, n2); } else { NeverChanges(w, n2, n1); }
  }

  /** A publisher that lost the race to different bytes, at whatever instant, never returns `ok`. */
  lemma LostRaceNeverSucceeds(
    w: Timeline, b: Bundle, token: Token, s: Settings, env: Env, times: seq<nat>, c: Candidate, n: nat)
    requires WriteOnce(w)
    requires Observes(w, times, Process(b, Publish, token, s, env).trace)
    requires c in b && c.key in w(n).truth && w(n).truth[c.key] != c.archive
    ensures Process(b, Publish, token, s, env).result.Err?
  {
    if Process(b, Publish, token, s, env).result.Ok? {
      OkRunIsTrue(b, Publish, token, s, env);
      var m := ConfirmedIsRecorded(w, times, Process(b, Publish, token, s, env).trace, c);
      if m <= n { NeverChanges(w, m, n); } else { NeverChanges(w, n, m); }
    }
  }

  /** The first PUT of a trace that has one. */
  lemma {:induction false} FirstPut(t: Trace, n: nat) returns (i: nat)
    requires n < |t| && t[n].Put?
    ensures i < |t| && t[i].Put? && forall j :: 0 <= j < i ==> !t[j].Put?
  {
    i := n;
    if exists j :: 0 <= j < n && t[j].Put? {
      var j :| 0 <= j < n && t[j].Put?;
      i := FirstPut(t, j);
    }
  }

  /** A run that PUTs anything first saw one of its packages absent at the API. */
  lemma PutFollowsAbsence(b: Bundle, mode: Mode, token: Token, s: Settings, env: Env) returns (i: nat, c: Candidate)
    requires !NoPutFrom(Process(b, mode, token, s, env).trace, 0)
    ensures c in b && i < |Process(b, mode, token, s, env).trace|
    ensures Process(b, mode, token, s, env).trace[i] == GetApi(c, Absent)
  {
    var m := EveryPutIsDisciplined(b, mode, token, s, env);
    i, c := AbsenceBeforePut(b, Process(b, mode, token, s, env).trace, m);
  }

  lemma AbsenceBeforePut(b: Bundle, t: Trace, m: int) returns (i: nat, c: Candidate)
    requires Disciplined(b, t, m) && !NoPutFrom(t, 0)
    ensures c in b && i < |t| && t[i] == GetApi(c, Absent)
  {
    var n: nat :| n < |t| && t[n].Put?;
    var p := FirstPut(t, n);
    c := t[p].c;
    assert MayPut(b, t, m, p, c);
    assert PairAt(t, p - 3, c, Absent);
    i := p - 3;
  }

  /** Once a run has returned `ok`, no later run over the same versions sends a PUT, in any mode. */
  lemma RerunSendsNoPut(
    w: Timeline,
    b1: Bundle, token1: Token, s1: Settings, env1: Env, times1: seq<nat>,
    b2: Bundle, mode2: Mode, token2: Token, s2: Settings, env2: Env, times2: seq<nat>)
    requires WriteOnce(w)
    requires Process(b1, Publish, token1, s1, env1).result.Ok?
    requires Observes(w, times1, Process(b1, Publish, token1, s1, env1).trace)
    requires Observes(w, times2, Process(b2, mode2, token2, s2, env2).trace)
    requires forall m, n :: m in times1 && n in times2 ==> m <= n
    requires forall c2 :: c2 in b2 ==> exists c1 :: c1 in b1 && c1.key == c2.key
    ensures NoPutFrom(Process(b2, mode2, token2, s2, env2).trace, 0)
  {
    if !NoPutFrom(Process(b2, mode2, token2, s2, env2).trace, 0) {
      var i, c2 := PutFollowsAbsence(b2, mode2, token2, s2, env2);
      var c1 :| c1 in b1 && c1.key == c2.key;
      var n := SuccessIsVisible(w, b1, token1, s1, env1, times1, c1);
      VisibleNeverAbsent(w, times1, n, times2, Process(b2, mode2, token2, s2, env2).trace, i, c2);
      assert false;
    }
  }

  lemma SuccessIsVisible(w: Timeline, b: Bundle, token: Token, s: Settings, env: Env, times: seq<nat>, c: Candidate)
    returns (n: nat)
    requires WriteOnce(w) && c in b
    requires Process(b, Publish, token, s, env).result.Ok?
    requires Observes(w, times, Process(b, Publish, token, s, env).trace)
    ensures n in times && c.key in w(n).api
  {
    OkRunIsTrue(b, Publish, token, s, env);
    n := ConfirmedIsRecorded(w, times, Process(b, Publish, token, s, env).trace, c);
  }

  lemma VisibleNeverAbsent(
    w: Timeline, times1: seq<nat>, n: nat, times2: seq<nat>, t: Trace, i: nat, c: Candidate)
    requires WriteOnce(w) && Observes(w, times2, t)
    requires n in times1 && forall m, n :: m in times1 && n in times2 ==> m <= n
    requires i < |t| && t[i] == GetApi(c, Absent)
    ensures c.key !in w(n).api
  {
    assert times2[i] in times2;
    NeverChanges(w, n, times2[i]);
  }
}
