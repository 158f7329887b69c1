/**
 The publisher alone with a slow but honest registry: only its own PUTs add to what the registry holds, so every
 status and every accepted package can be told from what was visible at the start. And a concrete slow run.
 */
module CargoPublisherSolo {
  import opened Prelude
  import opened CargoPublisher
  import opened CargoPublisherSafety
  import opened CargoPublisherProgress

  function KeysOf(cs: seq<Candidate>): set<Key> {
    set c | c in cs :: c.key
  }

  /** What was visible at the start, and what this run got accepted since. */
  function Alone(visible: set<Key>, u: Trace): Held {
    (i: nat) => visible + KeysOf(Uploaded(u[..if i <= |u| then i else |u|]))
  }

  lemma AloneStarts(visible: set<Key>, u: Trace)
    ensures Alone(visible, u)(0) == visible
  {
    assert u[..0] == [];
    assert KeysOf(Uploaded(u[..0])) == {};
  }

  /** At `i` both authorities hide a package that was visible at the start. */
  predicate Hidden(visible: set<Key>, t: Trace, i: int) {
    && 0 <= i && i + 1 < |t| && t[i].GetApi? && t[i + 1].GetIndex? && t[i].c == t[i + 1].c
    && t[i].r.Absent? && t[i + 1].r.Absent? && t[i].c.key in visible
  }

  ghost predicate NeverHidden(visible: set<Key>, t: Trace) {
    forall i :: 0 <= i < |t| ==> !Hidden(visible, t, i)
  }

  predicate DistinctKeys(b: Bundle) {
    forall j, k :: 0 <= j < k < |b| ==> b[j].key != b[k].key
  }

  /** The first-party packages among the first `n` that were not visible at the start. */
  function Missing(visible: set<Key>, b: Bundle, n: nat): seq<Candidate>
    requires n <= |b|
  {
    if n == 0 then []
    else Missing(visible, b, n - 1) + (if !b[n - 1].immutable && b[n - 1].key !in visible then [b[n - 1]] else [])
  }

  function Expected(visible: set<Key>, c: Candidate): Status {
    if c.immutable then VerifiedPreexisting else if c.key in visible then AlreadyPublished else Published
  }

  lemma {:induction false} MissingHas(visible: set<Key>, b: Bundle, n: nat, k: nat)
    requires k < n <= |b| && !b[k].immutable && b[k].key !in visible
    ensures b[k] in Missing(visible, b, n)
  {
    if k < n - 1 {
      MissingHas(visible, b, n - 1, k);
    }
  }

  /** Every PUT comes after a double absence of its package. */
  lemma {:induction false} PutHasAbsence(b: Bundle, t: Trace, m: int, i: nat) returns (j: nat)
    requires Disciplined(b, t, m) && i < |t| && t[i].Put?
    ensures PairAt(t, j, t[i].c, Absent)
  {
    assert Rechecked(t, i, t[i].c);
    if 3 <= i && PairAt(t, i - 3, t[i].c, Absent) {
      j := i - 3;
    } else {
      j := PutHasAbsence(b, t, m, i - 2);
    }
  }

  /** So a package that was visible and never hidden is never PUT. */
  lemma VisibleIsNotPut(visible: set<Key>, b: Bundle, t: Trace, m: int, i: nat)
    requires Disciplined(b, t, m) && NeverHidden(visible, t) && i < |t| && t[i].Put?
    ensures t[i].c.key !in visible
  {
    var j := PutHasAbsence(b, t, m, i);
    assert !Hidden(visible, t, j);
  }

  lemma {:induction false} UploadedGrows(u: Trace, n: nat, c: Candidate)
    requires n <= |u| && c in Uploaded(u[..n])
    ensures c in Uploaded(u)
    decreases |u|
  {
    if n < |u| {
      var front := u[..|u| - 1];
      assert front[..n] == u[..n];
      UploadedGrows(front, n, c);
    } else {
      assert u[..n] == u;
    }
  }

  lemma {:induction false} PublishedHas(reports: seq<Report>, c: Candidate) returns (k: nat)
    requires c in PublishedIn(reports)
    ensures k < |reports| && reports[k] == Report(c, Published)
  {
    var n := |reports| - 1;
    if reports[n] == Report(c, Published) {
      k := n;
    } else {
      k := PublishedHas(reports[..n], c);
    }
  }

  /** What an authority showed was visible at the start or accepted since. */
  lemma ShownIsAccepted(visible: set<Key>, u: Trace, c: Candidate) returns (mine: Candidate)
    requires Honest(Alone(visible, u), u) && Confirmed(u, 0, |u|, c) && c.key !in visible
    ensures mine in Uploaded(u) && mine.key == c.key
  {
    var j :| 0 <= j && j + 1 < |u| && PairAt(u, j, c, Present(c.archive));
    assert HonestAt(Alone(visible, u), u[j], j);
    assert c.key in KeysOf(Uploaded(u[..j]));
    mine :| mine in Uploaded(u[..j]) && mine.key == c.key;
    UploadedGrows(u, j, mine);
  }

  /** A package that was not visible and was confirmed is one this run published. */
  lemma {:induction false} MissingIsPublished(visible: set<Key>, b: Bundle, u: Trace, reports: seq<Report>, k: nat)
    requires |reports| == |b| && k < |b| && DistinctKeys(b) && b[k].key !in visible
    requires Honest(Alone(visible, u), u) && Uploaded(u) == PublishedIn(reports)
    requires (forall j :: 0 <= j < |b| ==> reports[j].c == b[j]) && Confirmed(u, 0, |u|, b[k])
    ensures reports[k].status == Published
  {
    var mine := ShownIsAccepted(visible, u, b[k]);
    var j := PublishedHas(reports, mine);
    assert reports[j].c == b[j];
  }

  /** Each status is the one that what was visible at the start calls for. */
  lemma StatusIsExpected(visible: set<Key>, b: Bundle, u: Trace, m: int, reports: seq<Report>, k: nat)
    requires |reports| == |b| && k < |b| && DistinctKeys(b)
    requires Honest(Alone(visible, u), u) && NeverHidden(visible, u) && Disciplined(b, u, m)
    requires (forall j :: 0 <= j < |b| ==> reports[j].c == b[j]) && StatusHolds(reports[k], Publish, u)
    requires Uploaded(u) == PublishedIn(reports)
    ensures reports[k] == Report(b[k], Expected(visible, b[k]))
  {
    if reports[k].status == Published {
      var i :| 0 <= i < |u| && u[i].Put? && u[i].c == b[k] && Accepted(u[i].reply);
      VisibleIsNotPut(visible, b, u, m, i);
    } else if !b[k].immutable {
      if b[k].key !in visible {
        MissingIsPublished(visible, b, u, reports, k);
        assert false;
      }
    }
  }

  lemma {:induction false} PublishedIsMissing(visible: set<Key>, b: Bundle, reports: seq<Report>)
    requires |reports| <= |b| && forall k :: 0 <= k < |reports| ==> reports[k] == Report(b[k], Expected(visible, b[k]))
    ensures PublishedIn(reports) == Missing(visible, b, |reports|)
  {
    if reports != [] {
      PublishedIsMissing(visible, b, reports[..|reports| - 1]);
    }
  }

  lemma {:induction false} NoneMissing(visible: set<Key>, b: Bundle, n: nat)
    requires n <= |b| && Missing(visible, b, n) == []
    ensures forall k :: 0 <= k < n ==> b[k].immutable || b[k].key in visible
  {
    if n > 0 {
      NoneMissing(visible, b, n - 1);
    }
  }

  lemma NothingIsAbsent(visible: set<Key>, b: Bundle, u: Trace)
    requires Missing(visible, b, |b|) == [] && NeverHidden(visible, u)
    ensures NothingAbsent(b, u)
  {
    NoneMissing(visible, b, |b|);
    forall k, i | 0 <= k < |b| && !b[k].immutable ensures !PairAt(u, i, b[k], Absent) {
      assert 0 <= i < |u| ==> !Hidden(visible, u, i);
    }
  }

  /** Alone with a patient registry: exact statuses, exactly the missing packages accepted once each in bundle order,
      and no PUT of anything else. */
  lemma SoloRunIsExact(visible: set<Key>, b: Bundle, s: Settings, token: Token, env: Env)
    requires Ready(visible, b, s) && DistinctKeys(b) && (token == Usable || Missing(visible, b, |b|) == [])
    requires var u := Process(b, Publish, token, s, env).trace; Patient(Alone(visible, u), s, u) && NeverHidden(visible, u)
    ensures var run := Process(b, Publish, token, s, env);
            && run.result.Ok? && |run.result.value| == |b|
            && (forall k :: 0 <= k < |b| ==> run.result.value[k] == Report(b[k], Expected(visible, b[k])))
            && Uploaded(run.trace) == Missing(visible, b, |b|)
            && (forall i :: 0 <= i < |run.trace| && run.trace[i].Put? ==> run.trace[i].c in Missing(visible, b, |b|))
  {
    var run := Process(b, Publish, token, s, env);
    AloneStarts(visible, run.trace);
    if token != Usable {
      NothingIsAbsent(visible, b, run.trace);
    }
    HonestRegistrySucceeds(Alone(visible, run.trace), b, s, token, env);
    OkRunIsTrue(b, Publish, token, s, env);
    var m := EveryPutIsDisciplined(b, Publish, token, s, env);
    forall k | 0 <= k < |b| ensures run.result.value[k] == Report(b[k], Expected(visible, b[k])) {
      StatusIsExpected(visible, b, run.trace, m, run.result.value, k);
    }
    PublishedIsMissing(visible, b, run.result.value);
    forall i | 0 <= i < |run.trace| && run.trace[i].Put? ensures run.trace[i].c in Missing(visible, b, |b|) {
      PutIsMissing(visible, b, run.trace, m, i);
    }
  }

  lemma PutIsMissing(visible: set<Key>, b: Bundle, t: Trace, m: int, i: nat)
    requires Disciplined(b, t, m) && NeverHidden(visible, t) && i < |t| && t[i].Put?
    ensures t[i].c in Missing(visible, b, |b|)
  {
    VisibleIsNotPut(visible, b, t, m, i);
    assert MayPut(b, t, m, i, t[i].c);
    var k :| 0 <= k < |b| && b[k] == t[i].c && EarlierConfirmed(b, t, i, k);
    MissingHas(visible, b, |b|, k);
  }

  // ---------------------------------------------------------------------------------------
  // A slow run
  // ---------------------------------------------------------------------------------------

  const PACKAGE := Candidate(Key("a", "1"), false, "sum", Some([]))
  const TWICE := Settings(2, 0.0, 2, 0.0)

  /** The first PUT is throttled, and the index shows the package one attempt late. */
  function SlowAnswer(i: nat): Answer {
    Answer(if i == 8 || 11 <= i then Present("sum") else Absent, Reply(if i == 5 then 429 else 200, EmptyBody), true)
  }

  function SlowTrace(): Trace {
    [GetApi(PACKAGE, Absent), GetIndex(PACKAGE, Absent),
     GetApi(PACKAGE, Absent), GetIndex(PACKAGE, Absent),
     Reread(PACKAGE, true), Put(PACKAGE, [], Reply(429, EmptyBody)), Sleep(0.0), Put(PACKAGE, [], Reply(200, EmptyBody)),
     GetApi(PACKAGE, Present("sum")), GetIndex(PACKAGE, Absent), Sleep(0.0),
     GetApi(PACKAGE, Present("sum")), GetIndex(PACKAGE, Present("sum"))]
  }

  lemma SlowSettles(i: nat)
    requires i == 0 || i == 2
    ensures Settle(PACKAGE, TWICE, false, SlowAnswer, SlowTrace()[..i]) == Exec(SlowTrace()[..i + 2], Ok(AbsentBoth))
  {
    StateAt(SlowAnswer, SlowTrace(), i);
  }

  lemma SlowConfirms()
    ensures Settle(PACKAGE, TWICE, true, SlowAnswer, SlowTrace()[..8]) == Exec(SlowTrace(), Ok(Matching))
  {
    var u := SlowTrace();
    StateAt(SlowAnswer, u, 8);
    assert u[..10] + [u[10]] == u[..11];
    SlowSecondAttempt();
  }

  lemma SlowSecondAttempt()
    ensures SettleFrom(PACKAGE, TWICE, true, SlowAnswer, SlowTrace()[..11], 2) == Exec(SlowTrace(), Ok(Matching))
  {
    StateAt(SlowAnswer, SlowTrace(), 11);
    assert SlowTrace()[..13] == SlowTrace();
  }

  lemma StateAt(env: Env, u: Trace, i: nat)
    requires i + 2 <= |u| && u[i] == GetApi(PACKAGE, env(i).reading) && u[i + 1] == GetIndex(PACKAGE, env(i + 1).reading)
    requires !env(i).reading.Unreadable? && !env(i + 1).reading.Unreadable?
    ensures RegistryState(PACKAGE, env, u[..i]) == Exec(u[..i + 2], Classify(PACKAGE, env(i).reading, env(i + 1).reading))
  {
    assert u[..i] + [u[i]] + [u[i + 1]] == u[..i + 2];
  }

  lemma SlowUploads()
    ensures Upload(PACKAGE, Usable, TWICE, SlowAnswer, SlowTrace()[..4]) == Exec(SlowTrace()[..8], Ok(()))
  {
    var u := SlowTrace();
    assert u[..4] + [u[4]] == u[..5];
    assert u[..5] + [u[5]] + [u[6]] == u[..7];
    assert u[..7] + [u[7]] == u[..8];
    assert PutFrom(PACKAGE, [], TWICE, SlowAnswer, u[..7], 2, 0.0) == Exec(u[..8], Ok(()));
  }

  lemma SlowPublishes()
    ensures PublishOne(PACKAGE, TWICE, Usable, SlowAnswer, SlowTrace()[..2]) == Exec(SlowTrace(), Ok(Published))
  {
    SlowSettles(2);
    SlowUploads();
    SlowConfirms();
  }

  lemma SlowFirstPass()
    ensures FirstPass([PACKAGE], TWICE, SlowAnswer, [], []) == Exec(SlowTrace()[..2], Ok([AbsentBoth]))
  {
    SlowSettles(0);
    assert SlowTrace()[..0] == [];
    assert [] + [AbsentBoth] == [AbsentBoth];
    assert FirstPass([PACKAGE], TWICE, SlowAnswer, SlowTrace()[..2], [AbsentBoth]) == Exec(SlowTrace()[..2], Ok([AbsentBoth]));
  }

  lemma SlowRun()
    ensures Process([PACKAGE], Publish, Usable, TWICE, SlowAnswer) == Exec(SlowTrace(), Ok([Report(PACKAGE, Published)]))
  {
    var b, u, reports := [PACKAGE], SlowTrace(), [Report(PACKAGE, Published)];
    SlowFirstPass();
    SlowPublishes();
    assert [] + reports == reports && b[0] == PACKAGE;
    assert SecondPass(b, [AbsentBoth], Publish, TWICE, Usable, SlowAnswer, u, reports) == Exec(u, Ok(reports));
    assert SecondPass(b, [AbsentBoth], Publish, TWICE, Usable, SlowAnswer, u[..2], []) == Exec(u, Ok(reports));
  }

  function SlowHeld(i: nat): set<Key> {
    if 8 <= i then {PACKAGE.key} else {}
  }

  lemma SlowIsHonest()
    ensures Honest(SlowHeld, SlowTrace())
  {
    var u := SlowTrace();
    forall i | 0 <= i < |u| ensures HonestAt(SlowHeld, u[i], i) {
    }
  }

  lemma SlowConverges(i: nat, c: Candidate)
    requires c.key in SlowHeld(i + 1)
    ensures !Lags(SlowTrace(), i, c, 2)
  {
    assert Lags(SlowTrace(), i + 3, c, 1) ==> LagsAt(SlowTrace(), i + 3, c);
  }

  lemma SlowYields(i: nat, c: Candidate)
    ensures !Throttles(SlowTrace(), i, c, 2)
  {
    assert Throttles(SlowTrace(), i + 2, c, 1) ==> ThrottledAt(SlowTrace(), i + 2, c);
  }

  /** The hypothesis of the progress results is met by a run that really lags and really is throttled. */
  lemma SlowRunIsPatient()
    ensures var run := Process([PACKAGE], Publish, Usable, TWICE, SlowAnswer);
            && Ready(SlowHeld(0), [PACKAGE], TWICE) && Patient(SlowHeld, TWICE, run.trace)
            && LagsAt(run.trace, 8, PACKAGE) && ThrottledAt(run.trace, 5, PACKAGE)
            && run.result == Ok([Report(PACKAGE, Published)])
  {
    SlowRun();
    SlowIsHonest();
    var u := SlowTrace();
    forall i, c: Candidate | 0 <= i < |u| && c.key in SlowHeld(i + 1) ensures !Lags(u, i, c, 2) {
      SlowConverges(i, c);
    }
    forall i, c: Candidate | 0 <= i < |u| ensures !Throttles(u, i, c, 2) {
      SlowYields(i, c);
    }
  }
}
