/**
 The publisher against a registry that is slow but honest, and that others may publish the same bytes to.
 Readings may lag behind what the registry holds, PUTs may be throttled, and a PUT may be lost to someone else's
 identical one. As long as neither lasts for all the configured attempts, the run succeeds, and exactly the
 packages it reports as published were accepted, once each and in bundle order.
 */
module CargoPublisherProgress {
  import opened Prelude
  import opened CargoPublisher
  import opened CargoPublisherSafety

  /** What the registry holds, with the accepted bytes, when event `i` of a run is answered. */
  type Held = nat -> set<Key>

  /** The packages whose PUT was accepted in a trace, in order. */
  function Uploaded(t: Trace): seq<Candidate> {
    if t == [] then []
    else
      var last := t[|t| - 1];
      Uploaded(t[..|t| - 1]) + (if last.Put? && Accepted(last.reply) then [last.c] else [])
  }

  lemma UploadedSnoc(t: Trace, e: Event)
    ensures Uploaded(t + [e]) == if e.Put? && Accepted(e.reply) then Uploaded(t) + [e.c] else Uploaded(t)
  {
    assert (t + [e])[..|t|] == t;
  }

  predicate NoneAccepted(t: Trace, lo: int) {
    forall i :: lo <= i < |t| && 0 <= i && t[i].Put? ==> !Accepted(t[i].reply)
  }

  lemma {:induction false} QuietKeeps(t: Trace, u: Trace)
    requires t <= u && NoneAccepted(u, |t|)
    ensures Uploaded(u) == Uploaded(t)
    decreases |u|
  {
    if |t| < |u| {
      var front := u[..|u| - 1];
      assert t <= front;
      QuietKeeps(t, front);
    } else {
      assert t == u;
    }
  }

  // ---------------------------------------------------------------------------------------
  // Slow but honest
  // ---------------------------------------------------------------------------------------

  /** An authority shows what the registry holds, or does not show it yet. */
  predicate HonestReading(held: set<Key>, c: Candidate, r: Reading) {
    r == Absent || (c.key in held && r == Present(c.archive))
  }

  /** A PUT that is not throttled leaves the package there: it was accepted, or someone else's was. */
  predicate HonestAt(held: Held, e: Event, i: nat) {
    match e
    case GetApi(c, r) => HonestReading(held(i), c, r)
    case GetIndex(c, r) => HonestReading(held(i), c, r)
    case Sleep(_) => true
    case Reread(_, intact) => intact
    case Put(c, _, reply) => Throttled(reply) || c.key in held(i + 1)
  }

  /** Answers are honest, and nothing is ever removed. */
  ghost predicate Honest(held: Held, u: Trace) {
    && (forall i :: 0 <= i < |u| ==> HonestAt(held, u[i], i))
    && (forall i, j :: 0 <= i <= j <= |u| ==> held(i) <= held(j))
  }

  /** At `i` the two authorities are read for `c`, and do not both show it. */
  predicate LagsAt(t: Trace, i: int, c: Candidate) {
    && 0 <= i && i + 1 < |t| && t[i].GetApi? && t[i + 1].GetIndex? && t[i].c == c && t[i + 1].c == c
    && !(t[i].r.Present? && t[i + 1].r.Present?)
  }

  /** From `i` on, `n` attempts in a row lag, each followed by its pause. */
  predicate Lags(t: Trace, i: int, c: Candidate, n: nat)
    decreases n
  {
    n == 0 || (LagsAt(t, i, c) && Lags(t, i + 3, c, n - 1))
  }

  predicate ThrottledAt(t: Trace, i: int, c: Candidate) {
    0 <= i < |t| && t[i].Put? && t[i].c == c && Throttled(t[i].reply)
  }

  /** From `i` on, `n` PUTs in a row are throttled, each followed by its pause. */
  predicate Throttles(t: Trace, i: int, c: Candidate, n: nat)
    decreases n
  {
    n == 0 || (ThrottledAt(t, i, c) && Throttles(t, i + 2, c, n - 1))
  }

  /** Honest, and neither lagging nor throttling for all the attempts that are made. */
  ghost predicate Patient(held: Held, s: Settings, u: Trace)
    requires VerifyBoundsOk(s) && UploadBoundsOk(s)
  {
    && Honest(held, u)
    && (forall i, c: Candidate {:trigger Lags(u, i, c, s.verifyAttempts)} ::
          0 <= i < |u| && c.key in held(i + 1) ==> !Lags(u, i, c, s.verifyAttempts))
    && (forall i, c: Candidate :: 0 <= i < |u| ==> !Throttles(u, i, c, s.uploadAttempts))
  }

  // ---------------------------------------------------------------------------------------
  // Settling
  // ---------------------------------------------------------------------------------------

  /** A reading the publisher cannot accept. */
  predicate BadReading(e: Event) {
    (e.GetApi? || e.GetIndex?) && e.r != Absent && e.r != Present(e.c.archive)
  }

  ghost predicate BadFrom(t: Trace, lo: nat) {
    exists i :: lo <= i < |t| && BadReading(t[i])
  }

  lemma BadExtends(t: Trace, u: Trace, lo: nat, lo': nat)
    requires t <= u && lo' <= lo && BadFrom(t, lo)
    ensures BadFrom(u, lo')
  {
    var i :| lo <= i < |t| && BadReading(t[i]);
    assert u[i] == t[i];
  }

  /** At `i` the two authorities are read for `c`, and one of them shows it. */
  predicate SomePresent(t: Trace, i: int, c: Candidate) {
    && 0 <= i && i + 1 < |t| && t[i].GetApi? && t[i + 1].GetIndex? && t[i].c == c && t[i + 1].c == c
    && (t[i].r.Present? || t[i + 1].r.Present?)
  }

  /** One attempt raises only for a bad reading; otherwise it settles or lags. */
  lemma OneAttempt(c: Candidate, requireMatching: bool, env: Env, t: Trace)
    ensures var e := RegistryState(c, env, t);
            && (e.result.Err? ==> BadFrom(e.trace, |t|))
            && (e.result.Ok? && e.result.value != Matching && !(e.result.value == AbsentBoth && !requireMatching) ==>
                  && |e.trace| == |t| + 2 && LagsAt(e.trace, |t|, c)
                  && (requireMatching || SomePresent(e.trace, |t|, c)))
  {
    var e := RegistryState(c, env, t);
    if e.result.Err? {
      assert BadReading(e.trace[|t|]) || BadReading(e.trace[|e.trace| - 1]);
    }
  }

  /** From `lo` on there is a bad reading, or `n` attempts for `c` lag. */
  ghost predicate Fails(t: Trace, lo: nat, c: Candidate, n: nat, requireMatching: bool) {
    BadFrom(t, lo) || (Lags(t, lo, c, n) && (requireMatching || SomePresent(t, lo, c)))
  }

  /** Settling fails only for a bad reading, or when every attempt that is left lags. */
  lemma {:induction false} SettleFails(
    c: Candidate, s: Settings, requireMatching: bool, env: Env, t: Trace, attempt: int, e: Exec<Visibility>)
    requires 1 <= attempt <= s.verifyAttempts && e == SettleFrom(c, s, requireMatching, env, t, attempt)
    ensures e.result.Ok? || Fails(e.trace, |t|, c, s.verifyAttempts - attempt + 1, requireMatching)
    decreases s.verifyAttempts - attempt
  {
    var first := RegistryState(c, env, t);
    OneAttempt(c, requireMatching, env, t);
    if first.result.Ok? && first.result.value != Matching && !(first.result.value == AbsentBoth && !requireMatching) {
      if attempt < s.verifyAttempts {
        SettleFails(c, s, requireMatching, env, first.trace + [Sleep(s.verifyDelay)], attempt + 1, e);
        FailsBefore(c, requireMatching, first.trace, e.trace, |t|, s.verifyAttempts - attempt);
      } else {
        assert Lags(first.trace, |t|, c, 1);
      }
    }
  }

  /** One lagging attempt more, in front. */
  lemma FailsBefore(c: Candidate, requireMatching: bool, first: Trace, e: Trace, i: nat, n: nat)
    requires first <= e && LagsAt(first, i, c) && (requireMatching || SomePresent(first, i, c))
    ensures Fails(e, i + 3, c, n, requireMatching) ==> Fails(e, i, c, n + 1, requireMatching)
  {
    assert e[i] == first[i] && e[i + 1] == first[i + 1];
    if BadFrom(e, i + 3) {
      BadExtends(e, e, i + 3, i);
    }
  }

  lemma {:induction false} LagsExtend(t: Trace, u: Trace, i: nat, c: Candidate, n: nat)
    requires t <= u
    ensures Lags(t, i, c, n) ==> Lags(u, i, c, n)
    decreases n
  {
    if n > 0 {
      LagsExtend(t, u, i + 3, c, n - 1);
    }
  }

  lemma NoneBad(held: Held, u: Trace, t: Trace, lo: nat)
    requires Honest(held, u) && t <= u
    ensures !BadFrom(t, lo)
  {
    forall i | lo <= i < |t| ensures !BadReading(t[i]) {
      assert u[i] == t[i];
      assert HonestAt(held, u[i], i);
    }
  }

  /** The registry holds what an authority shows. */
  lemma PresentIsHeld(held: Held, u: Trace, t: Trace, i: nat, c: Candidate)
    requires Honest(held, u) && t <= u && SomePresent(t, i, c)
    ensures c.key in held(i + 1)
  {
    assert u[i] == t[i] && u[i + 1] == t[i + 1];
    assert HonestAt(held, u[i], i) && HonestAt(held, u[i + 1], i + 1);
    assert held(i) <= held(i + 1);
  }

  /** Every package settles, and as matching once the registry holds it and the caller insists. */
  lemma SettleSucceeds(held: Held, c: Candidate, s: Settings, requireMatching: bool, env: Env, t: Trace, u: Trace)
    requires VerifyBoundsOk(s) && UploadBoundsOk(s) && Patient(held, s, u)
    requires Settle(c, s, requireMatching, env, t).trace <= u && (requireMatching ==> c.key in held(|t|))
    ensures Settle(c, s, requireMatching, env, t).result.Ok?
    ensures requireMatching ==> Settle(c, s, requireMatching, env, t).result == Ok(Matching)
  {
    var e := Settle(c, s, requireMatching, env, t);
    SettleOutcome(c, s, requireMatching, env, t);
    SettleFails(c, s, requireMatching, env, t, 1, e);
    NoneBad(held, u, e.trace, |t|);
    StateBeginsSettle(c, s, requireMatching, env, t);
    if requireMatching || SomePresent(e.trace, |t|, c) {
      if requireMatching {
        assert held(|t|) <= held(|t| + 1);
      } else {
        PresentIsHeld(held, u, e.trace, |t|, c);
      }
      assert !Lags(u, |t|, c, s.verifyAttempts);
      LagsExtend(e.trace, u, |t|, c, s.verifyAttempts);
    }
  }

  lemma StateBeginsSettle(c: Candidate, s: Settings, requireMatching: bool, env: Env, t: Trace)
    requires 1 <= s.verifyAttempts
    ensures |t| < |SettleFrom(c, s, requireMatching, env, t, 1).trace|
  {
    assert |t| < |RegistryState(c, env, t).trace|;
  }

  lemma SettleIsQuiet(c: Candidate, s: Settings, requireMatching: bool, env: Env, t: Trace)
    ensures Uploaded(Settle(c, s, requireMatching, env, t).trace) == Uploaded(t)
  {
    SettleOutcome(c, s, requireMatching, env, t);
    QuietKeeps(t, Settle(c, s, requireMatching, env, t).trace);
  }

  // ---------------------------------------------------------------------------------------
  // Uploading
  // ---------------------------------------------------------------------------------------

  lemma PutStep(c: Candidate, body: Bytes, s: Settings, env: Env, t: Trace, attempt: int, backoff: real)
    requires 1 <= attempt <= s.uploadAttempts
    ensures var put := Put(c, body, env(|t|).put);
            var e := PutFrom(c, body, s, env, t, attempt, backoff);
            if Throttled(put.reply) && attempt < s.uploadAttempts then
              e == PutFrom(c, body, s, env, t + [put] + [Sleep(backoff)], attempt + 1, backoff * 2.0)
            else
              e.trace == t + [put] && (e.result.Ok? <==> Accepted(put.reply))
  {
  }

  /** An upload ends with a PUT of its package, the only one that can be accepted; that one is throttled only if
      all that were left are. */
  lemma {:induction false} PutEnds(
    c: Candidate, body: Bytes, s: Settings, env: Env, t: Trace, attempt: int, backoff: real, e: Exec<()>)
    requires 1 <= attempt <= s.uploadAttempts && e == PutFrom(c, body, s, env, t, attempt, backoff)
    ensures |t| < |e.trace| && e.trace[|e.trace| - 1].Put? && e.trace[|e.trace| - 1].c == c
    ensures e.result.Ok? <==> Accepted(e.trace[|e.trace| - 1].reply)
    ensures NoneAccepted(e.trace[..|e.trace| - 1], |t|)
    ensures Throttled(e.trace[|e.trace| - 1].reply) ==> Throttles(e.trace, |t|, c, s.uploadAttempts - attempt + 1)
    decreases s.uploadAttempts - attempt
  {
    var put := Put(c, body, env(|t|).put);
    PutStep(c, body, s, env, t, attempt, backoff);
    if Throttled(put.reply) {
      if attempt < s.uploadAttempts {
        var t' := t + [put] + [Sleep(backoff)];
        PutEnds(c, body, s, env, t', attempt + 1, backoff * 2.0, e);
        assert e.trace[|t|] == t'[|t|] && e.trace[|t| + 1] == t'[|t| + 1];
      } else {
        assert Throttles(e.trace, |t|, c, 1);
      }
    }
  }

  /** What an upload adds to the accepted packages. */
  lemma PutUploads(t: Trace, u: Trace, c: Candidate)
    requires |t| < |u| && t <= u && u[|u| - 1].Put? && u[|u| - 1].c == c && NoneAccepted(u[..|u| - 1], |t|)
    ensures Uploaded(u) == Uploaded(t) + if Accepted(u[|u| - 1].reply) then [c] else []
  {
    assert t <= u[..|u| - 1];
    QuietKeeps(t, u[..|u| - 1]);
  }

  lemma {:induction false} ThrottlesExtend(t: Trace, u: Trace, i: nat, c: Candidate, n: nat)
    requires t <= u
    ensures Throttles(t, i, c, n) ==> Throttles(u, i, c, n)
    decreases n
  {
    if n > 0 {
      ThrottlesExtend(t, u, i + 2, c, n - 1);
    }
  }

  /** In the end the registry holds the package. */
  lemma PutLands(held: Held, c: Candidate, body: Bytes, s: Settings, env: Env, t: Trace, u: Trace)
    requires VerifyBoundsOk(s) && UploadBoundsOk(s) && Patient(held, s, u)
    requires PutFrom(c, body, s, env, t, 1, s.uploadBackoff).trace <= u
    ensures var e := PutFrom(c, body, s, env, t, 1, s.uploadBackoff);
            c.key in held(|e.trace|) && Uploaded(e.trace) == Uploaded(t) + if e.result.Ok? then [c] else []
  {
    var e := PutFrom(c, body, s, env, t, 1, s.uploadBackoff);
    PutEnds(c, body, s, env, t, 1, s.uploadBackoff, e);
    PutUploads(t, e.trace, c);
    assert !Throttles(u, |t|, c, s.uploadAttempts);
    ThrottlesExtend(e.trace, u, |t|, c, s.uploadAttempts);
    var n := |e.trace| - 1;
    assert u[n] == e.trace[n];
    assert HonestAt(held, u[n], n);
  }

  lemma UploadLands(held: Held, c: Candidate, s: Settings, env: Env, t: Trace, u: Trace)
    requires VerifyBoundsOk(s) && UploadBoundsOk(s) && c.request.Some? && Patient(held, s, u)
    requires Upload(c, Usable, s, env, t).trace <= u
    ensures c.key in held(|Upload(c, Usable, s, env, t).trace|)
    ensures var e := Upload(c, Usable, s, env, t); Uploaded(e.trace) == Uploaded(t) + if e.result.Ok? then [c] else []
  {
    var t1 := t + [Reread(c, env(|t|).intact)];
    assert t1 <= Upload(c, Usable, s, env, t).trace;
    assert u[|t|] == t1[|t|];
    assert HonestAt(held, u[|t|], |t|);
    UploadedSnoc(t, Reread(c, true));
    PutLands(held, c, c.request.value, s, env, t1, u);
  }

  /** Publishing one package, by the outcomes of its three steps. */
  lemma PublishOneSteps(c: Candidate, s: Settings, env: Env, t: Trace)
    ensures var recheck := Settle(c, s, false, env, t);
            var upload := Upload(c, Usable, s, env, recheck.trace);
            var confirm := Settle(c, s, true, env, upload.trace);
            var e := PublishOne(c, s, Usable, env, t);
            && recheck.trace <= e.trace
            && (recheck.result == Ok(Matching) ==> e == Exec(recheck.trace, Ok(AlreadyPublished)))
            && (recheck.result == Ok(AbsentBoth) ==> e.trace == confirm.trace && upload.trace <= e.trace)
            && (recheck.result == Ok(AbsentBoth) && confirm.result.Ok? ==>
                  e.result == Ok(if upload.result.Ok? then Published else AlreadyPublished))
  {
  }

  /** What publishing adds to the accepted packages. */
  function Gain(c: Candidate, result: Result<Status, Failure>): seq<Candidate> {
    if result == Ok(Published) then [c] else []
  }

  lemma PublishOneSucceeds(held: Held, c: Candidate, s: Settings, env: Env, t: Trace, u: Trace)
    requires VerifyBoundsOk(s) && UploadBoundsOk(s) && c.request.Some? && Patient(held, s, u)
    requires PublishOne(c, s, Usable, env, t).trace <= u
    ensures PublishOne(c, s, Usable, env, t).result.Ok?
    ensures var e := PublishOne(c, s, Usable, env, t); Uploaded(e.trace) == Uploaded(t) + Gain(c, e.result)
  {
    PublishOneSteps(c, s, env, t);
    var recheck := Settle(c, s, false, env, t);
    SettleSucceeds(held, c, s, false, env, t, u);
    SettleIsQuiet(c, s, false, env, t);
    SettleOutcome(c, s, false, env, t);
    if recheck.result == Ok(AbsentBoth) {
      UploadLands(held, c, s, env, recheck.trace, u);
      var upload := Upload(c, Usable, s, env, recheck.trace);
      SettleSucceeds(held, c, s, true, env, upload.trace, u);
      SettleIsQuiet(c, s, true, env, upload.trace);
    }
  }

  // ---------------------------------------------------------------------------------------
  // Whole runs
  // ---------------------------------------------------------------------------------------

  /** The settings are in bounds, the immutable packages are there, and the others have a request. */
  predicate Ready(visible: set<Key>, b: Bundle, s: Settings) {
    && VerifyBoundsOk(s) && UploadBoundsOk(s)
    && forall k :: 0 <= k < |b| ==> if b[k].immutable then b[k].key in visible else b[k].request.Some?
  }

  /** The packages reported as published, in order. */
  function PublishedIn(reports: seq<Report>): seq<Candidate> {
    if reports == [] then []
    else
      var last := reports[|reports| - 1];
      PublishedIn(reports[..|reports| - 1]) + if last.status == Published then [last.c] else []
  }

  lemma SettleBeginsPass(b: Bundle, s: Settings, env: Env, t: Trace, states: seq<Visibility>)
    requires |states| < |b|
    ensures var e := Settle(b[|states|], s, b[|states|].immutable, env, t);
            var whole := FirstPass(b, s, env, t, states);
            && e.trace <= whole.trace
            && (e.result.Ok? ==> whole == FirstPass(b, s, env, e.trace, states + [e.result.value]))
  {
  }

  lemma {:induction false} FirstPassSucceeds(held: Held, b: Bundle, s: Settings, env: Env, t: Trace, states: seq<Visibility>, u: Trace)
    requires Ready(held(0), b, s) && Patient(held, s, u) && |states| <= |b|
    requires FirstPass(b, s, env, t, states).trace <= u && Uploaded(t) == []
    ensures FirstPass(b, s, env, t, states).result.Ok?
    ensures Uploaded(FirstPass(b, s, env, t, states).trace) == []
    decreases |b| - |states|
  {
    if |states| < |b| {
      var c := b[|states|];
      var e := Settle(c, s, c.immutable, env, t);
      SettleBeginsPass(b, s, env, t, states);
      assert held(0) <= held(|t|);
      SettleSucceeds(held, c, s, c.immutable, env, t, u);
      SettleIsQuiet(c, s, c.immutable, env, t);
      FirstPassSucceeds(held, b, s, env, e.trace, states + [e.result.value], u);
    }
  }

  /** Whatever has to be published can be. */
  ghost predicate CanUpload(b: Bundle, states: seq<Visibility>, token: Token)
    requires |states| == |b|
  {
    token == Usable || forall k :: 0 <= k < |b| && !b[k].immutable ==> states[k] == Matching
  }

  lemma HandleOneSucceeds(
    held: Held, b: Bundle, states: seq<Visibility>, k: nat, s: Settings, token: Token, env: Env, t: Trace, u: Trace)
    requires Ready(held(0), b, s) && Patient(held, s, u) && |states| == |b| && k < |b| && CanUpload(b, states, token)
    requires HandleOne(b[k], states[k], Publish, s, token, env, t).trace <= u
    ensures HandleOne(b[k], states[k], Publish, s, token, env, t).result.Ok?
    ensures var e := HandleOne(b[k], states[k], Publish, s, token, env, t); Uploaded(e.trace) == Uploaded(t) + Gain(b[k], e.result)
  {
    if !b[k].immutable && states[k] != Matching {
      PublishOneSucceeds(held, b[k], s, env, t, u);
    }
  }

  lemma HandleBeginsPass(b: Bundle, states: seq<Visibility>, s: Settings, token: Token, env: Env, t: Trace, reports: seq<Report>)
    requires |states| == |b| && |reports| < |b|
    ensures var c := b[|reports|];
            var e := HandleOne(c, states[|reports|], Publish, s, token, env, t);
            var whole := SecondPass(b, states, Publish, s, token, env, t, reports);
            && e.trace <= whole.trace
            && (e.result.Ok? ==>
                  whole == SecondPass(b, states, Publish, s, token, env, e.trace, reports + [Report(c, e.result.value)]))
  {
  }

  lemma {:induction false} SecondPassSucceeds(
    held: Held, b: Bundle, states: seq<Visibility>, s: Settings, token: Token, env: Env, t: Trace, reports: seq<Report>, u: Trace)
    requires Ready(held(0), b, s) && Patient(held, s, u) && |states| == |b| && |reports| <= |b| && CanUpload(b, states, token)
    requires SecondPass(b, states, Publish, s, token, env, t, reports).trace <= u && Uploaded(t) == PublishedIn(reports)
    ensures SecondPass(b, states, Publish, s, token, env, t, reports).result.Ok?
    ensures var e := SecondPass(b, states, Publish, s, token, env, t, reports); Uploaded(e.trace) == PublishedIn(e.result.value)
    decreases |b| - |reports|
  {
    if |reports| < |b| {
      var c := b[|reports|];
      var e := HandleOne(c, states[|reports|], Publish, s, token, env, t);
      HandleBeginsPass(b, states, s, token, env, t, reports);
      HandleOneSucceeds(held, b, states, |reports|, s, token, env, t, u);
      var more := reports + [Report(c, e.result.value)];
      assert more[..|reports|] == reports;
      SecondPassSucceeds(held, b, states, s, token, env, e.trace, more, u);
    }
  }

  /** No first-party package was seen absent at both authorities. */
  ghost predicate NothingAbsent(b: Bundle, u: Trace) {
    forall k, i :: 0 <= k < |b| && !b[k].immutable ==> !PairAt(u, i, b[k], Absent)
  }

  lemma NothingToUpload(b: Bundle, states: seq<Visibility>, t: Trace, u: Trace, token: Token)
    requires |states| == |b| && t <= u && (token == Usable || NothingAbsent(b, u))
    requires forall k :: 0 <= k < |b| ==> SettledAs(b[k], states[k], t)
    ensures CanUpload(b, states, token)
    ensures NeedsUpload(b, states) ==> token == Usable
  {
    forall k | 0 <= k < |b| && !b[k].immutable && token != Usable ensures states[k] == Matching {
      if Seen(t, 0, |t|, b[k], Absent) {
        SeenExtends(t, u, 0, |t|, 0, |u|, b[k], Absent);
      }
    }
  }

  lemma RunSucceeds(held: Held, b: Bundle, s: Settings, token: Token, env: Env)
    requires Ready(held(0), b, s) && Patient(held, s, Process(b, Publish, token, s, env).trace)
    requires token == Usable || NothingAbsent(b, Process(b, Publish, token, s, env).trace)
    ensures Process(b, Publish, token, s, env).result.Ok?
    ensures var run := Process(b, Publish, token, s, env); Uploaded(run.trace) == PublishedIn(run.result.value)
  {
    var run := Process(b, Publish, token, s, env);
    var first := FirstPass(b, s, env, [], []);
    FirstPassSettles(b, s, env, [], []);
    FirstPassSucceeds(held, b, s, env, [], [], run.trace);
    NothingToUpload(b, first.result.value, first.trace, run.trace, token);
    SecondPassSucceeds(held, b, first.result.value, s, token, env, first.trace, [], run.trace);
  }

  /** What a publishing run reports of `c`: a PUT that was lost to someone else's makes it already published. */
  predicate FinalReport(r: Report, c: Candidate) {
    r.c == c && if c.immutable then r.status == VerifiedPreexisting else r.status == Published || r.status == AlreadyPublished
  }

  lemma ReportIsFinal(r: Report, c: Candidate, t: Trace)
    requires r.c == c && StatusHolds(r, Publish, t)
    ensures FinalReport(r, c)
  {
  }

  /** A slow but honest registry, whoever else publishes to it: the run succeeds, and exactly the packages it reports
      as published had a PUT accepted, once each and in bundle order. */
  lemma HonestRegistrySucceeds(held: Held, b: Bundle, s: Settings, token: Token, env: Env)
    requires Ready(held(0), b, s) && Patient(held, s, Process(b, Publish, token, s, env).trace)
    requires token == Usable || NothingAbsent(b, Process(b, Publish, token, s, env).trace)
    ensures Process(b, Publish, token, s, env).result.Ok?
    ensures var run := Process(b, Publish, token, s, env);
            && |run.result.value| == |b| && Uploaded(run.trace) == PublishedIn(run.result.value)
            && forall k :: 0 <= k < |b| ==> FinalReport(run.result.value[k], b[k])
  {
    RunSucceeds(held, b, s, token, env);
    OkRunIsTrue(b, Publish, token, s, env);
    var run := Process(b, Publish, token, s, env);
    forall k | 0 <= k < |b| ensures FinalReport(run.result.value[k], b[k]) {
      ReportIsFinal(run.result.value[k], b[k], run.trace);
    }
  }
}
