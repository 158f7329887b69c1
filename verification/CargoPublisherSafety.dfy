/**
 What every run of the publisher keeps, for every environment: when a PUT may be sent, what was
 observed before it, and what an `ok` outcome proves about the registry.
 */
module CargoPublisherSafety {
  import opened Prelude
  import opened CargoPublisher

  /** The API and then the sparse index gave reading `r` for `c` at positions `j` and `j + 1`. */
  predicate PairAt(t: Trace, j: int, c: Candidate, r: Reading) {
    0 <= j && j + 1 < |t| && t[j] == GetApi(c, r) && t[j + 1] == GetIndex(c, r)
  }

  /** Both authorities gave reading `r` for `c`, within positions `lo` to `hi`. */
  ghost predicate Seen(t: Trace, lo: int, hi: int, c: Candidate, r: Reading) {
    exists j :: lo <= j && j + 1 < hi && PairAt(t, j, c, r)
  }

  /** Both authorities showed exactly the accepted archive. */
  ghost predicate Confirmed(t: Trace, lo: int, hi: int, c: Candidate) {
    Seen(t, lo, hi, c, Present(c.archive))
  }

  /** The first pass ended before position `m`: every package had settled. */
  ghost predicate FirstPassDone(b: Bundle, t: Trace, m: int) {
    forall k :: 0 <= k < |b| ==>
      Confirmed(t, 0, m, b[k]) || (!b[k].immutable && Seen(t, 0, m, b[k], Absent))
  }

  /** Position `i` directly follows a double absence and a reread, or a throttled PUT and its pause. */
  predicate Rechecked(t: Trace, i: int, c: Candidate)
    requires 0 <= i <= |t|
  {
    || (3 <= i && PairAt(t, i - 3, c, Absent) && t[i - 1] == Reread(c, true))
    || (2 <= i && t[i - 1].Sleep? && t[i - 2].Put? && t[i - 2].c == c && Throttled(t[i - 2].reply))
  }

  /** Everything that must have happened before a PUT of `c` at position `i`. */
  ghost predicate MayPut(b: Bundle, t: Trace, m: int, i: int, c: Candidate)
    requires 0 <= i <= |t|
  {
    && m <= i
    && !c.immutable
    && Rechecked(t, i, c)
    && exists k :: 0 <= k < |b| && b[k] == c && EarlierConfirmed(b, t, i, k)
  }

  ghost predicate EarlierConfirmed(b: Bundle, t: Trace, i: int, k: int)
    requires 0 <= k <= |b|
  {
    forall j :: 0 <= j < k ==> Confirmed(t, 0, i, b[j])
  }

  /** The PUT discipline over a whole trace whose first pass ended at `m`. */
  ghost predicate Disciplined(b: Bundle, t: Trace, m: int) {
    forall i :: 0 <= i < |t| && t[i].Put? ==>
      MayPut(b, t, m, i, t[i].c) && t[i].c.request == Some(t[i].body)
  }

  /** Every PUT sent so far was afterwards confirmed. */
  ghost predicate PutsConfirmed(t: Trace) {
    forall i :: 0 <= i < |t| && t[i].Put? ==> Confirmed(t, i, |t|, t[i].c)
  }

  predicate NoPutFrom(t: Trace, lo: int) {
    forall i :: lo <= i < |t| && 0 <= i ==> !t[i].Put?
  }

  // ---------------------------------------------------------------------------------------
  // Facts survive extending the trace
  // ---------------------------------------------------------------------------------------

  lemma SeenExtends(t: Trace, u: Trace, lo: int, hi: int, lo': int, hi': int, c: Candidate, r: Reading)
    requires t <= u && lo' <= lo && hi <= hi' && Seen(t, lo, hi, c, r)
    ensures Seen(u, lo', hi', c, r)
  {
    var j :| lo <= j && j + 1 < hi && PairAt(t, j, c, r);
    assert PairAt(u, j, c, r);
  }

  lemma EarlierConfirmedExtends(b: Bundle, t: Trace, u: Trace, i: int, i': int, k: int)
    requires t <= u && i <= i' && 0 <= k <= |b| && EarlierConfirmed(b, t, i, k)
    ensures EarlierConfirmed(b, u, i', k)
  {
    forall j | 0 <= j < k ensures Confirmed(u, 0, i', b[j]) {
      SeenExtends(t, u, 0, i, 0, i', b[j], Present(b[j].archive));
    }
  }

  lemma MayPutExtends(b: Bundle, t: Trace, u: Trace, m: int, i: int, c: Candidate)
    requires t <= u && 0 <= i <= |t| && MayPut(b, t, m, i, c)
    ensures MayPut(b, u, m, i, c)
  {
    var k :| 0 <= k < |b| && b[k] == c && EarlierConfirmed(b, t, i, k);
    EarlierConfirmedExtends(b, t, u, i, i, k);
  }

  lemma FirstPassDoneExtends(b: Bundle, t: Trace, u: Trace, m: int)
    requires t <= u && FirstPassDone(b, t, m)
    ensures FirstPassDone(b, u, m)
  {
    forall k | 0 <= k < |b|
      ensures Confirmed(u, 0, m, b[k]) || (!b[k].immutable && Seen(u, 0, m, b[k], Absent))
    {
      if Confirmed(t, 0, m, b[k]) {
        SeenExtends(t, u, 0, m, 0, m, b[k], Present(b[k].archive));
      } else {
        SeenExtends(t, u, 0, m, 0, m, b[k], Absent);
      }
    }
  }

  /** A stretch without PUTs keeps both trace invariants. */
  lemma QuietStretch(b: Bundle, t: Trace, u: Trace, m: int)
    requires t <= u && NoPutFrom(u, |t|)
    ensures Disciplined(b, t, m) ==> Disciplined(b, u, m)
    ensures PutsConfirmed(t) ==> PutsConfirmed(u)
  {
    forall i | 0 <= i < |u| && u[i].Put?
      ensures Disciplined(b, t, m) ==> MayPut(b, u, m, i, u[i].c) && u[i].c.request == Some(u[i].body)
      ensures PutsConfirmed(t) ==> Confirmed(u, i, |u|, u[i].c)
    {
      assert i < |t| && t[i] == u[i];
      if Disciplined(b, t, m) { MayPutExtends(b, t, u, m, i, u[i].c); }
      if PutsConfirmed(t) { SeenExtends(t, u, i, |t|, i, |u|, u[i].c, Present(u[i].c.archive)); }
    }
  }

  // ---------------------------------------------------------------------------------------
  // Settling and uploading
  // ---------------------------------------------------------------------------------------

  /** Settling never PUTs. */
  lemma {:induction false} SettleFromIsQuiet(
    c: Candidate, s: Settings, requireMatching: bool, env: Env, t: Trace, attempt: int)
    requires 1 <= attempt <= s.verifyAttempts
    ensures NoPutFrom(SettleFrom(c, s, requireMatching, env, t, attempt).trace, |t|)
    decreases s.verifyAttempts - attempt
  {
    var e := RegistryState(c, env, t);
    if e.result.Ok? && attempt < s.verifyAttempts {
      SettleFromIsQuiet(c, s, requireMatching, env, e.trace + [Sleep(s.verifyDelay)], attempt + 1);
    }
  }

  /** A settled verdict is what both authorities last showed. */
  lemma {:induction false} SettleFromOutcome(
    c: Candidate, s: Settings, requireMatching: bool, env: Env, t: Trace, attempt: int)
    requires 1 <= attempt <= s.verifyAttempts
    ensures var e := SettleFrom(c, s, requireMatching, env, t, attempt);
            e.result.Ok? ==>
              && |t| + 2 <= |e.trace|
              && (|| (e.result.value == Matching && PairAt(e.trace, |e.trace| - 2, c, Present(c.archive)))
                  || (e.result.value == AbsentBoth && !requireMatching && PairAt(e.trace, |e.trace| - 2, c, Absent)))
    decreases s.verifyAttempts - attempt
  {
    var e := RegistryState(c, env, t);
    if e.result.Ok? && attempt < s.verifyAttempts {
      SettleFromOutcome(c, s, requireMatching, env, e.trace + [Sleep(s.verifyDelay)], attempt + 1);
    }
  }

  lemma SettleOutcome(c: Candidate, s: Settings, requireMatching: bool, env: Env, t: Trace)
    ensures var e := Settle(c, s, requireMatching, env, t);
            && NoPutFrom(e.trace, |t|)
            && (e.result.Ok? ==> e.result.value in {Matching, AbsentBoth})
            && (e.result == Ok(Matching) ==> Confirmed(e.trace, |t|, |e.trace|, c))
            && (e.result == Ok(AbsentBoth) ==>
                  && !requireMatching
                  && PairAt(e.trace, |e.trace| - 2, c, Absent)
                  && Seen(e.trace, |t|, |e.trace|, c, Absent))
  {
    if VerifyBoundsOk(s) {
      SettleFromIsQuiet(c, s, requireMatching, env, t, 1);
      SettleFromOutcome(c, s, requireMatching, env, t, 1);
    }
  }

  /** Appending one permitted PUT keeps the discipline. */
  lemma PutKeeps(b: Bundle, m: int, c: Candidate, body: Bytes, reply: PutReply, t: Trace)
    requires c.request == Some(body)
    requires Disciplined(b, t, m) && MayPut(b, t, m, |t|, c)
    ensures Disciplined(b, t + [Put(c, body, reply)], m)
  {
    var u := t + [Put(c, body, reply)];
    forall i | 0 <= i < |u| && u[i].Put?
      ensures MayPut(b, u, m, i, u[i].c) && u[i].c.request == Some(u[i].body)
    {
      if i < |t| {
        assert u[i] == t[i];
        MayPutExtends(b, t, u, m, i, t[i].c);
      } else {
        MayPutExtends(b, t, u, m, i, c);
      }
    }
  }

  /** After a throttled PUT and its pause the same package may be PUT again. */
  lemma RetryAllowed(b: Bundle, m: int, c: Candidate, body: Bytes, reply: PutReply, pause: real, t: Trace)
    requires c.request == Some(body) && Throttled(reply)
    requires Disciplined(b, t, m) && MayPut(b, t, m, |t|, c)
    ensures var v := t + [Put(c, body, reply)] + [Sleep(pause)];
            Disciplined(b, v, m) && MayPut(b, v, m, |v|, c)
  {
    var u := t + [Put(c, body, reply)];
    var v := u + [Sleep(pause)];
    PutKeeps(b, m, c, body, reply, t);
    QuietStretch(b, u, v, m);
    var k :| 0 <= k < |b| && b[k] == c && EarlierConfirmed(b, t, |t|, k);
    EarlierConfirmedExtends(b, t, v, |t|, |v|, k);
  }

  /** What a throttled PUT and its pause keep, and any PUT turns into `done`, holds of the whole loop. */
  lemma {:induction false} PutFromKeeps(
    ready: Trace -> bool, done: Trace -> bool,
    c: Candidate, body: Bytes, s: Settings, env: Env, t: Trace, attempt: int, backoff: real)
    requires 1 <= attempt <= s.uploadAttempts
    requires ready(t)
    requires forall u, reply, pause {:trigger ready(u + [Put(c, body, reply)] + [Sleep(pause)])} ::
               ready(u) && Throttled(reply) ==> ready(u + [Put(c, body, reply)] + [Sleep(pause)])
    requires forall u, reply {:trigger done(u + [Put(c, body, reply)])} :: ready(u) ==> done(u + [Put(c, body, reply)])
    ensures done(PutFrom(c, body, s, env, t, attempt, backoff).trace)
    decreases s.uploadAttempts - attempt
  {
    var reply := env(|t|).put;
    var u := t + [Put(c, body, reply)];
    if Throttled(reply) && attempt < s.uploadAttempts {
      assert ready(t + [Put(c, body, reply)] + [Sleep(backoff)]);
      PutFromKeeps(ready, done, c, body, s, env, u + [Sleep(backoff)], attempt + 1, backoff * 2.0);
    } else {
      assert done(t + [Put(c, body, reply)]);
    }
  }

  /** Every PUT of an upload is disciplined, given that the first one may be sent. */
  lemma PutFromDisciplined(
    b: Bundle, m: int, c: Candidate, body: Bytes, s: Settings, env: Env, t: Trace, attempt: int, backoff: real)
    requires 1 <= attempt <= s.uploadAttempts
    requires c.request == Some(body)
    requires Disciplined(b, t, m) && MayPut(b, t, m, |t|, c)
    ensures Disciplined(b, PutFrom(c, body, s, env, t, attempt, backoff).trace, m)
  {
    ghost var ready := (u: Trace) => Disciplined(b, u, m) && MayPut(b, u, m, |u|, c);
    ghost var done := (u: Trace) => Disciplined(b, u, m);
    forall u, reply, pause | ready(u) && Throttled(reply) ensures ready(u + [Put(c, body, reply)] + [Sleep(pause)]) {
      RetryAllowed(b, m, c, body, reply, pause, u);
    }
    forall u, reply | ready(u) ensures done(u + [Put(c, body, reply)]) {
      PutKeeps(b, m, c, body, reply, u);
    }
    PutFromKeeps(ready, done, c, body, s, env, t, attempt, backoff);
  }

  /** An upload only PUTs its own package and succeeds only on an accepted last PUT. */
  lemma {:induction false} PutFromOutcome(
    c: Candidate, body: Bytes, s: Settings, env: Env, t: Trace, attempt: int, backoff: real)
    requires 1 <= attempt <= s.uploadAttempts
    ensures var e := PutFrom(c, body, s, env, t, attempt, backoff);
            && |t| < |e.trace|
            && (forall i :: |t| <= i < |e.trace| && e.trace[i].Put? ==> e.trace[i].c == c)
            && (e.result.Ok? ==> e.trace[|e.trace| - 1].Put? && Accepted(e.trace[|e.trace| - 1].reply))
    decreases s.uploadAttempts - attempt
  {
    var reply := env(|t|).put;
    if Throttled(reply) && attempt < s.uploadAttempts {
      PutFromOutcome(c, body, s, env, t + [Put(c, body, reply)] + [Sleep(backoff)], attempt + 1, backoff * 2.0);
    }
  }

  /** Publishing package `k` keeps the discipline and, when it succeeds, leaves `k` confirmed. */
  lemma PublishOneDisciplined(b: Bundle, m: int, k: int, s: Settings, token: Token, env: Env, t: Trace)
    requires 0 <= k < |b| && m <= |t| && !b[k].immutable
    requires Disciplined(b, t, m) && PutsConfirmed(t)
    requires EarlierConfirmed(b, t, |t|, k)
    ensures var e := PublishOne(b[k], s, token, env, t);
            && Disciplined(b, e.trace, m)
            && (e.result.Ok? ==> PutsConfirmed(e.trace) && Confirmed(e.trace, |t|, |e.trace|, b[k]))
            && (e.result == Ok(Published) ==>
                  exists i :: |t| <= i < |e.trace| && e.trace[i].Put? && e.trace[i].c == b[k]
                              && Accepted(e.trace[i].reply))
  {
    var c := b[k];
    var recheck := Settle(c, s, false, env, t);
    SettleOutcome(c, s, false, env, t);
    QuietStretch(b, t, recheck.trace, m);
    if recheck.result == Ok(AbsentBoth) {
      var upload := Upload(c, token, s, env, recheck.trace);
      UploadDisciplined(b, m, k, s, token, env, t, recheck.trace);
      UploadOutcome(c, s, token, env, recheck.trace);
      ConfirmKeeps(b, m, c, s, env, t, recheck.trace, upload.trace);
      if upload.result.Ok? {
        assert Settle(c, s, true, env, upload.trace).trace[|upload.trace| - 1] == upload.trace[|upload.trace| - 1];
      }
    }
  }

  /** The confirmation after an upload: it keeps the discipline and, when it succeeds, covers every PUT. */
  lemma ConfirmKeeps(b: Bundle, m: int, c: Candidate, s: Settings, env: Env, t: Trace, u: Trace, v: Trace)
    requires t <= u <= v && PutsConfirmed(u) && Disciplined(b, v, m)
    requires forall i :: |u| <= i < |v| && v[i].Put? ==> v[i].c == c
    ensures var confirm := Settle(c, s, true, env, v);
            && Disciplined(b, confirm.trace, m)
            && (confirm.result.Ok? ==> PutsConfirmed(confirm.trace) && Confirmed(confirm.trace, |t|, |confirm.trace|, c))
  {
    var confirm := Settle(c, s, true, env, v);
    SettleOutcome(c, s, true, env, v);
    QuietStretch(b, v, confirm.trace, m);
    if confirm.result.Ok? {
      PublishOneConfirms(t, u, v, confirm.trace, c);
    }
  }

  lemma UploadDisciplined(
    b: Bundle, m: int, k: int, s: Settings, token: Token, env: Env, t: Trace, u: Trace)
    requires 0 <= k < |b| && m <= |t| && t <= u && !b[k].immutable
    requires Disciplined(b, u, m)
    requires EarlierConfirmed(b, t, |t|, k)
    requires PairAt(u, |u| - 2, b[k], Absent)
    ensures Disciplined(b, Upload(b[k], token, s, env, u).trace, m)
  {
    var c := b[k];
    if c.request.Some? && token.Usable? && UploadBoundsOk(s) {
      var v := u + [Reread(c, env(|u|).intact)];
      QuietStretch(b, u, v, m);
      if env(|u|).intact {
        assert PairAt(v, |v| - 3, c, Absent);
        EarlierConfirmedExtends(b, t, v, |t|, |v|, k);
        assert MayPut(b, v, m, |v|, c);
        PutFromDisciplined(b, m, c, c.request.value, s, env, v, 1, s.uploadBackoff);
      }
    }
  }

  lemma UploadOutcome(c: Candidate, s: Settings, token: Token, env: Env, u: Trace)
    ensures var e := Upload(c, token, s, env, u);
            && (forall i :: |u| <= i < |e.trace| && e.trace[i].Put? ==> e.trace[i].c == c)
            && (e.result.Ok? ==> |u| < |e.trace| && e.trace[|e.trace| - 1].Put?
                                 && e.trace[|e.trace| - 1].c == c
                                 && Accepted(e.trace[|e.trace| - 1].reply))
  {
    if c.request.Some? && token.Usable? && UploadBoundsOk(s) && env(|u|).intact {
      PutFromOutcome(c, c.request.value, s, env, u + [Reread(c, true)], 1, s.uploadBackoff);
    }
  }

  /** The final confirmation covers every PUT of this package, and earlier ones stay covered. */
  lemma PublishOneConfirms(t: Trace, u: Trace, v: Trace, w: Trace, c: Candidate)
    requires t <= u <= v <= w && PutsConfirmed(u)
    requires forall i :: |u| <= i < |v| && v[i].Put? ==> v[i].c == c
    requires NoPutFrom(w, |v|) && Confirmed(w, |v|, |w|, c)
    ensures PutsConfirmed(w) && Confirmed(w, |t|, |w|, c)
  {
    SeenExtends(w, w, |v|, |w|, |t|, |w|, c, Present(c.archive));
    forall i | 0 <= i < |w| && w[i].Put? ensures Confirmed(w, i, |w|, w[i].c) {
      assert i < |v| && w[i] == v[i];
      if i < |u| {
        assert w[i] == u[i];
        SeenExtends(u, w, i, |u|, i, |w|, u[i].c, Present(u[i].c.archive));
      } else {
        SeenExtends(w, w, |v|, |w|, i, |w|, c, Present(c.archive));
      }
    }
  }

  // ---------------------------------------------------------------------------------------
  // The two passes
  // ---------------------------------------------------------------------------------------

  ghost predicate SettledAs(c: Candidate, v: Visibility, t: Trace) {
    || (v == Matching && Confirmed(t, 0, |t|, c))
    || (v == AbsentBoth && !c.immutable && Seen(t, 0, |t|, c, Absent))
  }

  lemma SettledAsExtends(c: Candidate, v: Visibility, t: Trace, u: Trace)
    requires t <= u && SettledAs(c, v, t)
    ensures SettledAs(c, v, u)
  {
    SeenExtends(t, u, 0, |t|, 0, |u|, c, if v == Matching then Present(c.archive) else Absent);
  }

  lemma {:induction false} FirstPassSettles(b: Bundle, s: Settings, env: Env, t: Trace, states: seq<Visibility>)
    requires |states| <= |b| && NoPutFrom(t, 0)
    requires forall k :: 0 <= k < |states| ==> SettledAs(b[k], states[k], t)
    ensures var e := FirstPass(b, s, env, t, states);
            && NoPutFrom(e.trace, 0)
            && (e.result.Ok? ==> forall k :: 0 <= k < |b| ==> SettledAs(b[k], e.result.value[k], e.trace))
    decreases |b| - |states|
  {
    if |states| < |b| {
      var c := b[|states|];
      var e := Settle(c, s, c.immutable, env, t);
      SettleOutcome(c, s, c.immutable, env, t);
      if e.result.Ok? {
        var states' := states + [e.result.value];
        forall k | 0 <= k < |states'| ensures SettledAs(b[k], states'[k], e.trace) {
          if k < |states| {
            SettledAsExtends(b[k], states[k], t, e.trace);
          } else if e.result.value == Matching {
            SeenExtends(e.trace, e.trace, |t|, |e.trace|, 0, |e.trace|, c, Present(c.archive));
          } else {
            SeenExtends(e.trace, e.trace, |t|, |e.trace|, 0, |e.trace|, c, Absent);
          }
        }
        FirstPassSettles(b, s, env, e.trace, states');
      }
    }
  }

  /** What one package's final status promises about the trace. */
  ghost predicate StatusHolds(r: Report, mode: Mode, t: Trace) {
    match r.status
    case VerifiedPreexisting => r.c.immutable && Confirmed(t, 0, |t|, r.c)
    case AlreadyPublished => !r.c.immutable && Confirmed(t, 0, |t|, r.c)
    case UploadEligible => !r.c.immutable && mode == Preflight && Seen(t, 0, |t|, r.c, Absent)
    case Published =>
      && !r.c.immutable && Confirmed(t, 0, |t|, r.c)
      && exists i :: 0 <= i < |t| && t[i].Put? && t[i].c == r.c && Accepted(t[i].reply)
  }

  lemma StatusExtends(r: Report, mode: Mode, t: Trace, u: Trace)
    requires t <= u && StatusHolds(r, mode, t)
    ensures StatusHolds(r, mode, u)
  {
    SeenExtends(t, u, 0, |t|, 0, |u|, r.c,
                if r.status == UploadEligible then Absent else Present(r.c.archive));
    if r.status == Published {
      var i :| 0 <= i < |t| && t[i].Put? && t[i].c == r.c && Accepted(t[i].reply);
      assert u[i] == t[i];
    }
  }

  /** The invariant between two packages of the second pass. */
  ghost predicate PassInv(b: Bundle, states: seq<Visibility>, mode: Mode, t: Trace, m: int, reports: seq<Report>) {
    && |states| == |b| && |reports| <= |b| && 0 <= m <= |t|
    && Disciplined(b, t, m) && PutsConfirmed(t)
    && (mode == Preflight ==> NoPutFrom(t, 0))
    && (forall k :: 0 <= k < |b| ==> SettledAs(b[k], states[k], t))
    && (forall k :: 0 <= k < |reports| ==> reports[k].c == b[k] && StatusHolds(reports[k], mode, t))
  }

  /** One package: the discipline is kept, and its status holds. */
  lemma HandleOneHolds(b: Bundle, states: seq<Visibility>, mode: Mode, s: Settings, token: Token, env: Env,
                       t: Trace, m: int, reports: seq<Report>)
    requires PassInv(b, states, mode, t, m, reports) && |reports| < |b| && mode != OtherMode
    ensures var c := b[|reports|];
            var e := HandleOne(c, states[|reports|], mode, s, token, env, t);
            && Disciplined(b, e.trace, m)
            && (mode == Preflight ==> e.trace == t)
            && (e.result.Ok? ==> PutsConfirmed(e.trace) && StatusHolds(Report(c, e.result.value), mode, e.trace))
  {
    var k := |reports|;
    var c := b[k];
    assert SettledAs(c, states[k], t);
    if !c.immutable && states[k] != Matching && mode == Publish {
      forall j | 0 <= j < k ensures Confirmed(t, 0, |t|, b[j]) {
        assert StatusHolds(reports[j], mode, t);
      }
      PublishOneDisciplined(b, m, k, s, token, env, t);
      var e := PublishOne(c, s, token, env, t);
      if e.result.Ok? {
        SeenExtends(e.trace, e.trace, |t|, |e.trace|, 0, |e.trace|, c, Present(c.archive));
      }
    }
  }

  /** The invariant one package further. */
  lemma PassInvExtends(b: Bundle, states: seq<Visibility>, mode: Mode, t: Trace, m: int, reports: seq<Report>, u: Trace, r: Report)
    requires PassInv(b, states, mode, t, m, reports) && |reports| < |b| && t <= u
    requires Disciplined(b, u, m) && PutsConfirmed(u) && (mode == Preflight ==> u == t)
    requires r.c == b[|reports|] && StatusHolds(r, mode, u)
    ensures PassInv(b, states, mode, u, m, reports + [r])
  {
    var reports' := reports + [r];
    forall j | 0 <= j < |b| ensures SettledAs(b[j], states[j], u) {
      SettledAsExtends(b[j], states[j], t, u);
    }
    forall j | 0 <= j < |reports'| ensures reports'[j].c == b[j] && StatusHolds(reports'[j], mode, u) {
      if j < |reports| {
        StatusExtends(reports[j], mode, t, u);
      }
    }
  }

  lemma HandleOneKeeps(b: Bundle, states: seq<Visibility>, mode: Mode, s: Settings, token: Token, env: Env,
                       t: Trace, m: int, reports: seq<Report>)
    requires PassInv(b, states, mode, t, m, reports) && |reports| < |b| && mode != OtherMode
    ensures var c := b[|reports|];
            var e := HandleOne(c, states[|reports|], mode, s, token, env, t);
            && Disciplined(b, e.trace, m)
            && (mode == Preflight ==> e.trace == t)
            && (e.result.Ok? ==>
                  PassInv(b, states, mode, e.trace, m, reports + [Report(c, e.result.value)]))
  {
    HandleOneHolds(b, states, mode, s, token, env, t, m, reports);
    var c := b[|reports|];
    var e := HandleOne(c, states[|reports|], mode, s, token, env, t);
    if e.result.Ok? {
      PassInvExtends(b, states, mode, t, m, reports, e.trace, Report(c, e.result.value));
    }
  }

  lemma {:induction false} SecondPassKeeps(
    b: Bundle, states: seq<Visibility>, mode: Mode, s: Settings, token: Token, env: Env,
    t: Trace, m: int, reports: seq<Report>)
    requires PassInv(b, states, mode, t, m, reports) && mode != OtherMode
    ensures var e := SecondPass(b, states, mode, s, token, env, t, reports);
            && Disciplined(b, e.trace, m)
            && (mode == Preflight ==> NoPutFrom(e.trace, 0))
            && (e.result.Ok? ==> PassInv(b, states, mode, e.trace, m, e.result.value))
    decreases |b| - |reports|
  {
    if |reports| < |b| {
      var c := b[|reports|];
      var e := HandleOne(c, states[|reports|], mode, s, token, env, t);
      HandleOneKeeps(b, states, mode, s, token, env, t, m, reports);
      if e.result.Ok? {
        SecondPassKeeps(b, states, mode, s, token, env, e.trace, m, reports + [Report(c, e.result.value)]);
      }
    }
  }

  // ---------------------------------------------------------------------------------------
  // Whole runs
  // ---------------------------------------------------------------------------------------

  /**
   The main safety theorem. In every run, whatever it returns: there is a point `m` before which
   nothing was PUT and by which every package had settled, unless nothing was PUT at all; every PUT
   carries the accepted bytes, follows a recheck, and comes after every earlier package of the
   bundle was seen at both authorities with its accepted checksum.
   */
  lemma EveryPutIsDisciplined(b: Bundle, mode: Mode, token: Token, s: Settings, env: Env)
    returns (m: nat)
    ensures var t := Process(b, mode, token, s, env).trace;
            && m <= |t| && Disciplined(b, t, m)
            && (mode != Publish ==> NoPutFrom(t, 0))
            && (!NoPutFrom(t, 0) ==> FirstPassDone(b, t, m))
  {
    m := 0;
    if mode != OtherMode {
      var first := FirstPass(b, s, env, [], []);
      FirstPassSettles(b, s, env, [], []);
      m := |first.trace|;
      if first.result.Ok? {
        SecondPassKeeps(b, first.result.value, mode, s, token, env, first.trace, m, []);
        FirstPassDoneExtends(b, first.trace, Process(b, mode, token, s, env).trace, m);
      }
    }
  }

  /** An `ok` run reports every package in bundle order, each status is true, and every PUT was confirmed. */
  lemma OkRunIsTrue(b: Bundle, mode: Mode, token: Token, s: Settings, env: Env)
    requires Process(b, mode, token, s, env).result.Ok?
    ensures var run := Process(b, mode, token, s, env);
            && |run.result.value| == |b|
            && PutsConfirmed(run.trace)
            && (forall k :: 0 <= k < |b| ==>
                  run.result.value[k].c == b[k] && StatusHolds(run.result.value[k], mode, run.trace))
            && (mode == Publish ==> forall k :: 0 <= k < |b| ==> Confirmed(run.trace, 0, |run.trace|, b[k]))
  {
    var first := FirstPass(b, s, env, [], []);
    FirstPassSettles(b, s, env, [], []);
    SecondPassKeeps(b, first.result.value, mode, s, token, env, first.trace, |first.trace|, []);
    var run := Process(b, mode, token, s, env);
    if mode == Publish {
      forall k | 0 <= k < |b| ensures Confirmed(run.trace, 0, |run.trace|, b[k]) {
        assert StatusHolds(run.result.value[k], mode, run.trace);
      }
    }
  }
}
