/**
 The Cargo publisher (scripts/ci/publish_cargo_release_candidate.py).

 Everything the publisher cannot control is an answer of `env`: the event at position `i` of a
 run's trace is answered by `env(i)`. A statement for every `env` is therefore a statement for
 every registry behaviour and for every interleaving with other publishers. Each operation takes
 the trace so far and returns it extended.
 */
module CargoPublisher {
  import opened Prelude

  type Checksum = string
  type Bytes = seq<bv8>

  datatype Key = Key(name: string, version: string)

  datatype Candidate = Candidate(key: Key, immutable: bool, archive: Checksum, request: Option<Bytes>)

  type Bundle = seq<Candidate>

  /** What one authority says about one exact version; `Unreadable` is a lookup that raised. */
  datatype Reading = Absent | Present(sum: Checksum) | Yanked(sum: Checksum) | Unreadable

  datatype Authority = Api | SparseIndex

  datatype PutBody = EmptyBody | MalformedBody | ErrorListBody | CleanBody

  /** The answer to a PUT; `Dropped` is a transport failure. */
  datatype PutReply = Dropped | Reply(status: int, body: PutBody)

  /** The environment's answer at one trace position, whichever question is asked there. */
  datatype Answer = Answer(reading: Reading, put: PutReply, intact: bool)

  type Env = nat -> Answer

  datatype Event =
    | GetApi(c: Candidate, r: Reading)
    | GetIndex(c: Candidate, r: Reading)
    | Sleep(seconds: real)
    | Reread(c: Candidate, intact: bool)
    | Put(c: Candidate, body: Bytes, reply: PutReply)

  type Trace = seq<Event>

  datatype Visibility = Matching | AbsentBoth | Partial

  datatype Failure =
    | UnreadableAt(authority: Authority)
    | YankedAt(authority: Authority)
    | MismatchAt(authority: Authority)
    | NotSettled(last: Visibility)
    | VerifyBounds
    | UploadBounds
    | NoRequest
    | BadToken
    | RequestChanged
    | PutFailed(reply: PutReply)
    | RateLimited
    | UnknownMode

  datatype Exec<+T> = Exec(trace: Trace, result: Result<T, Failure>)

  datatype Token = Missing | Malformed | Usable

  datatype Mode = Preflight | Publish | OtherMode

  datatype Settings = Settings(
    verifyAttempts: int, verifyDelay: real, uploadAttempts: int, uploadBackoff: real)

  datatype Status = VerifiedPreexisting | AlreadyPublished | UploadEligible | Published

  datatype Report = Report(c: Candidate, status: Status)

  // ---------------------------------------------------------------------------------------
  // Specification functions
  // ---------------------------------------------------------------------------------------

  /** The complaint one authority's reading gives rise to, if any. */
  function Complaint(c: Candidate, a: Authority, r: Reading): Option<Failure> {
    match r
    case Absent => None
    case Present(sum) => if sum == c.archive then None else Some(MismatchAt(a))
    case Yanked(_) => Some(YankedAt(a))
    case Unreadable => Some(UnreadableAt(a))
  }

  function Classify(c: Candidate, api: Reading, index: Reading): Result<Visibility, Failure> {
    if Complaint(c, Api, api).Some? then Err(Complaint(c, Api, api).value)
    else if Complaint(c, SparseIndex, index).Some? then Err(Complaint(c, SparseIndex, index).value)
    else if api.Present? && index.Present? then Ok(Matching)
    else if api.Absent? && index.Absent? then Ok(AbsentBoth)
    else Ok(Partial)
  }

  function RegistryState(c: Candidate, env: Env, t: Trace): (e: Exec<Visibility>)
    ensures t <= e.trace && |t| < |e.trace|
  {
    var api := env(|t|).reading;
    var t1 := t + [GetApi(c, api)];
    if api.Unreadable? then Exec(t1, Err(UnreadableAt(Api)))
    else
      var index := env(|t1|).reading;
      var t2 := t1 + [GetIndex(c, index)];
      if index.Unreadable? then Exec(t2, Err(UnreadableAt(SparseIndex)))
      else Exec(t2, Classify(c, api, index))
  }

  predicate VerifyBoundsOk(s: Settings) {
    1 <= s.verifyAttempts <= 100 && 0.0 <= s.verifyDelay <= 600.0
  }

  function SettleFrom(c: Candidate, s: Settings, requireMatching: bool, env: Env, t: Trace, attempt: int)
    : (e: Exec<Visibility>)
    requires 1 <= attempt <= s.verifyAttempts
    ensures t <= e.trace
    decreases s.verifyAttempts - attempt
  {
    var e := RegistryState(c, env, t);
    if e.result.Err? || e.result.value == Matching || (e.result.value == AbsentBoth && !requireMatching) then
      e
    else if attempt < s.verifyAttempts then
      SettleFrom(c, s, requireMatching, env, e.trace + [Sleep(s.verifyDelay)], attempt + 1)
    else
      Exec(e.trace, Err(NotSettled(e.result.value)))
  }

  function Settle(c: Candidate, s: Settings, requireMatching: bool, env: Env, t: Trace): (e: Exec<Visibility>)
    ensures t <= e.trace
  {
    if !VerifyBoundsOk(s) then Exec(t, Err(VerifyBounds))
    else SettleFrom(c, s, requireMatching, env, t, 1)
  }

  predicate Accepted(reply: PutReply) {
    reply.Reply? && 200 <= reply.status < 300 && (reply.body.EmptyBody? || reply.body.CleanBody?)
  }

  predicate Throttled(reply: PutReply) {
    reply.Reply? && reply.status == 429
  }

  function PutFrom(c: Candidate, body: Bytes, s: Settings, env: Env, t: Trace, attempt: int, backoff: real)
    : (e: Exec<()>)
    requires 1 <= attempt <= s.uploadAttempts
    ensures t <= e.trace
    decreases s.uploadAttempts - attempt
  {
    var reply := env(|t|).put;
    var t1 := t + [Put(c, body, reply)];
    if Accepted(reply) then Exec(t1, Ok(()))
    else if !Throttled(reply) then Exec(t1, Err(PutFailed(reply)))
    else if attempt == s.uploadAttempts then Exec(t1, Err(RateLimited))
    else PutFrom(c, body, s, env, t1 + [Sleep(backoff)], attempt + 1, backoff * 2.0)
  }

  predicate UploadBoundsOk(s: Settings) {
    1 <= s.uploadAttempts <= 10 && 0.0 <= s.uploadBackoff <= 600.0
  }

  function Upload(c: Candidate, token: Token, s: Settings, env: Env, t: Trace): (e: Exec<()>)
    ensures t <= e.trace
  {
    if c.request.None? then Exec(t, Err(NoRequest))
    else if !token.Usable? then Exec(t, Err(BadToken))
    else if !UploadBoundsOk(s) then Exec(t, Err(UploadBounds))
    else
      var intact := env(|t|).intact;
      var t1 := t + [Reread(c, intact)];
      if !intact then Exec(t1, Err(RequestChanged))
      else PutFrom(c, c.request.value, s, env, t1, 1, s.uploadBackoff)
  }

  /** The first pass from package `|states|` on. */
  function FirstPass(b: Bundle, s: Settings, env: Env, t: Trace, states: seq<Visibility>)
    : (e: Exec<seq<Visibility>>)
    requires |states| <= |b|
    ensures t <= e.trace
    ensures e.result.Ok? ==> |e.result.value| == |b|
    decreases |b| - |states|
  {
    if |states| == |b| then Exec(t, Ok(states))
    else
      var c := b[|states|];
      var e := Settle(c, s, c.immutable, env, t);
      if e.result.Err? then Exec(e.trace, Err(e.result.error))
      else FirstPass(b, s, env, e.trace, states + [e.result.value])
  }

  /** Recheck, upload and confirm one absent package. */
  function PublishOne(c: Candidate, s: Settings, token: Token, env: Env, t: Trace): (e: Exec<Status>)
    ensures t <= e.trace
  {
    var recheck := Settle(c, s, false, env, t);
    if recheck.result.Err? then Exec(recheck.trace, Err(recheck.result.error))
    else if recheck.result.value == Matching then Exec(recheck.trace, Ok(AlreadyPublished))
    else
      var upload := Upload(c, token, s, env, recheck.trace);
      var confirm := Settle(c, s, true, env, upload.trace);
      if upload.result.Err? then
        if confirm.result.Err? then Exec(confirm.trace, Err(upload.result.error))
        else Exec(confirm.trace, Ok(AlreadyPublished))
      else
        if confirm.result.Err? then Exec(confirm.trace, Err(confirm.result.error))
        else Exec(confirm.trace, Ok(Published))
  }

  function HandleOne(c: Candidate, initial: Visibility, mode: Mode, s: Settings, token: Token, env: Env, t: Trace)
    : (e: Exec<Status>)
    ensures t <= e.trace
  {
    if c.immutable then Exec(t, Ok(VerifiedPreexisting))
    else if initial == Matching then Exec(t, Ok(AlreadyPublished))
    else if mode == Preflight then Exec(t, Ok(UploadEligible))
    else PublishOne(c, s, token, env, t)
  }

  /** The second pass from package `|reports|` on. */
  function SecondPass(b: Bundle, states: seq<Visibility>, mode: Mode, s: Settings, token: Token, env: Env,
                      t: Trace, reports: seq<Report>)
    : (e: Exec<seq<Report>>)
    requires |states| == |b| && |reports| <= |b|
    ensures t <= e.trace
    ensures e.result.Ok? ==> |e.result.value| == |b| && reports <= e.result.value
    decreases |b| - |reports|
  {
    if |reports| == |b| then Exec(t, Ok(reports))
    else
      var c := b[|reports|];
      var e := HandleOne(c, states[|reports|], mode, s, token, env, t);
      if e.result.Err? then Exec(e.trace, Err(e.result.error))
      else SecondPass(b, states, mode, s, token, env, e.trace, reports + [Report(c, e.result.value)])
  }

  predicate NeedsUpload(b: Bundle, states: seq<Visibility>)
    requires |states| == |b|
  {
    exists k :: 0 <= k < |b| && !b[k].immutable && states[k] == AbsentBoth
  }

  /** One whole run of the publisher. */
  function Process(b: Bundle, mode: Mode, token: Token, s: Settings, env: Env): Exec<seq<Report>> {
    if mode == OtherMode then Exec([], Err(UnknownMode))
    else
      var first := FirstPass(b, s, env, [], []);
      if first.result.Err? then Exec(first.trace, Err(first.result.error))
      else if mode == Publish && NeedsUpload(b, first.result.value) && !token.Usable? then
        Exec(first.trace, Err(BadToken))
      else SecondPass(b, first.result.value, mode, s, token, env, first.trace, [])
  }

  // ---------------------------------------------------------------------------------------
  // The loops of the source, proved to compute the specification functions
  // ---------------------------------------------------------------------------------------

  method SettleRegistryState(c: Candidate, s: Settings, requireMatching: bool, env: Env, t: Trace)
    returns (e: Exec<Visibility>)
    ensures e == Settle(c, s, requireMatching, env, t)
  {
    if s.verifyAttempts < 1 || s.verifyAttempts > 100 {
      return Exec(t, Err(VerifyBounds));
    }
    if s.verifyDelay < 0.0 || s.verifyDelay > 600.0 {
      return Exec(t, Err(VerifyBounds));
    }
    var trace := t;
    var last := Partial;
    var attempt := 1;
    while attempt <= s.verifyAttempts
      invariant 1 <= attempt <= s.verifyAttempts + 1
      invariant attempt <= s.verifyAttempts ==>
                  Settle(c, s, requireMatching, env, t) == SettleFrom(c, s, requireMatching, env, trace, attempt)
      invariant attempt == s.verifyAttempts + 1 ==>
                  Settle(c, s, requireMatching, env, t) == Exec(trace, Err(NotSettled(last)))
    {
      var state := RegistryState(c, env, trace);
      trace := state.trace;
      if state.result.Err? {
        return state;
      }
      last := state.result.value;
      if last == Matching {
        return Exec(trace, Ok(last));
      }
      if last == AbsentBoth && !requireMatching {
        return Exec(trace, Ok(last));
      }
      if attempt < s.verifyAttempts {
        trace := trace + [Sleep(s.verifyDelay)];
      }
      attempt := attempt + 1;
    }
    return Exec(trace, Err(NotSettled(last)));
  }

  method UploadExactRequest(c: Candidate, token: Token, s: Settings, env: Env, t: Trace)
    returns (e: Exec<()>)
    ensures e == Upload(c, token, s, env, t)
  {
    if c.request.None? {
      return Exec(t, Err(NoRequest));
    }
    if token != Usable {
      return Exec(t, Err(BadToken));
    }
    if s.uploadAttempts < 1 || s.uploadAttempts > 10 || s.uploadBackoff < 0.0 || s.uploadBackoff > 600.0 {
      return Exec(t, Err(UploadBounds));
    }
    var intact := env(|t|).intact;
    var trace := t + [Reread(c, intact)];
    if !intact {
      return Exec(trace, Err(RequestChanged));
    }
    var body := c.request.value;
    var backoff := s.uploadBackoff;
    for attempt := 1 to s.uploadAttempts + 1
      invariant attempt <= s.uploadAttempts
      invariant Upload(c, token, s, env, t) == PutFrom(c, body, s, env, trace, attempt, backoff)
    {
      var reply := env(|trace|).put;
      trace := trace + [Put(c, body, reply)];
      if reply.Reply? && 200 <= reply.status < 300 {
        if reply.body.MalformedBody? || reply.body.ErrorListBody? {
          return Exec(trace, Err(PutFailed(reply)));
        }
        return Exec(trace, Ok(()));
      }
      if reply.Dropped? || reply.status != 429 {
        return Exec(trace, Err(PutFailed(reply)));
      }
      if attempt == s.uploadAttempts {
        return Exec(trace, Err(RateLimited));
      }
      trace := trace + [Sleep(backoff)];
      backoff := backoff * 2.0;
    }
    assert false;
  }

  method ProcessCandidate(b: Bundle, mode: Mode, token: Token, s: Settings, env: Env)
    returns (run: Exec<seq<Report>>)
    ensures run == Process(b, mode, token, s, env)
  {
    if mode == OtherMode {
      return Exec([], Err(UnknownMode));
    }
    var trace: Trace := [];
    var states: seq<Visibility> := [];
    for k := 0 to |b|
      invariant |states| == k
      invariant FirstPass(b, s, env, [], []) == FirstPass(b, s, env, trace, states)
    {
      var e := SettleRegistryState(b[k], s, b[k].immutable, env, trace);
      trace := e.trace;
      if e.result.Err? {
        return Exec(trace, Err(e.result.error));
      }
      states := states + [e.result.value];
    }
    if mode == Publish && NeedsUpload(b, states) && token != Usable {
      return Exec(trace, Err(BadToken));
    }
    ghost var boundary := trace;
    var reports: seq<Report> := [];
    for k := 0 to |b|
      invariant |reports| == k
      invariant SecondPass(b, states, mode, s, token, env, boundary, []) ==
                SecondPass(b, states, mode, s, token, env, trace, reports)
    {
      var status;
      if b[k].immutable {
        status := VerifiedPreexisting;
      } else if states[k] == Matching {
        status := AlreadyPublished;
      } else if mode == Preflight {
        status := UploadEligible;
      } else {
        var current := SettleRegistryState(b[k], s, false, env, trace);
        trace := current.trace;
        if current.result.Err? {
          return Exec(trace, Err(current.result.error));
        }
        if current.result.value == Matching {
          reports := reports + [Report(b[k], AlreadyPublished)];
          continue;
        }
        var upload := UploadExactRequest(b[k], token, s, env, trace);
        trace := upload.trace;
        var confirm := SettleRegistryState(b[k], s, true, env, trace);
        trace := confirm.trace;
        if upload.result.Err? {
          if confirm.result.Err? {
            return Exec(trace, Err(upload.result.error));
          }
          status := AlreadyPublished;
        } else {
          if confirm.result.Err? {
            return Exec(trace, Err(confirm.result.error));
          }
          status := Published;
        }
      }
      reports := reports + [Report(b[k], status)];
    }
    return Exec(trace, Ok(reports));
  }
}
