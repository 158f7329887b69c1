/**
 Loading the fragments of one run (scripts/ci/proof_fragments.py) against the committed authority: what
 is accepted, what is returned, and that neither depends on the order of the fragments.
 */
module FragmentCover {
  import opened Prelude
  import opened Sorting
  import opened ProofFragments

  /** What the loader has gathered so far. */
  datatype Gathered = Gathered(observations: Observations, ids: set<string>)

  // ---------------------------------------------------------------------------------------
  // The loader
  // ---------------------------------------------------------------------------------------

  /** One result of a fragment, in the order of its checks. */
  function AddClaim(seen: Observations, c: Claim, owner: Producer, allowed: set<Lane>, run: Run): Result<Observations, Code> {
    if !run.validClaim(c.lane, c.testId) || !c.passed then Err(InvalidResult)
    else if c.lane !in allowed then Err(UnexpectedLane)
    else if c.lane !in owner.results then Err(ProducerLaneMismatch)
    else if c.testId != owner.results[c.lane] then Err(TestIdMismatch)
    else if c.lane in seen then Err(DuplicateLane)
    else Ok(seen[c.lane := c.observation])
  }

  function AddClaims(seen: Observations, cs: seq<Claim>, owner: Producer, allowed: set<Lane>, run: Run): Result<Observations, Code> {
    if cs == [] then Ok(seen)
    else
      var front := AddClaims(seen, cs[..|cs| - 1], owner, allowed, run);
      if front.Err? then front else AddClaim(front.value, cs[|cs| - 1], owner, allowed, run)
  }

  predicate Identified(sources: seq<Source>, run: Run) {
    forall i :: 0 <= i < |sources| ==> run.current(sources[i].path) == Some(sources[i].sha256)
  }

  /** The producer part of a fragment. */
  function ProducerCode(ids: set<string>, f: Fragment, authority: Authority, run: Run): (code: Option<Code>)
    ensures code == None ==> f.id in authority
  {
    if f.header != run.header then Some(HeaderMismatch)
    else if !run.validId(f.id) then Some(InvalidProducer)
    else if f.id in ids then Some(DuplicateProducer)
    else if f.id !in authority then Some(UnexpectedProducer)
    else if !(1 <= |f.sources| <= MAX_SOURCES) then Some(InvalidProducer)
    else if !Identified(f.sources, run) then Some(SourceIdentity)
    else if !Ordered(Paths(f.sources), StringLeq) || !NoRepeats(Paths(f.sources)) then Some(InvalidProducer)
    else if Paths(f.sources) != authority[f.id].sources then Some(ProducerSourceMismatch)
    else if !(1 <= |f.results| <= run.maxResults) then Some(InvalidResults)
    else None
  }

  /** The results of a fragment, which must be its producer's lanes in order. */
  function AddResults(seen: Observations, cs: seq<Claim>, owner: Producer, allowed: set<Lane>, run: Run): Result<Observations, Code> {
    var added := AddClaims(seen, cs, owner, allowed, run);
    if added.Err? then added
    else if !Ordered(Lanes(cs), LaneLeq) then Err(InvalidResults)
    else if (set lane | lane in Lanes(cs)) != owner.results.Keys then Err(ProducerLaneCoverageMismatch)
    else added
  }

  function AddFragment(g: Gathered, f: Fragment, authority: Authority, allowed: set<Lane>, run: Run): Result<Gathered, Code> {
    var code := ProducerCode(g.ids, f, authority, run);
    if code.Some? then Err(code.value)
    else
      var added := AddResults(g.observations, f.results, authority[f.id], allowed, run);
      if added.Err? then Err(added.error) else Ok(Gathered(added.value, g.ids + {f.id}))
  }

  function AddPaths(paths: seq<string>, authority: Authority, allowed: set<Lane>, run: Run): Result<Gathered, Code> {
    if paths == [] then Ok(Gathered(map[], {}))
    else
      var front := AddPaths(paths[..|paths| - 1], authority, allowed, run);
      var f := run.load(paths[|paths| - 1]);
      if front.Err? then front
      else if f.None? then Err(Unreadable)
      else AddFragment(front.value, f.value, authority, allowed, run)
  }

  /** The two checks after the last fragment. */
  function FinalCode(g: Gathered, authority: Authority, allowed: set<Lane>): Option<Code> {
    if g.observations.Keys != allowed then Some(LaneCoverageMismatch)
    else if g.ids != authority.Keys then Some(ProducerCoverageMismatch)
    else None
  }

  /** The whole loader; the caller may name the lanes it allows. */
  function Load(paths: seq<string>, asked: Option<set<Lane>>, authority: Authority, run: Run): Result<Observations, Code> {
    var allowed := Committed(authority);
    if asked.Some? && asked.value != allowed then Err(InvalidAllowlist)
    else if paths == [] then Err(MissingFragment)
    else if !NoRepeats(paths) then Err(DuplicateFragment)
    else
      var all := AddPaths(paths, authority, allowed, run);
      if all.Err? then Err(all.error)
      else
        var code := FinalCode(all.value, authority, allowed);
        if code.Some? then Err(code.value) else Ok(all.value.observations)
  }

  method LoadClaims(seen0: Observations, cs: seq<Claim>, owner: Producer, allowed: set<Lane>, run: Run)
    returns (r: Result<Observations, Code>)
    ensures r == AddClaims(seen0, cs, owner, allowed, run)
  {
    var seen := seen0;
    for i := 0 to |cs|
      invariant AddClaims(seen0, cs[..i], owner, allowed, run) == Ok(seen)
    {
      assert cs[..i + 1][..i] == cs[..i];
      var next := AddClaim(seen, cs[i], owner, allowed, run);
      if next.Err? {
        ClaimsStop(seen0, cs, owner, allowed, run, i + 1);
        return next;
      }
      seen := next.value;
    }
    assert cs[..|cs|] == cs;
    return Ok(seen);
  }

  lemma {:induction false} ClaimsStop(seen: Observations, cs: seq<Claim>, owner: Producer, allowed: set<Lane>, run: Run, n: nat)
    requires n <= |cs| && AddClaims(seen, cs[..n], owner, allowed, run).Err?
    ensures AddClaims(seen, cs, owner, allowed, run) == AddClaims(seen, cs[..n], owner, allowed, run)
    decreases |cs| - n
  {
    if n < |cs| {
      assert cs[..n + 1][..n] == cs[..n];
      ClaimsStop(seen, cs, owner, allowed, run, n + 1);
    } else {
      assert cs[..n] == cs;
    }
  }

  lemma {:induction false} PathsStop(paths: seq<string>, authority: Authority, allowed: set<Lane>, run: Run, n: nat)
    requires n <= |paths| && AddPaths(paths[..n], authority, allowed, run).Err?
    ensures AddPaths(paths, authority, allowed, run) == AddPaths(paths[..n], authority, allowed, run)
    decreases |paths| - n
  {
    if n < |paths| {
      assert paths[..n + 1][..n] == paths[..n];
      PathsStop(paths, authority, allowed, run, n + 1);
    } else {
      assert paths[..n] == paths;
    }
  }

  method LoadFragment(g: Gathered, f: Fragment, authority: Authority, allowed: set<Lane>, run: Run)
    returns (r: Result<Gathered, Code>)
    ensures r == AddFragment(g, f, authority, allowed, run)
  {
    var code := ProducerCode(g.ids, f, authority, run);
    if code.Some? {
      return Err(code.value);
    }
    var owner := authority[f.id];
    var added := LoadClaims(g.observations, f.results, owner, allowed, run);
    if added.Err? {
      return Err(added.error);
    }
    if !Ordered(Lanes(f.results), LaneLeq) {
      return Err(InvalidResults);
    }
    if (set lane | lane in Lanes(f.results)) != owner.results.Keys {
      return Err(ProducerLaneCoverageMismatch);
    }
    return Ok(Gathered(added.value, g.ids + {f.id}));
  }

  method LoadFragments(paths: seq<string>, asked: Option<set<Lane>>, authority: Authority, run: Run)
    returns (r: Result<Observations, Code>)
    ensures r == Load(paths, asked, authority, run)
  {
    var allowed := Committed(authority);
    if asked.Some? && asked.value != allowed {
      return Err(InvalidAllowlist);
    }
    if paths == [] {
      return Err(MissingFragment);
    }
    if !NoRepeats(paths) {
      return Err(DuplicateFragment);
    }
    var all := LoadPaths(paths, authority, allowed, run);
    if all.Err? {
      return Err(all.error);
    }
    var code := FinalCode(all.value, authority, allowed);
    return if code.Some? then Err(code.value) else Ok(all.value.observations);
  }

  /** The loop over the fragments. */
  method LoadPaths(paths: seq<string>, authority: Authority, allowed: set<Lane>, run: Run) returns (r: Result<Gathered, Code>)
    ensures r == AddPaths(paths, authority, allowed, run)
  {
    var g := Gathered(map[], {});
    for i := 0 to |paths|
      invariant AddPaths(paths[..i], authority, allowed, run) == Ok(g)
    {
      PathNext(paths, authority, allowed, run, i, g);
      var f := run.load(paths[i]);
      if f.None? {
        return Err(Unreadable);
      }
      var next := LoadFragment(g, f.value, authority, allowed, run);
      if next.Err? {
        return next;
      }
      g := next.value;
    }
    assert paths[..|paths|] == paths;
    return Ok(g);
  }

  /** What one more path does, and that a failure is final. */
  lemma PathNext(paths: seq<string>, authority: Authority, allowed: set<Lane>, run: Run, i: nat, g: Gathered)
    requires i < |paths| && AddPaths(paths[..i], authority, allowed, run) == Ok(g)
    ensures var f := run.load(paths[i]);
            var next := if f.None? then Err(Unreadable) else AddFragment(g, f.value, authority, allowed, run);
            && AddPaths(paths[..i + 1], authority, allowed, run) == next
            && (next.Err? ==> AddPaths(paths, authority, allowed, run) == next)
  {
    assert paths[..i + 1][..i] == paths[..i];
    if AddPaths(paths[..i + 1], authority, allowed, run).Err? {
      PathsStop(paths, authority, allowed, run, i + 1);
    }
  }

  // ---------------------------------------------------------------------------------------
  // One fragment
  // ---------------------------------------------------------------------------------------

  /** The header, producer and sources are the committed ones. */
  ghost predicate GoodProducer(f: Fragment, authority: Authority, run: Run) {
    && f.header == run.header && f.id in authority
    && Paths(f.sources) == authority[f.id].sources && Identified(f.sources, run)
  }

  /** One passing claim for each of the owner's lanes, in order. */
  ghost predicate GoodResults(cs: seq<Claim>, owner: Producer) {
    && NoRepeats(Lanes(cs)) && Ordered(Lanes(cs), LaneLeq) && AllVouched(cs, owner)
    && forall lane :: lane in Lanes(cs) <==> lane in owner.results
  }

  /** A well-formed fragment of a committed producer, carrying exactly its lanes. */
  ghost predicate Good(f: Fragment, authority: Authority, run: Run) {
    GoodProducer(f, authority, run) && GoodResults(f.results, authority[f.id])
  }

  /** A claim the owner vouches for. */
  predicate Vouched(c: Claim, owner: Producer) {
    c.passed && c.lane in owner.results && c.testId == owner.results[c.lane]
  }

  function ClaimMap(cs: seq<Claim>): Observations {
    if cs == [] then map[] else ClaimMap(cs[..|cs| - 1])[cs[|cs| - 1].lane := cs[|cs| - 1].observation]
  }

  lemma {:induction false} ClaimMapKeys(cs: seq<Claim>, lane: Lane)
    ensures lane in ClaimMap(cs) <==> lane in Lanes(cs)
  {
    if cs != [] {
      var n := |cs| - 1;
      ClaimMapKeys(cs[..n], lane);
      assert Lanes(cs) == Lanes(cs[..n]) + [cs[n].lane];
    }
  }

  predicate AllVouched(cs: seq<Claim>, owner: Producer) {
    forall i :: 0 <= i < |cs| ==> Vouched(cs[i], owner)
  }

  lemma VouchedSnoc(cs: seq<Claim>, owner: Producer)
    requires cs != []
    ensures AllVouched(cs, owner) <==> AllVouched(cs[..|cs| - 1], owner) && Vouched(cs[|cs| - 1], owner)
  {
    if AllVouched(cs[..|cs| - 1], owner) && Vouched(cs[|cs| - 1], owner) {
      forall i | 0 <= i < |cs| ensures Vouched(cs[i], owner) {
        if i < |cs| - 1 { assert cs[..|cs| - 1][i] == cs[i]; }
      }
    }
    if AllVouched(cs, owner) {
      var front := cs[..|cs| - 1];
      forall i | 0 <= i < |front| ensures Vouched(front[i], owner) {
        assert front[i] == cs[i];
      }
    }
  }

  lemma ClaimAdds(seen: Observations, c: Claim, owner: Producer, allowed: set<Lane>, run: Run)
    requires ProperProducer(owner, run) && owner.results.Keys <= allowed
    ensures AddClaim(seen, c, owner, allowed, run).Ok? <==> Vouched(c, owner) && c.lane !in seen
  {
    if Vouched(c, owner) {
      assert run.validClaim(c.lane, owner.results[c.lane]) && c.lane in owner.results.Keys;
    }
  }

  lemma {:induction false} ClaimsValue(seen: Observations, cs: seq<Claim>, owner: Producer, allowed: set<Lane>, run: Run)
    requires AddClaims(seen, cs, owner, allowed, run).Ok?
    ensures AddClaims(seen, cs, owner, allowed, run).value == seen + ClaimMap(cs)
  {
    if cs == [] {
      assert seen + map[] == seen;
    } else {
      var front, c := cs[..|cs| - 1], cs[|cs| - 1];
      ClaimsValue(seen, front, owner, allowed, run);
      AddedTo(seen, ClaimMap(front), c.lane, c.observation);
    }
  }

  lemma AddedTo(a: Observations, b: Observations, lane: Lane, o: string)
    ensures (a + b)[lane := o] == a + b[lane := o]
  {
  }

  /** Claims are taken exactly when each is vouched for and no lane repeats. */
  lemma {:induction false} ClaimsAdd(seen: Observations, cs: seq<Claim>, owner: Producer, allowed: set<Lane>, run: Run)
    requires ProperProducer(owner, run) && owner.results.Keys <= allowed && owner.results.Keys !! seen.Keys
    ensures AddClaims(seen, cs, owner, allowed, run).Ok? <==> NoRepeats(Lanes(cs)) && AllVouched(cs, owner)
    ensures AddClaims(seen, cs, owner, allowed, run).Ok? ==>
            AddClaims(seen, cs, owner, allowed, run).value == seen + ClaimMap(cs)
  {
    if cs != [] {
      var n := |cs| - 1;
      ClaimsAdd(seen, cs[..n], owner, allowed, run);
      LanesSnoc(cs);
      VouchedSnoc(cs, owner);
      var front := AddClaims(seen, cs[..n], owner, allowed, run);
      if front.Ok? {
        ClaimAdds(front.value, cs[n], owner, allowed, run);
        if Vouched(cs[n], owner) {
          NewLane(seen, cs[..n], cs[n], owner);
        }
      }
    }
    if AddClaims(seen, cs, owner, allowed, run).Ok? {
      ClaimsValue(seen, cs, owner, allowed, run);
    }
  }

  lemma LanesSnoc(cs: seq<Claim>)
    requires cs != []
    ensures NoRepeats(Lanes(cs)) <==> NoRepeats(Lanes(cs[..|cs| - 1])) && cs[|cs| - 1].lane !in Lanes(cs[..|cs| - 1])
  {
    assert Lanes(cs) == Lanes(cs[..|cs| - 1]) + [cs[|cs| - 1].lane];
    NoRepeatsSnoc(Lanes(cs[..|cs| - 1]), cs[|cs| - 1].lane);
  }

  /** An own lane is new exactly when no earlier claim was for it. */
  lemma NewLane(seen: Observations, cs: seq<Claim>, c: Claim, owner: Producer)
    requires owner.results.Keys !! seen.Keys && Vouched(c, owner)
    ensures c.lane in seen + ClaimMap(cs) <==> c.lane in Lanes(cs)
  {
    ClaimMapKeys(cs, c.lane);
    assert c.lane in owner.results.Keys;
  }

  // ---------------------------------------------------------------------------------------
  // All fragments
  // ---------------------------------------------------------------------------------------

  /** What has been gathered is all lanes of the producers seen, and nothing else. */
  ghost predicate Whole(g: Gathered, authority: Authority) {
    && g.ids <= authority.Keys
    && forall lane :: lane in g.observations <==> exists id :: id in g.ids && lane in authority[id].results
  }

  lemma OwnLanesAreNew(g: Gathered, id: string, authority: Authority, run: Run)
    requires WellFormed(authority, run) && Whole(g, authority) && id in authority && id !in g.ids
    ensures authority[id].results.Keys !! g.observations.Keys
    ensures authority[id].results.Keys <= Committed(authority)
  {
    forall lane | lane in authority[id].results ensures lane in Committed(authority) {
    }
    forall other, lane | other in g.ids && lane in authority[other].results ensures lane !in authority[id].results {
      assert other in authority;
    }
  }

  lemma {:induction false} LaneCount(cs: seq<Claim>)
    requires NoRepeats(Lanes(cs))
    ensures |ClaimMap(cs)| == |cs|
  {
    if cs != [] {
      var n := |cs| - 1;
      assert Lanes(cs) == Lanes(cs[..n]) + [cs[n].lane];
      NoRepeatsSnoc(Lanes(cs[..n]), cs[n].lane);
      ClaimMapKeys(cs[..n], cs[n].lane);
      LaneCount(cs[..n]);
    }
  }

  /** A fragment with exactly its producer's lanes has an admissible number of results. */
  lemma ResultsFollow(cs: seq<Claim>, owner: Producer, run: Run)
    requires ProperProducer(owner, run) && GoodResults(cs, owner)
    ensures 1 <= |cs| <= run.maxResults
  {
    var own := owner.results;
    forall lane ensures lane in ClaimMap(cs) <==> lane in own {
      ClaimMapKeys(cs, lane);
    }
    assert ClaimMap(cs).Keys == own.Keys;
    LaneCount(cs);
    assert |own| == |own.Keys| == |ClaimMap(cs).Keys| == |cs|;
    var lane :| lane in own;
    assert lane in Lanes(cs);
  }

  /** Some claim gives this observation for this lane. */
  ghost predicate Claimed(cs: seq<Claim>, lane: Lane, o: string) {
    exists c :: c in cs && c.lane == lane && c.observation == o
  }

  lemma ClaimedSnoc(cs: seq<Claim>, lane: Lane, o: string)
    requires cs != []
    ensures Claimed(cs, lane, o) <==>
            Claimed(cs[..|cs| - 1], lane, o) || (cs[|cs| - 1].lane == lane && cs[|cs| - 1].observation == o)
  {
    assert cs == cs[..|cs| - 1] + [cs[|cs| - 1]];
    if Claimed(cs[..|cs| - 1], lane, o) {
      var c :| c in cs[..|cs| - 1] && c.lane == lane && c.observation == o;
      assert c in cs;
    }
  }

  lemma ClaimedIsListed(cs: seq<Claim>, lane: Lane, o: string)
    ensures Claimed(cs, lane, o) ==> lane in Lanes(cs)
  {
    if Claimed(cs, lane, o) {
      var c :| c in cs && c.lane == lane && c.observation == o;
      var k :| 0 <= k < |cs| && cs[k] == c;
      assert Lanes(cs)[k] == lane;
    }
  }

  lemma {:induction false} ClaimMapIs(cs: seq<Claim>, lane: Lane, o: string)
    requires NoRepeats(Lanes(cs))
    ensures (lane in ClaimMap(cs) && ClaimMap(cs)[lane] == o) <==> Claimed(cs, lane, o)
  {
    if cs != [] {
      LanesSnoc(cs);
      ClaimMapIs(cs[..|cs| - 1], lane, o);
      ClaimedSnoc(cs, lane, o);
      ClaimedIsListed(cs[..|cs| - 1], lane, o);
    }
  }

  /** The producer part passes exactly when it is the committed one, new to this run. */
  lemma ProducerPasses(ids: set<string>, f: Fragment, authority: Authority, run: Run)
    requires WellFormed(authority, run)
    ensures ProducerCode(ids, f, authority, run) == None <==>
            GoodProducer(f, authority, run) && f.id !in ids && 1 <= |f.results| <= run.maxResults
  {
    if f.id in authority {
      assert run.validId(f.id) && ProperProducer(authority[f.id], run);
    }
  }

  /** The results pass exactly when there is one vouched claim for each lane, in order. */
  lemma ResultsPass(seen: Observations, cs: seq<Claim>, owner: Producer, allowed: set<Lane>, run: Run)
    requires ProperProducer(owner, run) && owner.results.Keys !! seen.Keys && owner.results.Keys <= allowed
    ensures AddResults(seen, cs, owner, allowed, run).Ok? <==> GoodResults(cs, owner)
    ensures AddResults(seen, cs, owner, allowed, run).Ok? ==>
            AddResults(seen, cs, owner, allowed, run).value == seen + ClaimMap(cs)
  {
    ClaimsAdd(seen, cs, owner, allowed, run);
    SameKeys(Lanes(cs), owner.results);
  }

  /** One more fragment is taken exactly when it is good and its producer new. */
  lemma FragmentAdds(g: Gathered, f: Fragment, authority: Authority, run: Run)
    requires WellFormed(authority, run) && Whole(g, authority)
    ensures AddFragment(g, f, authority, Committed(authority), run).Ok? <==> Good(f, authority, run) && f.id !in g.ids
    ensures AddFragment(g, f, authority, Committed(authority), run).Ok? ==>
            AddFragment(g, f, authority, Committed(authority), run).value
            == Gathered(g.observations + ClaimMap(f.results), g.ids + {f.id})
  {
    ProducerPasses(g.ids, f, authority, run);
    if f.id in authority && f.id !in g.ids {
      OwnResultsPass(g, f, authority, run);
    }
  }

  lemma OwnResultsPass(g: Gathered, f: Fragment, authority: Authority, run: Run)
    requires WellFormed(authority, run) && Whole(g, authority) && f.id in authority && f.id !in g.ids
    ensures var added := AddResults(g.observations, f.results, authority[f.id], Committed(authority), run);
            && (added.Ok? <==> GoodResults(f.results, authority[f.id]))
            && (added.Ok? ==> added.value == g.observations + ClaimMap(f.results) && 1 <= |f.results| <= run.maxResults)
  {
    var owner := authority[f.id];
    assert ProperProducer(owner, run);
    OwnLanesAreNew(g, f.id, authority, run);
    ResultsPass(g.observations, f.results, owner, Committed(authority), run);
    if GoodResults(f.results, owner) {
      ResultsFollow(f.results, owner, run);
    }
  }

  lemma SameKeys(lanes: seq<Lane>, m: map<Lane, string>)
    ensures (set lane | lane in lanes) == m.Keys <==> forall lane :: lane in lanes <==> lane in m
  {
    var s := set lane | lane in lanes;
    if s == m.Keys {
      forall lane ensures lane in lanes <==> lane in m {
        assert lane in lanes <==> lane in s;
      }
    }
  }

  lemma FragmentKeepsWhole(g: Gathered, f: Fragment, authority: Authority, run: Run)
    requires Whole(g, authority) && Good(f, authority, run)
    ensures Whole(Gathered(g.observations + ClaimMap(f.results), g.ids + {f.id}), authority)
  {
    var h := Gathered(g.observations + ClaimMap(f.results), g.ids + {f.id});
    forall lane ensures lane in h.observations <==> exists id :: id in h.ids && lane in authority[id].results {
      ClaimMapKeys(f.results, lane);
      if lane in g.observations {
        var id :| id in g.ids && lane in authority[id].results;
        assert id in h.ids;
      }
      if lane in ClaimMap(f.results) {
        assert f.id in h.ids && lane in authority[f.id].results;
      }
    }
  }

  // ---------------------------------------------------------------------------------------
  // Exact cover
  // ---------------------------------------------------------------------------------------

  /** Every path holds a good fragment. */
  ghost predicate EachGood(paths: seq<string>, authority: Authority, run: Run) {
    forall p :: p in paths ==> run.load(p).Some? && Good(run.load(p).value, authority, run)
  }

  predicate SameProducer(f: Option<Fragment>, g: Option<Fragment>) {
    f.Some? && g.Some? && f.value.id == g.value.id
  }

  /** No two places hold fragments of one producer. */
  ghost predicate OneEach(paths: seq<string>, run: Run) {
    && NoRepeats(paths)
    && forall p, q :: p in paths && q in paths && SameProducer(run.load(p), run.load(q)) ==> p == q
  }

  ghost predicate Emitted(paths: seq<string>, run: Run, id: string) {
    exists p :: p in paths && run.load(p).Some? && run.load(p).value.id == id
  }

  /** One good fragment for each committed producer, in any order. */
  ghost predicate Covers(paths: seq<string>, authority: Authority, run: Run) {
    && EachGood(paths, authority, run) && OneEach(paths, run)
    && forall id :: id in authority ==> Emitted(paths, run, id)
  }

  /** Some fragment claims this observation for this lane. */
  ghost predicate Carries(paths: seq<string>, run: Run, lane: Lane, o: string) {
    exists p, c :: p in paths && run.load(p).Some? && c in run.load(p).value.results && c.lane == lane && c.observation == o
  }

  /** The observations are determined by what the fragments carry. */
  ghost predicate CarriedBy(paths: seq<string>, run: Run, m: Observations) {
    forall lane, o :: (lane in m && m[lane] == o) <==> Carries(paths, run, lane, o)
  }

  /** What has been gathered from `paths`. */
  ghost predicate From(g: Gathered, paths: seq<string>, run: Run) {
    && (forall id :: id in g.ids <==> Emitted(paths, run, id))
    && CarriedBy(paths, run, g.observations)
  }

  lemma OneMoreEach(paths: seq<string>, p: string, authority: Authority, run: Run)
    requires run.load(p).Some? && EachGood(paths, authority, run)
    ensures OneEach(paths + [p], run) <==> OneEach(paths, run) && !Emitted(paths, run, run.load(p).value.id)
  {
    NoRepeatsSnoc(paths, p);
    var all := paths + [p];
    if OneEach(all, run) {
      forall q, t | q in paths && t in paths && SameProducer(run.load(q), run.load(t)) ensures q == t {
        assert q in all && t in all;
      }
      forall q | q in paths && run.load(q).Some? ensures run.load(q).value.id != run.load(p).value.id {
        assert q in all && p in all;
        assert SameProducer(run.load(q), run.load(p)) ==> q == p;
      }
    }
  }

  lemma FromMore(g: Gathered, paths: seq<string>, p: string, authority: Authority, run: Run)
    requires WellFormed(authority, run) && Whole(g, authority) && From(g, paths, run)
    requires run.load(p).Some? && Good(run.load(p).value, authority, run) && run.load(p).value.id !in g.ids
    ensures var f := run.load(p).value;
            From(Gathered(g.observations + ClaimMap(f.results), g.ids + {f.id}), paths + [p], run)
  {
    var f := run.load(p).value;
    var h := Gathered(g.observations + ClaimMap(f.results), g.ids + {f.id});
    forall id ensures id in h.ids <==> Emitted(paths + [p], run, id) {
      EmittedMore(paths, p, run, id);
    }
    OwnLanesAreNew(g, f.id, authority, run);
    forall lane, o ensures lane in h.observations && h.observations[lane] == o <==> Carries(paths + [p], run, lane, o) {
      CarriesMore(paths, p, run, lane, o);
      ClaimMapIs(f.results, lane, o);
      ClaimMapKeys(f.results, lane);
      assert lane in g.observations && g.observations[lane] == o <==> Carries(paths, run, lane, o);
    }
  }

  lemma EmittedMore(paths: seq<string>, p: string, run: Run, id: string)
    requires run.load(p).Some?
    ensures Emitted(paths + [p], run, id) <==> Emitted(paths, run, id) || run.load(p).value.id == id
  {
    if Emitted(paths, run, id) {
      var q :| q in paths && run.load(q).Some? && run.load(q).value.id == id;
      assert q in paths + [p];
    }
    assert p in paths + [p];
  }

  lemma CarriesMore(paths: seq<string>, p: string, run: Run, lane: Lane, o: string)
    requires run.load(p).Some?
    ensures Carries(paths + [p], run, lane, o) <==>
            || Carries(paths, run, lane, o)
            || Claimed(run.load(p).value.results, lane, o)
  {
    if Carries(paths, run, lane, o) {
      var q, c :| q in paths && run.load(q).Some? && c in run.load(q).value.results && c.lane == lane && c.observation == o;
      assert q in paths + [p];
    }
    assert p in paths + [p];
  }

  lemma EachGoodSnoc(paths: seq<string>, p: string, authority: Authority, run: Run)
    ensures EachGood(paths + [p], authority, run) <==>
            EachGood(paths, authority, run) && run.load(p).Some? && Good(run.load(p).value, authority, run)
  {
    var all := paths + [p];
    assert p in all;
    if EachGood(all, authority, run) {
      forall q | q in paths ensures run.load(q).Some? && Good(run.load(q).value, authority, run) {
        assert q in all;
      }
    }
  }

  lemma AddPathsSnoc(paths: seq<string>, p: string, authority: Authority, run: Run)
    ensures var front := AddPaths(paths, authority, Committed(authority), run);
            AddPaths(paths + [p], authority, Committed(authority), run) ==
            if front.Err? then front
            else if run.load(p).None? then Err(Unreadable)
            else AddFragment(front.value, run.load(p).value, authority, Committed(authority), run)
  {
    assert (paths + [p])[..|paths|] == paths;
  }

  /** The loop accepts exactly good fragments of different producers, and gathers what they carry. */
  lemma {:induction false} PathsAdd(paths: seq<string>, authority: Authority, run: Run)
    requires WellFormed(authority, run)
    ensures var r := AddPaths(paths, authority, Committed(authority), run);
            && (r.Ok? <==> EachGood(paths, authority, run) && OneEach(paths, run))
            && (r.Ok? ==> Whole(r.value, authority) && From(r.value, paths, run))
  {
    if paths != [] {
      var front, p := paths[..|paths| - 1], paths[|paths| - 1];
      assert paths == front + [p];
      PathsAdd(front, authority, run);
      AddPathsSnoc(front, p, authority, run);
      EachGoodSnoc(front, p, authority, run);
      var before := AddPaths(front, authority, Committed(authority), run);
      if run.load(p).Some? && EachGood(front, authority, run) {
        OneMoreEach(front, p, authority, run);
      }
      if run.load(p).Some? && before.Ok? {
        PathAdds(before.value, front, p, authority, run);
      }
    }
  }

  lemma PathAdds(g: Gathered, paths: seq<string>, p: string, authority: Authority, run: Run)
    requires WellFormed(authority, run) && Whole(g, authority) && From(g, paths, run) && run.load(p).Some?
    ensures var r := AddFragment(g, run.load(p).value, authority, Committed(authority), run);
            && (r.Ok? <==> Good(run.load(p).value, authority, run) && !Emitted(paths, run, run.load(p).value.id))
            && (r.Ok? ==> Whole(r.value, authority) && From(r.value, paths + [p], run))
  {
    var f := run.load(p).value;
    FragmentAdds(g, f, authority, run);
    if Good(f, authority, run) && f.id !in g.ids {
      FragmentKeepsWhole(g, f, authority, run);
      FromMore(g, paths, p, authority, run);
    }
  }

  /** After the loop, covering every lane and covering every producer are the same. */
  lemma CoverageChecksAgree(g: Gathered, authority: Authority, run: Run)
    requires WellFormed(authority, run) && Whole(g, authority)
    ensures g.observations.Keys == Committed(authority) <==> g.ids == authority.Keys
  {
    if g.observations.Keys == Committed(authority) {
      forall id | id in authority ensures id in g.ids {
        assert ProperProducer(authority[id], run);
        var lane :| lane in authority[id].results;
        assert lane in Committed(authority);
        assert lane in g.observations;
        var other :| other in g.ids && lane in authority[other].results;
      }
    }
    if g.ids == authority.Keys {
      forall lane ensures lane in g.observations.Keys <==> lane in Committed(authority) {
      }
    }
  }

  lemma CoverIsNotEmpty(paths: seq<string>, authority: Authority, run: Run)
    requires WellFormed(authority, run) && Covers(paths, authority, run)
    ensures paths != []
  {
    var id :| id in authority;
    assert Emitted(paths, run, id);
  }

  /** After the loop, the final checks pass exactly when every committed producer has emitted. */
  lemma FinalChecks(g: Gathered, paths: seq<string>, authority: Authority, run: Run)
    requires WellFormed(authority, run) && Whole(g, authority) && From(g, paths, run)
    ensures FinalCode(g, authority, Committed(authority)) == None <==> forall id :: id in authority ==> Emitted(paths, run, id)
  {
    CoverageChecksAgree(g, authority, run);
    assert g.ids == authority.Keys <==> forall id :: id in authority ==> id in g.ids;
  }

  /** The loader accepts exactly an exact cover, and returns what the fragments carry. */
  lemma LoadIsExactCover(paths: seq<string>, asked: Option<set<Lane>>, authority: Authority, run: Run)
    requires WellFormed(authority, run)
    ensures Load(paths, asked, authority, run).Ok? <==>
            (asked.None? || asked.value == Committed(authority)) && Covers(paths, authority, run)
    ensures Load(paths, asked, authority, run).Ok? ==>
            && Load(paths, asked, authority, run).value.Keys == Committed(authority)
            && CarriedBy(paths, run, Load(paths, asked, authority, run).value)
  {
    LoadedIsCover(paths, authority, run);
    if Covers(paths, authority, run) {
      CoverIsNotEmpty(paths, authority, run);
    }
  }

  /** What the loop and the two final checks accept together. */
  lemma LoadedIsCover(paths: seq<string>, authority: Authority, run: Run)
    requires WellFormed(authority, run)
    ensures var allowed := Committed(authority);
            var all := AddPaths(paths, authority, allowed, run);
            && (all.Ok? && FinalCode(all.value, authority, allowed).None? <==> Covers(paths, authority, run))
            && (Covers(paths, authority, run) ==>
                  all.value.observations.Keys == allowed && CarriedBy(paths, run, all.value.observations))
  {
    PathsAdd(paths, authority, run);
    var all := AddPaths(paths, authority, Committed(authority), run);
    if all.Ok? {
      FinalChecks(all.value, paths, authority, run);
    }
  }

  /** Neither the verdict nor the observations depend on the order of the fragments. */
  lemma OrderIsIrrelevant(a: seq<string>, b: seq<string>, asked: Option<set<Lane>>, authority: Authority, run: Run)
    requires WellFormed(authority, run) && multiset(a) == multiset(b)
    ensures Load(a, asked, authority, run).Ok? <==> Load(b, asked, authority, run).Ok?
    ensures Load(a, asked, authority, run).Ok? ==> Load(a, asked, authority, run) == Load(b, asked, authority, run)
  {
    SameElements(a, b);
    LoadIsExactCover(a, asked, authority, run);
    LoadIsExactCover(b, asked, authority, run);
    if Covers(a, authority, run) {
      CoverPermutes(a, b, authority, run);
    }
    if Covers(b, authority, run) {
      CoverPermutes(b, a, authority, run);
    }
    if Load(a, asked, authority, run).Ok? {
      SameObservations(a, b, Load(a, asked, authority, run).value, Load(b, asked, authority, run).value, run);
    }
  }

  lemma SameObservations(a: seq<string>, b: seq<string>, m: Observations, n: Observations, run: Run)
    requires multiset(a) == multiset(b) && CarriedBy(a, run, m) && CarriedBy(b, run, n) && m.Keys == n.Keys
    ensures m == n
  {
    forall lane | lane in m ensures n[lane] == m[lane] {
      assert Carries(a, run, lane, m[lane]);
      CarriesPermutes(a, b, run, lane, m[lane]);
    }
  }

  lemma CoverPermutes(a: seq<string>, b: seq<string>, authority: Authority, run: Run)
    requires multiset(a) == multiset(b) && Covers(a, authority, run)
    ensures Covers(b, authority, run)
  {
    SameElements(a, b);
    PermutedNoRepeats(a, b);
    forall id | id in authority ensures Emitted(b, run, id) {
      assert Emitted(a, run, id);
    }
  }

  lemma CarriesPermutes(a: seq<string>, b: seq<string>, run: Run, lane: Lane, o: string)
    requires multiset(a) == multiset(b) && Carries(a, run, lane, o)
    ensures Carries(b, run, lane, o)
  {
    SameElements(a, b);
  }
}
