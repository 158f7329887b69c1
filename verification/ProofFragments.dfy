/**
 The loader of proof fragments (scripts/ci/proof_fragments.py): a committed authority assigns every
 observation lane to one producer, and a run is accepted when its fragments cover it exactly.
 */
module ProofFragments {
  import opened Prelude
  import opened Sorting

  datatype Lane = Lane(ref: string, kind: string)

  /** What the committed allowlist says of one producer: its source paths and the test behind each lane. */
  datatype Producer = Producer(sources: seq<string>, results: map<Lane, string>)

  type Authority = map<string, Producer>

  datatype Source = Source(path: string, sha256: string)

  datatype Claim = Claim(lane: Lane, testId: string, passed: bool, observation: string)

  /** The fields a fragment must share with the run: format, binding, profile, nonce and contract. */
  datatype Header = Header(format: string, binding: string, profile: string, nonce: string, contract: seq<Source>)

  datatype Fragment = Fragment(header: Header, id: string, sources: seq<Source>, results: seq<Claim>)

  datatype Code =
    | InvalidAllowlist | MissingFragment | DuplicateFragment | Unreadable | HeaderMismatch
    | InvalidProducer | DuplicateProducer | UnexpectedProducer | SourceIdentity | ProducerSourceMismatch
    | InvalidResults | InvalidResult | UnexpectedLane | ProducerLaneMismatch | TestIdMismatch | DuplicateLane
    | ProducerLaneCoverageMismatch | LaneCoverageMismatch | ProducerCoverageMismatch

  const MAX_SOURCES: nat := 16

  /** What a run is checked against: the expected header, the patterns, the files on disk and the fragments behind the paths. */
  datatype Run = Run(
    header: Header,
    maxResults: nat,
    validClaim: (Lane, string) -> bool,
    validId: string -> bool,
    validPath: string -> bool,
    current: string -> Option<string>,
    load: string -> Option<Fragment>)

  type Observations = map<Lane, string>

  predicate LaneLeq(a: Lane, b: Lane) {
    if a.ref != b.ref then StringLeq(a.ref, b.ref) else StringLeq(a.kind, b.kind)
  }

  function Lanes(results: seq<Claim>): (lanes: seq<Lane>)
    ensures |lanes| == |results| && forall i :: 0 <= i < |results| ==> lanes[i] == results[i].lane
  {
    seq(|results|, i requires 0 <= i < |results| => results[i].lane)
  }

  function Paths(sources: seq<Source>): (paths: seq<string>)
    ensures |paths| == |sources| && forall i :: 0 <= i < |sources| ==> paths[i] == sources[i].path
  {
    seq(|sources|, i requires 0 <= i < |sources| => sources[i].path)
  }

  function Committed(authority: Authority): set<Lane> {
    set id, lane | id in authority && lane in authority[id].results :: lane
  }

  // ---------------------------------------------------------------------------------------
  // The committed authority
  // ---------------------------------------------------------------------------------------

  datatype Row = Row(lane: Lane, testId: string)

  datatype Listing = Listing(id: string, sources: seq<string>, results: seq<Row>)

  function RowLanes(rows: seq<Row>): (lanes: seq<Lane>)
    ensures |lanes| == |rows| && forall i :: 0 <= i < |rows| ==> lanes[i] == rows[i].lane
  {
    seq(|rows|, i requires 0 <= i < |rows| => rows[i].lane)
  }

  function ListingIds(listings: seq<Listing>): (ids: seq<string>)
    ensures |ids| == |listings| && forall i :: 0 <= i < |listings| ==> ids[i] == listings[i].id
  {
    seq(|listings|, i requires 0 <= i < |listings| => listings[i].id)
  }

  /** Every producer is proper, and every lane has one producer. */
  ghost predicate Partial(authority: Authority, run: Run) {
    && (forall id :: id in authority ==> run.validId(id) && ProperProducer(authority[id], run))
    && (forall a, b, lane :: a in authority && b in authority && lane in authority[a].results && lane in authority[b].results ==> a == b)
  }

  /** What every committed authority satisfies. */
  ghost predicate WellFormed(authority: Authority, run: Run) {
    authority != map[] && Partial(authority, run)
  }

  ghost predicate ProperProducer(p: Producer, run: Run) {
    && 1 <= |p.sources| <= MAX_SOURCES && Ordered(p.sources, StringLeq) && NoRepeats(p.sources)
    && p.results != map[] && |p.results| <= run.maxResults
    && (forall lane :: lane in p.results ==> run.validClaim(lane, p.results[lane]))
  }

  /** One listing is proper on its own. */
  predicate ProperListing(l: Listing, run: Run) {
    && run.validId(l.id)
    && 1 <= |l.sources| <= MAX_SOURCES && (forall i :: 0 <= i < |l.sources| ==> run.validPath(l.sources[i]))
    && Ordered(l.sources, StringLeq) && NoRepeats(l.sources)
    && 1 <= |l.results| <= run.maxResults
    && (forall i :: 0 <= i < |l.results| ==> run.validClaim(l.results[i].lane, l.results[i].testId))
    && Ordered(RowLanes(l.results), LaneLeq)
  }

  /** The lane map of one listing, unless it repeats a lane. */
  function ClaimRows(claimed: set<Lane>, rows: seq<Row>): Option<map<Lane, string>> {
    if rows == [] then Some(map[])
    else
      var row := rows[|rows| - 1];
      var front := ClaimRows(claimed, rows[..|rows| - 1]);
      if front.None? || row.lane in front.value || row.lane in claimed then None
      else Some(front.value[row.lane := row.testId])
  }

  function AddListing(authority: Authority, l: Listing, run: Run): Option<Authority> {
    var rows := ClaimRows(Committed(authority), l.results);
    if !ProperListing(l, run) || rows.None? || l.id in authority then None
    else Some(authority[l.id := Producer(l.sources, rows.value)])
  }

  function AddListings(listings: seq<Listing>, run: Run): Option<Authority> {
    if listings == [] then Some(map[])
    else
      var front := AddListings(listings[..|listings| - 1], run);
      if front.None? then None else AddListing(front.value, listings[|listings| - 1], run)
  }

  /** The authority of a list of producers; `None` is an invalid allowlist. */
  function ReadAuthority(listings: seq<Listing>, run: Run): Option<Authority> {
    if listings == [] then None
    else
      var all := AddListings(listings, run);
      if all.None? || !Ordered(ListingIds(listings), StringLeq) then None else all
  }

  method ReadRows(claimed: set<Lane>, rows: seq<Row>) returns (r: Option<map<Lane, string>>)
    ensures r == ClaimRows(claimed, rows)
  {
    var own: map<Lane, string> := map[];
    var seen := claimed;
    for i := 0 to |rows|
      invariant ClaimRows(claimed, rows[..i]) == Some(own)
      invariant seen == claimed + own.Keys
    {
      assert rows[..i + 1][..i] == rows[..i];
      if rows[i].lane in own || rows[i].lane in seen {
        RowsStop(claimed, rows, i + 1);
        return None;
      }
      own := own[rows[i].lane := rows[i].testId];
      seen := seen + {rows[i].lane};
    }
    assert rows[..|rows|] == rows;
    return Some(own);
  }

  lemma {:induction false} RowsStop(claimed: set<Lane>, rows: seq<Row>, n: nat)
    requires n <= |rows| && ClaimRows(claimed, rows[..n]).None?
    ensures ClaimRows(claimed, rows).None?
    decreases |rows| - n
  {
    if n < |rows| {
      assert rows[..n + 1][..n] == rows[..n];
      RowsStop(claimed, rows, n + 1);
    } else {
      assert rows[..n] == rows;
    }
  }

  lemma {:induction false} ListingsStop(listings: seq<Listing>, run: Run, n: nat)
    requires n <= |listings| && AddListings(listings[..n], run).None?
    ensures AddListings(listings, run).None?
    decreases |listings| - n
  {
    if n < |listings| {
      assert listings[..n + 1][..n] == listings[..n];
      ListingsStop(listings, run, n + 1);
    } else {
      assert listings[..n] == listings;
    }
  }

  method LoadListing(authority: Authority, l: Listing, run: Run) returns (r: Option<Authority>)
    ensures r == AddListing(authority, l, run)
  {
    if !ProperListing(l, run) {
      return None;
    }
    var rows := ReadRows(Committed(authority), l.results);
    if rows.None? || l.id in authority {
      return None;
    }
    return Some(authority[l.id := Producer(l.sources, rows.value)]);
  }

  method LoadAuthority(listings: seq<Listing>, run: Run) returns (r: Option<Authority>)
    ensures r == ReadAuthority(listings, run)
  {
    if listings == [] {
      return None;
    }
    var authority: Authority := map[];
    for i := 0 to |listings|
      invariant AddListings(listings[..i], run) == Some(authority)
    {
      assert listings[..i + 1][..i] == listings[..i];
      var next := LoadListing(authority, listings[i], run);
      if next.None? {
        ListingsStop(listings, run, i + 1);
        return None;
      }
      authority := next.value;
    }
    assert listings[..|listings|] == listings;
    if !Ordered(ListingIds(listings), StringLeq) {
      return None;
    }
    return Some(authority);
  }

  lemma {:induction false} RowsAre(claimed: set<Lane>, rows: seq<Row>, run: Run)
    requires ClaimRows(claimed, rows).Some?
    requires forall i :: 0 <= i < |rows| ==> run.validClaim(rows[i].lane, rows[i].testId)
    ensures var own := ClaimRows(claimed, rows).value;
            && own.Keys !! claimed && |own| == |rows|
            && (forall lane :: lane in own ==> run.validClaim(lane, own[lane]))
  {
    if rows != [] {
      RowsAre(claimed, rows[..|rows| - 1], run);
    }
  }

  lemma ListingKeeps(authority: Authority, l: Listing, run: Run)
    requires Partial(authority, run) && AddListing(authority, l, run).Some?
    ensures Partial(AddListing(authority, l, run).value, run)
  {
    var rows := ClaimRows(Committed(authority), l.results).value;
    RowsAre(Committed(authority), l.results, run);
    assert |rows| > 0;
    assert ProperProducer(Producer(l.sources, rows), run);
    forall id, lane | id in authority && lane in authority[id].results ensures lane !in rows {
      assert lane in Committed(authority);
    }
  }

  lemma {:induction false} ListingsKeep(listings: seq<Listing>, run: Run)
    requires AddListings(listings, run).Some?
    ensures Partial(AddListings(listings, run).value, run)
    ensures listings != [] ==> AddListings(listings, run).value != map[]
  {
    if listings != [] {
      var front := listings[..|listings| - 1];
      ListingsKeep(front, run);
      ListingKeeps(AddListings(front, run).value, listings[|listings| - 1], run);
      assert listings[|listings| - 1].id in AddListings(listings, run).value;
    }
  }

  /** Every accepted allowlist gives every lane one producer and every producer a lane. */
  lemma AuthorityIsWellFormed(listings: seq<Listing>, run: Run)
    requires ReadAuthority(listings, run).Some?
    ensures WellFormed(ReadAuthority(listings, run).value, run)
  {
    ListingsKeep(listings, run);
  }

  // ---------------------------------------------------------------------------------------
  // Which allowlists are accepted, and what they mean
  // ---------------------------------------------------------------------------------------

  /** All rows of all producers, in order. */
  function AllRows(listings: seq<Listing>): seq<Row> {
    if listings == [] then [] else AllRows(listings[..|listings| - 1]) + listings[|listings| - 1].results
  }

  lemma NoRepeatsConcat<T>(a: seq<T>, b: seq<T>)
    ensures NoRepeats(a + b) <==> NoRepeats(a) && NoRepeats(b) && forall x :: x in b ==> x !in a
  {
    var all := a + b;
    if NoRepeats(all) {
      forall j, k | 0 <= j < k < |a| ensures a[j] != a[k] {
        assert all[j] != all[k];
      }
      forall j, k | 0 <= j < k < |b| ensures b[j] != b[k] {
        assert all[|a| + j] != all[|a| + k];
      }
      forall x | x in b ensures x !in a {
        var k :| 0 <= k < |b| && b[k] == x;
        forall j | 0 <= j < |a| ensures a[j] != x {
          assert all[j] != all[|a| + k];
        }
      }
    }
    if NoRepeats(a) && NoRepeats(b) && forall x :: x in b ==> x !in a {
      forall j, k | 0 <= j < k < |all| ensures all[j] != all[k] {
        if j < |a| <= k {
          assert all[k] in b && all[j] in a;
        }
      }
    }
  }

  /** The rows of one listing make a map exactly when no lane is claimed twice. */
  lemma {:induction false} RowsClaim(claimed: set<Lane>, rows: seq<Row>)
    ensures ClaimRows(claimed, rows).Some? <==> NoRepeats(RowLanes(rows)) && forall lane :: lane in RowLanes(rows) ==> lane !in claimed
    ensures ClaimRows(claimed, rows).Some? ==> MapOf(rows, ClaimRows(claimed, rows).value)
  {
    if rows != [] {
      var n := |rows| - 1;
      RowsClaim(claimed, rows[..n]);
      assert RowLanes(rows) == RowLanes(rows[..n]) + [rows[n].lane];
      NoRepeatsSnoc(RowLanes(rows[..n]), rows[n].lane);
      if ClaimRows(claimed, rows).Some? {
        MapSnoc(rows, ClaimRows(claimed, rows[..n]).value);
      }
    }
  }

  /** The map holds the test of every row and nothing else. */
  ghost predicate MapOf(rows: seq<Row>, m: map<Lane, string>) {
    && (forall lane :: lane in m <==> lane in RowLanes(rows))
    && (forall i :: 0 <= i < |rows| ==> rows[i].lane in m && m[rows[i].lane] == rows[i].testId)
  }

  lemma MapSnoc(rows: seq<Row>, m: map<Lane, string>)
    requires rows != [] && MapOf(rows[..|rows| - 1], m) && rows[|rows| - 1].lane !in m
    ensures MapOf(rows, m[rows[|rows| - 1].lane := rows[|rows| - 1].testId])
  {
    var n := |rows| - 1;
    assert RowLanes(rows) == RowLanes(rows[..n]) + [rows[n].lane];
    forall i | 0 <= i < n ensures rows[i].lane in m && m[rows[i].lane] == rows[i].testId {
      assert rows[..n][i] == rows[i];
    }
  }

  ghost predicate Holds(authority: Authority, l: Listing) {
    l.id in authority && authority[l.id].sources == l.sources && MapOf(l.results, authority[l.id].results)
  }

  /** The authority is what the listings say, and its lanes are their lanes. */
  ghost predicate Says(authority: Authority, listings: seq<Listing>) {
    && (forall id :: id in authority <==> id in ListingIds(listings))
    && (forall i :: 0 <= i < |listings| ==> Holds(authority, listings[i]))
    && (forall lane :: lane in Committed(authority) <==> lane in RowLanes(AllRows(listings)))
  }

  ghost predicate Acceptable(listings: seq<Listing>, run: Run) {
    && (forall i :: 0 <= i < |listings| ==> ProperListing(listings[i], run))
    && NoRepeats(RowLanes(AllRows(listings))) && NoRepeats(ListingIds(listings))
  }

  lemma AcceptableSnoc(listings: seq<Listing>, l: Listing, run: Run)
    ensures Acceptable(listings + [l], run) <==>
            && Acceptable(listings, run) && ProperListing(l, run) && l.id !in ListingIds(listings)
            && NoRepeats(RowLanes(l.results)) && forall lane :: lane in RowLanes(l.results) ==> lane !in RowLanes(AllRows(listings))
  {
    var all := listings + [l];
    assert all[..|listings|] == listings;
    assert ListingIds(all) == ListingIds(listings) + [l.id];
    NoRepeatsSnoc(ListingIds(listings), l.id);
    assert RowLanes(AllRows(all)) == RowLanes(AllRows(listings)) + RowLanes(l.results);
    NoRepeatsConcat(RowLanes(AllRows(listings)), RowLanes(l.results));
    assert all[|listings|] == l;
    if Acceptable(all, run) {
      forall i | 0 <= i < |listings| ensures ProperListing(listings[i], run) {
        assert all[i] == listings[i];
      }
    }
  }

  lemma HoldsMore(authority: Authority, listings: seq<Listing>, id: string, p: Producer)
    requires id !in authority && forall i :: 0 <= i < |listings| ==> Holds(authority, listings[i])
    ensures forall i :: 0 <= i < |listings| ==> Holds(authority[id := p], listings[i])
  {
    forall i | 0 <= i < |listings| ensures Holds(authority[id := p], listings[i]) {
      assert Holds(authority, listings[i]) && listings[i].id != id;
    }
  }

  lemma ListingsSnoc(listings: seq<Listing>, l: Listing)
    ensures ListingIds(listings + [l]) == ListingIds(listings) + [l.id]
    ensures RowLanes(AllRows(listings + [l])) == RowLanes(AllRows(listings)) + RowLanes(l.results)
  {
    assert (listings + [l])[..|listings|] == listings;
  }

  lemma SaysSnoc(authority: Authority, listings: seq<Listing>, l: Listing, own: map<Lane, string>)
    requires Says(authority, listings) && l.id !in authority && MapOf(l.results, own)
    ensures Says(authority[l.id := Producer(l.sources, own)], listings + [l])
  {
    var all, more := listings + [l], authority[l.id := Producer(l.sources, own)];
    ListingsSnoc(listings, l);
    CommittedMore(authority, l.id, Producer(l.sources, own));
    HoldsMore(authority, listings, l.id, Producer(l.sources, own));
    assert Holds(more, l);
  }

  lemma CommittedMore(authority: Authority, id: string, p: Producer)
    requires id !in authority
    ensures Committed(authority[id := p]) == Committed(authority) + p.results.Keys
  {
    var more := authority[id := p];
    forall lane | lane in Committed(authority) ensures lane in Committed(more) {
      var other :| other in authority && lane in authority[other].results;
      assert other in more && lane in more[other].results;
    }
    forall lane | lane in p.results ensures lane in Committed(more) {
      assert id in more && lane in more[id].results;
    }
  }

  /** One more listing is taken exactly when it is proper and new. */
  lemma ListingAdds(authority: Authority, listings: seq<Listing>, l: Listing, run: Run)
    requires Says(authority, listings)
    ensures AddListing(authority, l, run).Some? <==>
            && ProperListing(l, run) && l.id !in ListingIds(listings)
            && NoRepeats(RowLanes(l.results)) && forall lane :: lane in RowLanes(l.results) ==> lane !in RowLanes(AllRows(listings))
    ensures AddListing(authority, l, run).Some? ==> Says(AddListing(authority, l, run).value, listings + [l])
  {
    RowsClaim(Committed(authority), l.results);
    if AddListing(authority, l, run).Some? {
      SaysSnoc(authority, listings, l, ClaimRows(Committed(authority), l.results).value);
    }
  }

  /** Listings are taken exactly when each is proper and no lane or producer comes twice. */
  lemma {:induction false} ListingsAre(listings: seq<Listing>, run: Run)
    ensures AddListings(listings, run).Some? <==> Acceptable(listings, run)
    ensures AddListings(listings, run).Some? ==> Says(AddListings(listings, run).value, listings)
  {
    if listings != [] {
      var front, l := listings[..|listings| - 1], listings[|listings| - 1];
      assert listings == front + [l];
      ListingsAre(front, run);
      AcceptableSnoc(front, l, run);
      if AddListings(front, run).Some? {
        ListingAdds(AddListings(front, run).value, front, l, run);
      }
    }
  }

  /** Which allowlists are committed authorities, and that the authority is what they say. */
  lemma AuthorityIs(listings: seq<Listing>, run: Run)
    ensures ReadAuthority(listings, run).Some? <==>
            listings != [] && Acceptable(listings, run) && Ordered(ListingIds(listings), StringLeq)
    ensures ReadAuthority(listings, run).Some? ==> Says(ReadAuthority(listings, run).value, listings)
  {
    ListingsAre(listings, run);
  }
}
