/**
 The transport of a Database (type_bridge/session.py) and its second opener, rust_database_for
 (type_bridge/_rust_runtime.py): two backends opened lazily from one prepared identity, an optional
 CA snapshot they share, and a close that detaches everything or restores everything.

 `Transport` is the state as a value and `Step` the effect of one operation; class `Database` does
 the same work by updating fields in the order the source does and is proved to take exactly those
 steps. What the outside world does in one operation is a `Faults` record.
 */
module Transport {
  import opened Prelude
  import opened Text

  datatype Config = Config(
    address: string, database: string, username: Option<string>, password: Option<string>,
    httpPort: int, serverVersion: Option<string>, tls: Option<bool>, rootCa: Option<string>)

  datatype Identity = Identity(
    address: string, database: string, username: Option<string>, password: Option<string>,
    httpPort: int, serverVersion: Option<string>, tlsEnabled: bool, tlsArgument: Option<bool>,
    rootCa: Option<string>)

  datatype Problem =
    | RootContradictsTls | RootNeedsTls | EmptyRoot | MixedCaseHttps
    | SettingsChanged | CaptureFailed | OpenFailed | CleanupFailed | DriverCloseFailed

  // ---------------------------------------------------------------------------------------
  // The connection identity
  // ---------------------------------------------------------------------------------------

  const HTTPS := "https://"
  const HTTP := "http://"

  function Lower(c: char): char {
    if 'A' <= c <= 'Z' then ((c as int) + 32) as char else c
  }

  predicate StartsWithAnyCase(s: string, p: string) {
    |p| <= |s| && forall i :: 0 <= i < |p| ==> Lower(s[i]) == p[i]
  }

  function ResolveTransport(address: string, tls: Option<bool>, rootCa: Option<string>)
    : Result<(string, bool, Option<string>), Problem>
  {
    if rootCa.Some? && tls == Some(false) then Err(RootContradictsTls)
    else if rootCa.Some? && tls == None then Err(RootNeedsTls)
    else if rootCa == Some("") then Err(EmptyRoot)
    else
      var enabled := if tls.None? then StartsWith(address, HTTPS) else tls.value;
      var plain :=
        if StartsWithAnyCase(address, HTTPS) then
          if StartsWith(address, HTTPS) || tls.Some? then address[|HTTPS|..] else address
        else if StartsWithAnyCase(address, HTTP) then address[|HTTP|..]
        else address;
      Ok((plain, enabled, rootCa))
  }

  /** A root needs TLS to be enabled explicitly, and a path. */
  predicate Contradictory(cfg: Config) {
    cfg.rootCa.Some? && (cfg.tls != Some(true) || cfg.rootCa.value == "")
  }

  function CurrentIdentity(cfg: Config): Result<Identity, Problem> {
    var resolved := ResolveTransport(cfg.address, cfg.tls, cfg.rootCa);
    if resolved.Err? then Err(resolved.error)
    else if cfg.tls.None? && StartsWithAnyCase(cfg.address, HTTPS) && !StartsWith(cfg.address, HTTPS) then
      Err(MixedCaseHttps)
    else
      var (address, enabled, root) := resolved.value;
      Ok(Identity(address, cfg.database, cfg.username, cfg.password, cfg.httpPort, cfg.serverVersion, enabled,
                  if cfg.tls.Some? || StartsWith(cfg.address, HTTPS) then Some(enabled) else None, root))
  }

  /** No spelling of an https address is ever connected in plaintext unless TLS was explicitly refused. */
  lemma HttpsIsNeverSilentlyPlaintext(cfg: Config)
    requires CurrentIdentity(cfg).Ok? && StartsWithAnyCase(cfg.address, HTTPS)
    ensures CurrentIdentity(cfg).value.tlsEnabled <==> cfg.tls != Some(false)
    ensures CurrentIdentity(cfg).value.tlsArgument == Some(CurrentIdentity(cfg).value.tlsEnabled)
    ensures CurrentIdentity(cfg).value.address == cfg.address[|HTTPS|..]
  {
  }

  /** A custom root is only ever used together with TLS. */
  lemma RootImpliesTls(cfg: Config)
    requires CurrentIdentity(cfg).Ok? && CurrentIdentity(cfg).value.rootCa.Some?
    ensures CurrentIdentity(cfg).value.tlsEnabled && cfg.tls == Some(true)
  {
  }

  // ---------------------------------------------------------------------------------------
  // The state and its steps
  // ---------------------------------------------------------------------------------------

  /** An opened backend: its own id, and the identity and CA snapshot it was opened with. */
  datatype Backend = Backend(id: nat, identity: Identity, snapshot: Option<nat>)

  /** A Python driver is opened here or handed in by the caller. */
  datatype Driver = Opened(backend: Backend) | Injected(id: nat)

  /** `acquired` are the ids this Database acquired, `released` those whose release succeeded and `abandoned`
      those it let go of although their release failed. */
  datatype Transport = Transport(
    config: Config,
    driver: Option<Driver>, ownsDriver: bool,
    rust: Option<Backend>,
    snapshot: Option<nat>,
    prepared: Option<Identity>,
    committed: bool,
    nextId: nat, acquired: set<nat>, released: seq<nat>, abandoned: seq<nat>, driverCloses: seq<Driver>)

  /** What fails, should the operation get that far. */
  datatype Faults = Faults(capture: bool, open: bool, cleanup: bool, driverClose: bool, rustClose: bool)

  datatype Op =
    | Configure(config: Config)
    | Connect(f: Faults)
    | UseRust(f: Faults)
    | UseDriver(f: Faults)
    | Close(f: Faults)

  datatype Outcome = Done | Raised(problem: Problem)

  function New(config: Config, injected: Option<nat>): Transport {
    Transport(config, if injected.Some? then Some(Injected(injected.value)) else None, injected.None?,
              None, None, None, false,
              if injected.Some? then injected.value + 1 else 0, {}, [], [], [])
  }

  function Acquire(s: Transport): Transport {
    s.(nextId := s.nextId + 1, acquired := s.acquired + {s.nextId})
  }

  /** Bind the identity at first use; afterwards insist on the same one. */
  function Prepare(s: Transport, identity: Result<Identity, Problem>, f: Faults): (Transport, Outcome) {
    if identity.Err? then (s, Raised(identity.error))
    else if s.prepared.Some? then
      (s, if identity.value != s.prepared.value then Raised(SettingsChanged) else Done)
    else if identity.value.rootCa.None? then
      (s.(prepared := Some(identity.value)), Done)
    else if f.capture then (s, Raised(CaptureFailed))
    else (Acquire(s).(snapshot := Some(s.nextId), prepared := Some(identity.value)), Done)
  }

  /** After a failed open: forget an identity no backend uses. */
  function Discard(s: Transport, f: Faults, why: Problem): (Transport, Outcome) {
    if s.committed then (s, Raised(why))
    else if s.snapshot.Some? then
      if f.cleanup then (s, Raised(CleanupFailed))
      else (s.(snapshot := None, prepared := None, released := s.released + [s.snapshot.value]), Raised(why))
    else (s.(prepared := None), Raised(why))
  }

  function InstallRust(p: Transport): Transport
    requires p.prepared.Some?
  {
    Acquire(p).(rust := Some(Backend(p.nextId, p.prepared.value, p.snapshot)), committed := true)
  }

  function InstallDriver(p: Transport): Transport
    requires p.prepared.Some?
  {
    Acquire(p).(driver := Some(Opened(Backend(p.nextId, p.prepared.value, p.snapshot))),
                ownsDriver := true, committed := true)
  }

  function OpenRust(s: Transport, identity: Result<Identity, Problem>, f: Faults): (Transport, Outcome) {
    if s.rust.Some? then (s, Done)
    else
      var (p, outcome) := Prepare(s, identity, f);
      if outcome.Raised? then Discard(p, f, outcome.problem)
      else if f.open then Discard(p, f, OpenFailed)
      else (InstallRust(p), Done)
  }

  function OpenDriver(s: Transport, identity: Result<Identity, Problem>, f: Faults): (Transport, Outcome) {
    if s.driver.Some? then (s, Done)
    else
      var (p, outcome) := Prepare(s, identity, f);
      if outcome.Raised? then Discard(p, f, outcome.problem)
      else if f.open then Discard(p, f, OpenFailed)
      else (InstallDriver(p), Done)
  }

  predicate DriverOpened(s: Transport) {
    s.driver.Some? && s.driver.value.Opened?
  }

  function Slot(id: Option<nat>): seq<nat> {
    if id.Some? then [id.value] else []
  }

  function OpenedId(driver: Option<Driver>): Option<nat> {
    if driver.Some? && driver.value.Opened? then Some(driver.value.backend.id) else None
  }

  function BackendId(backend: Option<Backend>): Option<nat> {
    if backend.Some? then Some(backend.value.id) else None
  }

  /** The resources held. */
  function Ids(s: Transport): seq<nat> {
    Slot(OpenedId(s.driver)) + Slot(BackendId(s.rust)) + Slot(s.snapshot)
  }

  function One(held: Option<nat>, id: nat): nat {
    if held == Some(id) then 1 else 0
  }

  /** How many of the held resources are `id`. */
  function HeldCount(s: Transport, id: nat): nat {
    One(OpenedId(s.driver), id) + One(BackendId(s.rust), id) + One(s.snapshot, id)
  }

  function Unless(id: Option<nat>, failed: bool): Option<nat> {
    if failed then None else id
  }

  function OnlyIf(id: Option<nat>, failed: bool): Option<nat> {
    if failed then id else None
  }

  /** What a close that goes through releases besides the driver. */
  function FreedRest(rust: Option<nat>, snapshot: Option<nat>, f: Faults): seq<nat> {
    Slot(Unless(rust, f.rustClose)) + Slot(Unless(snapshot, f.cleanup))
  }

  /** What a close that goes through really releases. */
  function Freed(s: Transport, f: Faults): seq<nat> {
    Slot(OpenedId(s.driver)) + FreedRest(BackendId(s.rust), s.snapshot, f)
  }

  /** What it only lets go of: a failing Rust close is masked, a failing snapshot removal raised, and neither is
      tried again. */
  function LostRest(rust: Option<nat>, snapshot: Option<nat>, f: Faults): seq<nat> {
    Slot(OnlyIf(rust, f.rustClose)) + Slot(OnlyIf(snapshot, f.cleanup))
  }

  function Lost(s: Transport, f: Faults): seq<nat> {
    LostRest(BackendId(s.rust), s.snapshot, f)
  }

  /** Close detaches all or nothing. */
  function CloseAll(s: Transport, f: Faults): (Transport, Outcome) {
    var closes := if s.driver.Some? && s.ownsDriver then s.driverCloses + [s.driver.value] else s.driverCloses;
    if s.driver.Some? && s.ownsDriver && f.driverClose then
      (s.(driverCloses := closes), Raised(DriverCloseFailed))
    else
      (s.(driver := None, rust := None, snapshot := None, prepared := None, committed := false,
          released := s.released + Freed(s, f), abandoned := s.abandoned + Lost(s, f), driverCloses := closes),
       if s.snapshot.Some? && f.cleanup then Raised(CleanupFailed) else Done)
  }

  function Step(s: Transport, op: Op): (Transport, Outcome) {
    match op
    case Configure(config) => (s.(config := config), Done)
    case Connect(f) => if s.driver.Some? then (s, Done) else OpenRust(s, CurrentIdentity(s.config), f)
    case UseRust(f) => OpenRust(s, CurrentIdentity(s.config), f)
    case UseDriver(f) => OpenDriver(s, CurrentIdentity(s.config), f)
    case Close(f) => CloseAll(s, f)
  }

  function Run(s: Transport, ops: seq<Op>): Transport {
    if ops == [] then s else Step(Run(s, ops[..|ops| - 1]), ops[|ops| - 1]).0
  }

  // ---------------------------------------------------------------------------------------
  // Invariants over every run
  // ---------------------------------------------------------------------------------------

  /** The backends this Database opened and still holds. */
  function Backends(s: Transport): set<Backend> {
    (if s.driver.Some? && s.driver.value.Opened? then {s.driver.value.backend} else {})
    + (if s.rust.Some? then {s.rust.value} else {})
  }

  /** `b` was opened with the identity and the snapshot the Database retains. */
  predicate Uses(s: Transport, b: Backend) {
    s.prepared == Some(b.identity) && b.snapshot == s.snapshot
  }

  /** One identity and one snapshot for every backend held; nothing prepared is needed by nobody's leave. */
  ghost predicate OneIdentity(s: Transport) {
    && (s.rust.Some? ==> Uses(s, s.rust.value))
    && (DriverOpened(s) ==> Uses(s, s.driver.value.backend))
    && (s.committed <==> s.rust.Some? || DriverOpened(s))
    && (s.snapshot.Some? <==> s.prepared.Some? && s.prepared.value.rootCa.Some?)
    && (s.driver.Some? ==> (s.ownsDriver <==> s.driver.value.Opened?))
  }

  /** How often `id` is held, was released and was abandoned. */
  function Occurrences(s: Transport, id: nat): nat {
    HeldCount(s, id) + multiset(s.released)[id] + multiset(s.abandoned)[id]
  }

  /** Every acquired id is held, or was released, or was abandoned: one of them, once. */
  ghost predicate Balanced(s: Transport) {
    forall id: nat :: Occurrences(s, id) == if id in s.acquired then 1 else 0
  }

  /** Balanced, with fresh ids for what is new, and no injected driver among what is owned. */
  ghost predicate Accounted(s: Transport) {
    && Balanced(s)
    && (forall id :: id in s.acquired ==> id < s.nextId)
    && (s.driver.Some? && s.driver.value.Injected? ==> s.driver.value.id < s.nextId && s.driver.value.id !in s.acquired)
    && (forall d :: d in s.driverCloses ==> d.Opened?)
  }

  ghost predicate Inv(s: Transport) {
    OneIdentity(s) && Accounted(s)
  }

  lemma PrepareKeeps(s: Transport, identity: Result<Identity, Problem>, f: Faults)
    requires Inv(s)
    ensures Inv(Prepare(s, identity, f).0)
  {
    PrepareKeepsBalance(s, identity, f);
  }

  lemma PrepareKeepsBalance(s: Transport, identity: Result<Identity, Problem>, f: Faults)
    requires Inv(s)
    ensures Balanced(Prepare(s, identity, f).0)
  {
    var p := Prepare(s, identity, f).0;
    forall id: nat
      ensures Occurrences(p, id) == if id in p.acquired then 1 else 0
    {
      assert Occurrences(s, id) == if id in s.acquired then 1 else 0;
      PrepareCounts(s, identity, f, id);
    }
  }

  /** Preparing adds at most the new snapshot to what is held. */
  lemma PrepareCounts(s: Transport, identity: Result<Identity, Problem>, f: Faults, id: nat)
    requires OneIdentity(s) && s.nextId !in s.acquired
    ensures var p := Prepare(s, identity, f).0;
            && (p.acquired == s.acquired ==> Occurrences(p, id) == Occurrences(s, id))
            && (p.acquired != s.acquired ==>
                  p.acquired == s.acquired + {s.nextId} && Occurrences(p, id) == Occurrences(s, id) + One(Some(s.nextId), id))
  {
  }

  lemma InstallRustKeeps(p: Transport)
    requires Inv(p) && p.prepared.Some? && p.rust.None?
    ensures Inv(InstallRust(p))
  {
    var q := InstallRust(p);
    forall id: nat
      ensures Occurrences(q, id) == if id in q.acquired then 1 else 0
    {
      assert Occurrences(p, id) == if id in p.acquired then 1 else 0;
    }
  }

  lemma InstallDriverKeeps(p: Transport)
    requires Inv(p) && p.prepared.Some? && p.driver.None?
    ensures Inv(InstallDriver(p))
  {
    var q := InstallDriver(p);
    forall id: nat
      ensures Occurrences(q, id) == if id in q.acquired then 1 else 0
    {
      assert Occurrences(p, id) == if id in p.acquired then 1 else 0;
    }
  }

  lemma DiscardKeeps(s: Transport, f: Faults, why: Problem)
    requires Inv(s)
    ensures Inv(Discard(s, f, why).0)
  {
    var d := Discard(s, f, why).0;
    forall id: nat
      ensures Occurrences(d, id) == if id in d.acquired then 1 else 0
    {
      assert Occurrences(s, id) == if id in s.acquired then 1 else 0;
    }
  }

  lemma OpensKeep(s: Transport, identity: Result<Identity, Problem>, f: Faults)
    requires Inv(s)
    ensures Inv(OpenRust(s, identity, f).0) && Inv(OpenDriver(s, identity, f).0)
  {
    var (p, outcome) := Prepare(s, identity, f);
    PrepareKeeps(s, identity, f);
    if outcome.Raised? {
      DiscardKeeps(p, f, outcome.problem);
    } else if f.open {
      DiscardKeeps(p, f, OpenFailed);
    } else {
      if s.rust.None? { InstallRustKeeps(p); }
      if s.driver.None? { InstallDriverKeeps(p); }
    }
  }

  lemma SlotCount(held: Option<nat>, id: nat)
    ensures multiset(Slot(held))[id] == One(held, id)
  {
  }

  lemma Count2(a: seq<nat>, b: seq<nat>, id: nat)
    ensures multiset(a + b)[id] == multiset(a)[id] + multiset(b)[id]
  {
  }

  lemma SlotsCount(x: Option<nat>, y: Option<nat>, id: nat)
    ensures multiset(Slot(x) + Slot(y))[id] == One(x, id) + One(y, id)
  {
    Count2(Slot(x), Slot(y), id);
    SlotCount(x, id);
    SlotCount(y, id);
  }

  lemma IdsAreHeld(s: Transport, id: nat)
    ensures multiset(Ids(s))[id] == HeldCount(s, id)
  {
    SlotsCount(OpenedId(s.driver), BackendId(s.rust), id);
    Count2(Slot(OpenedId(s.driver)) + Slot(BackendId(s.rust)), Slot(s.snapshot), id);
    SlotCount(s.snapshot, id);
  }

  lemma FreedCount(s: Transport, f: Faults, id: nat)
    ensures multiset(Freed(s, f))[id] ==
            One(OpenedId(s.driver), id) + One(Unless(BackendId(s.rust), f.rustClose), id) + One(Unless(s.snapshot, f.cleanup), id)
  {
    SlotsCount(Unless(BackendId(s.rust), f.rustClose), Unless(s.snapshot, f.cleanup), id);
    Count2(Slot(OpenedId(s.driver)), FreedRest(BackendId(s.rust), s.snapshot, f), id);
    SlotCount(OpenedId(s.driver), id);
  }

  lemma LostCount(s: Transport, f: Faults, id: nat)
    ensures multiset(Lost(s, f))[id] ==
            One(OnlyIf(BackendId(s.rust), f.rustClose), id) + One(OnlyIf(s.snapshot, f.cleanup), id)
  {
    SlotsCount(OnlyIf(BackendId(s.rust), f.rustClose), OnlyIf(s.snapshot, f.cleanup), id);
  }

  /** What a close frees and what it loses is what was held. */
  lemma FreedAndLost(s: Transport, f: Faults, id: nat)
    ensures multiset(Freed(s, f))[id] + multiset(Lost(s, f))[id] == HeldCount(s, id)
  {
    FreedCount(s, f, id);
    LostCount(s, f, id);
  }

  lemma DetachedIsAccounted(s: Transport, c: Transport, f: Faults, id: nat)
    requires Balanced(s) && c.acquired == s.acquired
    requires c.released == s.released + Freed(s, f) && c.abandoned == s.abandoned + Lost(s, f)
    requires c.driver.None? && c.rust.None? && c.snapshot.None?
    ensures Occurrences(c, id) == if id in c.acquired then 1 else 0
  {
    FreedAndLost(s, f, id);
    Count2(s.released, Freed(s, f), id);
    Count2(s.abandoned, Lost(s, f), id);
    assert Occurrences(s, id) == if id in s.acquired then 1 else 0;
  }

  lemma CloseKeepsBalance(s: Transport, f: Faults)
    requires Balanced(s)
    ensures Balanced(CloseAll(s, f).0)
  {
    var c := CloseAll(s, f).0;
    forall id: nat ensures Occurrences(c, id) == if id in c.acquired then 1 else 0 {
      if s.driver.Some? && s.ownsDriver && f.driverClose {
        assert Occurrences(c, id) == Occurrences(s, id);
      } else {
        DetachedIsAccounted(s, c, f, id);
      }
    }
  }

  lemma CloseKeeps(s: Transport, f: Faults)
    requires Inv(s)
    ensures Inv(CloseAll(s, f).0)
  {
    CloseKeepsBalance(s, f);
    CloseKeepsIdentity(s, f);
  }

  lemma CloseKeepsIdentity(s: Transport, f: Faults)
    requires OneIdentity(s)
    ensures OneIdentity(CloseAll(s, f).0)
  {
  }

  lemma ConfigureKeeps(s: Transport, config: Config)
    requires Inv(s)
    ensures Inv(s.(config := config))
  {
    assert forall id: nat :: Occurrences(s.(config := config), id) == Occurrences(s, id);
  }

  lemma StepKeeps(s: Transport, op: Op)
    requires Inv(s)
    ensures Inv(Step(s, op).0)
  {
    match op
    case Configure(config) =>
      ConfigureKeeps(s, config);
    case Connect(f) => OpensKeep(s, CurrentIdentity(s.config), f);
    case UseRust(f) => OpensKeep(s, CurrentIdentity(s.config), f);
    case UseDriver(f) => OpensKeep(s, CurrentIdentity(s.config), f);
    case Close(f) => CloseKeeps(s, f);
  }

  /** Over every sequence of operations, with any faults: one identity, and exact accounting. */
  lemma {:induction false} EveryRunKeeps(config: Config, injected: Option<nat>, ops: seq<Op>)
    ensures Inv(Run(New(config, injected), ops))
    decreases |ops|
  {
    if ops != [] {
      EveryRunKeeps(config, injected, ops[..|ops| - 1]);
      StepKeeps(Run(New(config, injected), ops[..|ops| - 1]), ops[|ops| - 1]);
    }
  }

  /** Each resource ever acquired is held, or was released once, or was abandoned once, and no two of these. */
  lemma AccountedExactlyOnce(config: Config, injected: Option<nat>, ops: seq<Op>, id: nat)
    ensures var s := Run(New(config, injected), ops);
            multiset(Ids(s))[id] + multiset(s.released)[id] + multiset(s.abandoned)[id] == if id in s.acquired then 1 else 0
  {
    EveryRunKeeps(config, injected, ops);
    IdsAreHeld(Run(New(config, injected), ops), id);
  }

  /** The operation lets go of something it could not release. */
  predicate Abandons(s: Transport, op: Op) {
    && op.Close? && !(s.driver.Some? && s.ownsDriver && op.f.driverClose)
    && ((s.rust.Some? && op.f.rustClose) || (s.snapshot.Some? && op.f.cleanup))
  }

  /** No operation of the run does. */
  predicate NeverAbandons(s: Transport, ops: seq<Op>) {
    ops == [] || (NeverAbandons(s, ops[..|ops| - 1]) && !Abandons(Run(s, ops[..|ops| - 1]), ops[|ops| - 1]))
  }

  lemma OpensAbandonNothing(s: Transport, identity: Result<Identity, Problem>, f: Faults)
    ensures OpenRust(s, identity, f).0.abandoned == s.abandoned && OpenDriver(s, identity, f).0.abandoned == s.abandoned
  {
    assert Prepare(s, identity, f).0.abandoned == s.abandoned;
  }

  lemma NoneLost(s: Transport, f: Faults)
    ensures Lost(s, f) == [] <==> !((s.rust.Some? && f.rustClose) || (s.snapshot.Some? && f.cleanup))
  {
    var rust, snapshot := Slot(OnlyIf(BackendId(s.rust), f.rustClose)), Slot(OnlyIf(s.snapshot, f.cleanup));
    assert |rust + snapshot| == |rust| + |snapshot|;
  }

  lemma Appended(a: seq<nat>, b: seq<nat>)
    ensures a <= a + b && (a + b == a <==> b == [])
  {
    assert |a + b| == |a| + |b|;
  }

  lemma CloseAbandons(s: Transport, f: Faults)
    ensures s.abandoned <= CloseAll(s, f).0.abandoned
    ensures CloseAll(s, f).0.abandoned == s.abandoned <==> !Abandons(s, Close(f))
  {
    NoneLost(s, f);
    Appended(s.abandoned, Lost(s, f));
  }

  lemma AbandonsIs(s: Transport, op: Op)
    ensures s.abandoned <= Step(s, op).0.abandoned
    ensures Step(s, op).0.abandoned == s.abandoned <==> !Abandons(s, op)
  {
    match op
    case Configure(_) =>
    case Connect(f) => OpensAbandonNothing(s, CurrentIdentity(s.config), f);
    case UseRust(f) => OpensAbandonNothing(s, CurrentIdentity(s.config), f);
    case UseDriver(f) => OpensAbandonNothing(s, CurrentIdentity(s.config), f);
    case Close(f) => CloseAbandons(s, f);
  }

  /** Over a whole run every acquired resource is held or was released exactly once, if and only if no close of
      the run went through with a held Rust handle that failed to close or a snapshot that failed to be removed. */
  lemma ReleasedExactlyOnce(config: Config, injected: Option<nat>, ops: seq<Op>)
    ensures var s := Run(New(config, injected), ops);
            (forall id: nat :: id in s.acquired ==> multiset(Ids(s))[id] + multiset(s.released)[id] == 1)
            <==> NeverAbandons(New(config, injected), ops)
  {
    var s := Run(New(config, injected), ops);
    EveryRunKeeps(config, injected, ops);
    NothingAbandoned(config, injected, ops);
    forall id: nat ensures multiset(Ids(s))[id] == HeldCount(s, id) {
      IdsAreHeld(s, id);
    }
    if s.abandoned != [] {
      var lost := s.abandoned[0];
      assert multiset(s.abandoned)[lost] >= 1 && Occurrences(s, lost) <= 1;
      assert lost in s.acquired && multiset(Ids(s))[lost] + multiset(s.released)[lost] == 0;
    } else {
      forall id: nat | id in s.acquired ensures multiset(Ids(s))[id] + multiset(s.released)[id] == 1 {
        assert Occurrences(s, id) == 1 && multiset(s.abandoned)[id] == 0;
      }
    }
  }

  lemma {:induction false} NothingAbandoned(config: Config, injected: Option<nat>, ops: seq<Op>)
    ensures Run(New(config, injected), ops).abandoned == [] <==> NeverAbandons(New(config, injected), ops)
    decreases |ops|
  {
    if ops != [] {
      var front := ops[..|ops| - 1];
      NothingAbandoned(config, injected, front);
      AbandonsIs(Run(New(config, injected), front), ops[|ops| - 1]);
    }
  }

  /** The driver the caller handed in is never closed and never counted as a resource of this Database. */
  lemma InjectedDriverIsNeverClosed(config: Config, id: nat, ops: seq<Op>)
    ensures var s := Run(New(config, Some(id)), ops);
            id !in s.acquired && id !in s.released && id !in s.abandoned && Injected(id) !in s.driverCloses
  {
    EveryRunKeeps(config, Some(id), ops);
    InjectedIdIsReserved(config, id, ops);
    AccountedExactlyOnce(config, Some(id), ops, id);
  }

  lemma {:induction false} InjectedIdIsReserved(config: Config, id: nat, ops: seq<Op>)
    ensures var s := Run(New(config, Some(id)), ops);
            id < s.nextId && id !in s.acquired
    decreases |ops|
  {
    if ops != [] {
      InjectedIdIsReserved(config, id, ops[..|ops| - 1]);
      NewIdsAreFresh(Run(New(config, Some(id)), ops[..|ops| - 1]), ops[|ops| - 1]);
    }
  }

  ghost predicate OnlyFresh(s: Transport, t: Transport) {
    s.nextId <= t.nextId && forall id :: id in t.acquired && id !in s.acquired ==> s.nextId <= id
  }

  lemma NewIdsAreFresh(s: Transport, op: Op)
    ensures OnlyFresh(s, Step(s, op).0)
  {
    match op
    case Configure(_) =>
    case Connect(f) => OpensAreFresh(s, CurrentIdentity(s.config), f);
    case UseRust(f) => OpensAreFresh(s, CurrentIdentity(s.config), f);
    case UseDriver(f) => OpensAreFresh(s, CurrentIdentity(s.config), f);
    case Close(_) =>
  }

  lemma OpensAreFresh(s: Transport, identity: Result<Identity, Problem>, f: Faults)
    ensures OnlyFresh(s, OpenRust(s, identity, f).0) && OnlyFresh(s, OpenDriver(s, identity, f).0)
  {
    var (p, outcome) := Prepare(s, identity, f);
    assert OnlyFresh(s, p) && OnlyFresh(s, Acquire(p));
    DiscardAcquiresNothing(p, f, if outcome.Raised? then outcome.problem else OpenFailed);
  }

  lemma DiscardAcquiresNothing(s: Transport, f: Faults, why: Problem)
    ensures var d := Discard(s, f, why).0; d.acquired == s.acquired && d.nextId == s.nextId
  {
  }

  // ---------------------------------------------------------------------------------------
  // Failed opens and closes
  // ---------------------------------------------------------------------------------------

  /** A failed open takes no backend away, and keeps the snapshot that any held backend uses. */
  lemma FailedOpenSparesOthers(s: Transport, op: Op)
    requires Inv(s) && (op.Connect? || op.UseRust? || op.UseDriver?) && Step(s, op).1.Raised?
    ensures var t := Step(s, op).0;
            && Backends(t) == Backends(s) && t.driver == s.driver
            && forall b :: b in Backends(s) ==>
                 && t.prepared == s.prepared == Some(b.identity) && t.snapshot == s.snapshot == b.snapshot
                 && (b.snapshot.Some? ==> b.snapshot.value !in t.released)
  {
    FailedOpenFrame(s, CurrentIdentity(s.config), op.f);
    StepKeeps(s, op);
    var t := Step(s, op).0;
    forall b | b in Backends(s) && b.snapshot.Some? ensures b.snapshot.value !in t.released {
      assert Occurrences(t, b.snapshot.value) <= 1;
    }
  }

  ghost predicate Spares(s: Transport, t: Transport) {
    && t.driver == s.driver && t.rust == s.rust
    && (s.committed ==> t.prepared == s.prepared && t.snapshot == s.snapshot)
  }

  lemma FailedOpenFrame(s: Transport, identity: Result<Identity, Problem>, f: Faults)
    requires OneIdentity(s)
    ensures OpenRust(s, identity, f).1.Raised? ==> Spares(s, OpenRust(s, identity, f).0)
    ensures OpenDriver(s, identity, f).1.Raised? ==> Spares(s, OpenDriver(s, identity, f).0)
  {
    var p := Prepare(s, identity, f).0;
    assert s.committed ==> s.prepared.Some?;
    assert Spares(s, p) && p.committed == s.committed;
  }

  /**
   A failed first open leaves nothing behind exactly when it did not both capture a snapshot and
   then fail to clean it up.
   */
  lemma FailedFirstOpenLeavesNothing(s: Transport, op: Op)
    requires Inv(s) && s.prepared.None? && (op.Connect? || op.UseRust? || op.UseDriver?)
    requires Step(s, op).1.Raised?
    ensures var t := Step(s, op).0;
            var captured := Captures(CurrentIdentity(s.config), op.f);
            && (Ids(t) == Ids(s) && t.prepared.None? <==> !(captured && op.f.cleanup))
            && (captured && op.f.cleanup ==> t.snapshot == Some(s.nextId) && Step(s, op).1 == Raised(CleanupFailed))
  {
    FirstOpenFails(s, CurrentIdentity(s.config), op.f);
    SameHeld(s, Step(s, op).0);
  }

  predicate Captures(identity: Result<Identity, Problem>, f: Faults) {
    identity.Ok? && identity.value.rootCa.Some? && !f.capture
  }

  lemma SameHeld(s: Transport, t: Transport)
    requires s.driver == t.driver && s.rust == t.rust
    ensures Ids(s) == Ids(t) <==> s.snapshot == t.snapshot
  {
    var front := Slot(OpenedId(s.driver)) + Slot(BackendId(s.rust));
    assert Ids(s)[|front|..] == Slot(s.snapshot);
    assert Ids(t)[|front|..] == Slot(t.snapshot);
  }

  /** After a failed first open everything is as before, or the captured snapshot stays. */
  ghost predicate FirstOpenLeft(s: Transport, identity: Result<Identity, Problem>, f: Faults, t: Transport, outcome: Outcome) {
    && t.driver == s.driver && t.rust == s.rust
    && if Captures(identity, f) && f.cleanup then
         t.snapshot == Some(s.nextId) && t.prepared.Some? && outcome == Raised(CleanupFailed)
       else t.snapshot == None && t.prepared == None
  }

  lemma FirstOpenFails(s: Transport, identity: Result<Identity, Problem>, f: Faults)
    requires OneIdentity(s) && s.prepared.None?
    ensures OpenRust(s, identity, f).1.Raised? ==> FirstOpenLeft(s, identity, f, OpenRust(s, identity, f).0, OpenRust(s, identity, f).1)
    ensures OpenDriver(s, identity, f).1.Raised? ==> FirstOpenLeft(s, identity, f, OpenDriver(s, identity, f).0, OpenDriver(s, identity, f).1)
  {
    assert !s.committed && s.snapshot.None?;
  }

  /** The failing family is real: a root that loads, a server that refuses and a snapshot that cannot be removed. */
  lemma FailedOpenCanLeaveSnapshot()
    ensures var (s, outcome) := Step(New(LEAKY, None), UseRust(NO_FAULTS.(open := true, cleanup := true)));
            outcome == Raised(CleanupFailed) && s.snapshot == Some(0) && s.prepared.Some? && !s.committed
  {
    assert CurrentIdentity(LEAKY).Ok?;
  }

  /** Close is all or nothing: it changes nothing exactly when the owned driver's close raises, and otherwise
      nothing stays attached. Here, as in the source's handlers, what is raised is an Exception; a KeyboardInterrupt
      or another BaseException would leave the transport detached and unreleased. */
  lemma CloseIsAllOrNothing(s: Transport, f: Faults)
    requires Inv(s)
    ensures var (t, outcome) := CloseAll(s, f);
            && (outcome == Raised(DriverCloseFailed) <==> s.driver.Some? && s.driver.value.Opened? && f.driverClose)
            && (outcome == Raised(DriverCloseFailed) ==> t == s.(driverCloses := t.driverCloses))
            && (outcome != Raised(DriverCloseFailed) ==>
                  t.driver.None? && Backends(t) == {} && Ids(t) == [] && t.prepared.None? && !t.committed)
  {
  }

  /** Close really releases a held resource exactly when the driver's close, if it owns one, does not raise and
      neither does the resource's own release. */
  lemma CloseReleases(s: Transport, f: Faults, id: nat)
    requires OneIdentity(s) && Balanced(s) && HeldCount(s, id) > 0
    ensures multiset(CloseAll(s, f).0.released)[id] ==
            if && !(DriverOpened(s) && f.driverClose)
               && (BackendId(s.rust) == Some(id) ==> !f.rustClose)
               && (s.snapshot == Some(id) ==> !f.cleanup) then 1 else 0
  {
    assert Occurrences(s, id) <= 1;
    FreedIfHeld(s, f, id);
    ReleasedByClose(s, f, id);
  }

  lemma ReleasedByClose(s: Transport, f: Faults, id: nat)
    requires OneIdentity(s)
    ensures multiset(CloseAll(s, f).0.released)[id] ==
            multiset(s.released)[id] + if DriverOpened(s) && f.driverClose then 0 else multiset(Freed(s, f))[id]
  {
    Count2(s.released, Freed(s, f), id);
  }

  /** A resource held once is freed unless its own release fails. */
  lemma FreedIfHeld(s: Transport, f: Faults, id: nat)
    requires HeldCount(s, id) == 1
    ensures multiset(Freed(s, f))[id] ==
            if (BackendId(s.rust) == Some(id) && f.rustClose) || (s.snapshot == Some(id) && f.cleanup) then 0 else 1
  {
    FreedCount(s, f, id);
  }

  /** The failing family is real: closing with a snapshot that cannot be removed raises, forgets it and never
      tries again; a Rust handle that fails to close is forgotten without even raising. */
  lemma CloseCanAbandon()
    ensures var s := Run(New(LEAKY, None), [UseRust(NO_FAULTS)]);
            var (t, outcome) := Step(s, Close(NO_FAULTS.(cleanup := true)));
            var (u, masked) := Step(s, Close(NO_FAULTS.(rustClose := true)));
            && Ids(s) == [1, 0]
            && outcome == Raised(CleanupFailed) && t.released == [1] && t.abandoned == [0] && Ids(t) == []
            && Step(t, Close(NO_FAULTS)) == (t, Done)
            && masked == Done && u.released == [0] && u.abandoned == [1] && Ids(u) == []
  {
    LeakyOpens();
    var s := Run(New(LEAKY, None), [UseRust(NO_FAULTS)]);
    var f, g := NO_FAULTS.(cleanup := true), NO_FAULTS.(rustClose := true);
    assert Ids(s) == [] + [1] + [0];
    assert Freed(s, f) == [] + [1] + [] && Lost(s, f) == [] + [0];
    assert Freed(s, g) == [] + [] + [0] && Lost(s, g) == [1] + [];
    NothingToClose(Step(s, Close(f)).0);
  }

  lemma NothingToClose(t: Transport)
    requires t.driver.None? && t.rust.None? && t.snapshot.None? && t.prepared.None? && !t.committed
    ensures Step(t, Close(NO_FAULTS)) == (t, Done)
  {
    assert t.released + Freed(t, NO_FAULTS) == t.released && t.abandoned + Lost(t, NO_FAULTS) == t.abandoned;
  }

  lemma LeakyOpens()
    ensures var s := Run(New(LEAKY, None), [UseRust(NO_FAULTS)]);
            && s.rust.Some? && s.rust.value.id == 1 && s.snapshot == Some(0) && s.driver == None
            && s.released == [] && s.abandoned == []
  {
    var start := New(LEAKY, None);
    assert [UseRust(NO_FAULTS)][..0] == [];
    assert Run(start, [UseRust(NO_FAULTS)]) == Step(Run(start, []), UseRust(NO_FAULTS)).0;
    assert CurrentIdentity(LEAKY).Ok? && CurrentIdentity(LEAKY).value.rootCa.Some?;
  }

  const NO_FAULTS := Faults(false, false, false, false, false)
  const LEAKY := Config("db:1729", "d", None, None, 8000, None, Some(true), Some("/ca.pem"))

  /** A failed close can be retried: the retry does exactly what the first attempt would have done. */
  lemma CloseRetryCompletes(s: Transport, f: Faults, g: Faults)
    requires Inv(s) && CloseAll(s, f).1 == Raised(DriverCloseFailed) && !g.driverClose
    ensures var t := CloseAll(CloseAll(s, f).0, g);
            && t.0.released == CloseAll(s, g).0.released && t.0.abandoned == CloseAll(s, g).0.abandoned
            && t.1 == CloseAll(s, g).1 && t.0.driver.None? && Backends(t.0) == {}
  {
  }

  /** What close takes out of a Database. */
  datatype Attached = Attached(
    driver: Option<Driver>, rust: Option<Backend>, snapshot: Option<nat>, prepared: Option<Identity>, committed: bool)

  const NOTHING := Attached(None, None, None, None, false)

  function AttachedTo(s: Transport): Attached {
    Attached(s.driver, s.rust, s.snapshot, s.prepared, s.committed)
  }

  function With(s: Transport, was: Attached): Transport {
    s.(driver := was.driver, rust := was.rust, snapshot := was.snapshot, prepared := was.prepared, committed := was.committed)
  }

  lemma Regroup(a: seq<nat>, b: seq<nat>, c: seq<nat>)
    ensures a + b + c == a + (b + c)
  {
  }

  // ---------------------------------------------------------------------------------------
  // The object
  // ---------------------------------------------------------------------------------------

  class Database {
    var config: Config
    var driver: Option<Driver>
    var ownsDriver: bool
    var rust: Option<Backend>
    var snapshot: Option<nat>
    var prepared: Option<Identity>
    var committed: bool
    var nextId: nat
    ghost var acquired: set<nat>
    ghost var released: seq<nat>
    ghost var abandoned: seq<nat>
    ghost var driverCloses: seq<Driver>

    ghost function State(): Transport
      reads this
    {
      Transport(config, driver, ownsDriver, rust, snapshot, prepared, committed,
                nextId, acquired, released, abandoned, driverCloses)
    }

    constructor (config: Config, injected: Option<nat>)
      ensures State() == New(config, injected)
    {
      this.config := config;
      driver := if injected.Some? then Some(Injected(injected.value)) else None;
      ownsDriver := injected.None?;
      rust := None;
      snapshot := None;
      prepared := None;
      committed := false;
      nextId := if injected.Some? then injected.value + 1 else 0;
      acquired, released, abandoned, driverCloses := {}, [], [], [];
    }

    /** Creating a Database rejects contradictory TLS options before anything can connect. */
    static method Create(config: Config, injected: Option<nat>) returns (r: Result<Database, Problem>)
      ensures r.Ok? <==> !Contradictory(config)
      ensures r.Ok? ==> fresh(r.value) && r.value.State() == New(config, injected)
      ensures r.Err? ==> ResolveTransport(config.address, config.tls, config.rootCa) == Err(r.error)
    {
      var resolved := ResolveTransport(config.address, config.tls, config.rootCa);
      if resolved.Err? {
        return Err(resolved.error);
      }
      var database := new Database(config, injected);
      return Ok(database);
    }

    method Reconfigure(config: Config)
      modifies this
      ensures State() == Step(old(State()), Configure(config)).0
    {
      this.config := config;
    }

    method PreparedConnectionOptions(f: Faults) returns (outcome: Outcome)
      modifies this
      ensures (State(), outcome) == Prepare(old(State()), CurrentIdentity(old(config)), f)
    {
      var identity := CurrentIdentity(config);
      if identity.Err? {
        return Raised(identity.error);
      }
      if prepared.Some? {
        if identity.value != prepared.value {
          return Raised(SettingsChanged);
        }
        return Done;
      }
      if identity.value.rootCa.Some? {
        if f.capture {
          return Raised(CaptureFailed);
        }
        snapshot := Some(nextId);
        acquired := acquired + {nextId};
        nextId := nextId + 1;
      }
      prepared := Some(identity.value);
      return Done;
    }

    method DiscardUncommittedTransport(f: Faults, why: Problem) returns (outcome: Outcome)
      modifies this
      ensures (State(), outcome) == Discard(old(State()), f, why)
    {
      if committed {
        return Raised(why);
      }
      if snapshot.Some? {
        if f.cleanup {
          return Raised(CleanupFailed);
        }
        released := released + [snapshot.value];
      }
      snapshot := None;
      prepared := None;
      return Raised(why);
    }

    method RustDatabaseFor(f: Faults) returns (outcome: Outcome)
      modifies this
      ensures (State(), outcome) == OpenRust(old(State()), CurrentIdentity(old(config)), f)
    {
      if rust.Some? {
        return Done;
      }
      outcome := PreparedConnectionOptions(f);
      if outcome.Raised? {
        outcome := DiscardUncommittedTransport(f, outcome.problem);
        return;
      }
      if f.open {
        outcome := DiscardUncommittedTransport(f, OpenFailed);
        return;
      }
      rust := Some(Backend(nextId, prepared.value, snapshot));
      acquired := acquired + {nextId};
      nextId := nextId + 1;
      committed := true;
    }

    method ConnectPythonDriver(f: Faults) returns (outcome: Outcome)
      modifies this
      ensures (State(), outcome) == OpenDriver(old(State()), CurrentIdentity(old(config)), f)
    {
      if driver.Some? {
        return Done;
      }
      outcome := PreparedConnectionOptions(f);
      if outcome.Raised? {
        outcome := DiscardUncommittedTransport(f, outcome.problem);
        return;
      }
      if f.open {
        outcome := DiscardUncommittedTransport(f, OpenFailed);
        return;
      }
      driver := Some(Opened(Backend(nextId, prepared.value, snapshot)));
      acquired := acquired + {nextId};
      nextId := nextId + 1;
      ownsDriver := true;
      committed := true;
    }

    method ConnectDatabase(f: Faults) returns (outcome: Outcome)
      modifies this
      ensures (State(), outcome) == Step(old(State()), Connect(f))
    {
      if driver.Some? {
        return Done;
      }
      outcome := RustDatabaseFor(f);
    }

    /** Take everything out of the object, for close to release or put back. */
    method Detach() returns (was: Attached)
      modifies this
      ensures was == AttachedTo(old(State())) && State() == With(old(State()), NOTHING)
    {
      was := Attached(driver, rust, snapshot, prepared, committed);
      driver, rust, snapshot, prepared, committed := None, None, None, None, false;
    }

    method Reattach(was: Attached)
      modifies this
      ensures State() == With(old(State()), was)
    {
      driver, rust, snapshot, prepared, committed := was.driver, was.rust, was.snapshot, was.prepared, was.committed;
    }

    /** Close what was detached; a failing Rust close is logged and masked, a failing removal reported. */
    method ReleaseDetached(rust0: Option<Backend>, snapshot0: Option<nat>, f: Faults) returns (outcome: Outcome)
      modifies this
      ensures State() == old(State()).(released := old(released) + FreedRest(BackendId(rust0), snapshot0, f),
                                       abandoned := old(abandoned) + LostRest(BackendId(rust0), snapshot0, f))
      ensures outcome == if snapshot0.Some? && f.cleanup then Raised(CleanupFailed) else Done
    {
      outcome := Done;
      var rustId := BackendId(rust0);
      if rust0.Some? {
        LetGo(rustId, f.rustClose);
      }
      if snapshot0.Some? {
        LetGo(snapshot0, f.cleanup);
        if f.cleanup {
          outcome := Raised(CleanupFailed);
        }
      }
      Regroup(old(released), Slot(Unless(rustId, f.rustClose)), Slot(Unless(snapshot0, f.cleanup)));
      Regroup(old(abandoned), Slot(OnlyIf(rustId, f.rustClose)), Slot(OnlyIf(snapshot0, f.cleanup)));
    }

    /** Record one resource as released, or as abandoned when its release failed. */
    ghost method LetGo(id: Option<nat>, failed: bool)
      modifies `released, `abandoned
      ensures released == old(released) + Slot(Unless(id, failed)) && abandoned == old(abandoned) + Slot(OnlyIf(id, failed))
    {
      released := released + Slot(Unless(id, failed));
      abandoned := abandoned + Slot(OnlyIf(id, failed));
    }

    /** The caller's driver is only let go of; one opened here is closed. */
    method CloseDriver(driver0: Option<Driver>, f: Faults) returns (raised: bool)
      requires driver0.Some? ==> (ownsDriver <==> driver0.value.Opened?)
      modifies this
      ensures raised <==> driver0.Some? && old(ownsDriver) && f.driverClose
      ensures State() == old(State()).(
                driverCloses := if driver0.Some? && old(ownsDriver) then old(driverCloses) + [driver0.value] else old(driverCloses),
                released := if raised then old(released) else old(released) + Slot(OpenedId(driver0)))
    {
      if driver0.None? || !ownsDriver {
        return false;
      }
      driverCloses := driverCloses + [driver0.value];
      if f.driverClose {
        return true;
      }
      released := released + [driver0.value.backend.id];
      return false;
    }

    /** Detach, close the owned driver, and either put everything back or release the rest. */
    method CloseDatabase(f: Faults) returns (outcome: Outcome)
      requires OneIdentity(State())
      modifies this
      ensures (State(), outcome) == CloseAll(old(State()), f)
    {
      var was := Detach();
      var raised := CloseDriver(was.driver, f);
      if raised {
        Reattach(was);
        return Raised(DriverCloseFailed);
      }
      outcome := ReleaseDetached(was.rust, was.snapshot, f);
      Regroup(old(released), Slot(OpenedId(was.driver)), FreedRest(BackendId(was.rust), was.snapshot, f));
    }
  }
}
