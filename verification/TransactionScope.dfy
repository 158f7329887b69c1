/**
 The transaction context manager (type_bridge/session.py) over the native transaction it holds
 (type-bridge-core/crates/orm/src/session/context.rs): what a `with` block leaves in the database after
 any sequence of execute, batch, commit and rollback calls, some of which raise, and any exit.
 */
module TransactionScope {
  import opened Prelude

  type Statement = string

  datatype TxType = Read | Write | Schema

  predicate Writes(ty: TxType) {
    ty == Write || ty == Schema
  }

  /** The life of the native transaction, shared by everyone who holds it. */
  datatype Life = Active | RollbackOnly | Committed | DefinitelyAborted | OutcomeUnknown | RolledBack | Closed

  /** What becomes of a commit once it is dispatched; a failed one may have been durable all the same. */
  datatype CommitFate = Succeeds | ProvenAbort | Unknown(durable: bool)

  /** A batch completes, is refused before anything was dispatched, or breaks after a possible effect. */
  datatype BatchFate = Completes | Refused | Breaks

  /** One call inside the block, with what the provider does if the call reaches it. */
  datatype Call =
    | Execute(stmt: Statement, fails: bool)
    | Batch(stmts: seq<Statement>, batch: BatchFate)
    | Commit(fate: CommitFate)
    | Rollback(fails: bool)

  /** How the block ends, with what the provider does for the calls of the exit. */
  datatype Exit = Exit(clean: bool, fate: CommitFate, rollbackFails: bool, closeFails: bool)

  /**
   `database` is what is durable and `pending` what is staged. `finalized` and `handle` are the fields of
   the context manager, `life` and `batched` those of the native transaction. `closes` counts the native
   closes asked for, `releases` how often the provider's transaction was given up.
   */
  datatype Scope = Scope(
    ty: TxType, database: seq<Statement>, pending: seq<Statement>, life: Life, batched: bool,
    finalized: bool, handle: bool, closes: nat, releases: nat)

  function Enter(ty: TxType, database: seq<Statement>): Scope {
    Scope(ty, database, [], Active, false, false, true, 0, 0)
  }

  /** Provider work is possible. */
  predicate Usable(life: Life) {
    life == Active || life == RolledBack
  }

  /** The context still owns the provider's transaction. */
  predicate Owns(life: Life) {
    life == Active || life == RolledBack || life == RollbackOnly
  }

  predicate Durable(fate: CommitFate) {
    fate == Succeeds || fate == Unknown(true)
  }

  // ---------------------------------------------------------------------------------------
  // The native transaction: each call as a new state and whether it raised
  // ---------------------------------------------------------------------------------------

  function NativeExecute(s: Scope, stmt: Statement, fails: bool): (Scope, bool) {
    if !Usable(s.life) then (s, true)
    else if fails then (s.(life := Active), true)
    else (s.(life := Active, pending := s.pending + [stmt]), false)
  }

  function NativeBatch(s: Scope, stmts: seq<Statement>, fate: BatchFate): (Scope, bool) {
    if s.ty != Write || !Usable(s.life) then (s, true)
    else
      var t := s.(life := Active);
      match fate
      case Completes => (t.(pending := s.pending + stmts, batched := true), false)
      case Refused => (t, true)
      case Breaks => (t.(pending := s.pending + stmts, batched := true, life := RollbackOnly), true)
  }

  /** Commit dispatches once: whatever comes of it, the provider's transaction is gone. */
  function NativeCommit(s: Scope, fate: CommitFate): (Scope, bool) {
    if !Usable(s.life) then (s, true)
    else
      var life :=
        if fate == Succeeds then Committed
        else if fate == ProvenAbort && s.batched then DefinitelyAborted
        else OutcomeUnknown;
      var database := if Durable(fate) then s.database + s.pending else s.database;
      (s.(life := life, database := database, pending := [], releases := s.releases + 1), fate != Succeeds)
  }

  /** A failed rollback gives the provider's transaction up. */
  function NativeRollback(s: Scope, fails: bool): (Scope, bool) {
    if s.life == RolledBack then (s, false)
    else if !Owns(s.life) then (s, true)
    else if fails then (s.(life := Closed, pending := [], releases := s.releases + 1), true)
    else (s.(life := RolledBack, pending := []), false)
  }

  function NativeClose(s: Scope, fails: bool): (Scope, bool) {
    var called := s.(closes := s.closes + 1);
    if !Owns(s.life) then (called, false)
    else (called.(life := Closed, pending := [], releases := s.releases + 1), fails)
  }

  // ---------------------------------------------------------------------------------------
  // The context manager
  // ---------------------------------------------------------------------------------------

  function Apply(s: Scope, call: Call): (Scope, bool) {
    match call
    case Execute(stmt, fails) => NativeExecute(s, stmt, fails)
    case Batch(stmts, batch) => NativeBatch(s, stmts, batch)
    case Commit(fate) => var (t, raised) := NativeCommit(s, fate); (if raised then t else t.(finalized := true), raised)
    case Rollback(fails) => var (t, raised) := NativeRollback(s, fails); (if raised then t else t.(finalized := false), raised)
  }

  function Body(s: Scope, calls: seq<Call>): Scope {
    if calls == [] then s else Apply(Body(s, calls[..|calls| - 1]), calls[|calls| - 1]).0
  }

  /** The exit's commit or rollback, if it makes one, and whether it raised. */
  function Finish(s: Scope, exit: Exit): (Scope, bool) {
    if s.finalized || !Writes(s.ty) then (s, false)
    else
      var (t, raised) := if exit.clean then NativeCommit(s, exit.fate) else NativeRollback(s, exit.rollbackFails);
      (if raised then t else t.(finalized := true), raised)
  }

  /** Leaving the block: close runs whatever `Finish` did, and drops the handle unless it raises. */
  function Leave(s: Scope, exit: Exit): (Scope, bool) {
    var (t, raised) := Finish(s, exit);
    var (u, closeRaised) := NativeClose(t, exit.closeFails);
    (if closeRaised then u else u.(handle := false), raised || closeRaised)
  }

  // ---------------------------------------------------------------------------------------
  // What the caller sees, and what should follow from it
  // ---------------------------------------------------------------------------------------

  /** Call `i` of the block returned normally. */
  predicate Returned(start: Scope, calls: seq<Call>, i: nat)
    requires i < |calls|
  {
    !Apply(Body(start, calls[..i]), calls[i]).1
  }

  /** The statements a call stages when it returns. */
  function Staged(call: Call): seq<Statement> {
    match call
    case Execute(stmt, _) => [stmt]
    case Batch(stmts, _) => stmts
    case _ => []
  }

  /** No rollback among the calls from `i` up to `n` returned. */
  predicate NotRolledBack(start: Scope, calls: seq<Call>, i: nat, n: nat)
    requires i <= n <= |calls|
  {
    forall j :: i <= j < n && calls[j].Rollback? ==> !Returned(start, calls, j)
  }

  /** The statements of the first `m` calls that returned and were not rolled back before `n`, in order. */
  function Kept(start: Scope, calls: seq<Call>, m: nat, n: nat): seq<Statement>
    requires m <= n <= |calls|
  {
    if m == 0 then []
    else
      Kept(start, calls, m - 1, n)
      + (if Returned(start, calls, m - 1) && NotRolledBack(start, calls, m, n) then Staged(calls[m - 1]) else [])
  }

  /** How many of the first `n` calls there are up to the last commit that returned. */
  function LastCommit(start: Scope, calls: seq<Call>, n: nat): (p: nat)
    requires n <= |calls|
    ensures p <= n
  {
    if n == 0 then 0
    else if calls[n - 1].Commit? && Returned(start, calls, n - 1) then n
    else LastCommit(start, calls, n - 1)
  }

  /** What was explicitly committed. */
  function Explicit(start: Scope, calls: seq<Call>): seq<Statement> {
    var p := LastCommit(start, calls, |calls|);
    Kept(start, calls, p, p)
  }

  /** The one commit that reached the provider, if any. */
  function Dispatched(start: Scope, calls: seq<Call>, n: nat): (p: Option<nat>)
    requires n <= |calls|
    ensures p.Some? ==> p.value < n && calls[p.value].Commit?
  {
    if n == 0 then None
    else
      var before := Dispatched(start, calls, n - 1);
      if before.Some? then before
      else if calls[n - 1].Commit? && Usable(Body(start, calls[..n - 1]).life) then Some(n - 1)
      else None
  }

  // ---------------------------------------------------------------------------------------
  // The block body
  // ---------------------------------------------------------------------------------------

  lemma BodyStep(start: Scope, calls: seq<Call>, n: nat)
    requires n < |calls|
    ensures Body(start, calls[..n + 1]) == Apply(Body(start, calls[..n]), calls[n]).0
  {
    assert calls[..n + 1][..n] == calls[..n];
  }

  lemma NotRolledBackStep(start: Scope, calls: seq<Call>, i: nat, n: nat)
    requires i <= n < |calls|
    ensures NotRolledBack(start, calls, i, n + 1) <==>
            NotRolledBack(start, calls, i, n) && !(calls[n].Rollback? && Returned(start, calls, n))
  {
  }

  /** A call that is no returning rollback changes no earlier fate. */
  lemma {:induction false} KeptExtends(start: Scope, calls: seq<Call>, m: nat, n: nat)
    requires m <= n < |calls| && !(calls[n].Rollback? && Returned(start, calls, n))
    ensures Kept(start, calls, m, n + 1) == Kept(start, calls, m, n)
  {
    if m > 0 {
      KeptExtends(start, calls, m - 1, n);
      NotRolledBackStep(start, calls, m, n);
    }
  }

  /** A returning rollback leaves nothing. */
  lemma {:induction false} KeptErased(start: Scope, calls: seq<Call>, m: nat, n: nat)
    requires m <= n < |calls| && calls[n].Rollback? && Returned(start, calls, n)
    ensures Kept(start, calls, m, n + 1) == []
  {
    if m > 0 {
      KeptErased(start, calls, m - 1, n);
      NotRolledBackStep(start, calls, m, n);
    }
  }

  /** What one more call does to the statements kept. */
  lemma KeptStep(start: Scope, calls: seq<Call>, n: nat)
    requires n < |calls|
    ensures Kept(start, calls, n + 1, n + 1) ==
            if !Returned(start, calls, n) then Kept(start, calls, n, n)
            else if calls[n].Rollback? then []
            else Kept(start, calls, n, n) + Staged(calls[n])
  {
    assert NotRolledBack(start, calls, n + 1, n + 1);
    if calls[n].Rollback? && Returned(start, calls, n) {
      KeptErased(start, calls, n, n);
    } else {
      KeptExtends(start, calls, n, n);
    }
  }

  /** The state after some calls, with the statements kept, the calls up to the last commit that returned, and
      the commit that reached the provider. */
  datatype View = View(s: Scope, kept: seq<Statement>, last: nat, dispatched: Option<nat>)

  function ViewAt(start: Scope, calls: seq<Call>, n: nat): View
    requires n <= |calls|
  {
    View(Body(start, calls[..n]), Kept(start, calls, n, n), LastCommit(start, calls, n), Dispatched(start, calls, n))
  }

  /** What call number `n` makes of it. */
  function Next(v: View, call: Call, n: nat): View {
    var (t, raised) := Apply(v.s, call);
    View(t,
         if raised then v.kept else if call.Rollback? then [] else v.kept + Staged(call),
         if call.Commit? && !raised then n + 1 else v.last,
         if v.dispatched.None? && call.Commit? && Usable(v.s.life) then Some(n) else v.dispatched)
  }

  lemma ViewStep(start: Scope, calls: seq<Call>, n: nat)
    requires n < |calls|
    ensures ViewAt(start, calls, n + 1) == Next(ViewAt(start, calls, n), calls[n], n)
  {
    BodyStep(start, calls, n);
    KeptStep(start, calls, n);
  }

  /** The flags and counters that hold at every point of a block. */
  predicate Flags(s: Scope, ty: TxType) {
    && s.ty == ty && s.handle && s.closes == 0
    && s.releases == (if Owns(s.life) then 0 else 1)
    && (!Owns(s.life) ==> s.pending == [])
    && (s.finalized <==> s.life == Committed)
  }

  /** Where a transaction stands that has not been committed. */
  predicate Open(v: View, database: seq<Statement>) {
    && (Owns(v.s.life) || v.s.life == Closed) && v.s.database == database
    && (Usable(v.s.life) ==> v.s.pending == v.kept)
    && (v.s.life == RolledBack ==> v.s.pending == [])
    && v.last == 0
  }

  /** Where one stands that was committed at `p` with `staged` pending: nothing changes any more. */
  predicate Decided(v: View, database: seq<Statement>, fate: CommitFate, staged: seq<Statement>, p: nat) {
    && !Owns(v.s.life) && v.s.life != Closed && (v.s.life == Committed <==> fate == Succeeds)
    && v.s.database == database + (if Durable(fate) then staged else [])
    && v.kept == staged
    && v.last == (if fate == Succeeds then p + 1 else 0)
  }

  ghost predicate Inv(start: Scope, calls: seq<Call>, v: View) {
    && Flags(v.s, start.ty)
    && (v.dispatched.None? ==> Open(v, start.database))
    && (v.dispatched.Some? ==>
          var p := v.dispatched.value;
          && p < |calls| && calls[p].Commit?
          && Decided(v, start.database, calls[p].fate, Kept(start, calls, p, p), p)
          && Kept(start, calls, p + 1, p + 1) == Kept(start, calls, p, p))
  }

  ghost predicate BodyInv(start: Scope, calls: seq<Call>, n: nat)
    requires n <= |calls|
  {
    Inv(start, calls, ViewAt(start, calls, n))
  }

  lemma FlagsStep(v: View, call: Call, n: nat, ty: TxType)
    requires Flags(v.s, ty) && (v.s.life == Committed ==> v.dispatched.Some?)
    ensures Flags(Next(v, call, n).s, ty)
  {
  }

  /** A call that is not the first commit to reach the provider. */
  lemma OpenStep(v: View, call: Call, n: nat, database: seq<Statement>)
    requires Flags(v.s, v.s.ty) && v.dispatched.None? && Open(v, database) && Next(v, call, n).dispatched.None?
    ensures Open(Next(v, call, n), database)
  {
  }

  lemma CommitStep(v: View, call: Call, n: nat, database: seq<Statement>)
    requires Flags(v.s, v.s.ty) && v.dispatched.None? && Open(v, database) && Next(v, call, n).dispatched.Some?
    ensures call.Commit? && Next(v, call, n).dispatched == Some(n)
    ensures Decided(Next(v, call, n), database, call.fate, v.kept, n)
  {
    assert v.kept + [] == v.kept && database + [] == database;
  }

  /** Once the provider's transaction is gone, every call raises and changes nothing. */
  lemma Refuses(v: View, call: Call, n: nat)
    requires !Owns(v.s.life)
    ensures Apply(v.s, call) == (v.s, true)
    ensures v.dispatched.Some? ==> Next(v, call, n) == v
  {
  }

  /** The invariant of every block body. */
  lemma {:induction false} BodyKeeps(ty: TxType, database: seq<Statement>, calls: seq<Call>, n: nat)
    requires n <= |calls|
    ensures BodyInv(Enter(ty, database), calls, n)
  {
    if n == 0 {
      assert calls[..0] == [];
    } else {
      BodyKeeps(ty, database, calls, n - 1);
      var start := Enter(ty, database);
      ViewStep(start, calls, n - 1);
      InvStep(start, calls, n - 1, ViewAt(start, calls, n - 1), ViewAt(start, calls, n));
    }
  }

  lemma InvStep(start: Scope, calls: seq<Call>, n: nat, v: View, w: View)
    requires n < |calls| && Inv(start, calls, v) && w == Next(v, calls[n], n)
    requires v.kept == Kept(start, calls, n, n) && w.kept == Kept(start, calls, n + 1, n + 1)
    ensures Inv(start, calls, w)
  {
    FlagsStep(v, calls[n], n, start.ty);
    if v.dispatched.Some? {
      Refuses(v, calls[n], n);
    } else if w.dispatched.Some? {
      CommitStep(v, calls[n], n, start.database);
    } else {
      OpenStep(v, calls[n], n, start.database);
    }
  }

  lemma FlagsKeep(ty: TxType, database: seq<Statement>, calls: seq<Call>)
    ensures Flags(Body(Enter(ty, database), calls), ty)
  {
    BodyKeeps(ty, database, calls, |calls|);
    assert calls[..|calls|] == calls;
  }

  ghost predicate SomeCommitReturned(start: Scope, calls: seq<Call>, n: nat)
    requires n <= |calls|
  {
    exists k :: CommitReturned(start, calls, n, k)
  }

  ghost predicate CommitReturned(start: Scope, calls: seq<Call>, n: nat, k: int)
    requires n <= |calls|
  {
    0 <= k < n && calls[k].Commit? && Returned(start, calls, k)
  }

  lemma {:induction false} LastCommitReturned(start: Scope, calls: seq<Call>, n: nat)
    requires n <= |calls| && LastCommit(start, calls, n) > 0
    ensures CommitReturned(start, calls, n, LastCommit(start, calls, n) - 1)
  {
    if LastCommit(start, calls, n) != n {
      LastCommitReturned(start, calls, n - 1);
    }
  }

  lemma {:induction false} NoneAfterLast(start: Scope, calls: seq<Call>, n: nat, k: int)
    requires n <= |calls| && CommitReturned(start, calls, n, k)
    ensures k < LastCommit(start, calls, n)
  {
    if k < n - 1 {
      NoneAfterLast(start, calls, n - 1, k);
    }
  }

  lemma LastCommitIs(start: Scope, calls: seq<Call>)
    ensures LastCommit(start, calls, |calls|) > 0 <==> SomeCommitReturned(start, calls, |calls|)
  {
    if LastCommit(start, calls, |calls|) > 0 {
      LastCommitReturned(start, calls, |calls|);
    }
    if k :| CommitReturned(start, calls, |calls|, k) {
      NoneAfterLast(start, calls, |calls|, k);
    }
  }

  /** The view reports closed exactly when some commit has returned. */
  lemma FinalizedIs(ty: TxType, database: seq<Statement>, calls: seq<Call>)
    ensures Body(Enter(ty, database), calls).finalized <==> SomeCommitReturned(Enter(ty, database), calls, |calls|)
  {
    BodyKeeps(ty, database, calls, |calls|);
    assert calls[..|calls|] == calls;
    LastCommitIs(Enter(ty, database), calls);
  }

  /** After a commit has reached the provider, whatever came of it, every call raises and changes nothing. */
  lemma ConsumedRefuses(ty: TxType, database: seq<Statement>, calls: seq<Call>, call: Call)
    requires Dispatched(Enter(ty, database), calls, |calls|).Some?
    ensures var s := Body(Enter(ty, database), calls); Apply(s, call) == (s, true)
  {
    BodyKeeps(ty, database, calls, |calls|);
    assert calls[..|calls|] == calls;
  }

  // ---------------------------------------------------------------------------------------
  // Whole blocks
  // ---------------------------------------------------------------------------------------

  function Block(ty: TxType, database: seq<Statement>, calls: seq<Call>, exit: Exit): (Scope, bool) {
    Leave(Body(Enter(ty, database), calls), exit)
  }

  /** Everything the block's statements that were not rolled back add up to. */
  function AllKept(ty: TxType, database: seq<Statement>, calls: seq<Call>): seq<Statement> {
    Kept(Enter(ty, database), calls, |calls|, |calls|)
  }

  /** The fate of the commit the block made or its exit makes, if one reached the provider. */
  function FinalCommit(ty: TxType, database: seq<Statement>, calls: seq<Call>, exit: Exit): Option<CommitFate> {
    var start := Enter(ty, database);
    var p := Dispatched(start, calls, |calls|);
    if p.Some? then Some(calls[p.value].fate)
    else if exit.clean && Writes(ty) && Usable(Body(start, calls).life) then Some(exit.fate)
    else None
  }

  /** What leaving adds before a commit has reached the provider. */
  lemma OpenLeaves(v: View, ty: TxType, database: seq<Statement>, exit: Exit)
    requires Flags(v.s, ty) && Open(v, database)
    ensures Leave(v.s, exit).0.database ==
            database + (if exit.clean && Writes(ty) && Usable(v.s.life) && Durable(exit.fate) then v.kept else [])
  {
    assert database + [] == database;
  }

  lemma DecidedLeaves(s: Scope, exit: Exit)
    requires !Owns(s.life)
    ensures Leave(s, exit).0.database == s.database
  {
  }

  /** What any block leaves: all statements not rolled back if the one commit that reached the provider took
      effect, known or not, and otherwise nothing. */
  lemma BlockLeaves(ty: TxType, database: seq<Statement>, calls: seq<Call>, exit: Exit)
    ensures var fate := FinalCommit(ty, database, calls, exit);
            Block(ty, database, calls, exit).0.database ==
            database + (if fate.Some? && Durable(fate.value) then AllKept(ty, database, calls) else [])
  {
    BodyKeeps(ty, database, calls, |calls|);
    assert calls[..|calls|] == calls;
    var v := ViewAt(Enter(ty, database), calls, |calls|);
    if v.dispatched.None? {
      OpenLeaves(v, ty, database, exit);
    } else {
      DecidedLeaves(v.s, exit);
    }
  }

  lemma AppendsNothing(a: seq<Statement>, b: seq<Statement>)
    ensures a + b == a + [] <==> b == []
  {
    assert |a + b| == |a| + |b|;
  }

  /** A clean write or schema exit that does not raise keeps exactly the statements not rolled back. */
  lemma CleanExit(ty: TxType, database: seq<Statement>, calls: seq<Call>, exit: Exit)
    requires exit.clean && Writes(ty) && !Block(ty, database, calls, exit).1
    ensures Block(ty, database, calls, exit).0.database == database + AllKept(ty, database, calls)
  {
    BlockLeaves(ty, database, calls, exit);
    BodyKeeps(ty, database, calls, |calls|);
    assert calls[..|calls|] == calls;
  }

  /** One whose commit raises leaves them or nothing, and leaves them exactly when a failed commit was durable
      all the same; a transaction that could only be rolled back leaves nothing. */
  lemma RaisingCleanExit(ty: TxType, database: seq<Statement>, calls: seq<Call>, exit: Exit)
    requires exit.clean && Writes(ty) && Finish(Body(Enter(ty, database), calls), exit).1
    ensures var left := Block(ty, database, calls, exit).0.database;
            && (left == database + AllKept(ty, database, calls) || left == database)
            && (left == database <==>
                AllKept(ty, database, calls) == [] || FinalCommit(ty, database, calls, exit) != Some(Unknown(true)))
  {
    BlockLeaves(ty, database, calls, exit);
    BodyKeeps(ty, database, calls, |calls|);
    assert calls[..|calls|] == calls;
    AppendsNothing(database, AllKept(ty, database, calls));
    assert database + [] == database;
  }

  /** What was explicitly committed, by the commit that reached the provider. */
  lemma ExplicitIs(ty: TxType, database: seq<Statement>, calls: seq<Call>)
    ensures var start := Enter(ty, database);
            var p := Dispatched(start, calls, |calls|);
            Explicit(start, calls) ==
            if p.Some? && calls[p.value].fate == Succeeds then Kept(start, calls, p.value, p.value) else []
  {
    BodyKeeps(ty, database, calls, |calls|);
    KeptByLast(Enter(ty, database), calls, ViewAt(Enter(ty, database), calls, |calls|));
  }

  lemma KeptByLast(start: Scope, calls: seq<Call>, v: View)
    requires Inv(start, calls, v)
    ensures v.last <= |calls|
    ensures Kept(start, calls, v.last, v.last) ==
            if v.dispatched.Some? && calls[v.dispatched.value].fate == Succeeds
            then Kept(start, calls, v.dispatched.value, v.dispatched.value) else []
  {
    assert Kept(start, calls, 0, 0) == [];
  }

  /** What an exceptional exit leaves. */
  lemma ExceptionLeaves(ty: TxType, database: seq<Statement>, calls: seq<Call>, exit: Exit)
    requires !exit.clean
    ensures var start := Enter(ty, database);
            var p := Dispatched(start, calls, |calls|);
            Block(ty, database, calls, exit).0.database == database +
            if p.Some? && Durable(calls[p.value].fate) then Kept(start, calls, p.value, p.value) else []
  {
    BlockLeaves(ty, database, calls, exit);
    BodyKeeps(ty, database, calls, |calls|);
  }

  /** An exceptional exit leaves the database at the last explicit commit if and only if no commit whose
      outcome is unknown made staged statements durable; in particular when none ended unknown. */
  lemma ExceptionalExit(ty: TxType, database: seq<Statement>, calls: seq<Call>, exit: Exit)
    requires !exit.clean
    ensures var start := Enter(ty, database);
            var p := Dispatched(start, calls, |calls|);
            Block(ty, database, calls, exit).0.database == database + Explicit(start, calls) <==>
            !(p.Some? && calls[p.value].fate == Unknown(true) && Kept(start, calls, p.value, p.value) != [])
  {
    var start := Enter(ty, database);
    ExceptionLeaves(ty, database, calls, exit);
    ExplicitIs(ty, database, calls);
    var p := Dispatched(start, calls, |calls|);
    if p.Some? {
      AppendsNothing(database, Kept(start, calls, p.value, p.value));
    }
  }

  /** The failing family is real: a commit that raises after the server has committed. */
  lemma UnknownCommitCanBeDurable()
    ensures var calls := [Execute("a", false), Commit(Unknown(true))];
            var exit := Exit(false, Succeeds, false, false);
            && Block(Write, [], calls, exit).0.database == ["a"]
            && Explicit(Enter(Write, []), calls) == []
  {
    var calls := [Execute("a", false), Commit(Unknown(true))];
    var start := Enter(Write, []);
    assert calls[..1] == [Execute("a", false)] && calls[..1][..0] == [];
    assert Body(start, calls[..1]).pending == ["a"];
    assert !Returned(start, calls, 0 + 1);
    assert LastCommit(start, calls, 1) == 0;
  }

  /** However the block ends, the handle is asked to close exactly once and kept only if that raises, and the
      provider's transaction is given up exactly once. */
  lemma ExitReleasesOnce(ty: TxType, database: seq<Statement>, calls: seq<Call>, exit: Exit)
    ensures var s := Body(Enter(ty, database), calls);
            var t := Block(ty, database, calls, exit).0;
            && t.closes == 1 && t.releases == 1 && !Owns(t.life) && t.pending == []
            && (t.handle <==> exit.closeFails && Owns(Finish(s, exit).0.life))
  {
    FlagsKeep(ty, database, calls);
    LeaveReleases(Body(Enter(ty, database), calls), ty, exit);
  }

  lemma LeaveReleases(s: Scope, ty: TxType, exit: Exit)
    requires Flags(s, ty)
    ensures var t := Leave(s, exit).0;
            && t.closes == 1 && t.releases == 1 && !Owns(t.life) && t.pending == []
            && (t.handle <==> exit.closeFails && Owns(Finish(s, exit).0.life))
  {
  }

  /** A read block commits nothing and rolls nothing back on its own. */
  lemma ReadExitIsSilent(database: seq<Statement>, calls: seq<Call>, exit: Exit)
    ensures var s := Body(Enter(Read, database), calls);
            Finish(s, exit) == (s, false) && Block(Read, database, calls, exit).0.database == s.database
  {
    FlagsKeep(Read, database, calls);
  }

  // ---------------------------------------------------------------------------------------
  // The objects
  // ---------------------------------------------------------------------------------------

  /** The native transaction, with the database behind it. */
  class RustTransaction {
    const ty: TxType
    var database: seq<Statement>
    var pending: seq<Statement>
    var life: Life
    var batched: bool
    var closes: nat
    var releases: nat

    /** As seen through a context manager with these fields. */
    ghost function State(finalized: bool, handle: bool): Scope
      reads this
    {
      Scope(ty, database, pending, life, batched, finalized, handle, closes, releases)
    }

    constructor (ty: TxType, database: seq<Statement>)
      ensures State(false, true) == Enter(ty, database)
    {
      this.ty := ty;
      this.database := database;
      pending, life, batched := [], Active, false;
      closes, releases := 0, 0;
    }

    method Execute(stmt: Statement, fails: bool) returns (raised: bool)
      modifies this
      ensures forall f, h :: (State(f, h), raised) == NativeExecute(old(State(f, h)), stmt, fails)
    {
      if life == RolledBack { life := Active; }
      if life != Active { return true; }
      if fails { return true; }
      pending := pending + [stmt];
      return false;
    }

    method Batch(stmts: seq<Statement>, fate: BatchFate) returns (raised: bool)
      modifies this
      ensures forall f, h :: (State(f, h), raised) == NativeBatch(old(State(f, h)), stmts, fate)
    {
      if ty != Write { return true; }
      if life == RolledBack { life := Active; }
      if life != Active { return true; }
      if fate == Refused { return true; }
      pending := pending + stmts;
      batched := true;
      if fate == Breaks {
        life := RollbackOnly;
        return true;
      }
      return false;
    }

    method Commit(fate: CommitFate) returns (raised: bool)
      modifies this
      ensures forall f, h :: (State(f, h), raised) == NativeCommit(old(State(f, h)), fate)
    {
      if life != Active && life != RolledBack { return true; }
      life := OutcomeUnknown;
      releases := releases + 1;
      if Durable(fate) { database := database + pending; }
      pending := [];
      if fate == Succeeds {
        life := Committed;
      } else if fate == ProvenAbort && batched {
        life := DefinitelyAborted;
      }
      return fate != Succeeds;
    }

    method Rollback(fails: bool) returns (raised: bool)
      modifies this
      ensures forall f, h :: (State(f, h), raised) == NativeRollback(old(State(f, h)), fails)
    {
      if life == RolledBack { return false; }
      if life != Active && life != RollbackOnly { return true; }
      life := Closed;
      pending := [];
      if fails {
        releases := releases + 1;
        return true;
      }
      life := RolledBack;
      return false;
    }

    method Close(fails: bool) returns (raised: bool)
      modifies this
      ensures forall f, h :: (State(f, h), raised) == NativeClose(old(State(f, h)), fails)
    {
      closes := closes + 1;
      if life != Active && life != RollbackOnly && life != RolledBack { return false; }
      life := Closed;
      pending := [];
      releases := releases + 1;
      return fails;
    }
  }

  class TransactionContext {
    const ty: TxType
    const tx: RustTransaction
    var handle: bool
    var finalized: bool

    ghost predicate Valid()
      reads this, tx
    {
      handle && ty == tx.ty
    }

    ghost function State(): Scope
      reads this, tx
    {
      tx.State(finalized, handle)
    }

    constructor (ty: TxType, database: seq<Statement>)
      ensures Valid() && fresh(tx) && State() == Enter(ty, database)
    {
      this.ty := ty;
      var t := new RustTransaction(ty, database);
      tx := t;
      handle := true;
      finalized := false;
    }

    method ExecuteStatement(stmt: Statement, fails: bool) returns (raised: bool)
      requires Valid()
      modifies tx
      ensures Valid() && (State(), raised) == Apply(old(State()), Execute(stmt, fails))
    {
      raised := tx.Execute(stmt, fails);
    }

    method RunBatch(stmts: seq<Statement>, fate: BatchFate) returns (raised: bool)
      requires Valid()
      modifies tx
      ensures Valid() && (State(), raised) == Apply(old(State()), Batch(stmts, fate))
    {
      raised := tx.Batch(stmts, fate);
    }

    method CommitNow(fate: CommitFate) returns (raised: bool)
      requires Valid()
      modifies this, tx
      ensures Valid() && (State(), raised) == Apply(old(State()), Commit(fate))
    {
      raised := tx.Commit(fate);
      if raised { return; }
      finalized := true;
    }

    method RollbackNow(fails: bool) returns (raised: bool)
      requires Valid()
      modifies this, tx
      ensures Valid() && (State(), raised) == Apply(old(State()), Rollback(fails))
    {
      raised := tx.Rollback(fails);
      if raised { return; }
      finalized := false;
    }

    method FinishBlock(exit: Exit) returns (raised: bool)
      requires Valid()
      modifies this, tx
      ensures Valid() && (State(), raised) == Finish(old(State()), exit)
    {
      raised := false;
      if finalized { return; }
      if exit.clean {
        if ty == Write || ty == Schema {
          raised := tx.Commit(exit.fate);
          if !raised { finalized := true; }
        }
      } else if ty == Write || ty == Schema {
        raised := tx.Rollback(exit.rollbackFails);
        if !raised { finalized := true; }
      }
    }

    method ExitBlock(exit: Exit) returns (raised: bool)
      requires Valid()
      modifies this, tx
      ensures (State(), raised) == Leave(old(State()), exit)
    {
      raised := FinishBlock(exit);
      // The finally clause runs whether or not the calls above raised.
      var closeRaised := tx.Close(exit.closeFails);
      if closeRaised { return true; }
      handle := false;
    }
  }
}
