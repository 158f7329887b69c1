# type-bridge: protocols, stores and parsers, in Dafny

A Dafny model of the parts of type-bridge whose correctness is not visible in any one function: the
protocols that publish releases, the life of a database connection and of a transaction, the licence
notice and its SPDX expressions, the benchmark history, and the smaller graph and text algorithms of the
release tooling. `dafny verify dfyconfig.toml` checks everything.

Code that works step by step is modelled step by step: classes with the source's fields (`Database`,
`RustTransaction`, `TransactionContext`, `SpdxParser`, `DataDir`, `Workspace`, `Draft`) and methods with the source's loops,
each proved equal to a specification function of its inputs or of the old state. The properties are then
lemmas about those functions, for all inputs, all runs and all faults. A raised exception is an `Err`, a
`None` or a `Raised` outcome.

- **Cargo publication** (`CargoPublisher`, `CargoPublisherSafety`, `CargoRegistryTimeline`,
  `CargoPublisherProgress`, `CargoPublisherSolo`). A run is a trace of readings, pauses, rereads and PUTs; the registry is an
  arbitrary function from trace positions to answers, so every registry behaviour and every interleaving
  with others is covered. The agreement results put several runs on one timeline of a write-once registry
  whose two authorities lag behind it independently; the progress results let readings lag, PUTs be throttled and
  others publish the same bytes.
- **Connection and transaction** (`Transport`, `TransactionScope`). The connection is a state machine over
  attribute changes, the two ways of opening a backend, and close, with a fault record for each call. Every
  acquired resource has a number, so "released exactly once" is a count, and a resource that was detached but
  whose release raised is counted as abandoned. A transaction has the life of the native handle behind the
  Python context manager; a block is any list of calls, each with the fate its environment chooses, followed
  by any exit. A commit that raises may have taken effect on the server.
- **Promotion of a C release** (`Promotion`). A run may be killed after any number of its actions, and others
  may change the release meanwhile, in `Ran` and in histories all but the selected names. Each run has an
  output directory of its own: its files are created exclusively (scripts/ci/promote_c_release.py:65-81), so a
  run that is given a used directory fails before it touches the release.
- **Dependency notice** (`Spdx`, `SpdxSatisfaction`, `NoticeInventory`, `NoticeUnion`, `NoticeBlock`,
  `NoticeFiles`). The expression grammar is that of section D.4 of Annex D of the SPDX 2.3 specification as
  far as the tool accepts it.
- **Benchmark history** (`PerfStore`, `PerfHistory`, `PerfIndex`).
- **Release evidence** (`TapDurations`, `TapText`, `NodeReporter`, `DependencyClosure`, `Sbom`, `ProofFragments`, `FragmentCover`,
  `PublishFrame`) and **role inheritance** (`EffectiveRoles`).

`Prelude`, `Text` and `Sorting` hold what several modules share; `Sorting` is Python's stable `sorted`.

## Where the code does not do what one might expect

Each of these is proved with its exact condition and, where it is a surprise, a concrete input.

- A failed first open leaves nothing behind unless it captured a CA snapshot and then could not remove it
  (`Transport.FailedFirstOpenLeavesNothing`, `Transport.FailedOpenCanLeaveSnapshot`).
- Closing a connection forgets a Rust handle that fails to close and a CA snapshot that cannot be removed; only
  when no close did either is every resource of a run released exactly once (`Transport.ReleasedExactlyOnce`,
  `Transport.CloseReleases`, `Transport.CloseCanAbandon`).
- A block that is left by an exception is at its last explicit commit unless a commit with unknown outcome was
  durable (`TransactionScope.ExceptionalExit`, `TransactionScope.UnknownCommitCanBeDurable`).
- A notice written through a dangling link at the last path fails the check that follows, until it is written
  once more (`NoticeFiles.WriteThenCheck`, `NoticeFiles.DanglingLinkFailsTheCheck`, `NoticeFiles.WriteTwiceThenCheck`).
- A notice write interrupted between copies can be repeated only if the notice already had a generated block,
  or nothing was written, or no unwritten copy has a text (`NoticeFiles.InterruptedWriteRecovers`,
  `NoticeFiles.InterruptedWriteCanStick`).
- A bill of materials whose root name is not unique may list packages its document does not reach
  (`Sbom.DocumentReachesAll`, `Sbom.SecondRootIsUnreached`).
- Two tests share one duration exactly when their paths join alike, which names containing `::` can bring about
  (`TapText.KeysArePathsIffDistinct`, `NodeReporter.ColonsCollide`).

## Model

| member | source | states |
|---|---|---|
| `CargoPublisher.SettleRegistryState` | scripts/ci/publish_cargo_release_candidate.py:255-282 | the settle loop performs exactly the readings and pauses of `Settle` and returns its verdict, for every environment |
| `CargoPublisher.UploadExactRequest` | scripts/ci/publish_cargo_release_candidate.py:303-373 | the upload loop performs exactly the reread, PUTs and doubling pauses of `Upload` |
| `CargoPublisher.ProcessCandidate` | scripts/ci/publish_cargo_release_candidate.py:376-501 | both passes perform exactly the trace of `Process` and return its reports or first failure |
| `CargoPublisherSafety.SettleOutcome` | scripts/ci/publish_cargo_release_candidate.py:216-282 | settling never PUTs; it succeeds only as matching or doubly absent, and then both authorities showed just that, matching with the accepted checksum |
| `CargoPublisherSafety.PutFromDisciplined` | scripts/ci/publish_cargo_release_candidate.py:303-373 | if the first PUT of an upload is allowed, so is every retry |
| `CargoPublisherSafety.PutFromOutcome` | scripts/ci/publish_cargo_release_candidate.py:303-373 | an upload PUTs only its own package and succeeds only on an accepted last PUT |
| `CargoPublisherSafety.PublishOneDisciplined` | scripts/ci/publish_cargo_release_candidate.py:432-487 | publishing one package keeps the PUT discipline, and success leaves it confirmed at both authorities |
| `CargoPublisherSafety.FirstPassSettles` | scripts/ci/publish_cargo_release_candidate.py:396-431 | the first pass never PUTs and, when it succeeds, every package has settled |
| `CargoPublisherSafety.EveryPutIsDisciplined` | scripts/ci/publish_cargo_release_candidate.py:376-501 | in every run, whatever it returns: no PUT before all packages settled; every PUT carries the accepted bytes, directly follows a double absence and a reread or a throttled PUT, and comes after every earlier package was seen at both authorities with its checksum; outside publish mode there is no PUT |
| `CargoPublisherSafety.OkRunIsTrue` | scripts/ci/publish_cargo_release_candidate.py:376-501 | an ok run reports every package in bundle order, every status is true, every PUT was confirmed afterwards, and in publish mode every package is confirmed |
| `CargoRegistryTimeline.ConfirmedIsRecorded` | scripts/ci/publish_cargo_release_candidate.py:216-252 | a confirmed package is recorded in the registry with its own checksum and visible at both authorities |
| `CargoRegistryTimeline.SuccessfulPublishersAgree` | scripts/ci/publish_cargo_release_candidate.py:432-487 | two interleaved publishers both return ok only if their archives agree on every shared version |
| `CargoRegistryTimeline.LostRaceNeverSucceeds` | scripts/ci/publish_cargo_release_candidate.py:432-487 | if the registry ever holds other bytes for one of its versions, the run fails |
| `CargoRegistryTimeline.PutFollowsAbsence` | scripts/ci/publish_cargo_release_candidate.py:432-487 | a run that PUTs anything first saw one of its packages absent |
| `CargoRegistryTimeline.RerunSendsNoPut` | scripts/ci/publish_cargo_release_candidate.py:376-501 | after an ok run, no later run over the same versions sends a PUT in any mode |
| `CargoPublisherProgress.SettleFails` | scripts/ci/publish_cargo_release_candidate.py:255-282 | settling fails only for a reading that is neither absent nor the accepted archive, or when every attempt that is left lags |
| `CargoPublisherProgress.PutEnds` | scripts/ci/publish_cargo_release_candidate.py:303-373 | an upload ends with a PUT of its package, the only one that can be accepted, and that one is throttled only if all that were left are |
| `CargoPublisherProgress.HonestRegistrySucceeds` | scripts/ci/publish_cargo_release_candidate.py:376-501 | against an honest registry that others may publish the same bytes to, lagging for fewer attempts and throttling fewer PUTs than configured, the run succeeds; exactly the packages reported as published had a PUT accepted, once each and in bundle order, and one whose PUT was lost to an identical one is reported as already published |
| `CargoPublisherSolo.SoloRunIsExact` | scripts/ci/publish_cargo_release_candidate.py:376-501 | with nobody else publishing, and nothing that was visible at the start hidden by both authorities, every status is the one the start calls for, exactly the missing first-party packages are accepted and nothing else is PUT |
| `CargoPublisherSolo.SlowRunIsPatient` | scripts/ci/publish_cargo_release_candidate.py:376-501 | a concrete run with a throttled PUT and a late index that meets the hypothesis and succeeds |
| `Transport.HttpsIsNeverSilentlyPlaintext` | type_bridge/session.py:39-82 | every spelling of an https address is connected with TLS unless TLS was explicitly refused, and with the scheme cut off |
| `Transport.RootImpliesTls` | type_bridge/session.py:307-330 | a custom root is used only with explicitly enabled TLS |
| `Transport.StepKeeps` | type_bridge/session.py:332-382 | every operation, with any faults, keeps the connection invariant |
| `Transport.EveryRunKeeps` | type_bridge/session.py:332-382 | over every sequence of operations all held backends were opened with one identity, the retained prepared one, and what was acquired is exactly what is held, released or abandoned |
| `Transport.AccountedExactlyOnce` | type_bridge/session.py:481-573 | over any run each acquired resource is held, or was released once, or was abandoned once, and no two of these |
| `Transport.ReleasedExactlyOnce` | type_bridge/session.py:481-573 | every acquired resource is held or was released exactly once if and only if no close of the run went through with a Rust handle that failed to close or a snapshot that could not be removed |
| `Transport.InjectedDriverIsNeverClosed` | type_bridge/session.py:481-573 | a driver the caller handed in is never closed and never counted as acquired |
| `Transport.FailedOpenSparesOthers` | type_bridge/session.py:372-382 | a failed open takes no backend away and keeps the snapshot and identity every held backend uses |
| `Transport.FailedFirstOpenLeavesNothing` | type_bridge/session.py:332-382 | a failed first open leaves no resource and no prepared identity if and only if it did not both capture a snapshot and fail to remove it |
| `Transport.FailedOpenCanLeaveSnapshot` | type_bridge/session.py:372-382 | a concrete failing open that leaves its snapshot attached |
| `Transport.CloseIsAllOrNothing` | type_bridge/session.py:481-573 | if and only if the owned driver's close raises, close changes nothing; otherwise nothing stays attached |
| `Transport.CloseReleases` | type_bridge/session.py:481-573 | close releases a held resource exactly when the owned driver's close does not raise and neither does the resource's own release |
| `Transport.CloseCanAbandon` | type_bridge/session.py:555-573 | a concrete close that raises and forgets its snapshot for good, and one that forgets its Rust handle without raising |
| `Transport.CloseRetryCompletes` | type_bridge/session.py:481-573 | a retry after a failed close releases and abandons exactly what the first attempt would have, with the same outcome |
| `Transport.Database.Create` | type_bridge/session.py:243-305 | creating a connection fails if and only if the TLS options contradict each other, and a new one holds nothing but an injected driver |
| `Transport.Database.Reconfigure` | type_bridge/session.py:291-302 | changing the public attributes changes nothing but the configuration |
| `Transport.Database.PreparedConnectionOptions` | type_bridge/session.py:332-370 | preparing retains one identity and snapshot, and rejects a changed identity while one is in use |
| `Transport.Database.DiscardUncommittedTransport` | type_bridge/session.py:372-382 | an uncommitted transport is discarded, a committed one kept |
| `Transport.Database.RustDatabaseFor` | type_bridge/_rust_runtime.py:503-531 | opening or reusing the Rust backend has exactly the effect of the state machine's `OpenRust` |
| `Transport.Database.ConnectPythonDriver` | type_bridge/session.py:403-479 | opening or reusing the Python driver has exactly the effect of the state machine's `OpenDriver` |
| `Transport.Database.ConnectDatabase` | type_bridge/session.py:384-401 | connect has exactly the effect of the state machine's step |
| `Transport.Database.CloseDatabase` | type_bridge/session.py:481-573 | close, with its detaching, restoring, releasing and abandoning, has exactly the effect of the state machine's step |
| `TransactionScope.BodyKeeps` | type-bridge-core/crates/orm/src/session/context.rs:454-535 | at every point of every block the database is the initial one plus, once a commit that took effect reached the provider, the statements not rolled back before it; what is pending is the rest |
| `TransactionScope.FinalizedIs` | type_bridge/session.py:1012-1014 | the view reports closed exactly when some commit of the block has returned |
| `TransactionScope.ConsumedRefuses` | type-bridge-core/crates/orm/src/session/context.rs:614-663 | after a commit has reached the provider, whatever came of it, every further call raises and changes nothing |
| `TransactionScope.BlockLeaves` | type_bridge/session.py:1098-1117 | any block leaves all statements not rolled back if the one commit that reached the provider took effect, and otherwise nothing |
| `TransactionScope.CleanExit` | type_bridge/session.py:1098-1117 | a clean write or schema exit that does not raise keeps exactly the statements not rolled back |
| `TransactionScope.RaisingCleanExit` | type_bridge/session.py:1098-1117 | one whose commit raises leaves all of them or nothing, and leaves them exactly when the failed commit was durable |
| `TransactionScope.ExceptionalExit` | type_bridge/session.py:1098-1117 | an exceptional exit leaves the database at the last explicit commit if and only if no commit with unknown outcome made staged statements durable |
| `TransactionScope.UnknownCommitCanBeDurable` | type-bridge-core/crates/orm/src/session/context.rs:454-471 | a concrete block in which it did |
| `TransactionScope.ExitReleasesOnce` | type_bridge/session.py:1098-1117 | however the block ends, the handle is asked to close exactly once and the provider's transaction is given up exactly once |
| `TransactionScope.ReadExitIsSilent` | type_bridge/session.py:1098-1117 | a read block commits nothing and rolls nothing back on its own |
| `TransactionScope.RustTransaction.Execute` | type-bridge-core/crates/orm/src/session/context.rs:270-276 | a statement is staged only on an active or rolled-back transaction |
| `TransactionScope.RustTransaction.Batch` | type-bridge-core/crates/orm/src/session/context.rs:136-182 | a batch that fails once it may have had effects leaves a transaction that can only be rolled back |
| `TransactionScope.RustTransaction.Commit` | type-bridge-core/crates/orm/src/session/context.rs:454-471 | a commit is dispatched once and consumes the transaction, also when it raises |
| `TransactionScope.RustTransaction.Rollback` | type-bridge-core/crates/orm/src/session/context.rs:498-532 | a rollback keeps the transaction usable when it succeeds and closes it when it raises |
| `TransactionScope.RustTransaction.Close` | type-bridge-core/crates/orm/src/session/context.rs:534-555 | close gives up an open transaction and is terminal even when it raises |
| `TransactionScope.TransactionContext.constructor` | type_bridge/session.py:1073-1097 | entering opens one transaction on the database |
| `TransactionScope.TransactionContext.ExecuteStatement` | type_bridge/session.py:1152-1156 | executing through the context has exactly the effect of a block's `Execute` call |
| `TransactionScope.TransactionContext.RunBatch` | type-bridge-core/crates/orm/src/session/context.rs:136-182 | a batch through the context has exactly the effect of a block's `Batch` call |
| `TransactionScope.TransactionContext.CommitNow` | type_bridge/session.py:1174-1181 | an explicit commit finalizes only when it returns, and consumes the transaction either way |
| `TransactionScope.TransactionContext.RollbackNow` | type_bridge/session.py:1182-1188 | an explicit rollback drops what is pending; one that raises closes the transaction |
| `TransactionScope.TransactionContext.ExitBlock` | type_bridge/session.py:1098-1117 | leaving the block has exactly the effect of `Leave` |
| `Promotion.CheckExisting` | scripts/ci/promote_c_release.py:576-602 | existing selected assets are checked in order against staging, stopping at the first that disagrees |
| `Promotion.SignMissing` | scripts/ci/promote_c_release.py:603-610 | exactly the files without a bundle on the draft are signed, and every missing name then has its staged bytes |
| `Promotion.UploadMissing` | scripts/ci/promote_c_release.py:611-622 | exactly the missing names are uploaded in order, with their staged bytes, and nothing else changes |
| `Promotion.Publish` | scripts/ci/promote_c_release.py:565-654 | a run killed after any number of actions, or reading back any release in the end, is one in the sense of `Acted` |
| `Promotion.UploadComesLast` | scripts/ci/promote_c_release.py:565-622 | an upload happens only after every existing selected asset was checked and every missing bundle signed |
| `Promotion.DisagreementOnlyChecks` | scripts/ci/promote_c_release.py:576-622 | for a draft that disagrees with staging anywhere nothing is signed and nothing uploaded |
| `Promotion.DisagreementLeavesDraft` | scripts/ci/promote_c_release.py:576-622 | its selected assets stay as they are |
| `Promotion.FinishedFoundAgreement` | scripts/ci/promote_c_release.py:565-654 | a run that reaches its end found every existing selected asset in agreement with staging |
| `Promotion.RunKeepsClean` | scripts/ci/promote_c_release.py:565-654 | however a run ends, every selected asset of a clean draft agrees with staging and none is lost or changed |
| `Promotion.CleanDraftCompletes` | scripts/ci/promote_c_release.py:565-654 | an unkilled run from a clean draft uploads exactly the missing names and completes it |
| `Promotion.PromotedIsExact` | scripts/ci/promote_c_release.py:623-654 | whatever others did in the meantime, even to the selected names: a promoted draft is complete, everything selected agrees with staging, and everything else, with the whole record of every ordinary asset, is as it was found |
| `Promotion.PromotedIffLeftAlone` | scripts/ci/promote_c_release.py:565-654 | from a clean admissible draft an unkilled run whose selected names others left alone ends promoted if and only if they also left the draft flag, the target, the notes and the whole record of every ordinary asset as they were found |
| `Promotion.RunBalances` | scripts/ci/promote_c_release.py:611-622 | in one run the copies of each selected name grow by exactly its uploads |
| `Promotion.HistoryBalances` | scripts/ci/promote_c_release.py:565-654 | over any history of killed and finished runs each selected name is uploaded at most once in total, and exactly the uploaded names appear |
| `Promotion.HistoryKeepsClean` | scripts/ci/promote_c_release.py:565-654 | a clean draft is clean after any history of runs |
| `Promotion.RestartCompletes` | scripts/ci/promote_c_release.py:565-654 | after any history from a clean draft one undisturbed run, with a fresh output directory, completes the promotion |
| `Spdx.ParserIsTheGrammar` | scripts/ci/generate_native_dependency_notice.py:224-280 | the parser returns a tree if and only if the tokens have a derivation of that meaning |
| `Spdx.DerivationParses` | scripts/ci/generate_native_dependency_notice.py:224-280 | every derivation's tokens parse to its meaning |
| `Spdx.PrintParses` | scripts/ci/generate_native_dependency_notice.py:236-265 | parsing a tree printed with minimal parentheses gives it back: left association, WITH over AND over OR |
| `Spdx.PrintIsMinimal` | scripts/ci/generate_native_dependency_notice.py:236-265 | no derivation of the same meaning uses fewer parentheses |
| `Spdx.SpelledTokensScanBack` | scripts/ci/generate_native_dependency_notice.py:208-221 | tokens written one after the other, each followed by a space, are scanned back |
| `Spdx.TextRoundTrip` | scripts/ci/generate_native_dependency_notice.py:208-284 | a printed and spelled tree parses back from its text |
| `Spdx.TokenizeSpdx` | scripts/ci/generate_native_dependency_notice.py:211-221 | the scanner computes the token sequence, or rejects what is left between tokens |
| `Spdx.SpdxParser.ParseOrLevel` | scripts/ci/generate_native_dependency_notice.py:236-240 | the OR loop over the mutable index follows the recursive specification, through nested parentheses, and terminates |
| `Spdx.SpdxParser.ParseAndLevel` | scripts/ci/generate_native_dependency_notice.py:242-246 | the AND loop follows its specification |
| `Spdx.SpdxParser.ParseWithLevel` | scripts/ci/generate_native_dependency_notice.py:248-257 | WITH takes one exception after a single licence, and fails otherwise |
| `Spdx.SpdxParser.ParsePrimaryLevel` | scripts/ci/generate_native_dependency_notice.py:259-265 | a parenthesised expression or an identifier |
| `Spdx.SpdxParser.ParseAll` | scripts/ci/generate_native_dependency_notice.py:230-234 | the whole input is consumed or rejected |
| `Spdx.ParseSpdxExpression` | scripts/ci/generate_native_dependency_notice.py:283-284 | scanning and parsing together |
| `SpdxSatisfaction.AtomIsSatisfied` | scripts/ci/generate_native_dependency_notice.py:299-312 | the loop finds a selected text for the licence, and for its exception if there is one |
| `SpdxSatisfaction.SatisfiedIffSomeClause` | scripts/ci/generate_native_dependency_notice.py:315-332 | an expression is satisfied if and only if every atom of some clause of its disjunctive normal form is |
| `SpdxSatisfaction.SatisfactionIsMonotone` | scripts/ci/generate_native_dependency_notice.py:315-332 | more texts never make a satisfied expression unsatisfied |
| `NoticeInventory.ParsePayload` | scripts/ci/generate_native_dependency_notice.py:375-447 | the three loops compute `ReadPayload`, with its first failure |
| `NoticeInventory.ParseRow` | scripts/ci/generate_native_dependency_notice.py:404-442 | one licence text is accepted or rejected and recorded for its users |
| `NoticeInventory.PayloadIsRead` | scripts/ci/generate_native_dependency_notice.py:375-447 | a payload is accepted if and only if it meets `Accepts`, and the result holds every crate with exactly its texts and every text with its bytes |
| `NoticeInventory.AcceptedIsReferenced` | scripts/ci/generate_native_dependency_notice.py:375-447 | every listed text is used and every used text is listed |
| `NoticeUnion.JoinTexts` | scripts/ci/generate_native_dependency_notice.py:465-468 | two text tables join if and only if they agree on every shared key |
| `NoticeUnion.JoinRecords` | scripts/ci/generate_native_dependency_notice.py:469-483 | two package tables join if and only if shared packages have the same record, uniting their roots |
| `NoticeUnion.CheckUnion` | scripts/ci/generate_native_dependency_notice.py:485-511 | no complaint if and only if every package is satisfied and every policy entry is needed |
| `NoticeUnion.MergePayloads` | scripts/ci/generate_native_dependency_notice.py:450-511 | accepted if and only if all roots are read and agree, every package is satisfied and no entry is stale |
| `NoticeUnion.UnionExistsIffAgreed` | scripts/ci/generate_native_dependency_notice.py:450-483 | the fold over the roots succeeds if and only if the roots agree pairwise |
| `NoticeUnion.UnionPackage` | scripts/ci/generate_native_dependency_notice.py:469-483 | a package of the union has exactly its contributors as roots and their common record |
| `NoticeUnion.UnionIsReferenced` | scripts/ci/generate_native_dependency_notice.py:450-483 | the union lists exactly the texts its packages use |
| `NoticeUnion.MergeIsExactUnion` | scripts/ci/generate_native_dependency_notice.py:450-511 | packages, root sets, records and texts of the merge are exactly those of the payloads, and every text has the normalized bytes of the row it comes from |
| `NoticeUnion.AcceptedMergeIsExact` | scripts/ci/generate_native_dependency_notice.py:450-511 | all of it, with the bytes, for the four native roots and the real parser, each package with a satisfied clause |
| `NoticeBlock.CountOccurrences` | scripts/ci/generate_native_dependency_notice.py:660-671 | Python's non-overlapping count |
| `NoticeBlock.BoundsOfBlock` | scripts/ci/generate_native_dependency_notice.py:660-671 | a block between two marker-free texts is found exactly; no marker can straddle a join |
| `NoticeBlock.BoundsSplit` | scripts/ci/generate_native_dependency_notice.py:660-671 | conversely, found bounds leave marker-free text on both sides |
| `NoticeBlock.ReplaceIsIdempotent` | scripts/ci/generate_native_dependency_notice.py:682-690 | replacing again with the same block changes nothing, also after an appendix was first added |
| `NoticeBlock.ReplaceKeepsSkeleton` | scripts/ci/generate_native_dependency_notice.py:674-690 | replacing keeps the hand-maintained skeleton; adding an appendix only appends to it |
| `NoticeBlock.LastReplacementWins` | scripts/ci/generate_native_dependency_notice.py:682-690 | two replacements in a row are the second one |
| `NoticeFiles.NoticeMarkersAreProper` | scripts/ci/generate_native_dependency_notice.py:31-32 | the real markers meet the condition all notice results need |
| `NoticeFiles.WriteThenCheck` | scripts/ci/generate_native_dependency_notice.py:779-823 | after a successful write the check succeeds, and writing again changes nothing, if and only if the last path was no dangling link |
| `NoticeFiles.DanglingLinkFailsTheCheck` | scripts/ci/generate_native_dependency_notice.py:785-815 | four concrete paths for which the write succeeds and the check then fails |
| `NoticeFiles.WriteTwiceThenCheck` | scripts/ci/generate_native_dependency_notice.py:779-823 | after a second write the check succeeds whatever the last path was |
| `NoticeFiles.WriteKeepsSkeleton` | scripts/ci/generate_native_dependency_notice.py:779-823 | the hand-maintained text survives a write in every copy |
| `NoticeFiles.InterruptedWriteRecovers` | scripts/ci/generate_native_dependency_notice.py:779-823 | a write interrupted after k copies is completed by writing again if and only if there was a block before, nothing was written, or no unwritten copy has a text |
| `NoticeFiles.InterruptedWriteCanStick` | scripts/ci/generate_native_dependency_notice.py:779-823 | four copies without a block, interrupted after the first, can no longer be written |
| `NoticeFiles.Workspace.ReadAll` | scripts/ci/generate_native_dependency_notice.py:779-812 | reading and comparing the copies yields the expected text or the first problem |
| `NoticeFiles.Workspace.CheckOrWrite` | scripts/ci/generate_native_dependency_notice.py:779-823 | checking changes nothing; writing rewrites the copies one after the other, where a dangling last link is written through and stays a link |
| `PerfStore.SameFileIffSameRun` | perf/harness/store.py:97-126 | two valid results share a file if and only if UTC date, commit, trigger and, for a release matrix, SDK and series agree |
| `PerfStore.HeadNeverMergesWithRelease` | perf/harness/store.py:121-126 | the package built from the tree never shares a file with a released one, whatever the versions |
| `PerfStore.MergeMetricsIs` | perf/harness/store.py:138-141 | merged ids keep the stored order and append new ones; each id carries the incoming metric if there is one |
| `PerfStore.MergeMetricsAssociative` | perf/harness/store.py:138-141 | merging metric lists is associative |
| `PerfStore.MergeMetricsIdempotent` | perf/harness/store.py:138-141 | and idempotent |
| `PerfHistory.MergeAssociative` | perf/harness/store.py:129-152 | merging results is associative |
| `PerfHistory.MergeIdempotent` | perf/harness/store.py:129-152 | merging a result into itself changes nothing |
| `PerfHistory.MergeKeepsFile` | perf/harness/store.py:129-152 | two valid results of one file merge to a valid result of that file |
| `PerfHistory.StoreKeepsWellFiled` | perf/harness/store.py:74-94 | storing succeeds exactly for valid results with a file name, and every file stays valid and under its own name |
| `PerfHistory.StoringAgainIsUnchanged` | perf/harness/store.py:74-94 | storing the same result twice reports unchanged |
| `PerfHistory.HistoryIs` | perf/harness/store.py:74-94 | after any sequence of stores each file holds the merge of its own results in order, and no other file exists |
| `PerfHistory.MergeAllIds` | perf/harness/store.py:129-152 | ids of many merged results are in first-appearance order |
| `PerfHistory.MergeAllLookup` | perf/harness/store.py:129-152 | each id carries what was written last |
| `PerfHistory.MergeAllRun` | perf/harness/store.py:143-152 | earliest start with ties to the first stored, last known database and tool versions, the rest from the last result |
| `PerfHistory.StoredRunIs` | perf/harness/store.py:74-94 | all of this for the stored file after any sequence of stores |
| `PerfHistory.DataDir.Store` | perf/harness/store.py:74-94 | the stored files and the reported status are those of `StoreInto` |
| `PerfIndex.BuildIndex` | perf/harness/store.py:155-211 | the index loops compute `IndexOf`: an invalid run or a matrix run without a series name is rejected, anything else indexed |
| `PerfIndex.SortIgnoresEnumeration` | perf/harness/store.py:157-170 | the runs come out in one order however the files are enumerated |
| `PerfIndex.SeriesIs` | perf/harness/store.py:182-211 | a series has one point per run that measured it, in run order, with family and unit of the newest |
| `PerfIndex.VersionsAre` | perf/harness/store.py:172-181 | versions are those of non-matrix runs, each once, in first-appearance order |
| `PerfIndex.LatestIs` | perf/harness/store.py:172-179 | latest is the last non-matrix run in order, or nothing |
| `PerfIndex.LatestIsNewest` | perf/harness/store.py:155-179 | for a stored history, latest is a stored non-matrix run that no other started after, ties broken by the order of runs; there is none if and only if every stored run is a matrix run |
| `PerfIndex.IndexIsWellDefined` | perf/harness/store.py:155-211 | every stored history can be indexed, with one result for every enumeration order |
| `PerfIndex.IndexHoldsEveryPointOnce` | perf/harness/store.py:155-211 | the series of an id has exactly the files that measured it, once each, ordered by instant |
| `TapDurations.NodeDurations` | perf/harness/suite.py:32-58 | the reader loop computes `Total` on the lines of any text |
| `TapDurations.ReadEssential` | perf/harness/suite.py:41-57 | lines that match no pattern, wherever they stand, change nothing |
| `TapDurations.ForestDurations` | perf/harness/suite.py:32-58 | whenever the lines that match a pattern are those of a forest of named tests, the keys are exactly the joined leaf paths, each with the sum of its leaves' durations and nothing of any suite, whatever the titles of the outcomes |
| `TapText.ForestIsRecognised` | perf/harness/suite.py:38-56 | every line of a forest written as TAP text is recognised as what it stands for |
| `TapText.NotesAreIrrelevant` | perf/harness/suite.py:41-57 | two texts with the same lines apart from notes, which begin like none of the three patterns, have the same durations |
| `TapText.TextDurations` | perf/harness/suite.py:32-58 | for every text whose lines, apart from notes anywhere between them, are a forest's, the reader returns exactly the joined leaf paths, each with the sum of its leaves' durations |
| `NodeReporter.RemarkIsNote` | perf/harness/suite.py:42-55 | the version, plans and YAML marks Node writes begin like none of the three patterns |
| `NodeReporter.SplitWritten` | perf/harness/suite.py:41-41 | lines written one after the other, without line breaks of their own, are split back |
| `NodeReporter.SkippedTest` | tests/unit/perf/fixtures/suite/node-tap.txt:3-8 | a concrete block of a skipped test in Node's layout, line by line |
| `NodeReporter.OutputIsLaidOut` | tests/unit/perf/fixtures/suite/node-tap.txt:1-42 | Node's output for every forest, with version line, plans, a YAML block per test, anything that is notes after the durations, and totals, is a text of that kind |
| `NodeReporter.OutputDurations` | perf/harness/suite.py:32-58 | so for Node's output the reader returns exactly the joined leaf paths, each with the sum of its leaves' durations and nothing of any suite |
| `NodeReporter.DetailsAreIrrelevant` | tests/unit/perf/test_suite.py:25-29 | with or without the type of a test, and whatever else the blocks say after the durations, the result is the same |
| `TapDurations.FlatDurations` | perf/harness/suite.py:48-57 | outcomes without subtest lines are booked under their own titles |
| `TapText.KeysArePathsIffDistinct` | perf/harness/suite.py:52-56 | for every such text with positive durations every key is one path's duration if and only if no two leaf paths of the forest join alike |
| `TapText.UnambiguousNamesSuffice` | perf/harness/suite.py:52-56 | names without a double colon inside and without a colon in front never join alike |
| `NodeReporter.ColonsCollide` | perf/harness/suite.py:52-56 | Node's output for a concrete forest of two tests that the reader books under one key |
| `TapText.SpelledSubtest` | perf/harness/suite.py:42-43 | a written subtest line is recognised with its indentation and name |
| `TapText.SpelledOutcome` | perf/harness/suite.py:48-54 | a written outcome line, passed or failed, is recognised with its indentation and title |
| `TapText.SpelledDuration` | perf/harness/suite.py:55-56 | a written duration line is recognised with its number |
| `DependencyClosure.RuntimeClosure` | scripts/ci/c_distribution_security.py:154-175 | the worklist terminates with exactly the packages reachable from the roots along normal edges, or names a reachable package without a node, or finds a root without a package |
| `DependencyClosure.ClosureIsUnique` | scripts/ci/c_distribution_security.py:162-175 | the verdict and the closure do not depend on the order of the worklist |
| `Sbom.GenerateSbom` | scripts/ci/c_distribution_security.py:229-314 | the generator loops compute `CargoSbom` |
| `Sbom.GeneratedIff` | scripts/ci/c_distribution_security.py:229-292 | a document is generated if and only if every lookup succeeds and no two packages have one SPDX identifier |
| `Sbom.ListsExactlyTheClosure` | scripts/ci/c_distribution_security.py:247-292 | it lists exactly the closure and the artifact, each once, in identifier order |
| `Sbom.CarriesExactlyTheRelations` | scripts/ci/c_distribution_security.py:236-284 | it carries exactly the expected relationships, none missing and none invented, in order |
| `Sbom.EveryEdgeIsCarried` | scripts/ci/c_distribution_security.py:273-284 | every normal edge out of a listed package is carried and leads to a listed package |
| `Sbom.DocumentReachesAll` | scripts/ci/c_distribution_security.py:229-314 | over its own closure the document reaches every package if and only if the chosen root reaches every package of the root's name |
| `Sbom.SecondRootIsUnreached` | scripts/ci/c_distribution_security.py:234-234 | a concrete accepted document that lists a second root it does not reach |
| `Sbom.UniqueRootReachesAll` | scripts/ci/c_distribution_security.py:229-314 | so always when the root's name is unique |
| `ProofFragments.LoadAuthority` | scripts/ci/proof_fragments.py:261-335 | the allowlist loops compute `ReadAuthority` |
| `ProofFragments.AuthorityIs` | scripts/ci/proof_fragments.py:261-335 | an allowlist is accepted if and only if every producer is proper, sorted and unique and no lane is claimed twice, and the authority is exactly what it says |
| `ProofFragments.AuthorityIsWellFormed` | scripts/ci/proof_fragments.py:271-335 | in an accepted authority every lane has one producer and every producer a lane |
| `FragmentCover.LoadFragments` | scripts/ci/proof_fragments.py:364-541 | the loader loops compute `Load`, with its first violation |
| `FragmentCover.ClaimsAdd` | scripts/ci/proof_fragments.py:470-520 | a fragment's results are taken if and only if each is vouched for by its producer and no lane repeats |
| `FragmentCover.FragmentAdds` | scripts/ci/proof_fragments.py:402-527 | one more fragment is taken if and only if it is well formed for its producer and the producer is new |
| `FragmentCover.CoverageChecksAgree` | scripts/ci/proof_fragments.py:529-540 | after the loop the lane-coverage and the producer-coverage check are equivalent |
| `FragmentCover.LoadIsExactCover` | scripts/ci/proof_fragments.py:364-541 | fragments are accepted if and only if they are, in any order, one well-formed fragment per committed producer with exactly its lanes, and the result is exactly what they carry |
| `FragmentCover.OrderIsIrrelevant` | scripts/ci/proof_fragments.py:364-541 | neither the verdict nor the observations depend on the order of the fragments |
| `PublishFrame.EncodeRoundTrip` | scripts/ci/cargo_release_candidate.py:444-472 | encoding succeeds if and only if the frame fits the budget, and decoding returns both parts |
| `PublishFrame.DecodeRoundTrip` | scripts/ci/cargo_release_candidate.py:460-472 | every accepted body is the little-endian u32 frame of the two parts it is split into |
| `PublishFrame.DecodeAcceptsFrames` | scripts/ci/cargo_release_candidate.py:444-472 | decoding accepts exactly the bodies encoding produces |
| `EffectiveRoles.EffectiveRolesOf` | type_bridge/_rust_runtime.py:336-369 | both loops compute the accumulated roles of the chain |
| `EffectiveRoles.AccumulatedIsEffective` | type_bridge/_rust_runtime.py:357-369 | the accumulating loop equals, in order, each level's own roles that no later level overrides |
| `EffectiveRoles.EffectiveComposes` | type_bridge/_rust_runtime.py:357-369 | the closed form of a longer chain is one override step on the shorter one |
| `EffectiveRoles.ChildSpecializesParent` | type_bridge/_rust_runtime.py:349-369 | a direct subclass's list is one override step on its parent's |

## Left out

- HTTP, subprocesses, `gh`, cosign, cargo, file-system and clock calls are given as answers, faults or inputs.
- JSON and TOML parsing and UTF-8 decoding; the models start from parsed values.
- SHA-256 is an arbitrary function of the text; collisions are the error the source raises.
- Registry index paths and crate-name case folding (`sparse_index_path`); packages are identified by an abstract key.
- The checks of a promotion's control file, staging directory and asset sizes before and after the run (scripts/ci/promote_c_release.py:526-564).
- Rendering the generated notice block and the policy file; a policy entry is given as a parsed atom.
- Regular expressions for identifiers in proof fragments are parameters; the codes of the header, binding, profile, nonce and contract mismatches are one code.
- Floating-point rounding; durations are real numbers and the number parser is a parameter.
- Duplicate identifiers in Cargo metadata; the tables built from it are given as maps.
- Re-entrant close callbacks, falsey driver doubles, `database_from_rust`, `__del__` and pickling of a connection.
- `type_bridge/plan.py`, `query_v2.py`, `_runtime_projection.py`, `version.py`, `coercion.py` and `proxy.py`, which forward to the native extension or to HTTP.
- The comparison, audit and lint scripts under `scripts/ci`, and the web page of the benchmark history: equality with constants, compiler calls or user interface.
- Transport.CloseIsAllOrNothing: what a close raises is an Exception; a KeyboardInterrupt out of the driver's close is not caught by the source and would leave the transport detached and unreleased.
- Transport.Database.CloseDatabase: requires the connection invariant, which every operation keeps; without it the order of detaching is not stated.
- TransactionScope.RustTransaction.Execute: a statement that raises stages nothing; a refused schema annotation counts as one.
- TransactionScope.RustTransaction.Commit: a call cancelled while it waits for the provider is not modelled; the Python methods block until it answers.
- Promotion.PromotedIffLeftAlone: the size and digest in an asset's record stand for its bytes; a listing that shows other ones is not modelled.
- Promotion.RestartCompletes: the output directory is not modelled; a run is taken to have a fresh one.
- Transport.Database.RustDatabaseFor: a server or library version that is refused counts as a failed open.
- NoticeFiles.Workspace.ReadAll: the two messages for copies that differ are one problem.
- Sbom.GenerateSbom: which of the missing lookups raises first depends on set order and is one error.
- NodeReporter.OutputIsLaidOut: names, titles and details hold no character at which `str.splitlines` breaks a line; `TapText.TextDurations` covers texts by their lines without this.
- TapDurations.NodeDurations: the digits of an outcome's number are ASCII digits only.
