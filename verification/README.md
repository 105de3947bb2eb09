# Verified model of the packaging recycling note service

This project models the parts of the re/accreditation backend where mistakes would be hardest to see, and proves what
each promises on all its inputs, runs or reachable states.

**Packaging recycling notes (PRNs).** A PRN is a stored document kept as a cache of a waste-balance event ledger. Every
transition reads a PRN, checks the actor-aware state machine, appends one event to a ledger, folds the event onto the
document and persists the projection under a version compare-and-set and a monotonic watermark. `PrnModel`, `Ledger`
and `PrnFold` hold the state machine, the ledger with its deciders and slot guard, and the fold. `PrnStore` is the
repository's reference semantics with the in-memory adapter as a class; `MongoStore` models the MongoDB adapter's guard
expressions and update objects and proves that it refines the reference. `PrnProtocol` is a step system over many PRNs,
many writers and shared ledgers in which every await of the source is a step boundary, other writers may act between any
two steps of one, and any writer may crash. On top of it:

- `Interleavings`: what holds in every interleaving (issued documents are numbered and numbers unique; exactly when a
  persist meets a watermark regression, and that with matching registrations, or with one comparison before the append,
  none ever does and every missed write is reported as a version conflict).
- `FreshRuns`: in *fresh* runs (whenever an append takes its slot or a discard is written, the PRN the writer holds is what
  a projected read would return, and an append goes to the PRN's own ledger) each stored document is the fold of its draft
  over its events up to its watermark, projected reads are the fold over all of them, and histories are legal.
- `Freshness`: freshness is exactly what that takes. An arbitrary run ends with documents and ledger in agreement if and
  only if it was fresh, and a disagreement is never undone.
- `Solvency`: in every interleaving, fresh or not, only a summary log that takes credit back can overdraw a ledger.
- `Conservation`: in fresh runs balances and PRN tonnages always account for each other exactly, with the exact condition
  for one append to keep a ledger balanced.
- `ReadRepair`: how far read-side catch-up repairs a crash. Readers recover at once; a stored document that is behind is
  written again only by a writer that already appended to its stored version.
- `StaleRuns`: short concrete runs in which each property fails that the exact conditions above are about.
- `PrnUpdate`: the imperative write paths over the mutable repository and ledger, including the issuance retry loop, and
  the proof that an uncontended update of either route is a run of the protocol's steps.
- `PrnNumber`, `Pagination`, `IssuedTonnage`: number generation, cursor pagination of both adapters, tonnage by date range.

**Summary-log classification.** `RecordChanges`, `ReportPeriods`, `PeriodStatus` and `LoadCounts` model how an upload's
rows become signed tonnage legs split by reporting period and change, with capped row lists and a separately computed set
of closed periods. `PeriodResults` proves what each row adds to each period, conservation, agreement of the two computations, additivity and
order-independence. `Rounding` holds the two-decimal arithmetic.

**Two stateful matchers.** `AccreditationLinker` is the greedy pass linking registrations to accreditations of an
organisation. `OverseasSites` is the spreadsheet's row loop and the find-or-create loop against an insertion-ordered store.

`Wrappers`, `Decimals`, `Sequences` and `OrderedMaps` are helpers.

## What the proofs found

- Freshness is needed, because the internal route updates from the stored document. A writer that crashes between append
  and persist and is retried through that route appends its event twice: the ledger sets aside twice the PRN's tonnage
  (`StaleRuns.RetryAfterCrashReservesTwice`). A discard between another writer's append and persist succeeds and leaves
  tonnage set aside for a discarded PRN (`StaleRuns.DiscardRacingAnAppend`). It is also exactly what is needed
  (`Freshness.RunAgreesIffFresh`). In terms a writer could check: an append that takes its slot keeps agreement if and only
  if the request names the PRN's own ledger, no event of the PRN follows the watermark held and the PRN has not been
  discarded (`Freshness.AppendAgreesIffNothingMissed`); a discard that is written keeps it if and only if the ledger has no
  event of the PRN (`Freshness.DiscardAgreesIffNeverAppended`).
- The registration of a request is not compared with the PRN's, so an event can land in another ledger and end in the
  watermark regression the guards call a coding error (`StaleRuns.MisdirectedRequestRegresses`); and once such an event is
  committed, a request that names the right registration can end in it too (`StaleRuns.RequestAfterMisdirectedOneRegresses`).
  In every run a persist regresses if and only if the stored version is still the held one and the slot taken is behind the
  watermark held (`Interleavings.PersistRegressesIffSlotBehind`); a writer that compares the two before it appends never
  regresses, whatever the registrations (`Interleavings.SlotCheckPreventsRegressions`).
- update-status.js says a partial failure is recovered by the read-side catch-up. That is so for readers
  (`FreshRuns.OnlyAppendsMoveProjectedReads`), but over fresh runs no route ever carries the repair into the store: once a
  document is behind its ledger and no writer attends its stored version, the document is never written again and the PRN
  gains no further event (`ReadRepair.LaggingDocumentsStayBehind`), because the internal route holds the stored document and
  a producer can only move a document that is not behind. While a writer attends it, it can still be written, an issuance as
  long as a candidate number is free (`ReadRepair.AttendedDocumentsCanBeWritten`). `StaleRuns.CrashLeavesDocumentBehind`
  shows that an unattended lagging document is reached.
- No PRN command can overdraw a ledger, however stale or misdirected the write, because the ledger decides on its own
  balance under the slot guard. A later summary log can, when it lowers the credit below what is reserved or spent
  (`Solvency.OnlySummaryLogsOverdraw`).
- A projected read can show an issued status without a PRN number, exactly when the issuance was appended and never
  persisted (`ReadRepair.UnnumberedReadsAreUnpersistedIssuances`); a stored document never can.
- The adapters disagree on one input, a second document persisted with the empty string as its number: the in-memory
  guard skips it and the unique index does not (`MongoStore.PersistRefinesIffNoEmptyNumberClash`).
- With a page limit of zero and something to list, only the MongoDB adapter throws (`Pagination.AdaptersReturnTheSamePages`).
- Relinking releases accreditations it still counts as claimed, so a registration can miss out on one nobody holds
  (`AccreditationLinker.SecondMissesOut`). From the input alone: a registration moves if and only if it is tried and fewer
  of its class are tried before it than its class has unlinked unapproved accreditations
  (`AccreditationLinker.LinkChangesIffMoves`), and one that is tried and does not move misses out if and only if a matching
  unapproved accreditation was linked and every registration linked to it moves (`AccreditationLinker.MissesOutIffFreed`).
- Linking is not idempotent (`AccreditationLinker.LinkingIsNotIdempotent`). A pass leaves the links alone if and only if no
  registration it tries has a matching unapproved accreditation that nobody is linked to
  (`AccreditationLinker.PassIsStableIffSettled`), and `AccreditationLinker.LinkingIsIdempotentIff` says from the first
  pass's input when the second pass does.

## Assumptions

- Ledger and PRN amounts are whole hundredths of a tonne; the source uses exact decimals. Classification amounts are reals
  rounded where the source rounds.
- The MongoDB driver is an atomic find-and-update on a map with a sparse unique index on the PRN number, and stored PRN
  numbers are absent or non-null.
- Accreditation ids are distinct within an organisation, where the linker's counting results say so.
- An event carries the ledger's time and a discard the request's, as in the source. Clocks, random draws, fetched
  accreditations, date parsing, row projection and table classifiers are parameters. Ids are naturals; new ids do not repeat.

## Model

| member | source | states |
|---|---|---|
| `PrnModel.LegalHistoryNeverRepeats` | src/packaging-recycling-notes/domain/model.js:50-73 | no legal path of the transition table visits a status twice, and none is longer than five |
| `PrnModel.RoutesDivideTheTransitions` | src/packaging-recycling-notes/routes/status.js:39-43 | every permitted transition is open to exactly one of the internal route, with the actor it infers, and the producer's |
| `PrnModel.ValidationOrder` | src/packaging-recycling-notes/domain/model.js:146-160 | validation succeeds exactly for an actor the table lists and reports a status conflict exactly when the table has no such transition, whoever asks |
| `Interleavings.CommandReachesItsStatus` | src/packaging-recycling-notes/application/fold-prn-from-tail-events.js:9-33 | the event kind a transition's command commits folds back to that transition's target status |
| `Interleavings.CommandsFollowTheTable` | src/packaging-recycling-notes/application/update-status-balance-effects.js:54-79 | a transition has a balance command exactly when the table permits it and it is not the discard of a draft |
| `Ledger.LedgerRepository.RunPrnCommand` | src/waste-balances/application/waste-balance-service.js:121-145 | a command rejects and leaves every ledger alone, or appends exactly the decided event, of this PRN, amount, time and user, at the next slot; which of the two is decided by the balance as the next row states |
| `Ledger.CommitsExactlyWhen` | src/waste-balances/domain/commands.js:127-183 | a creation commits if and only if the ledger is non-empty and the amount is positive and within the available balance, an issuance likewise within the total balance, the other four whenever the ledger is non-empty and the amount positive; each refusal has its own error |
| `Ledger.CommandsNeverOverdraw` | src/waste-balances/domain/commands.js:127-183 | no command takes a non-negative available or total balance below zero |
| `Solvency.OnlySummaryLogsOverdraw` | src/waste-balances/domain/commands.js:127-183 | in every interleaving a step from ledgers in credit leaves them so if and only if it is not a summary log that takes back more credit than is left |
| `Solvency.NoLedgerIsOverdrawn` | src/waste-balances/application/waste-balance-service.js:121-145 | in every interleaving, stale, misdirected and crashed writes included, without such a summary log no balance is ever negative |
| `Ledger.LedgerRepository.AppendEvents` | src/waste-balances/repository/ledger-inmemory.js:91-127 | a batch is appended whole or fails, as a slot conflict or a sequence error, changing nothing |
| `Ledger.BatchAppliesIffGapFree` | src/waste-balances/repository/ledger-inmemory.js:91-127 | a batch applies if and only if it leaves the ledger numbered without gaps |
| `Ledger.EventsAfterAscending` | src/waste-balances/repository/ledger-inmemory.js:171-182 | the catch-up read returns exactly the PRN's events numbered above the watermark, in ascending order |
| `Ledger.EventsSplit` | src/waste-balances/application/waste-balance-service.js:248-271 | cutting a PRN's events at any number loses, repeats and reorders none |
| `PrnFold.FoldThrowsIffUnmappable` | src/packaging-recycling-notes/application/fold-prn-from-tail-events.js:39-90 | the fold throws exactly when some event maps to no status |
| `PrnFold.FoldMirrorsLastEvent` | src/packaging-recycling-notes/application/fold-prn-from-tail-events.js:39-66 | after a fold the stamps, current status, watermark and last history entry are the last event's: its time, its author's id and name, its number and its kind's status |
| `PrnFold.FoldHistory` | src/packaging-recycling-notes/application/fold-prn-from-tail-events.js:39-90 | the fold keeps the history it finds and appends one entry for each event, in order, with that event's status, time and author |
| `PrnFold.FoldRecordsSlots` | src/packaging-recycling-notes/application/fold-prn-from-tail-events.js:25-66 | each slot holds the time and author of the last event of the kind it records, or what it held before when there is none |
| `PrnFold.FoldFrame` | src/packaging-recycling-notes/application/fold-prn-from-tail-events.js:39-90 | the fold changes no identity, version, number or other field |
| `PrnFold.FoldConcat` | src/packaging-recycling-notes/application/fold-prn-from-tail-events.js:85-90 | folding a prefix and then the rest is folding everything |
| `PrnFold.CatchUpIsSplitIndependent` | src/packaging-recycling-notes/application/get-projected-prn.js:21-37 | a document that absorbed any prefix of its events catches up to the fold of all of them |
| `PrnStore.CommittedWriteAdvances` | src/packaging-recycling-notes/repository/inmemory.plugin.js:264-309 | a committed persist touches one document, moves its version on by one and never its watermark back |
| `PrnStore.UpdateStatusKeepsNumbersUnique` | src/packaging-recycling-notes/repository/inmemory.plugin.js:182-257 | no status update makes two documents share a number |
| `PrnStore.PersistKeepsNumbersUnique` | src/packaging-recycling-notes/repository/inmemory.plugin.js:264-309 | a persist keeps numbers unique if and only if it does not write a second empty number |
| `PrnStore.InMemoryPrnRepository.Create` | src/packaging-recycling-notes/repository/inmemory.plugin.js:49-55 | a document is stored under its new id, at the end of the insertion order, and nothing else changes |
| `PrnStore.InMemoryPrnRepository.FindByPrnNumber` | src/packaging-recycling-notes/repository/inmemory.plugin.js:36-43 | the first document in insertion order with the number, or none exactly when no document has it |
| `PrnStore.InMemoryPrnRepository.FindNumberClash` | src/packaging-recycling-notes/repository/inmemory.plugin.js:298-306 | the guard loop reports a clash exactly when another document has the number |
| `PrnStore.InMemoryPrnRepository.UpdateStatus` | src/packaging-recycling-notes/repository/inmemory.plugin.js:182-257 | outcome and stored documents are those of the reference semantics, guards in the source's order |
| `PrnStore.InMemoryPrnRepository.PersistProjection` | src/packaging-recycling-notes/repository/inmemory.plugin.js:264-309 | outcome and stored documents are those of the reference semantics, guards in the source's order |
| `PrnStore.InMemoryPrnRepository.Rollback` | src/packaging-recycling-notes/repository/inmemory.plugin.js:317-388 | outcome and stored documents are those of the reference semantics, guards in the source's order |
| `PrnStore.RollbackUndoesItsUpdate` | src/packaging-recycling-notes/repository/inmemory.plugin.js:317-424 | each of the three rollbacks restores status, slots and number to what they were before the update it is for, and records both moves |
| `MongoStore.GuardMeansReferenceChecks` | src/packaging-recycling-notes/repository/mongodb.js:267-275 | on every document the aggregation guard holds exactly when the version matches and the watermark does not regress |
| `MongoStore.UpdateStatusRefines` | src/packaging-recycling-notes/repository/mongodb.js:342-417 | status updates give the reference outcome, in the same precedence, and the same documents |
| `MongoStore.PersistRefinesIffNoEmptyNumberClash` | src/packaging-recycling-notes/repository/mongodb.js:425-472 | persists agree with the reference if and only if no second empty number is being written |
| `MongoStore.RollbackRefines` | src/packaging-recycling-notes/repository/mongodb.js:481-543 | rollbacks give the reference outcome and the same documents, for any slots to unset |
| `MongoStore.MongoPrnRepository.UpdateStatus` | src/packaging-recycling-notes/repository/mongodb.js:342-417 | the adapter's update, built field by field, has the reference outcome on the documents it stands for |
| `MongoStore.MongoPrnRepository.PersistProjection` | src/packaging-recycling-notes/repository/mongodb.js:425-472 | the adapter's persist has the reference outcome unless a second empty number is written, when it conflicts and changes nothing |
| `MongoStore.MongoPrnRepository.Rollback` | src/packaging-recycling-notes/repository/mongodb.js:481-543 | the adapter's rollback has the reference outcome on the documents it stands for |
| `PrnNumber.DecodeGenerated` | src/packaging-recycling-notes/domain/prn-number-generator.js:40-63 | every number decodes to the agency, operator, year digits, random part and suffix it was made from |
| `PrnNumber.GeneratedNumbersDetermineTheirParts` | src/packaging-recycling-notes/domain/prn-number-generator.js:40-63 | equal numbers come from equal parts and equal attempts |
| `PrnNumber.YearSuffixKeepsTwoDigits` | src/packaging-recycling-notes/domain/prn-number-generator.js:40-63 | the year digits are digits, at most two, and denote the year modulo a hundred |
| `PrnUpdate.IssuanceTakesTheFirstFreeNumber` | src/packaging-recycling-notes/application/update-status.js:92-121 | issuance is refused by the guards, or stores the otherwise unchanged projection under the first candidate nobody holds, or fails because all are taken |
| `PrnUpdate.PersistProjectionWithIssuanceRetry` | src/packaging-recycling-notes/application/update-status.js:92-121 | the loop over at most 27 attempts ends as that, and an error leaves the store unchanged |
| `PrnUpdate.IssuedNumberNamesThePrn` | src/packaging-recycling-notes/application/update-status.js:92-121 | the number an issuance stores reads back as the regulator's letter, the PRN's operator type and year, and one attempt's draw and suffix |
| `PrnUpdate.NotifyPrnCancelled` | src/packaging-recycling-notes/application/update-status.js:39-55 | one notice for each transition into a cancelled status and no other, naming the PRN, its organisation, its registration and the time in its issued slot |
| `PrnUpdate.PerformDiscardWrite` | src/packaging-recycling-notes/application/update-status.js:220-226 | a discard is the guarded status update, and a refused one changes nothing |
| `PrnUpdate.PerformStreamWrite` | src/packaging-recycling-notes/application/update-status.js:131-189 | the event-first write: nothing happens unless the command commits, and then the event stays whatever the persist does |
| `PrnUpdate.UpdatePrnStatus` | src/packaging-recycling-notes/application/update-status.js:248-346 | result, store, ledgers and notices of an uncontended update, for every document, request and failure |
| `PrnUpdate.SuccessMeans` | src/packaging-recycling-notes/application/update-status.js:148-189 | a successful update appended one event of the PRN's tonnage, the update's time and the request's user to the request's ledger and stored the document with it applied, one version on, stamped with that time and user; a discard touched no ledger and is stamped with the request's time and user |
| `PrnUpdate.SuccessNotifies` | src/packaging-recycling-notes/application/update-status.js:39-55 | a successful update raises one notice if it requests or completes a cancellation and otherwise none |
| `PrnUpdate.RefusalsMean` | src/packaging-recycling-notes/application/update-status.js:248-346 | each refusal is given if and only if its cause holds: ownership, no such transition, wrong actor, accreditation that cannot issue, ledger refusal; the missing-command error is never given |
| `PrnUpdate.FailureMeans` | src/packaging-recycling-notes/application/update-status.js:123-130 | a failed update changed no document and, unless its persist failed, no ledger; a failed persist leaves its one event |
| `PrnUpdate.UpdateRegressesIffSlotBehind` | src/packaging-recycling-notes/application/update-status.js:131-189 | an update ends in a watermark regression if and only if it reaches its write at the stored version and the next slot of the named ledger, or a discard's held watermark, is behind the stored watermark |
| `PrnUpdate.InternalUpdateIsARun` | src/packaging-recycling-notes/routes/status.js:158-182 | the internal route's update is a run of the protocol's steps from the stored document |
| `PrnUpdate.ExternalUpdateIsARun` | src/packaging-recycling-notes/routes/external-transition-handler.js:86-118 | the external route's update is a run of the protocol's steps from the projected document |
| `PrnUpdate.InternalUpdateKeepsNumbering` | src/packaging-recycling-notes/application/update-status.js:166-188 | from any reachable state the update leaves issued documents numbered, numbers unique and notices dated |
| `Interleavings.IssuedDocumentsAreNumbered` | src/packaging-recycling-notes/application/update-status.js:166-188 | in every interleaving with crashes, stored documents in an issued status have a number and an issued slot, numbers are unique, documents mirror their history, and every cancellation notice has its issue date |
| `Interleavings.EveryPersistAdvancesOrConflicts` | src/packaging-recycling-notes/repository/watermark-guard.js:22-24 | in every interleaving with matching registrations a persist that passes the version guard strictly advances the watermark; one that misses meets a newer version |
| `Interleavings.NeverAWatermarkRegression` | src/packaging-recycling-notes/repository/mongodb.js:292-334 | with matching registrations no writer ends in a regression, a missing document or a sequence error, and every missed write is diagnosed as a version conflict whenever the separate read happens |
| `Interleavings.PersistRegressesIffSlotBehind` | src/packaging-recycling-notes/repository/mongodb.js:267-334 | in every interleaving, any registrations, a persist meets a watermark regression if and only if the version is still the held one and the slot taken is behind the held watermark |
| `Interleavings.DiscardNeverRegresses` | src/packaging-recycling-notes/application/update-status.js:220-226 | in every interleaving a discard is written or meets a newer version |
| `Interleavings.SlotCheckPreventsRegressions` | src/packaging-recycling-notes/application/update-status.js:157-184 | if writers only take slots ahead of the watermark they hold, no run ends in a regression, whatever the registrations |
| `FreshRuns.DeletedSkipsNothing` | src/packaging-recycling-notes/application/get-projected-prn.js:22-36 | the short-circuit for deleted documents skips no event of a legal stream |
| `FreshRuns.FreshAppend` | src/packaging-recycling-notes/application/update-status.js:148-157 | a fresh append extends the PRN's legal stream by one event and leaves a projection that has absorbed it |
| `FreshRuns.DocumentsAgreeWithTheLedger` | src/packaging-recycling-notes/application/update-status.js:131-189 | in every fresh run, crashes allowed, stored documents are folds up to their watermark, projected reads folds of everything, histories legal, and discarded drafts have no event |
| `FreshRuns.OnlyAppendsMoveProjectedReads` | src/packaging-recycling-notes/application/get-projected-prn.js:48-75 | only appends and discards change what projected reads return; persists, retries and crashes are invisible |
| `FreshRuns.AppendShowsAtOnce` | src/packaging-recycling-notes/application/get-projected-prn.js:21-37 | a fresh append shows in the next projected read as the old read with the event applied |
| `Freshness.RunAgreesIffFresh` | src/packaging-recycling-notes/application/update-status.js:131-226 | an arbitrary run, crashes and any registrations allowed, ends in agreement if and only if every append that took its slot and every written discard was fresh |
| `Freshness.StepAgreesIffFresh` | src/packaging-recycling-notes/application/update-status.js:131-226 | from a fresh run any step leaves documents and ledger in agreement if and only if it is fresh |
| `Freshness.WritersHoldPrefixes` | src/packaging-recycling-notes/application/get-projected-prn.js:21-75 | in a fresh run whatever a writer holds is the fold of its draft over its events up to its watermark |
| `Freshness.AppendAgreesIffNothingMissed` | src/packaging-recycling-notes/application/update-status.js:148-184 | from a fresh run an append keeps agreement if and only if it goes to the PRN's own ledger, no event of the PRN follows the held watermark and the PRN is not discarded |
| `Freshness.DiscardAgreesIffNeverAppended` | src/packaging-recycling-notes/application/update-status.js:220-226 | from a fresh run a written discard keeps agreement if and only if the ledger has no event of the PRN |
| `Freshness.AppendStaysLegalIffComplete` | src/packaging-recycling-notes/domain/model.js:50-73 | an event permitted from a prefix of a legal stream extends the whole stream legally if and only if the prefix is all of it |
| `Freshness.OwnAppendSoundIffFresh` | src/packaging-recycling-notes/application/update-status.js:157-184 | an append to the PRN's own ledger leaves document and stream sound if and only if the writer held what a projected read returns |
| `Conservation.AppendConservesIffSharesMatch` | src/waste-balances/domain/ledger-closing-balance.js:37-65 | from a fresh run an append keeps its ledger balanced if and only if the tonnage the command moves is what the ledger's view of the PRN moves |
| `Conservation.CommandMovesItsShare` | src/waste-balances/domain/ledger-closing-balance.js:37-65 | each command moves the balances by exactly the tonnage its transition moves between holdings |
| `Conservation.TonnageIsConserved` | src/waste-balances/domain/commands.js:127-183 | in every fresh run total minus available is the tonnage shown awaiting authorisation, credits minus total the tonnage shown awaiting acceptance, accepted or awaiting cancellation |
| `Conservation.SettledPrnsNetToZero` | src/packaging-recycling-notes/application/fold-prn-from-tail-events.js:9-16 | with only draft, deleted, discarded and cancelled PRNs both balances equal the credit |
| `ReadRepair.LaggingDocumentsStayBehind` | src/packaging-recycling-notes/application/update-status.js:123-130 | once a document is behind its ledger and no writer attends its stored version, no fresh continuation ever writes it or appends to its PRN |
| `ReadRepair.AttendedDocumentsCanBeWritten` | src/packaging-recycling-notes/application/update-status.js:92-121 | a document a writer attends at its stored version has a fresh continuation that writes it, as long as an issuance has a free candidate number |
| `ReadRepair.UnnumberedReadsAreUnpersistedIssuances` | src/packaging-recycling-notes/application/get-projected-prn.js:68-75 | a projected read in an issued status lacks a number if and only if the stored document is not in one |
| `StaleRuns.CrashLeavesDocumentBehind` | src/packaging-recycling-notes/application/update-status.js:123-130 | a fresh run with one crash reaches a document that is behind and unattended |
| `StaleRuns.RetryAfterCrashReservesTwice` | src/packaging-recycling-notes/routes/status.js:158-182 | a crash retried from the stored document reserves one PRN's tonnage twice and breaks its history |
| `StaleRuns.DiscardRacingAnAppend` | src/packaging-recycling-notes/application/update-status.js:220-226 | a discard racing an append leaves tonnage reserved for a discarded PRN |
| `StaleRuns.MisdirectedRequestRegresses` | src/packaging-recycling-notes/application/update-status.js:328-346 | a request naming another registration ends in a watermark regression |
| `StaleRuns.RequestAfterMisdirectedOneRegresses` | src/packaging-recycling-notes/application/update-status.js:328-346 | after a misdirected event is committed, a request naming the PRN's own registration ends in a watermark regression |
| `Pagination.FilterDocumentMeansFilter` | src/packaging-recycling-notes/repository/mongodb.js:196-225 | the MongoDB filter document selects exactly what the in-memory filter does |
| `Pagination.AdaptersReturnTheSamePages` | src/packaging-recycling-notes/repository/mongodb.js:232-256 | both adapters return the same page if and only if the limit is at least one or nothing matches |
| `Pagination.MatchingIsExact` | src/packaging-recycling-notes/repository/inmemory.plugin.js:127-175 | the listing is every matching document once, in id order |
| `Pagination.CursorVisitsEachMatchOnce` | src/packaging-recycling-notes/repository/inmemory.plugin.js:155-175 | following nextCursor with a limit of at least one visits every match exactly once in id order and ends |
| `IssuedTonnage.EveryInstantHasOneDay` | src/common/helpers/date-formatter.js:85-98 | the expanded days leave no gap and no overlap |
| `IssuedTonnage.IssuedTonnageByDay` | src/packaging-recycling-notes/application/get-issued-tonnage.js:24-51 | the figure is the tonnage of the accreditation's issued PRNs, neither deleted nor cancelled nor awaiting cancellation, whose issued slot holds a time on a day of the range |
| `IssuedTonnage.AdjacentRangesAddUp` | src/packaging-recycling-notes/domain/tonnage.js:26-38 | any chain of adjacent ranges adds up to the whole stretch |
| `IssuedTonnage.MonthsAddUp` | src/packaging-recycling-notes/application/get-issued-tonnage.js:35-50 | any run of months of a year adds up to the range it covers |
| `IssuedTonnage.QuarterIsItsThreeMonths` | src/packaging-recycling-notes/application/get-issued-tonnage.js:35-50 | three months are exactly their quarter |
| `IssuedTonnage.YearsHoldTheirDays` | src/packaging-recycling-notes/application/get-issued-tonnage.js:35-50 | the months of a year hold 365 days, or 366 in a leap year |
| `Rounding.RoundingIsOdd` | src/common/helpers/decimal-utils.js:67-69 | rounding is odd |
| `Rounding.RoundingIsMonotone` | src/common/helpers/decimal-utils.js:67-69 | rounding is monotone |
| `Rounding.RoundingIsNearest` | src/common/helpers/decimal-utils.js:67-69 | rounding moves a value by at most 0.005, and a half away from zero |
| `Rounding.FixedPointsAreTwoPlaces` | src/common/helpers/decimal-utils.js:67-69 | the fixed points are exactly the two-decimal values, and rounding is idempotent |
| `Rounding.RoundedSumError` | src/common/helpers/decimal-utils.js:93-95 | a round-each-then-sum of n values is within 0.005n of the sum, and exact on two-decimal values |
| `Rounding.MergedLegDiffersByAHundredth` | src/application/summary-logs/period-status.js:264-281 | a merged leg differs from its split legs by at most 0.01, and by nothing on two-decimal values |
| `Rounding.AcceptsExactlyTwoPlaces` | src/common/helpers/rounded-tonnage.js:30-55 | a tonnage is accepted, unchanged, exactly when absent or of two decimal places |
| `Rounding.TonnagesAreClosed` | src/common/helpers/rounded-tonnage.js:69-82 | accepted tonnages stay acceptable through addition and subtraction |
| `ReportPeriods.PeriodCoversItsMonths` | src/reports/domain/period-for-date.js:26-32 | a period is exactly the run of months it should cover |
| `ReportPeriods.PeriodsOfAMonth` | src/reports/domain/period-for-date.js:26-32 | a monthly period is the month, quarter p is the months 3p - 2 to 3p, and the period's year is the date's |
| `ReportPeriods.PeriodKeyIsInjective` | src/reports/domain/period-key.js:13-14 | period keys never collide |
| `ReportPeriods.SubmittedSetIsExact` | src/reports/domain/submitted-periods.js:25-59 | the keyed set answers exactly whether the date's own period was submitted |
| `ReportPeriods.BuildSubmittedPeriods` | src/reports/domain/submitted-periods.js:25-42 | the loop builds exactly the keys of the submitted slots |
| `RecordChanges.ClassifyRecordChanges` | src/application/summary-logs/classify-record-changes.js:33-67 | one change for each key of the upload and no other, from the last row with that key: added if and only if nothing was submitted for it, unchanged if and only if it projects to what was, adjusted if and only if it projects to something else |
| `RecordChanges.RecordKeyIsInjective` | src/application/summary-logs/classify-record-changes.js:33-67 | keys never collide, because no record type contains a colon |
| `RecordChanges.LookupNeverThrows` | src/application/summary-logs/record-change.js:25-32 | for any upload the lookup of any of its rows succeeds |
| `RecordChanges.ChangesAreDetermined` | src/application/summary-logs/classify-record-changes.js:33-67 | that property determines the map |
| `RecordChanges.ReuploadIsUnchanged` | src/application/summary-logs/classify-record-changes.js:50-63 | every row reads as unchanged if and only if the last row with each key projects to what was submitted |
| `PeriodStatus.ClassifyAdjustedRecord` | src/application/summary-logs/period-status.js:256-282 | one leg for each period the old or new dates fall in, worth the rounding of the new amount, if the new dates fall there, less the old amount, if the old ones do |
| `PeriodResults.RowLegsByPeriod` | src/application/summary-logs/period-status.js:256-300 | a row has exactly one leg in each period its new or, if adjusted, old data fall in, worth what the period gains less what it loses, rounded once |
| `PeriodStatus.ReduceEntries` | src/application/summary-logs/period-status.js:312-341 | each of the four bucket pairs holds exactly its legs: counts, rounded totals and first hundred rows |
| `PeriodStatus.ClassifyByPeriodStatus` | src/application/summary-logs/period-status.js:425-504 | throws exactly when some row was never classified, and otherwise is the classification the results below speak of |
| `PeriodResults.AdjustedLegsConserve` | src/application/summary-logs/period-status.js:256-282 | whether or not a row crosses periods, its legs add up to its net change |
| `PeriodResults.TonnageIsConserved` | src/application/summary-logs/period-status.js:231-407 | the four totals add up to the rows' net changes, exactly on two-decimal amounts and within half a hundredth a leg otherwise |
| `PeriodResults.TotalsAreTheirShares` | src/application/summary-logs/period-status.js:231-407 | each of the four balance-affecting totals is the sum over the rows of what each adds to that period with that change |
| `PeriodResults.BucketsHoldTheirRows` | src/application/summary-logs/period-status.js:300-341 | each bucket counts the rows that count in its period with its change, split by whether they add anything, and lists the first hundred with their shares and reasons |
| `PeriodResults.ClosedPeriodsAreExact` | src/application/summary-logs/period-status.js:124-180 | closedPeriods lists each submitted period that some date of a changed row's new or replaced data falls in, once, and no other |
| `PeriodResults.ClosedPeriodsMatchCounts` | src/application/summary-logs/period-status.js:434-503 | closedPeriods is non-empty if and only if some closed-period count is positive |
| `PeriodResults.ClassificationIsAdditive` | src/application/summary-logs/period-status.js:425-504 | two uploads together have the sums, joined rows and merged closed periods of each |
| `PeriodResults.TalliesIgnoreOrder` | src/application/summary-logs/period-status.js:425-504 | counts and totals do not depend on the order of the rows |
| `PeriodResults.ClosedPeriodsIgnoreOrder` | src/application/summary-logs/period-status.js:425-504 | nor does the set of closed periods |
| `PeriodResults.BucketsListTheirRows` | src/application/summary-logs/period-status.js:300-328 | a bucket lists the first hundred of the rows it counts, and zero deltas only as not balance-affecting |
| `PeriodResults.ReuploadClassifiesNothing` | src/application/summary-logs/period-status.js:442-453 | uploading the same rows again gives the empty result |
| `LoadCounts.ValidityCountsAreExact` | src/application/summary-logs/load-counts.js:86-109 | validity counts are exactly the non-ignored rows by change and issues, listing the first hundred ids |
| `LoadCounts.InclusionCountsAreExact` | src/application/summary-logs/load-counts.js:121-145 | inclusion counts are exactly the rows by change and outcome, less ignored unchanged ones |
| `LoadCounts.ClassifyLoads` | src/application/summary-logs/classify-and-persist.js:58-117 | composing the three classifications never throws, for any validated upload, and each change's four lists are the rows with it that are valid, invalid, included and excluded |
| `LoadCounts.MergedCategoriesAreExact` | src/application/summary-logs/load-counts.js:86-162 | each of the twelve lists of the merged counts holds exactly its rows, by change, issues and outcome |
| `LoadCounts.ReuploadCountsNothing` | src/application/summary-logs/load-counts.js:86-162 | uploading the same rows again counts nothing as added or adjusted |
| `AccreditationLinker.MatchMeansEqualFields` | src/forms-submission-data/submission-keys.js:64-77 | the counted comparison means having the same fields with the same defined values; `MatchMeansSameIdentity` says what that is |
| `AccreditationLinker.MatchMeansSameIdentity` | src/forms-submission-data/submission-keys.js:31-77 | two items match if and only if type and material are equal, reprocessors have equal postcodes, the reprocessing types are equal or both blank, and glass has the same single process on both sides or a single process on neither |
| `AccreditationLinker.KeyFormat` | src/forms-submission-data/submission-keys.js:31-77 | the documented format of the key |
| `AccreditationLinker.MatchingIsAPartialEquivalence` | src/forms-submission-data/submission-keys.js:64-77 | matching is symmetric and transitive |
| `AccreditationLinker.MatchesItselfIffLocated` | src/forms-submission-data/submission-keys.js:41-56 | only a reprocessor without a postcode fails to match itself, and it matches nothing |
| `AccreditationLinker.MatchImpliesEqualKeys` | src/forms-submission-data/submission-keys.js:31-33 | items that match have the same key |
| `AccreditationLinker.EligibleMeansTakeable` | src/forms-submission-data/link-form-submissions.js:150-159 | eligible means unapproved, unclaimed and of the registration's own identity |
| `AccreditationLinker.PickIsLatestEligible` | src/forms-submission-data/link-form-submissions.js:150-168 | the pick is eligible and none eligible is later; there is none only when nothing is eligible |
| `AccreditationLinker.PickIsFirstOfItsTime` | src/forms-submission-data/link-form-submissions.js:150-168 | of the eligible accreditations of the latest time the pick is the one listed first |
| `AccreditationLinker.LinkedToApprovedMeans` | src/forms-submission-data/link-form-submissions.js:173-180 | a link counts as approved if and only if it names an approved accreditation |
| `AccreditationLinker.ClaimAccreditationForRegistration` | src/forms-submission-data/link-form-submissions.js:196-227 | one registration takes the pick and claims it, or nothing changes |
| `AccreditationLinker.LinkAccreditationsForOrg` | src/forms-submission-data/link-form-submissions.js:229-250 | the mutating pass computes exactly the links of the specified pass |
| `AccreditationLinker.LinksStayInjective` | src/forms-submission-data/link-form-submissions.js:192-250 | links stay one to one within the organisation |
| `AccreditationLinker.EachLinkIsKeptOrLatest` | src/forms-submission-data/link-form-submissions.js:173-227 | links to approved accreditations never change; new links go to unapproved, matching, unclaimed, latest ones |
| `AccreditationLinker.TriedAndUnlinkedHasNothingLeft` | src/forms-submission-data/link-form-submissions.js:229-247 | a registration tried and left as it was has nothing eligible unclaimed at the end |
| `AccreditationLinker.LinkChangesIffMoves` | src/forms-submission-data/link-form-submissions.js:192-250 | from the input alone: a registration moves if and only if it is tried and its class has more unlinked unapproved accreditations than registrations tried before it |
| `AccreditationLinker.MissesOutIffFreed` | src/forms-submission-data/link-form-submissions.js:192-250 | a registration tried and not moved misses out if and only if a matching unapproved accreditation was linked and every registration linked to it moves |
| `AccreditationLinker.SecondMissesOut` | src/forms-submission-data/link-form-submissions.js:192-250 | of two alike registrations the second ends without a link although a matching accreditation ends unlinked |
| `AccreditationLinker.PassIsStableIffSettled` | src/forms-submission-data/link-form-submissions.js:192-250 | a pass leaves the links alone if and only if no registration it tries has an unlinked choice |
| `AccreditationLinker.LinkingIsIdempotentIff` | src/forms-submission-data/link-form-submissions.js:192-250 | a second pass changes nothing if and only if, in the first pass's input, no class with a tried registration has more unlinked unapproved accreditations than tried registrations, or one the pass frees |
| `AccreditationLinker.LinkingIsNotIdempotent` | src/forms-submission-data/link-form-submissions.js:192-227 | a second pass moves the link when two accreditations match |
| `OverseasSites.MatchingIsSharingAClass` | src/overseas-sites/repository/inmemory.plugin.js:73-114 | sites match exactly when they share a class of nullish-equal properties and neither date is invalid |
| `OverseasSites.FirstMatchIsFirst` | src/overseas-sites/repository/inmemory.plugin.js:120-127 | the finder returns the first match in insertion order, or none exactly when nothing matches |
| `OverseasSites.OverseasSitesRepository.FindByProperties` | src/overseas-sites/repository/inmemory.plugin.js:120-127 | the loop over the store computes that first match |
| `OverseasSites.OverseasSitesRepository.Create` | src/overseas-sites/repository/inmemory.plugin.js:33-39 | a valid site is appended under a new id; a rejected one changes nothing |
| `OverseasSites.FindOrCreateOverseasSites` | src/overseas-sites/application/process-import-file.js:122-153 | the import runs up to the first row that can be neither found nor created; there it throws and keeps what it created |
| `OverseasSites.CreatesOnePerNewClass` | src/overseas-sites/application/process-import-file.js:122-153 | an import creates exactly one site for each distinct class not already stored |
| `OverseasSites.CreatedSitesHoldTheirRows` | src/overseas-sites/application/process-import-file.js:122-153 | every site an import creates holds one of its parsed sites, field by field, with no empty text and a valid date |
| `OverseasSites.MappingNamesFirstMatches` | src/overseas-sites/application/process-import-file.js:136-149 | each id maps to the first stored site matching the last row with that id, and no other id is mapped |
| `OverseasSites.MappedTogetherIffSameClass` | src/overseas-sites/application/process-import-file.js:136-149 | two ids map to the same stored site if and only if their last rows share a class |
| `OverseasSites.ImportIsIdempotent` | src/overseas-sites/application/process-import-file.js:122-153 | importing the same rows again creates nothing and returns the same map |
| `OverseasSites.RetryStopsAtTheSameRow` | src/overseas-sites/application/process-import-file.js:127-150 | a stopped import run again stops at the same row and creates nothing |
| `OverseasSites.OnlyInvalidDatesStop` | src/overseas-sites/application/process-import-file.js:128-134 | when no text is empty an import is stopped exactly by an invalid date |
| `OverseasSites.ZeroPadIsInjective` | src/overseas-sites/parsers/ors-spreadsheet-parser.js:95-98 | padded ids have three digits and never collide |
| `OverseasSites.ParseRows` | src/overseas-sites/parsers/ors-spreadsheet-parser.js:193-230 | the loop yields the first accepted row for each id, every error is about a rejected row or a repeated id, and there is none exactly when no row is rejected and no id repeats |
| `OverseasSites.ParsedIdsAreDistinct` | src/overseas-sites/parsers/ors-spreadsheet-parser.js:193-230 | parsed ids are distinct, whatever the sheet |
| `OverseasSites.SheetMapsOneToOne` | src/overseas-sites/application/process-import-file.js:76-98 | a sheet imports into one map entry for each of its sites |

## Left out

- HTTP plumbing, authentication, request schemas, logging, audit, metrics, queues, storage and configuration: input and output only.
- Failures of the notification and metrics calls after a committed update: best effort, without effect on the document.
- Row-state writes and the historical backfill of the ledger.
- Index creation, read validation and cloning of documents; aggregation pipelines for tonnage monitoring.
- The `details` of a PRN (material, issuer notes and the like): carried along unread.
- The rollback operations as protocol steps: no caller uses them, so they appear only in the repository, with what they undo and the adapter refinement.
- `Interleavings.NeverAWatermarkRegression`: assumes requests name the PRN's own registration; without that it is false, exactly as `Interleavings.PersistRegressesIffSlotBehind` says.
- `FreshRuns.DocumentsAgreeWithTheLedger`: assumes a fresh run; any other run ends in disagreement, by `Freshness.RunAgreesIffFresh`.
- `Conservation.TonnageIsConserved`: assumes a fresh run; `Conservation.AppendConservesIffSharesMatch` has the exact condition for the first append that is not fresh.
- `OverseasSites.OnlyInvalidDatesStop`: rows with an empty text are excluded, because the spreadsheet parser never yields one.
- Dates that are not ISO calendar dates and years that are not naturals in the period classification.
- The upload statuses other than validated, for which no loads are classified, and missing registrations.
- Form-field mapping, address and CSV formatting, system-reference linking of forms to organisations, and every log message of the linker.
- Postcode normalisation and string forms of overseas-site ids such as exponents: postcodes are taken normalised, ids as the integers 1 to 999.
- Worksheet access, cell conversion and the metadata rows of the overseas-sites spreadsheet.
- Floating-point noise in running totals: sums are exact between the points where the source rounds.
