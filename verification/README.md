# Record classification, its pipeline and its evidence: a Dafny model

This project models the part of the speedcubing record service that decides which results are
records, and the parts that feed it, and proves what the rest of the service relies on.

* **Classification.** Every (event, kind, level, scope) has a live cell, a baseline cell and a timeline
  of current valid results ordered by the key (time, result, revision). `Classification` describes what each
  transaction does to the tables as functions over a `Store`; `ClassificationService.Classifier` is the
  service itself, a class over mutable maps whose loops and branches follow the source and whose methods
  are proved to leave exactly those stores. `Adjudication` holds the three passes (same round, same day,
  holders and breakers), `Replay` what a replay of a sorted timeline leaves. `TimelineProofs`, `SettledProofs`,
  `RunProofs`, `ArrivalProofs`, `HistoryProofs`, `BaselineProofs`, `RerunProofs` and `NestingProofs` relate the
  incremental path, the repair path, the rebuild from scratch and the baseline refresh.
* **The asynchronous pipeline.** `Pipeline` is a step system with any number of workers: revisions are
  appended with their work, and workers claim, load, materialise, decide, save, commit, settle, fail, crash or lose
  leases in any interleaving. `WorkQueue` and `PipelineProofs` prove its safety; `PipelineRuns`, `Schedules` and `EscapeProofs`
  construct the runs that show where it ends. `WorkService.Worker` is the worker loop with its failing attempts, proved to be a run
  of the step system. `Counterexamples` holds concrete inputs for which the guarantee without its condition fails.
* **Reconciliation.** `Evidence`, `Reconciliation`, `LedgerProofs` and `LedgerRuns` model how claims are merged into canonical
  results and when a revision is frozen; `PublishedLog` proves that the log this writes, over any run, is one the pipeline's
  appends produce and the classifier's guarantees assume, and `JointRuns` runs both together: what the live cells of a quiet queue
  say about the evidence. `EvidenceService.EvidenceStore` is the service over mutable tables.
* **Validation.** `RecordValidation` and `ValidationProofs`: which results a scope refresh selects, and validating them one by one
  and in batches.
* **CubingChina ingestion.** `Finalization`, `CubingChina`, `RoundFeed`, `Postings`, `RoundIngestion` and `FeedToLedger`: one round's
  stored rows follow its feed, `RoundIngestion.Round` moves the posted evidence along with them, and `FeedToLedger` runs
  deliveries together with the ledger and every other transaction on it.
* **Push delivery.** `Delivery`, `DeliveryProofs` and `DeliveryService`.
* **Result values.** `ResultValues`: the ranking order and the multi-blind encoding.

Specifications are stated over sets of rows (`RecordOrder.Best` is the least of a baseline and the values of
a set), so they never mention the order in which a loop visits anything; the loops are proved against them.

## How the source is read

* A `transaction.atomic` block is one step. `StaleRevision` restores the tables, so the commit step either writes
  everything or nothing. In the pipeline the reads that happen outside a transaction (loading the claim, the
  out-of-order test) and each save of a historical row are steps of their own.
* The out-of-order test queries up to four timelines, World first. Every current row of an event and kind is on its World
  timeline, so the queries answer together what the test on the tables of one moment does (`PipelineProofs.QueriesAnswerAsOne`), and
  the test is one step.
* A claim of the step system may take any claimable item, not only the first in queue order: the source skips rows locked by
  claims in flight, and such a claim may still be rolled back. `EscapeProofs.AlwaysRightExactly` holds as well for the runs in
  which every claim takes the first claimable item by creation time and id.
* A NULL cell and a missing record row are the same: an absent key. The WCA baseline, the country table, the
  snapshot of official records, competition-local dates and the clock are parameters.
* `_affected_scopes` reads the immediately preceding revision only, and an absorbed revision returns before any repair.
  The claim that a quiet queue always leaves the right live cells is therefore false of the code without a condition: if
  a result moves from scope X to Y to Z and the middle revision is overtaken before it is classified, nothing repairs X.
  `PipelineProofs.QuiescentLiveIsBestOfHeads` proves the claim under `NothingEscapes`, a condition on the log and the order of
  arrivals alone: every overtaken valid revision that beats the right value is replayed away by some head, of any result, that
  reaches the cell and arrived no earlier than the revision that overtook it: a correction, or a first revision whose key comes
  before that of a valid correction of the cell. Such a first revision is either found out of order, or the correction commits after
  the overtaking and replays the cell itself. `EscapeProofs.AlwaysRightExactly` proves the condition exact for any arrivals of any
  number of results, by constructing the run that goes wrong whenever it fails. `PipelineProofs.FixedScopesNeverEscape` proves
  that results whose scopes and absorption never change meet it; `Counterexamples.ChineseRecordStays` and
  `Counterexamples.MovedGoesWrong` are failing inputs, and `Counterexamples.LatecomerMakesRight` adds one late first revision
  to the second, after which no run fails.
  `HistoryProofs.AbsorbedCorrectionExactly` gives the exact condition for the other excluded case, with
  `Counterexamples.AbsorbedCorrectionGoesWrong` as its input.
* Classifying a revision that is already folded in compares it with itself: `RerunProofs.RerunIsIdentityExactly`.
* A payload that was already processed is skipped even if another came in between:
  `RoundFeed.AlwaysOverlaidExactly`, with the input `RoundFeed.ReinstatedResultIsLost`.
* Reclaiming a timed-out delivery checks no maximum: `DeliveryProofs.AttemptsAreAccounted` bounds the attempts by the
  maximum (at least one) plus the timeouts, and `AttemptBoundIsTight` reaches that bound for every maximum, every
  positive timeout and every number of timeouts, with the clock running.

Run `dafny verify dfyconfig.toml` to check the project.

## Model

| member | source | states |
|---|---|---|
| RecordOrder.BestWith | backend/apps/records/classification.py:265-270 | folding one more row into a set's best value is the one strict comparison against the incumbent, null incumbents included |
| RecordOrder.SortedIsUnique | backend/apps/records/classification.py:70-75 | the classification key is a total order: any two sorted lists of the same rows are the same list |
| Adjudication.Adjudicate | backend/apps/records/classification.py:318-447 | the passes over round groups, day groups, value counts, holders and breakers leave every row of the timeline with exactly the recognition, tie, holder, breaker and superseder that the set of qualifying rows defines, and touch no other row |
| Adjudication.FindBreaker | backend/apps/records/classification.py:404-416 | the scan for a breaker finds the earliest later strictly better recognised row, or none when there is none |
| Adjudication.BestOfGroup | backend/apps/records/classification.py:348-383 | the row kept in a group is the best value, the earliest among equals |
| Replay.RecognitionExactly | backend/apps/records/classification.py:328-383 | after a replay a row is recognised iff it qualifies and no qualifying row of its round or day is strictly better; round supersession takes precedence over day supersession |
| Replay.SupersessionEnd | backend/apps/records/classification.py:348-383 | following superseded_by strictly lowers the value and ends at a recognised row |
| Replay.SupersederIsGroupBest | backend/apps/records/classification.py:348-383 | superseded_by names the best row of the round or day that did the superseding |
| Replay.HoldsExactlyAtLiveValue | backend/apps/records/classification.py:385-431 | a timeline row holds the record iff its value is the live value |
| Replay.HoldersExistExactly | backend/apps/records/classification.py:385-431 | somebody holds the record iff some row is at or below the baseline, or there is no baseline |
| Replay.NonHolderNamesBreaker | backend/apps/records/classification.py:401-431 | every recognised non-holder names the earliest later, strictly better, recognised row and the matching ceased reason; the branch without a breaker is unreachable |
| TimelineProofs.IncrementalIsRepair | backend/apps/records/classification.py:464-512 | for a new last row the incremental path leaves exactly the tables the full repair of the extended timelines leaves, re-adjudicated older rows included |
| TimelineProofs.RepairCell | backend/apps/records/classification.py:515-579 | a repaired cell and all its level rows are what one replay gives; a cell outside the repair keeps whatever consistency it had |
| SettledProofs.MaterializedRows | backend/apps/records/classification.py:223-262 | projecting a revision adds it to exactly the timelines it belongs to and removes no current row |
| SettledProofs.ClassifyKeepsConsistent | backend/apps/records/classification.py:650-697 | classifying any logged revision for the first time, head, stale or absorbed, keeps every cell and current level row equal to a replay |
| RunProofs.RebuildIsReplayOfHeads | backend/apps/records/classification.py:700-714 | whatever superseded, retracted or absorbed revisions the log holds, and in whatever order they are classified, the rebuild leaves every live cell and current level row exactly as one replay of the head revisions over the baseline |
| ArrivalProofs.ArrivalOrderIsReplay | backend/apps/records/classification.py:450-579 | classifying first revisions once each, in any order, leaves the tables one replay of the touched timelines leaves: live cells, outcomes, incumbents, recognition, holders, breakers at all levels |
| ArrivalProofs.ArrivalOrdersAgree | backend/apps/records/classification.py:450-579 | any two arrival orders of the same results leave identical tables |
| HistoryProofs.HistoryIsReplayOfHeads | backend/apps/records/classification.py:582-604 | after any sequence of first revisions, corrections and retractions classified in turn, every live cell and current level row is one replay of the current heads |
| HistoryProofs.RetractionRestores | backend/apps/records/classification.py:515-604 | retracting a settled result restores every live cell, timeline and other result's level rows to what they would be had it never been observed |
| HistoryProofs.AbsorbedCorrectionExactly | backend/apps/records/classification.py:665-670 | after a correction into an absorbed competition the live cell is wrong iff the old revision alone beat the baseline and every other row |
| Counterexamples.LateMatchGoesWrong | backend/apps/records/classification.py:665-670 | a first result matched afterwards to an absorbed competition leaves its value live in every cell without a baseline that it had, although nothing counts there |
| Counterexamples.AbsorbedCorrectionGoesWrong | backend/apps/records/classification.py:665-670 | a concrete settled store in which the world record stays at 5.00 after such a correction |
| RerunProofs.RerunIsIdentityExactly | backend/apps/records/classification.py:485-507 | running the incremental path again on a folded last row changes nothing iff the row broke no record |
| RerunProofs.RerunDowngradesBreak | backend/apps/records/classification.py:485-507 | a second run turns a BROKEN outcome into TIED |
| BaselineProofs.RefreshIsBestOfHeads | backend/apps/records/classification.py:717-735 | after a baseline refresh every live cell is the best of the new baseline and the current unabsorbed heads, whatever was live before and whichever heads had been classified |
| NestingProofs.LiveCellsNest | backend/apps/records/classification.py:60-67 | with a nested baseline and a fixed country per competitor, settled live cells satisfy WR <= CR <= NR <= PR |
| NestingProofs.QuietLiveCellsNest | backend/apps/records/classification.py:60-67 | so do the live cells of a quiet pipeline after any interleaving in which no better revision escaped the narrower scope |
| NestingProofs.OutcomesNest | backend/apps/records/classification.py:464-579 | replayed outcomes nest: broken at a wider level is broken at the narrower one, tied at the wider level is tied or broken below |
| ClassificationService.Classifier.AdjudicateTimeline | backend/apps/records/classification.py:318-447 | leaves exactly the tables with this one timeline re-judged from its stored outcomes |
| ClassificationService.Classifier.RepairTimeline | backend/apps/records/classification.py:515-579 | leaves exactly the tables with this one timeline replayed from its baseline; an unnamed scope changes nothing |
| ClassificationService.Classifier.Materialize | backend/apps/records/classification.py:223-262 | writes the projection, creates the missing level rows and retires older projections, and nothing else |
| ClassificationService.Classifier.IsOutOfOrder | backend/apps/records/classification.py:450-461 | answers exactly whether some current row of one of the revision's timelines has a later key |
| ClassificationService.Classifier.ClassifyIncremental | backend/apps/records/classification.py:464-512 | each level is compared with its original live cell, strict improvements advance it, and exactly the named timelines are re-judged |
| ClassificationService.Classifier.ClassifyStaleHistorical | backend/apps/records/classification.py:607-647 | writes only the revision's own level rows, from the earlier projections of its scopes, and no live cell |
| ClassificationService.Classifier.AffectedScopes | backend/apps/records/classification.py:582-604 | returns the named scopes of the revision and of the one just before it |
| ClassificationService.Classifier.ClassifyRevision | backend/apps/records/classification.py:650-697 | leaves exactly the classified store on every branch and returns whether the revision is the head |
| ClassificationService.Classifier.RebuildFromScratch | backend/apps/records/classification.py:700-714 | classifies the whole log once in key order over the reseeded baseline and leaves every live cell the best of baseline and heads |
| ClassificationService.Classifier.RebuildAfterBaselineRefresh | backend/apps/records/classification.py:717-735 | classifies exactly the current unretracted unabsorbed heads in key order and leaves every live cell the best of the new baseline and those heads |
| WorkQueue.ItemsAreSettledPrefix | backend/apps/records/classification_work.py:40-60 | a disciplined queue holds, per result, a settled prefix, then at most one item attempted and unsettled, then untouched pending items |
| PipelineProofs.ItemsStayInOrder | backend/apps/records/classification_work.py:30-142 | that shape holds in every reachable state, however workers interleave, fail or lose leases |
| PipelineProofs.OnlyHolderSettles | backend/apps/records/classification_work.py:98-121 | an item is settled only by the worker still holding its lease, with the verdict of that worker's own classification |
| PipelineProofs.SettledIsFinal | backend/apps/records/classification_work.py:30-142 | a settled item never changes again in any run |
| PipelineProofs.VerdictsAreTrue | backend/apps/records/classification_work.py:98-121 | STALE implies a newer revision; with nothing unsettled every head's work is COMPLETED |
| PipelineProofs.QuiescentLiveIsEnclosed | backend/apps/records/classification.py:650-697 | over every interleaving, with nothing unsettled a live cell is never worse than the best of baseline and heads, and never better than that best together with the revisions that escaped repair: overtaken, and followed by no head that reaches the cell and is a correction or stands before one |
| PipelineProofs.QuiescentLiveIsBestOfHeads | backend/apps/records/classification.py:650-697 | unless an overtaken revision better than the right value escapes, the quiet live cell is exactly the best of its baseline and the current valid unabsorbed heads of its scope |
| PipelineProofs.FixedScopesNeverEscape | backend/apps/records/classification.py:582-604 | in every reachable state, if corrections keep the scopes and absorption of their results, no revision escapes |
| EscapeProofs.AlwaysRightExactly | backend/apps/records/classification.py:450-604 | for any arrivals of any number of results, with the out-of-order test read off the tables: every run of any workers ends with the right live value iff every overtaken valid revision that beats it is followed by some unabsorbed head, of any result, that reaches the cell, arrived no earlier than the overtaking revision, and is a correction or has a key before that of a valid correction of the cell; and iff every run does in which each claim takes the first claimable item in queue order |
| EscapeProofs.EscapingRun | backend/apps/records/classification.py:450-604 | otherwise some run with one worker per result and every claim in queue order keeps the revision's value live: before the overtaking it settles the revision, the corrections of the cell and the first revisions before them, after the last arrival the other first revisions of the cell in key order, and then everything else |
| PipelineProofs.QueriesAnswerAsOne | backend/apps/records/classification.py:450-461 | whatever other workers do between the level queries of the out-of-order test, their answer is that of the whole test on the tables at the moment of one of them |
| Counterexamples.HoppingGoesWrong | backend/apps/records/classification.py:582-604 | any result that moves from one country to a second and a third, neither the first again, can leave the first country's record standing with nobody behind it |
| Counterexamples.ChineseRecordStays | backend/apps/records/classification.py:582-604 | a concrete instance: China, then the USA, then France, over an empty baseline |
| Counterexamples.MovedGoesWrong | backend/apps/records/classification.py:582-604 | a result leaves a country after another result of that country was corrected: some run leaves its value standing as the record |
| Counterexamples.LatecomerMakesRight | backend/apps/records/classification.py:450-461 | one more first revision of that country, arriving last and entered before the corrected one, and every run of any workers ends right |
| WorkService.Worker.ClaimNext | backend/apps/records/classification_work.py:30-89 | claims the first claimable item by creation time and id and leases it for at least thirty seconds; nothing when none is claimable or no baseline is active |
| WorkService.Worker.ProcessClaimed | backend/apps/records/classification_work.py:92-142 | classifies and settles one claimed item, or, wherever the attempt breaks off, between the saves of historical level rows included, keeps what it had committed and marks the item FAILED; either way it is a run of the step system |
| WorkService.Worker.ProcessReadyWork | backend/apps/records/classification_work.py:145-152 | makes at most the limit of attempts (at least one), stops early only when nothing is claimable, counts exactly the attempts that do not break off, and is a run of the step system |
| LedgerProofs.ReconcileKeepsInv | backend/apps/records/reconciliation.py:314-411 | every reconciliation, identity upgrades and moves of evidence included, keeps: unique identities, contiguous revisions with one work item each, actions in order, heads equal to their last revision, a head RETRACTED iff no active observation points at it, otherwise showing the active observation greatest by trust, last observation and id |
| LedgerProofs.RetractKeepsInv | backend/apps/records/reconciliation.py:414-435 | every retraction keeps the same invariant |
| LedgerProofs.RefreshCloses | backend/apps/records/reconciliation.py:190-303 | refreshing, validating and snapshotting one head brings that head in line with its evidence and its last revision |
| LedgerProofs.RepeatedClaimChangesNothing | backend/apps/records/reconciliation.py:239-290 | reconciling the same claim twice leaves the ledger of reconciling it once: no revision, no work, no row |
| LedgerRuns.RunKeepsLedger | backend/apps/records/reconciliation.py:293-435 | over every run of reconciliations, retractions and revalidations the ledger invariant holds |
| LedgerRuns.ActionsAreInLanguage | backend/apps/records/reconciliation.py:245-290 | a result's actions spell ACTIVE CORRECTED*, then RETRACTED ACTIVE CORRECTED* any number of times, then at most one final RETRACTED |
| PublishedLog.ReconcilePublishes | backend/apps/records/reconciliation.py:274-290 | one reconciliation hands the pipeline at most two revisions, each the next of its result |
| PublishedLog.RetractPublishes | backend/apps/records/reconciliation.py:414-435 | a retraction hands it at most one |
| PublishedLog.RevalidatePublishes | backend/integrations/wca/record_validation.py:275-435 | a scope refresh, in batches of any size, hands it at most one per result |
| PublishedLog.RunPublishes | backend/apps/records/reconciliation.py:245-290 | over every run of reconciliations, retractions and refreshes the log is what appending such revisions one after another leaves, numbered without gaps, with heads that agree and one event and kind per result |
| JointRuns.QuietLiveIsBestEvidence | backend/apps/records/reconciliation.py:190-303 | over every interleaving of reconciliations, retractions and scope refreshes with any number of workers: once no work is unsettled and if no better revision escaped, a live cell is the least of its baseline and the values that the heaviest active observations give the unrejected, unabsorbed results of the cell |
| JointRuns.EvidenceNeverWaits | backend/apps/records/reconciliation.py:245-290 | whatever the workers are in the middle of, every evidence transaction can append its revisions and their work |
| EvidenceService.EvidenceStore.RefreshCanonicalValues | backend/apps/records/reconciliation.py:190-225 | leaves the head with the chosen observation's value, the least first and greatest last observation times, and the trust verdict |
| EvidenceService.EvidenceStore.SnapshotAndEnqueue | backend/apps/records/reconciliation.py:245-290 | freezes a revision with one work item exactly when an action is needed, with the right action, and otherwise only restores the status |
| EvidenceService.EvidenceStore.FindCanonical | backend/apps/records/reconciliation.py:76-99 | finds the natural holder, the existing observation's result (upgraded in place when source-keyed) or the one result of the same source claim |
| EvidenceService.EvidenceStore.Reconcile | backend/apps/records/reconciliation.py:314-411 | leaves exactly the reconciled ledger |
| EvidenceService.EvidenceStore.Retract | backend/apps/records/reconciliation.py:414-435 | leaves exactly the ledger without the observation, and answers whether there was anything active to withdraw |
| EvidenceService.EvidenceStore.ValidateResult | backend/integrations/wca/record_validation.py:192-259 | leaves exactly the ledger with this result's rows and verdict brought up to the snapshot and its change enqueued |
| EvidenceService.EvidenceStore.ValidateScopeBatch | backend/integrations/wca/record_validation.py:275-435 | leaves exactly the ledger with the batch's rows and verdicts updated and each changed head enqueued once |
| EvidenceService.EvidenceStore.ValidateScope | backend/integrations/wca/record_validation.py:469-479 | the chunk loop leaves, for any configured batch size, what validating every result on its own leaves |
| EvidenceService.EvidenceStore.RefreshScope | backend/integrations/wca/record_validation.py:437-479 | selects the results with active CubingChina evidence or a stored validation and leaves what validating every result of the event and kind would |
| ValidationProofs.BatchIsEachAlone | backend/integrations/wca/record_validation.py:275-435 | a batch leaves the same validation rows, head verdicts, revisions and work as one-by-one validation |
| ValidationProofs.BatchSizeIsInvisible | backend/integrations/wca/record_validation.py:469-479 | so does any chunking |
| ValidationProofs.UnchangedVerdictIsQuiet | backend/integrations/wca/record_validation.py:392-404 | a head in sync whose verdict is unchanged enqueues nothing, which is why the batch may skip it |
| ValidationProofs.UnselectedIsFixed | backend/integrations/wca/record_validation.py:437-466 | a result outside the selection is already as a validation would leave it |
| ValidationProofs.SelectionLosesNothing | backend/integrations/wca/record_validation.py:437-466 | validating only the selected results leaves what validating all of them leaves |
| Finalization.EntriesEndFinal | backend/apps/records/finalization.py:31-65 | however attempts are entered at open positions, one after another, never more than the expected number is entered |
| Finalization.EveryResultCanFinish | backend/apps/records/finalization.py:31-65 | from any attempts some entries make the result final |
| Finalization.CorrectionReopensExactly | backend/apps/records/finalization.py:31-65 | correcting an entered attempt keeps a final result final unless it ended at the cutoff and the new value meets it |
| CubingChina.KeysAreDistinct | backend/apps/records/domain.py:5-11 | two results of a competition or two kinds never share an observation key, whatever characters the feed uses |
| Evidence.KeysDecode | backend/apps/records/domain.py:5-11 | an observation key names one source, ingestion method, result identity and kind, whatever characters the identity has, as long as sources and methods contain no bar, as none of the service's own do |
| Evidence.BarsCollide | backend/apps/records/domain.py:5-11 | with a bar in a source or method two different claims share a key |
| CubingChina.NormalSnapshotExactly | backend/integrations/cubingchina/live_snapshots.py:91-110 | a snapshot is accepted iff every row can be normalised; then its ids are the ids sent, each with the normalisation of the last row sent for it |
| RoundIngestion.Round.Synchronize | backend/integrations/cubingchina/live_ingestion.py:171-202 | makes exactly the row's postings; if the row's keys showed what the previous row derived they show what the current one derives, no other key moves, and exactly the kinds that changed are reported |
| Postings.PostingIsRight | backend/integrations/cubingchina/live_ingestion.py:171-202 | every posting of a row is under the row's own key, leaves there what the current row derives, and is made only for a kind whose claim differs |
| Postings.OrderOpsMove | backend/integrations/cubingchina/live_ingestion.py:325-457 | whatever the order of the rows, posting those that differ moves the evidence from what the old rows derive to what the new rows derive and dirties exactly the kinds that changed |
| RoundIngestion.Round.ProcessRoundSnapshot | backend/integrations/cubingchina/live_ingestion.py:325-457 | after a snapshot the active rows are the snapshot's, the posted evidence is what they derive afresh up to fingerprint, reached by the postings of exactly the rows that differ, and counts and dirty kinds are exact; a repeated or malformed payload changes nothing |
| RoundIngestion.Round.ProcessResultUpdate | backend/integrations/cubingchina/live_ingestion.py:460-534 | after an update exactly one row is replaced and the posted evidence is what the rows derive afresh, reached by that row's postings |
| RoundIngestion.Round.NormalizeSnapshot | backend/integrations/cubingchina/live_snapshots.py:91-110 | one malformed row rejects the snapshot; otherwise exactly the result ids sent are there, each with the last row sent for it |
| RoundFeed.AlwaysOverlaidExactly | backend/integrations/cubingchina/live_ingestion.py:354-370 | the rows are the last snapshot overlaid with later updates after every delivery iff no delivery repeats an earlier well-formed payload when its result now holds another row or, for a snapshot, the rows are no longer those of the snapshot |
| RoundFeed.RecurringSnapshotIsLost | backend/integrations/cubingchina/live_ingestion.py:354-370 | snapshots A, B, A leave the rows of B |
| RoundFeed.ReinstatedResultIsLost | backend/integrations/cubingchina/live_ingestion.py:354-370 | a concrete result entered, taken out and entered again stays out |
| RoundFeed.DistinctPayloadsOverlay | backend/integrations/cubingchina/live_ingestion.py:354-370 | when no payload recurs the rows always follow the feed |
| FeedToLedger.ReconcileObserves | backend/apps/records/reconciliation.py:355-398 | reconciling a claim makes the ledger's observation of its key active with the claim's content and leaves every other observation alone |
| FeedToLedger.RetractObserves | backend/apps/records/reconciliation.py:414-435 | retracting a key makes its observation inactive and leaves every other observation alone |
| FeedToLedger.ActiveRowsReachLedger | backend/integrations/cubingchina/observations.py:11-72 | from empty tables, after any run of the round's deliveries with reconciliations and retractions of other keys and scope refreshes in between: a result's observation is active in the ledger iff its stored row claims a value of that kind, and then it carries that value |
| DeliveryProofs.FinalStaysFinal | backend/apps/notifications/services.py:388-493 | SENT, PERMANENTLY_FAILED and CANCELLED rows never change again in any run |
| DeliveryProofs.AttemptsAreAccounted | backend/apps/notifications/services.py:307-344 | over every run attempts are claims less releases, never negative, and at most the maximum (at least one) plus the timed-out claims |
| DeliveryProofs.AttemptBoundIsTight | backend/apps/notifications/services.py:313-331 | that bound is reached: for every configured maximum, every positive claim timeout and every number of timed-out claims some run under an advancing clock makes exactly the maximum (at least one) plus the timeouts |
| DeliveryProofs.FinishedBatchHoldsNothing | backend/apps/notifications/services.py:513-537 | a worker that returned normally holds no PROCESSING delivery, whatever other workers did meanwhile |
| DeliveryService.DeliveryQueue.ClaimDueDeliveries | backend/apps/notifications/services.py:307-344 | claims exactly the first due deliveries of the configured provider by creation time and id, at most the batch size and fewer only when no more are due |
| DeliveryService.DeliveryQueue.RecordDeliveryResult | backend/apps/notifications/services.py:388-456 | success, endpoint failure (every open delivery of the endpoint fails) and retry leave exactly the recorded tables; the delivery is no longer PROCESSING |
| DeliveryService.DeliveryQueue.ReleaseClaimedDeliveries | backend/apps/notifications/services.py:496-510 | exactly the worker's own unprocessed claims go back to RETRY, uncounted |
| DeliveryService.DeliveryQueue.ProcessDueBatch | backend/apps/notifications/services.py:513-537 | none of the batch's claims stays PROCESSING: each is handled with its attempt counted or given back uncounted, and other rows change only by failing with their endpoint |
| ResultValues.BetterIsKeyOrder | backend/integrations/wca_live/result_values.py:12-36 | is_better agrees with comparison_key on every value, DNF, DNS, zero and null included, and on complete values is smaller-is-better |
| ResultValues.BetterIsWeakOrder | backend/integrations/wca_live/result_values.py:30-36 | it is a strict weak order whose ties are equal complete values or two incomplete ones |
| ResultValues.DecodeInvertsEncode | backend/integrations/wca_live/result_values.py:45-54 | decoding inverts the multi-blind encoding over its full digit ranges whenever the encoding is positive |
| ResultValues.EncodePositiveExactly | backend/integrations/wca_live/result_values.py:45-54 | the one encoding in range that is not positive is 99 points in no time |
| ResultValues.DecodesAlikeExactly | backend/integrations/wca_live/result_values.py:45-54 | two positive values decode alike iff they agree in their last nine digits |
| ResultValues.EncodedOrderIsRanking | backend/integrations/wca_live/result_values.py:12-27 | the order of encodings is more points, then less time, then fewer missed |

## Left out

- Notifications for classified results: publication and payload building are not modelled, only the delivery queue.
- Fields that decide nothing: replacement and invalidity reasons, audit timestamps, provider tags, raw payloads, formatted results.
- The list of classified events: an unsupported event raises before any write and appears only as a failed attempt.
- Interleavings inside one transaction: row locks are not modelled, a transaction is one step.
- `_find_canonical` and `_create_canonical` races on the identity constraint: transactions are atomic, so the retry after an integrity error never runs.
- Case mapping and trimming: `RecordDomain.Upper` and `CubingChina.Lower` map ASCII letters only, and only blanks, tabs and line ends are trimmed.
- CubingChina.ExpectedAttempts: a round format is a letter or plain decimal digits; signs and separators Python's `int` accepts are not read.
- Payload and row hashes: equality of hashes is equality of content.
- RoundIngestion.Round.ProcessRoundSnapshot: one round at a time, with fixed round metadata; the experimental tag-based record observations are not modelled.
- FeedToLedger.ActiveRowsReachLedger: the round's result ids are its own, so no other round or source reconciles or retracts under its keys.
- The CubingChina update stream of other event types (`store_live_event`), and the WCA Live subscription, whose initial cut-off deliberately skips rows.
- ClassificationService.Classifier.ClassifyRevision: with no other writer in between; interleavings are the subject of `Pipeline`.
- ClassificationService.Classifier.ClassifyIncremental: likewise with no other writer in between; the commit that finds the head moved and rolls back is `Pipeline.CommitAttempted`.
- WorkService.Worker.ClaimNext: rows locked by another claim are not skipped, since a claim is one step; how claims of several workers interleave is the subject of `Pipeline`.
- HistoryProofs.HistoryIsReplayOfHeads: revisions are classified in turn and none moves a counted result into an absorbed competition; that case is `AbsorbedCorrectionExactly`.
- HistoryProofs.RetractionRestores: for histories classified in turn; for live cells of any interleaving a retracted head simply no longer counts in `PipelineProofs.QuiescentLiveIsBestOfHeads`.
- ArrivalProofs.ArrivalOrdersAgree: for the same first revisions as `ArrivalProofs.ArrivalOrderIsReplay`.
- ArrivalProofs.ArrivalOrderIsReplay: table for table, for first revisions outside absorbed competitions, since an absorbed or stale row keeps a history of whatever was projected before it; `RunProofs.RebuildIsReplayOfHeads` covers live cells and current rows for every revision in every order.
- Hashing, retry jitter (any positive delay), time zone conversion (the local date is given), WCA export installation, HTTP, WebSocket and supervision code, views, admin and the web client.
