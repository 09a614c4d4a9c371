# ResearchMate worker protocols

A Dafny model of the parts of ResearchMate in which several steps have to work together, with
proofs of what they guarantee:

- **Ingestion and deletion leases.** Deliveries race over the rows of `jobs`, `documents`, `projects`
  and `chunks`. `Tables`, `IngestionStore` and `DeletionStores` hold the transactions, `Deliveries` lets
  any number of deliveries take them in any order with a moving clock and crashes, and
  `LeaseInvariants`, `LeaseProofs` and `LeaseTheorems` prove fencing, exclusion and deletion for
  every run; `LeaseEffects` states what each request and report leaves in the rows.
- **The incremental Wiki.** `WikiMerge` relates the two dictionaries of the merge to the rows that are
  written, `WikiOrphans` and `WikiTexts` tell from the updates alone when the two agree and what they
  hold; `IngestionService` and `IngestionCalls` cover the compiles; `Coverage` and `Freshness` prove that an accepted
  freshness test means what the API takes it to mean.
- **The chunker.** `SentenceSplit`, `ChunkSpans`, `Chunking`, `ChunkSections`, `ChunkingTheorems` and `ChunkingLoops`
  follow a document from blocks to overlapping chunks with exact offsets, over arbitrary Unicode text; `TextLaws`
  has the facts on whitespace and joined text.
- **The Research Graph.** `ResearchGraph` and its companions run the routed node graph against
  arbitrary judges, planners and searches.
- **The evidence workflow.** `EvidenceWorkflow`, `EvidenceLoops`, `EvidenceCommit` and `EvidenceTheorems`
  lead from parallel extraction through human review to the inserted rows.
- **Outbox, evaluation runs, rank metrics.** `Outbox` and `OutboxRuns`; `EvaluationStore`, `CaseScoring`,
  `EvaluationLaws`, `EvaluationRuns`, `EvaluationOutcome`, `EvaluationReach`, `EvaluationExamples` and
  `EvaluationRunner`; `RankMetrics`.

One `with self.engine.begin()` block is one atomic step. A delivery may take its transactions in any order and
repeat them, which includes the order in which `handle` takes them. Answers of language models, vector and object
stores, brokers and parsers are arbitrary inputs of a step. `now()` only moves forward. Worker
ids are taken to be unique per delivery; the code uses the worker's host name, so two
deliveries on one host would share an id. UUIDs derived by hashing are taken to be injective.

`dafny verify dfyconfig.toml` checks the project.

## Where the code does less than its comments say

Each of these is a lemma of the table below, with the exact condition under which the code is fine, except the line on
`tasks.py`, which is read off the migrations:

- A Wiki page that absorbed others and is itself absorbed in the same ingestion takes its removals
  with it: the database keeps pages the merged Wiki no longer has (`WikiMerge.OrphanExample`,
  `WikiMerge.NewlyOrphanedExactly`, `WikiOrphans.DatabaseEqualsWikiExactly`).
- Finishing a project deletion removes the row of a document deletion that still holds its lease
  (`LeaseExamples.LeaseDroppedExample`).
- A late failure report takes a document out of ready although its job has succeeded for another
  delivery (`LeaseExamples.ReadyLostExample`, `LeaseTheorems.ReadyIsStable`).
- The overlap rule can emit a chunk that repeats one unit and adds nothing (`ChunkSpans.RepeatingChunk`).
- `refine_query` asserts a plan that a run through Wiki provenance never made
  (`ResearchGraphTheorems.AssertionFailsExactly`, `ResearchGraphTheorems.AssertionFailsOnAnswers`).
- A provider may list one evidence id twice; the commit then violates the primary key of
  `claim_evidence` and rolls back (`EvidenceTheorems.DuplicateCitationExample`, `EvidenceTheorems.CommitOfARun`).
- A claim or question of spaces only passes every check before the commit and is refused by its column
  (`EvidenceTheorems.BlankClaimExample`, `EvidenceTheorems.BlankQuestionExample`).
- The commit inserts a citation for every chunk found: when the row of one is deleted while a human decides,
  the approved run fails (`EvidenceTheorems.VanishedChunkExample`).
- Relation indices are not renumbered after a rejection (`EvidenceTheorems.RelationTargetsMove`).
- A metric requested twice makes every case incomplete for ever (`EvaluationStore.CompletedExactly`).
- A rank metric without expected evidence has neither value nor verdict, which the table's check
  refuses: the case's scores are lost and the run can never succeed (`EvaluationOutcome.UnsavableExample`,
  `EvaluationReach.CanSucceedExactly`).
- `_mark_evaluation_run_failed` (tasks.py:161-178) sets a column `error_code` that no migration gives
  `evaluation_runs`, which has `last_error_code`: the statement fails, and the run keeps its row until its lease
  expires. The model keeps the step as it is meant (`ForceFail`), so every for-all result covers both; no witness uses it.
- A case can be submitted although it has been judged, by a delivery that lost the run between reserving and
  submitting (`EvaluationExamples.JudgedCaseSubmittedAgain`, `EvaluationRuns.JudgedCasesAreNotSubmittedAgain`).
- The back-off cap of 300 seconds is never reached (`Outbox.DelayDoubles`).
- NDCG can pass 1 when hits are duplicated: for some discount exactly when the hits outnumber the ideal ones
  (`RankMetrics.NdcgBoundedExactly`); under one given discount a late duplicate may stay at or below 1
  (`RankMetrics.TwoHitsExactly`).

## Model

| member | source | states |
|---|---|---|
| WikiMerge.ReplayRefinesMerge | workers/ai-worker/src/researchmate_worker/ingestion_service.py:283-302 | Replaying the queued pages as delete-then-upsert always leaves at least the in-memory Wiki, and leaves exactly it if and only if no initial page was orphaned |
| WikiMerge.MergeAllConsistent | workers/ai-worker/src/researchmate_worker/ingestion_service.py:283-302 | Every merge keeps the two dictionaries in agreement, lists no page queued earlier for removal, and accounts for every page the queue does not hold |
| WikiMerge.NoOrphans | workers/ai-worker/src/researchmate_worker/ingestion_service.py:291-300 | If every page that absorbs queued pages takes over the removals they still carry, nothing is orphaned, so the database equals the in-memory Wiki |
| WikiMerge.OrphansExactly | workers/ai-worker/src/researchmate_worker/ingestion_service.py:291-302 | The exact step: after an update an initial page is orphaned if and only if it was gone already, the update neither is it nor lists it, and every queued page listing it is absorbed or replaced |
| WikiMerge.NewlyOrphanedExactly | workers/ai-worker/src/researchmate_worker/ingestion_service.py:291-302 | An update newly orphans exactly the removed pages all of whose records it absorbs without taking them over, and rescues exactly the orphans it is or lists |
| WikiOrphans.DatabaseEqualsWikiExactly | workers/ai-worker/src/researchmate_worker/ingestion_service.py:283-302 | Over the whole list of updates: the database ends equal to the in-memory Wiki if and only if every initial page removed for good is still listed by an update whose own page no later update of another page removes |
| WikiOrphans.OrphanedByUpdates | workers/ai-worker/src/researchmate_worker/ingestion_service.py:283-302 | Told from the updates alone, an initial page is orphaned if and only if it is removed for good and no update that still carries its removals lists it |
| WikiTexts.MergedWikiIs | workers/ai-worker/src/researchmate_worker/ingestion_service.py:283-302 | The merged Wiki has exactly the pages that are initial or named by an update and not removed for good; each has the text of the last update with its id, and a page no update names is the initial one |
| WikiTexts.ReplayedTextsAre | workers/ai-worker/src/researchmate_worker/ingestion_store.py:191-263 | The replayed table holds every page of the merged Wiki under the text of its last update; any page besides those is an orphan with its initial row |
| WikiMerge.OrphanExample | workers/ai-worker/src/researchmate_worker/ingestion_service.py:291-300 | Page 1 absorbs page 2, page 3 absorbs page 1: the database keeps page 2, which the in-memory Wiki no longer has |
| WikiMerge.WikiWork.MergeCompiledChunks | workers/ai-worker/src/researchmate_worker/ingestion_service.py:283-302 | The loop that pops and assigns in both dictionaries computes the merge |
| WikiMerge.WikiWork.RemovePages | workers/ai-worker/src/researchmate_worker/ingestion_service.py:298-300 | Popping the merged ids one by one removes exactly them from both dictionaries and keeps the order of the rest |
| Tables.WritePagesIsReplay | workers/ai-worker/src/researchmate_worker/ingestion_store.py:191-263 | Writing the queued pages into the chunks table is that replay on the Wiki of the project and leaves every other project alone |
| Tables.WritePagesKeepsRaw | workers/ai-worker/src/researchmate_worker/ingestion_store.py:191-263 | Wiki writes neither remove nor change a raw chunk |
| IngestionService.CompileWikiIndex | workers/ai-worker/src/researchmate_worker/ingestion_service.py:220-281 | Pending documents are compiled first, each against the Wiki merged so far; one failing call drops the whole result, otherwise the queue is the merge of all answers in order |
| IngestionService.GroupPending | workers/ai-worker/src/researchmate_worker/ingestion_service.py:236-239 | Pending chunks are grouped by document in order of first appearance, without the document being ingested |
| IngestionService.CallsFeedInputs | workers/ai-worker/src/researchmate_worker/ingestion_service.py:236-266 | The compiler receives exactly the pending chunks of other documents and the chunks of this one |
| IngestionCalls.CallsInOrder | workers/ai-worker/src/researchmate_worker/ingestion_service.py:235-266 | One call per pending document in order of first appearance, with exactly its rows; the document being ingested is compiled last |
| IngestionCalls.RowsOfInOrder | workers/ai-worker/src/researchmate_worker/ingestion_service.py:236-239 | Rows keep their order within a call |
| IngestionCalls.CallsSeeEarlierAnswers | workers/ai-worker/src/researchmate_worker/ingestion_service.py:240-266 | Every call is given the Wiki that reflects all answers before it, under their latest texts and without what they removed for good; its own answer comes next |
| IngestionStore.SqlIngestionStore.Claim | workers/ai-worker/src/researchmate_worker/ingestion_store.py:38-92 | A claim succeeds exactly on a claimable job of a live, unfinished document in an active project, and changes those two rows only |
| IngestionStore.SqlIngestionStore.Replace | workers/ai-worker/src/researchmate_worker/ingestion_store.py:94-310 | The row-by-row replacement of pages, raw chunks, Wiki pages and counters equals one atomic change, or leaves the tables alone |
| Coverage.AppliedCommitCatchesUp | workers/ai-worker/src/researchmate_worker/ingestion_store.py:347-366 | A load misses nothing: a commit that writes the Wiki compiled from it brings the Wiki generation up to the knowledge generation with every live raw chunk of the project folded in |
| IngestionStore.SqlIngestionStore.MarkReadyRow | workers/ai-worker/src/researchmate_worker/ingestion_store.py:380-419 | Success needs the own unexpired lease and an indexing document; then job and document are completed together |
| IngestionStore.SqlIngestionStore.MarkRetryableRow | workers/ai-worker/src/researchmate_worker/ingestion_store.py:421-452 | The owner returns the job to pending while its document and project are live, and fails it otherwise |
| IngestionStore.SqlIngestionStore.MarkFailedRow | workers/ai-worker/src/researchmate_worker/ingestion_store.py:454-477 | The job fails only for its owner; a live document fails for anyone |
| DeletionStores.SqlDeletionStore.Claim | workers/ai-worker/src/researchmate_worker/deletion_document.py:25-125 | Abandoned ingestions of the document are failed, then the deletion is claimed, refused, or raises and rolls back while an ingestion runs |
| DeletionStores.SqlDeletionStore.MarkReady | workers/ai-worker/src/researchmate_worker/deletion_document.py:127-167 | Under its lease the deletion removes the pages and chunks of the document and succeeds |
| LeaseTheorems.RetriedDeletionIsClaimable | workers/ai-worker/src/researchmate_worker/deletion_document.py:169-202 | In every reachable state a retry report by the owner makes the deletion claimable at once, with its attempts kept; a report by anyone else changes nothing |
| LeaseTheorems.RetriedIngestion | workers/ai-worker/src/researchmate_worker/ingestion_store.py:421-452 | In every reachable state a retry report by the owner makes the ingestion pending again with its attempts, and claimable at once unless the document is ready or expired, if and only if its document is live and its project active; otherwise it has failed, and a report of anyone else changes nothing |
| LeaseEffects.ClaimStartsParsing | workers/ai-worker/src/researchmate_worker/ingestion_store.py:38-92 | The exact condition and the whole effect of an ingestion claim: one attempt more, a lease of the seconds asked for, the document being parsed |
| LeaseEffects.CommitStoresTheDocument | workers/ai-worker/src/researchmate_worker/ingestion_store.py:94-310 | A commit takes effect exactly for its live lease on a writable document whose delivery has loaded the Wiki; it then stores exactly the pages and raw chunks handed in, under the next generation, and leaves all other documents alone |
| LeaseEffects.CompletionMakesReady | workers/ai-worker/src/researchmate_worker/ingestion_store.py:380-419 | A completion takes effect exactly under its live lease on an indexing document: job succeeded without owner, document ready, nothing else |
| LeaseEffects.FailureReportFails | workers/ai-worker/src/researchmate_worker/ingestion_store.py:454-477 | A failure report fails the job only for its owner and a document that is not deleted for anyone, and nothing else |
| LeaseEffects.BootstrapFailureFails | workers/ai-worker/src/researchmate_worker/tasks.py:85-135 | A job that is pending or expired fails, with an ingestion also a document still on its way; a job under a live lease is left alone |
| LeaseEffects.RequestedIngestionIsClaimable | apps/api/src/researchmate_api/persistence/_postgres_document_lifecycle.py:63-202 | Completing an upload is answered exactly for an uploaded or failed document of an active project; its new job can be claimed at once |
| LeaseEffects.RequestedDeletionIsUnderWay | apps/api/src/researchmate_api/persistence/_postgres_document_lifecycle.py:204-331 | A deletion request marks the document, fails its pending ingestions, and inserts a job exactly when the newest one has failed or is missing; afterwards the newest one has not failed |
| LeaseEffects.RequestedProjectDeletionIsUnderWay | apps/api/src/researchmate_api/persistence/_postgres_projects.py:170-265 | A project deletion request takes effect exactly on an active project or after a failed deletion: project marked, pending and abandoned ingestions failed, a pending job inserted |
| LeaseEffects.DocumentDeletionClaimed | workers/ai-worker/src/researchmate_worker/deletion_document.py:25-125 | A deletion claim is granted exactly on a deleted document that is not being ingested; ingestions of it whose lease is over fail, unless the claim is blocked, which changes nothing |
| LeaseEffects.ProjectDeletionClaimed | workers/ai-worker/src/researchmate_worker/deletion_project.py:25-140 | The same three cases at project scope, where pending ingestions fail too |
| LeaseEffects.DeletionEndsTheDocument | workers/ai-worker/src/researchmate_worker/deletion_document.py:127-167 | Exactly under its live lease the deletion removes the pages and chunks of its document and no others, and its job has succeeded |
| LeaseEffects.DeletionEndsTheProject | workers/ai-worker/src/researchmate_worker/deletion_project.py:142-181 | Exactly under its live lease the deletion removes the project with everything that belongs to it and nothing else, and keeps its own job as succeeded |
| DeletionStores.SqlProjectDeletionStore.Claim | workers/ai-worker/src/researchmate_worker/deletion_project.py:25-140 | The same at project scope, failing pending and abandoned ingestions of the project first |
| DeletionStores.SqlProjectDeletionStore.MarkReady | workers/ai-worker/src/researchmate_worker/deletion_project.py:142-181 | Under its lease the deletion drops the project with everything it cascades to, keeps its own job row, or rolls back |
| DeletionStores.MarkJobBootstrapFailed | workers/ai-worker/src/researchmate_worker/tasks.py:85-135 | A claimable job is failed without a lease; its document fails unless it is ready or already final |
| LeaseTheorems.JobLifecycle | workers/ai-worker/src/researchmate_worker/ingestion_store.py:43-62 | In every reachable state a job is running exactly when it has a lease owner, and its attempts column counts its claims |
| LeaseTheorems.ClosedJobsStayClosed | workers/ai-worker/src/researchmate_worker/ingestion_store.py:400-467 | Succeeded and failed are never left while the row exists, over every continuation of every run |
| LeaseTheorems.OnlyLastClaimerWrites | workers/ai-worker/src/researchmate_worker/ingestion_store.py:107-125 | A content commit or a completion takes effect only for the most recent claimer of the job |
| LeaseTheorems.LeaseIsExclusive | workers/ai-worker/src/researchmate_worker/ingestion_store.py:382-399 | While a lease is unexpired, a step of anyone else leaves that job row alone if and only if it is not a delivery ending, under its own live lease, the deletion of the very project of that row; only a document-deletion job can be lost that way |
| LeaseExamples.LeaseDroppedExample | workers/ai-worker/src/researchmate_worker/deletion_project.py:142-181 | A reachable run in which a project deletion drops the row of a document deletion that still holds its lease |
| LeaseExamples.ReadyLostExample | workers/ai-worker/src/researchmate_worker/ingestion_store.py:454-477 | A reachable run, with the shortest lease allowed and one page and chunk, in which the late failure report of a delivery that lost its lease fails a ready document whose job has succeeded |
| LeaseTheorems.DeletionExcludesIngestion | workers/ai-worker/src/researchmate_worker/deletion_document.py:32-92 | While the deletion of a document or project runs, no ingestion of that document or in that project is running |
| LeaseTheorems.DeletedIsFinal | workers/ai-worker/src/researchmate_worker/deletion_document.py:35-92 | Document status deleted is never left |
| LeaseTheorems.DeletedStaysEmpty | workers/ai-worker/src/researchmate_worker/deletion_document.py:127-167 | Once a document deletion has succeeded, the document has no pages and no chunks in any later state |
| LeaseTheorems.ReadyIsStable | workers/ai-worker/src/researchmate_worker/ingestion_store.py:454-477 | A ready document stays ready through a step if and only if the step is neither a deletion of it nor a failure report by any delivery of it, whatever its lease |
| LeaseProofs.RunOk | workers/ai-worker/src/researchmate_worker/ingestion_store.py:38-477 | The invariant of tables, deliveries and claim log that carries the results above holds in every reachable state |
| Coverage.WikiCoversItsGeneration | workers/ai-worker/src/researchmate_worker/ingestion_store.py:126-154 | In every reachable state the Wiki generation is at most the knowledge generation, the stored Wiki is its committed batches applied one after another, and every live raw chunk up to the Wiki generation went through one of them |
| Coverage.WikiWriteIsCompareAndSet | workers/ai-worker/src/researchmate_worker/ingestion_store.py:277-296 | A commit writes its Wiki exactly when it compiled one and the knowledge generation is the one it loaded; the Wiki it was compiled against is then the stored one |
| Freshness.FreshMeansEqualCounters | apps/api/src/researchmate_api/graph/graph.py:562-581 | The freshness test accepts exactly when Wiki pages and raw chunks are both there and the two counters agree |
| Freshness.FreshnessIsSound | apps/api/src/researchmate_api/persistence/_postgres_chunks.py:85-91 | When the test accepts what the API read, every raw chunk it read went through a compilation whose result is in the stored Wiki |
| SentenceSplit.SentencesComplete | workers/ai-worker/src/researchmate_worker/ingestion_chunking.py:129-129 | Cutting after terminators loses nothing but whitespace; sentences are trimmed, not empty, and hold a terminator at most at their end |
| SentenceSplit.SplitLosesOnlyWhitespace | workers/ai-worker/src/researchmate_worker/ingestion_chunking.py:125-150 | For any text the parts hold its visible characters in order, and every part of a non-empty text has between 1 and 900 characters |
| SentenceSplit.SplitKeepsSentencesWhole | workers/ai-worker/src/researchmate_worker/ingestion_chunking.py:130-150 | When no sentence exceeds 900 characters, joining the parts gives the sentences joined, and no two neighbouring parts would have fitted together |
| SentenceSplit.Split | workers/ai-worker/src/researchmate_worker/ingestion_chunking.py:125-150 | The packing loop computes that split |
| SentenceSplit.HardSlices | workers/ai-worker/src/researchmate_worker/ingestion_chunking.py:137-140 | The slicing range of an oversized sentence |
| TextLaws.SlicesAre | workers/ai-worker/src/researchmate_worker/ingestion_chunking.py:137-140 | Hard cutting gives pieces of exactly 900 characters and one last piece of the rest, which together are the sentence |
| ChunkSpans.SelectEndIsLargest | workers/ai-worker/src/researchmate_worker/ingestion_chunking.py:58-67 | A chunk takes the longest run of units that fits: an end keeps it within 900 characters if and only if it is not beyond the selected one |
| ChunkSpans.StartsIncrease | workers/ai-worker/src/researchmate_worker/ingestion_chunking.py:54-92 | Each chunk starts strictly after the one before it |
| ChunkSpans.AtMostOneChunkPerUnit | workers/ai-worker/src/researchmate_worker/ingestion_chunking.py:54-92 | A group never yields more chunks than units |
| ChunkSpans.UnitsInOneOrTwoChunks | workers/ai-worker/src/researchmate_worker/ingestion_chunking.py:89-92 | Every unit is in one chunk or in two neighbouring ones, then as last and first unit and with at most 180 characters |
| ChunkSpans.NextStartIs | workers/ai-worker/src/researchmate_worker/ingestion_chunking.py:89-92 | The next chunk repeats the last unit exactly when this chunk has another one and it has at most 180 characters |
| ChunkSpans.ChunksRebuildUnits | workers/ai-worker/src/researchmate_worker/ingestion_chunking.py:54-92 | Without the carried units, the chunks of a group hold each of its units once and in order |
| ChunkSpans.RepeatingChunk | workers/ai-worker/src/researchmate_worker/ingestion_chunking.py:89-92 | A chunk adds nothing new exactly when it carries a unit over that does not fit together with the next one |
| ChunkSpans.RepeatingChunkExample | workers/ai-worker/src/researchmate_worker/ingestion_chunking.py:89-92 | Units of 700, 100 and 850 characters yield a chunk that only repeats the second unit |
| Chunking.GroupsPartitionBlocks | workers/ai-worker/src/researchmate_worker/ingestion_chunking.py:41-50 | Groups hold the blocks that are not blank, in order, cut exactly where page, slide or section path changes |
| Chunking.StreamSlice | workers/ai-worker/src/researchmate_worker/ingestion_chunking.py:109-122 | The stream slice between the offsets of two units is the text of the units between them |
| Chunking.ChunksAreSlices | workers/ai-worker/src/researchmate_worker/ingestion_chunking.py:70-88 | Every chunk has its position as index, is the exact slice of one group stream its offsets name, has at most 900 characters, and shares page, slide and path with all blocks of the group |
| ChunkSections.NeighboursShareAGroup | workers/ai-worker/src/researchmate_worker/ingestion_chunking.py:41-50 | Two consecutive blocks that are not blank share a group if and only if page, slide and section agree, the section told from the parsed metadata |
| ChunkSections.ChunksKeepSections | workers/ai-worker/src/researchmate_worker/ingestion_chunking.py:70-88 | No chunk crosses a page, slide or section: its path holds exactly the items of the metadata path of every block of its group that are not whitespace, in order, or the title alone; its anchors are those of the blocks whose text it covers |
| ChunkSections.SectionPathIs | workers/ai-worker/src/researchmate_worker/ingestion_chunking.py:101-106 | A block is filed under exactly one path, the one that description gives |
| ChunkSections.ShortBlockIsOneUnit | workers/ai-worker/src/researchmate_worker/ingestion_chunking.py:109-122 | A block whose stripped text fits is one unit with exactly that text |
| ChunkingTheorems.ChunkingLosesOnlyWhitespace | workers/ai-worker/src/researchmate_worker/ingestion_chunking.py:39-93 | Without the text the offsets mark as repeated, all chunks together hold the visible characters of all blocks, in order |
| ChunkingLoops.GroupUnits | workers/ai-worker/src/researchmate_worker/ingestion_chunking.py:109-122 | The offset loop computes the laid-out units |
| ChunkingLoops.SelectUnits | workers/ai-worker/src/researchmate_worker/ingestion_chunking.py:56-67 | The inner selection loop stops where the specification says |
| ChunkingLoops.NextChunk | workers/ai-worker/src/researchmate_worker/ingestion_chunking.py:55-92 | One turn of the cursor loop; its empty-selection branch is unreachable |
| ChunkingLoops.BuildStructureChunks | workers/ai-worker/src/researchmate_worker/ingestion_chunking.py:39-93 | The nested loops terminate and compute the specified chunks |
| ResearchGraphTheorems.EveryRunHalts | apps/api/src/researchmate_api/graph/graph.py:190-226 | For any answers from outside, a run with R rounds halts within 6 R + 5 node executions |
| ResearchGraphExamples.BoundIsTight | apps/api/src/researchmate_api/graph/graph.py:190-226 | For every R at least one some run uses all 6 R + 5; its searches find one new chunk of the corpus a round, and the candidates are what was merged |
| ResearchGraphTheorems.LoopsAreBounded | apps/api/src/researchmate_api/graph/routing.py:34-46 | Evidence is planned at most R times and the lightweight fallback taken at most once |
| ResearchGraphTheorems.RefinementsNeedNewEvidence | apps/api/src/researchmate_api/graph/graph.py:365-367 | Every refinement that went through was preceded by a candidate never seen before |
| ResearchGraphTheorems.AssertionFailsExactly | apps/api/src/researchmate_api/graph/graph.py:419-429 | A run stops on the missing-plan assertion if and only if a query is refined after Wiki provenance was expanded |
| ResearchGraphTheorems.AssertionFailsOnAnswers | apps/api/src/researchmate_api/graph/routing.py:34-46 | On the answers: behind the provenance node the run stops on the assertion if and only if the packed sources are not empty and the deciding assessment is insufficient, not degraded and names missing facets |
| ResearchGraphExamples.AssertionFailureIsReachable | apps/api/src/researchmate_api/graph/graph.py:277-289 | That stop is reachable for every number of rounds |
| ResearchGraphTheorems.WikiOnlyWhenFresh | apps/api/src/researchmate_api/graph/routing.py:10-16 | Wiki pages are consulted only when the Wiki is fresh, raw chunks exist and the Web is off |
| ResearchGraphTheorems.WikiAnswersOnlyThroughTheGate | apps/api/src/researchmate_api/graph/routing.py:19-31 | A finished run answers from a Wiki page only if the gate was open, the question itself calls for no raw evidence, and the judgement given at the Wiki node was sufficient, confident enough and not in need of raw evidence |
| ResearchGraphTheorems.ExactQuestionsGetRawEvidence | apps/api/src/researchmate_api/services/evidence_sufficiency.py:91-118 | A question that calls for raw evidence is never answered from a Wiki page |
| ResearchGraphEvidence.FirstTurn | apps/api/src/researchmate_api/graph/routing.py:10-16 | Exactly when a run answers at once, consults the Wiki, or plans |
| ResearchGraphEvidence.RefinedExactly | apps/api/src/researchmate_api/graph/routing.py:34-46 | Exactly when a judged run refines its query or takes the lightweight fallback |
| ResearchGraphEvidence.ProvenanceIs | apps/api/src/researchmate_api/graph/graph.py:237-275 | The pages selected are those of the corpus that were ranked, and the sources looked up are exactly the raw chunks they name |
| ResearchGraphEvidence.ScopedRawIs | apps/api/src/researchmate_api/graph/graph.py:528-540 | A plan looks at the raw chunks of the documents in its scope, or at all when it names none of the corpus |
| ResearchGraphEvidence.RoundGathers | apps/api/src/researchmate_api/graph/graph.py:291-412 | A search round makes candidates of its hits, every one within the limit, calls evidence new exactly when an id is, and keeps every ranked and every lightweight candidate that fits the budget |
| ResearchGraphEvidence.FallbackAdds | apps/api/src/researchmate_api/graph/graph.py:341-355 | The fallback offers every lightweight raw chunk in scope beside what was judged; only what does not fit is left out |
| ResearchGraphEvidence.FallbackKeepsFront | apps/api/src/researchmate_api/graph/graph.py:341-355 | What was judged stays in front, whole, when it fits |
| ResearchGraphEvidence.FinalEvidenceIsSourced | apps/api/src/researchmate_api/graph/graph.py:320-339 | Over all runs every entry of the final evidence is of the corpus, a local hit, or, only when the request allows the Web, a Web hit |
| ResearchGraphEvidence.PackIsGreedy | apps/api/src/researchmate_api/services/retrieval.py:128-142 | An entry left out of packed evidence does not fit beside it |
| ResearchGraphEvidence.DedupKeepsFirst | apps/api/src/researchmate_api/graph/graph.py:327-339 | Deduplication keeps exactly the first entry of every id, in order |
| ResearchGraphRuntime.Deduplicate | apps/api/src/researchmate_api/graph/graph.py:327-339 | The seen-set loop keeps the first entry of every id |
| ResearchGraphRuntime.PackChunks | apps/api/src/researchmate_api/services/retrieval.py:128-142 | The packing loop with its early exits keeps whole entries within the budget |
| ResearchGraphCandidates.LimitRerankCandidates | apps/api/src/researchmate_api/services/query_execution.py:63-86 | The loop over local candidates that stops at its limit, and the slices behind it, compute the candidates as specified |
| ResearchGraphCandidates.CandidatesAreMany | apps/api/src/researchmate_api/services/query_execution.py:63-86 | Out of merged entries the limit picks as many as it allows, none twice |
| ResearchGraphCandidates.CandidatesAreDiverse | apps/api/src/researchmate_api/services/query_execution.py:63-86 | Web results are kept first, in order, and the places left show as many documents as possible: one for each place or every document there is |
| ResearchGraphRuntime.GraphRuntime.ExecuteNode | apps/api/src/researchmate_api/graph/graph.py:229-434 | The node methods update the runtime fields and the state as the step function says |
| ResearchGraphRuntime.GraphRuntime.Invoke | apps/api/src/researchmate_api/graph/graph.py:84-106 | The loop that runs nodes until the end terminates on its own and is a run of the model |
| EvidenceTheorems.PlannedExactly | apps/api/src/researchmate_api/services/evidence_generation.py:120-134 | A plan is accepted exactly when it has two to four questions that differ once stripped |
| EvidenceTheorems.PlannedQuestions | apps/api/src/researchmate_api/services/evidence_generation.py:120-134 | A plan has two to four unique questions, and one of them can be inserted if and only if the provider wrote more than whitespace and no NUL inside |
| EvidenceTheorems.ClaimNumbersAreDeliveryOrderFree | workers/ai-worker/src/researchmate_worker/workflow_execution.py:173-190 | Whatever order the branches deliver in, fan-in restores question order, so claims and relations are the same |
| EvidenceTheorems.ExtractOwns | workers/ai-worker/src/researchmate_worker/workflow_execution.py:147-155 | The claims of a branch cite at least one chunk, only chunks of that branch, under its own question |
| EvidenceTheorems.ExtractCites | workers/ai-worker/src/researchmate_worker/workflow_execution.py:124-155 | Every chunk found is kept once in order of first appearance, and a claim cites exactly the chunks at its one-based evidence positions |
| EvidenceTheorems.ExtractedExactly | apps/api/src/researchmate_api/services/evidence_generation.py:137-169 | A branch goes through exactly when it found a chunk and the provider kept to the schema and the allowlist |
| EvidenceTheorems.ClaimsAreConsecutive | workers/ai-worker/src/researchmate_worker/workflow_execution.py:173-190 | Fan-in lists the claims of each branch whole, one branch after the other in question order |
| EvidenceTheorems.ReconciledExactly | apps/api/src/researchmate_api/services/evidence_generation.py:172-203 | Fan-in goes through exactly when there is nothing to relate or the relations are in range, between two claims, within the schema and no edge twice |
| EvidenceTheorems.ReconciledClaimsAreGrounded | workers/ai-worker/src/researchmate_worker/evidence_graph.py:68-94 | Every claim that reaches review cites a non-empty set of chunks of the run under a question of its plan |
| EvidenceTheorems.EditsKeepCore | workers/ai-worker/src/researchmate_worker/workflow_execution.py:264-287 | An edit goes through if and only if every entry is valid, and changes nothing but texts and edit marks |
| EvidenceTheorems.EditsWriteTexts | workers/ai-worker/src/researchmate_worker/workflow_execution.py:271-287 | After a successful edit every claim has the stripped text of the last entry for its number and is marked edited, and a claim without an entry is as it was |
| EvidenceTheorems.ReviewAskedExactly | workers/ai-worker/src/researchmate_worker/workflow_execution.py:192-212 | A human is asked exactly when a chunk comes from the Web or carries a marker, or, under the strict policy, a claim is of low confidence |
| EvidenceTheorems.RejectKeepsExactlyTheTrusted | workers/ai-worker/src/researchmate_worker/workflow_execution.py:254-263 | A rejection keeps exactly the claims of sufficient confidence that cite no suspicious chunk, in order, and fails when there is none |
| EvidenceTheorems.ReviewKeepsClaims | workers/ai-worker/src/researchmate_worker/workflow_execution.py:247-295 | After any decision every claim that goes on is a reviewed one up to its text, and some claim goes on |
| EvidenceTheorems.CommitOfARun | workers/ai-worker/src/researchmate_worker/workflow_commit.py:89-225 | Question and citation lookups never fail at commit; the commit goes through if and only if every question and claim is more than spaces and free of NUL, the rows behind every chunk found are still there and its texts free of NUL, no claim cites one chunk twice, and no relation points past the remaining claims or holds a NUL |
| EvidenceTheorems.CommittedRowsAre | workers/ai-worker/src/researchmate_worker/workflow_commit.py:89-225 | A commit that goes through has written the questions, one citation per chunk found with the beginning of its text, every claim under its question, evidence for exactly the chunks each claim cites, and every relation between the claims it names |
| EvidenceTheorems.RelationsAreKept | workers/ai-worker/src/researchmate_worker/workflow_commit.py:203-225 | No relation is lost to the primary key |
| EvidenceTheorems.DuplicateCitationExample | workers/ai-worker/src/researchmate_worker/workflow_commit.py:185-202 | A provider lists one evidence id twice: extraction, reconciliation and approval go through and the rows cannot be inserted |
| EvidenceTheorems.CommitDuplicateCitation | workers/ai-worker/src/researchmate_worker/workflow_commit.py:185-202 | Committing that run ends with the primary key violation of the evidence rows |
| EvidenceTheorems.BlankClaimExample | infra/supabase/migrations/202607150002_evidence_review_schema.sql:84-102 | A claim of one space passes extraction, reconciliation and approval, and only the check of its column refuses it |
| EvidenceTheorems.BlankQuestionExample | infra/supabase/migrations/202607150002_evidence_review_schema.sql:68-82 | A plan with one blank question is accepted, and only the check of its column refuses the commit |
| EvidenceTheorems.VanishedChunkExample | infra/supabase/migrations/202605260001_initial_schema.sql:129-140 | The same approved run commits while the row of its chunk is there and fails on the foreign key of the citation once it is gone |
| EvidenceTheorems.RelationsSurviveApprovalAndEdits | workers/ai-worker/src/researchmate_worker/workflow_execution.py:247-295 | Without a rejection every relation index still names the claim it was proposed for |
| EvidenceTheorems.RelationTargetsMove | workers/ai-worker/src/researchmate_worker/workflow_execution.py:255-263 | After a rejection an index still names its claim if and only if none of the claims up to it was rejected |
| EvidenceTheorems.RejectedRelationExample | workers/ai-worker/src/researchmate_worker/workflow_commit.py:203-207 | A run over two questions whose first claim is rejected in front of two related ones: the commit fails on the relation index |
| EvidenceCommit.Commit | workers/ai-worker/src/researchmate_worker/workflow_commit.py:89-225 | The insert loops succeed exactly under the stated conditions, write exactly the stated rows, and every error code names what is wrong |
| EvidenceCommit.InsertEvidence | workers/ai-worker/src/researchmate_worker/workflow_commit.py:185-202 | Evidence rows fail on a missing citation or on a chunk cited twice, and otherwise are one per cited chunk |
| EvidenceCommit.CollectCitations | workers/ai-worker/src/researchmate_worker/workflow_commit.py:112-116 | The dictionary over all batches keeps every chunk id at its first position with its last value |
| EvidenceCommit.InsertCitations | workers/ai-worker/src/researchmate_worker/workflow_commit.py:117-148 | One citation per chunk of the dictionary, cited or not; it fails exactly when a chunk or document row is gone or a text holds a NUL |
| EvidenceCommit.CitedIds | workers/ai-worker/src/researchmate_worker/workflow_commit.py:112-120 | The keys of that dictionary are exactly the ids of all chunks of all batches |
| EvidenceLoops.RetrieveAndExtract | workers/ai-worker/src/researchmate_worker/workflow_execution.py:124-171 | The branch returns its batch or the error the checks give |
| EvidenceLoops.CollectSuspicious | workers/ai-worker/src/researchmate_worker/workflow_execution.py:200-206 | The nested loops collect the ids of Web and marked chunks |
| EvidenceLoops.ApplyEdits | workers/ai-worker/src/researchmate_worker/workflow_execution.py:264-287 | The edit loop overwrites claims one by one and stops at the first invalid entry |
| OutboxRuns.PublicationsAreBounded | workers/ai-worker/src/researchmate_worker/outbox.py:58-69 | With any number of dispatchers, crashes and requeues an event is handed to the broker at most once per claim, and claims equal its attempts and never pass the limit |
| OutboxRuns.PublishedIsFinal | workers/ai-worker/src/researchmate_worker/outbox.py:126-137 | A published event was handed over successfully at least once, and its row never changes again |
| OutboxRuns.NoEventIsLost | workers/ai-worker/src/researchmate_worker/outbox.py:158-170 | An event can become claimable again if and only if it is not published and has attempts left |
| OutboxRuns.DispatchOnce | workers/ai-worker/src/researchmate_worker/outbox.py:58-69 | Without interference every claimed event ends published, or failed with its back-off, all other rows stay, and the result counts the successes |
| Outbox.SqlOutboxStore.Claim | workers/ai-worker/src/researchmate_worker/outbox.py:82-124 | The claim leases the first claimable rows in order of availability, creation and id, up to the limit |
| Outbox.ClaimIsDetermined | workers/ai-worker/src/researchmate_worker/outbox.py:92-94 | At most one list of rows answers the claim query |
| Outbox.EligibleExactly | workers/ai-worker/src/researchmate_worker/outbox.py:82-101 | A row may be taken exactly when it waits or has failed, is due, has attempts left and is not locked by another claim |
| Outbox.OldestFirst | workers/ai-worker/src/researchmate_worker/outbox.py:92-94 | No row taken became available later than one left behind, nor was created later when both became available together; fewer than the limit are taken only when none is left |
| Outbox.RequeuedExactly | workers/ai-worker/src/researchmate_worker/outbox.py:158-170 | A requeue makes exactly the claims older than the bound due at once |
| Outbox.DelayDoubles | workers/ai-worker/src/researchmate_worker/outbox.py:139-140 | The back-off doubles up to 256 seconds; its cap of 300 is never reached |
| OutboxRuns.PublishedExactlyWhenReported | workers/ai-worker/src/researchmate_worker/outbox.py:126-137 | In every run an event is published if and only if a dispatcher that had published it reported so while the row was publishing |
| OutboxRuns.BackoffIsKept | workers/ai-worker/src/researchmate_worker/outbox.py:139-156 | Over every continuation a failed event is left alone by every dispatcher until its back-off is over |
| OutboxRuns.ClaimsLastUntilStale | workers/ai-worker/src/researchmate_worker/outbox.py:158-170 | Until a claim is older than the requeue age, only reports of the deliveries of that event can change its row |
| EvaluationRuns.BudgetIsKept | workers/ai-worker/src/researchmate_worker/evaluation_persistence.py:139-162 | Over all attempts claims stay within the limit, the reserved budget is the amount per case times the reservations and within its cap, and submissions never outnumber reservations |
| EvaluationRuns.JudgedCasesAreLeftAlone | workers/ai-worker/src/researchmate_worker/evaluation_runner.py:68-75 | Once a case is recognised as judged it stays judged and no later attempt reserves budget for it, whatever happens to leases |
| EvaluationRuns.JudgedCasesAreNotSubmittedAgain | workers/ai-worker/src/researchmate_worker/evaluation_runner.py:68-92 | As long as no delivery loses the run between reserving and submitting, a case recognised as judged is never submitted again by any delivery |
| EvaluationExamples.JudgedCaseSubmittedAgain | workers/ai-worker/src/researchmate_worker/evaluation_runner.py:74-92 | A stalled delivery submits a case that another one has judged since: without that condition the law fails in a reachable run |
| EvaluationRuns.JudgedSubmissionsAreLate | workers/ai-worker/src/researchmate_worker/evaluation_runner.py:74-92 | A case reserved earlier can be judged when it is submitted only if the delivery no longer owns the run |
| EvaluationStore.CompletedExactly | workers/ai-worker/src/researchmate_worker/evaluation_persistence.py:118-137 | The query recognises a case with every requested metric judged if and only if the request names no metric twice |
| EvaluationRuns.DuplicateMetricsRepeatEverything | workers/ai-worker/src/researchmate_worker/evaluation_persistence.py:118-137 | With a metric named twice every attempt takes on every case again |
| CaseScoring.ScoresNameTheRequest | workers/ai-worker/src/researchmate_worker/evaluation_scoring.py:62-140 | An executed case is scored under exactly the requested metrics |
| CaseScoring.StorableExactly | workers/ai-worker/src/researchmate_worker/evaluation_scoring.py:32-40 | The scores of a case pass the check of the table if and only if no rank metric is requested or evidence is expected, and then all carry a verdict |
| CaseScoring.MrrPassesExactly | workers/ai-worker/src/researchmate_worker/evaluation_scoring.py:104-121 | The reciprocal rank passes exactly when one of the first two retrieved chunks is expected |
| CaseScoring.RecallPassesExactly | workers/ai-worker/src/researchmate_worker/evaluation_scoring.py:90-103 | Recall is the share of the expected chunks that were retrieved and passes exactly from four in five on |
| CaseScoring.PrecisionPassesExactly | workers/ai-worker/src/researchmate_worker/evaluation_scoring.py:77-89 | Precision is the share of the cited chunks that were retrieved and passes exactly when something is cited and all of it was retrieved |
| CaseScoring.SchemaPassesExactly | workers/ai-worker/src/researchmate_worker/evaluation_scoring.py:66-76 | An answer is well formed exactly when it shows something and cites something |
| CaseScoring.ScoreCase | workers/ai-worker/src/researchmate_worker/evaluation_runner.py:126-131 | Appending the scores metric by metric gives the scores of the case |
| EvaluationOutcome.SavableExactly | workers/ai-worker/src/researchmate_worker/evaluation_persistence.py:164-222 | Under the lease the scores of an executed case can be saved if and only if the case can be scored |
| EvaluationOutcome.UnsavableExample | workers/ai-worker/src/researchmate_worker/evaluation_scoring.py:104-121 | Reciprocal rank requested, no evidence expected: whatever the pipeline returns, its one score has neither value nor verdict and cannot be saved |
| EvaluationOutcome.InfeasibleCaseNeverSucceeds | workers/ai-worker/src/researchmate_worker/evaluation_runner.py:55-124 | A run with a case that cannot be scored or that the executor refuses never succeeds, over all attempts and interleavings |
| EvaluationReach.CanSucceedExactly | workers/ai-worker/src/researchmate_worker/evaluation_runner.py:55-124 | A run that may be started and can pay for its cases can succeed if and only if every case has a question, the pipeline has the configured model and prompt, and no rank metric lacks expected evidence |
| EvaluationOutcome.SuccessMeansEveryCaseJudged | workers/ai-worker/src/researchmate_worker/evaluation_runner.py:68-124 | Over all attempts and interleavings a succeeded run has stored every requested metric of every case with a verdict and records no case as not executed |
| EvaluationRuns.FinishedRunsAreFinal | workers/ai-worker/src/researchmate_worker/evaluation_persistence.py:275-296 | A run that has succeeded or failed never changes again |
| EvaluationLaws.ClaimedExactly | workers/ai-worker/src/researchmate_worker/evaluation_persistence.py:46-97 | The exact condition and the whole effect of a claim, and when its request is rejected |
| EvaluationLaws.RejectionFails | workers/ai-worker/src/researchmate_worker/evaluation_runner.py:57-61 | A delivery whose request is not supported ends the run it owns as failed |
| EvaluationLaws.LoadedExactly | workers/ai-worker/src/researchmate_worker/evaluation_runner.py:64-70 | Exactly the cases not judged on every metric are taken on; an empty dataset fails the run |
| EvaluationLaws.ReservationIs | workers/ai-worker/src/researchmate_worker/evaluation_runner.py:74-91 | A reservation takes the case at hand; an exhausted budget records it as not executed and counts a failure; without the lease the delivery ends |
| EvaluationLaws.FinishedExactly | workers/ai-worker/src/researchmate_worker/evaluation_runner.py:93-112 | An executed case is scored, a failed one recorded and counted as retryable or not, under the lease; a save that fails ends the delivery |
| EvaluationLaws.ExecutionIs | workers/ai-worker/src/researchmate_worker/evaluation_executor.py:69-99 | Answers count only for a case with a question, the configured model and prompt, and a retrieval that is not empty |
| EvaluationLaws.SavedRowsAre | workers/ai-worker/src/researchmate_worker/evaluation_persistence.py:164-222 | A save upserts each score under its name and version, removes the failure row of an executed case, and changes nothing else |
| EvaluationLaws.ConcludedExactly | workers/ai-worker/src/researchmate_worker/evaluation_runner.py:113-124 | A run with a retryable failure and attempts left is handed back pending, with attempts and budget, and can be claimed at once; otherwise it ends succeeded without any failure and failed with one |
| EvaluationRunner.RunEvaluation | workers/ai-worker/src/researchmate_worker/evaluation_runner.py:55-124 | One delivery from claim to verdict makes only transactions of the model, and its verdict agrees with the row |
| EvaluationRunner.SubmitCases | workers/ai-worker/src/researchmate_worker/evaluation_runner.py:74-92 | The submission loop reserves and submits, or records an exhausted budget, case by case |
| EvaluationRunner.CollectResults | workers/ai-worker/src/researchmate_worker/evaluation_runner.py:93-112 | The collection loop counts retryable and permanent failures and saves every outcome |
| EvaluationRunner.ExecuteCase | workers/ai-worker/src/researchmate_worker/evaluation_executor.py:69-99 | The executor refuses a case without a question, another model or prompt, and an empty retrieval, before anything is scored |
| EvaluationStore.SqlEvaluationStore.Claim | workers/ai-worker/src/researchmate_worker/evaluation_persistence.py:46-97 | A claim takes a pending or expired run below the attempt limit, then checks project and metrics |
| EvaluationRuns.ReservationRefusedExactly | workers/ai-worker/src/researchmate_worker/evaluation_persistence.py:139-162 | In every reachable state, under the lease, a reservation is refused if and only if one more amount than reserved so far passes the cap |
| EvaluationStore.SqlEvaluationStore.SaveScores | workers/ai-worker/src/researchmate_worker/evaluation_persistence.py:164-222 | Scores are upserted together under the lease, or not at all |
| EvaluationStore.SqlEvaluationStore.CompletedCaseIds | workers/ai-worker/src/researchmate_worker/evaluation_persistence.py:118-137 | Collects the completed cases of the dataset |
| EvaluationStore.SqlEvaluationStore.Complete | workers/ai-worker/src/researchmate_worker/evaluation_persistence.py:274-296 | The run ends succeeded or failed under the lease, or the lease is reported lost |
| RankMetrics.NdcgOfDistinctList | workers/ai-worker/src/researchmate_worker/evaluation_scoring.py:51-59 | For any positive, strictly decreasing discount a duplicate-free list scores in [0, 1], and 1 exactly when its first positions are all relevant |
| RankMetrics.NdcgBoundedExactly | workers/ai-worker/src/researchmate_worker/evaluation_scoring.py:51-59 | NDCG is at most 1 for every discount if and only if the list hits no more often than the ideal list |
| RankMetrics.DuplicateScoresAboveOne | workers/ai-worker/src/researchmate_worker/evaluation_scoring.py:51-59 | A relevant chunk retrieved twice scores above 1 under every discount |
| RankMetrics.TwoHitsExactly | workers/ai-worker/src/researchmate_worker/evaluation_scoring.py:51-59 | For one given discount a chunk retrieved twice scores at most 1 if and only if its two weights together do not exceed the first weight |
| RankMetrics.PerfectNdcgStartsWithAHit | workers/ai-worker/src/researchmate_worker/evaluation_scoring.py:43-59 | A perfect NDCG forces reciprocal rank one |
| RankMetrics.SwappingUpRaisesNdcg | workers/ai-worker/src/researchmate_worker/evaluation_scoring.py:51-59 | Moving a relevant chunk in front of an irrelevant one strictly raises NDCG |
| RankMetrics.ReciprocalRank | workers/ai-worker/src/researchmate_worker/evaluation_scoring.py:43-48 | The search returns the first relevant rank and its reciprocal, one exactly when the first position is relevant |
| RankMetrics.NdcgOfMisses | workers/ai-worker/src/researchmate_worker/evaluation_scoring.py:51-59 | A list without a hit scores zero, whether or not there was anything to find |

## Left out

- Ownership joins on `user_id`: every query carries them, and they only narrow what is described here.
- `projects.deleted_at`, progress, error text and timestamps of job rows, and the `deletion_jobs` mirror
  table: no modelled decision reads them.
- Retry of an existing upload and the outbox rows the API inserts beside its requests: requests are
  modelled as the rows of `jobs`, `documents` and `projects` they leave.
- Vector upserts and deletes, object storage and tracing: they happen outside the lease, so only what is
  in SQL is claimed to be empty after a deletion.
- Stores without `load_wiki_state` and conversation-scoped or Web chunks in `project_chunks`.
- Isolation below one transaction, row locks included: a transaction is one step. The outbox claim takes an
  arbitrary set of locked rows to skip.
- Lower-casing of evidence text when it is searched for injection markers: a chunk says whether it is marked.
- What the retriever and the Web search find, which Wiki pages lexical search selects, and the reranker's
  ranking: answers of the outside. `limit_rerank_candidates`, `pack_chunks` and both deduplications are modelled.
- The queries of a search plan and its weights: the state the graph routes on does not show them. The step limit of
  the graph library itself is not part of this model.
- Tool-call traces, degradation flags and strategy names of the Research Graph: nothing routes on them.
- `synthesize` between review and commit, with the schema it applies again to edited claims.
- In `_commit`: the row lock, runs that are finished already (it returns) or of another owner (it refuses), the `ask_runs`
  row, claim versions and normalised keys, and the report with its sections and refresh, whose rows come after
  those modelled.
- Float rounding and the logarithm in rank metrics: exact reals and any strictly decreasing discount.
- Whether retrieval finds a chunk and the models answer, in an evaluation: an answer of the outside, so "can succeed" means
  for some answers. A configuration that does not validate is a run without pipeline.
- Aggregates and regression summaries of evaluation runs: single expressions.
- Heartbeats, logging, migrations, provisioning, fault simulation, conversations and the web application.
- EvaluationRuns.JudgedCasesAreNotSubmittedAgain: reserving and handing a case to the pool are two steps, so the law
  needs that no delivery loses the run in between; `EvaluationExamples.JudgedCaseSubmittedAgain` is the run where one does.
