# MDRack: publication protocols, chunker and codecs, verified

MDRack stores a *resource graph* per source (representations, search units, embedding spaces, vectors,
facets) and publishes it by compare-and-swap. Workers capture a snapshot, compute an enrichment or a new
producer base off-line, combine it with whatever is stored by then, drop everything that became stale and
publish. This project models that core in Dafny, together with the structural chunker, the folder scan,
the durable artifact archive, the filtered vector search and the facet scalar codec, and proves what they
promise for every input and every interleaving.

How the modules follow the program:

- `Graph`, `Dependencies`, `Merging`: the records, structural validation, output slots, the dependency
  fixpoint, and `merge`. `MergeTheorems`, `MergeAccepts` and `MergeTwice` say what a merge keeps, drops and
  installs, exactly what it accepts, and when repeating it changes nothing.
- `Port`: the publication store as a class. Its rows are replaced only by compare-and-swap on an opaque
  state; an arbitrary schedule of other writers and faults (including a commit whose response is lost) acts
  between any two calls. A ghost log records every commit.
- `Enrichment`, `Reindexing`: the two retry loops against that port, with `capture`, `prepare`, the
  freshness checks, and rebasing. `Freshness` and `ReindexAccepts`: over which graphs each of them goes on,
  stated on the records, and that writers who touch something else do not stand in the way. `Reconciling`,
  `ReconcileTheorems`, `ReconcileContents`, `ReconcileAccepts`, `ReconcileTwice`: the reconciliation of a
  producer base with the stored graph, what it returns and accepts, and its repetition. `LostResponse`: a retry
  that meets its own commit. `Histories`: what both protocols keep together over whole histories of the store.
- `ReorderedSpaces`, `SilentDrop`, `FailedRetries`, `OrphanedSpace`: inputs on which a repetition is not the
  no-op one might expect, each with a concrete instance built from `SmallGraphs`.
- `Splitting`, `RawBounds`, `Lines`, `Boundaries`, `Tables`, `Drafts`, `Embedding`, `Spans`, `Shapes`, `Chunker`:
  the chunker, from the mutually recursive splitter to `build`. `Boundaries` says what the scanners find, `Shapes`
  what the drafts of each kind of block must be, that there is only one way to make them, and when a block can be
  built; `Chunker` makes them. `Embedding` says what is embedded for a chunk, `BlockContents` what drafts and merged
  runs are in terms of their blocks. `Parts` and `Coverage`: where each visible character goes, what shows it, and what a marker stands for. `EdgeCases`:
  blocks that cannot be built, and a table whose header no draft covers.
- `FolderScan`, `DurableArtifacts`, `FilteredSearch`, `FacetCodec`: one core each.
- `Sequences`, `Unicode`, `Texts`: shared definitions.

Loops of the source are methods with loop invariants, proved against functions or predicates that do not
mention the loop; pure code is functions; crash steps of the archive are a state machine.

Assumptions. The store's contract is that of the SQLite adapter: the swap applies exactly when the stored
state equals the expected one, every commit gets a fresh state token, a live row keeps its lifecycle and its
source binding. Hashes, UUIDs and `logical_id` are uninterpreted; only that a first `retain` of some bytes
completes (`StaysOnCourse`, `RetainReturns`) supposes that no other bytes have their digest.
Regular expressions are concrete scanners over Python's white-space and line-break classes.

What the proofs found in the code:

- Repeating a merge on its own result is a no-op on every graph the two protocols can leave (`MergeAgain`,
  `EveryReadableGraph`). On other graphs it is one exactly when the addition does not revive a waiting output
  through an input whose spaces it lists in another order than the merged graph (`MergeAgainExactly`;
  `SecondMergeChanges` gives inputs where the second merge changes the graph).
- An accepted incoming output can be missing from the reconciled graph: dependencies are checked before
  outdated slots leave. It is dropped exactly when its dependencies lead to a preserved output of another
  source revision (`IncomingSurvives`). With nothing else coming in, the reconciliation then asks for the
  resource to be withdrawn (`DroppedSilently`).
- Repeating a reconciliation on its own result succeeds exactly when three things hold of the first call's
  input (`ReconcileAgain`): provenance is supplied or no digest was stored, no legacy incoming representation
  carries a non-boolean independence flag, and no incoming slot was dropped as above. There is an input for
  each way to fail (`ForgottenDigestDefeatsRetry`, `MalformedFlagDefeatsRetry`, `RepetitionRaises`).
- A retry that meets its own commit of a new source revision recognises it exactly under the first two of
  these conditions (`LostResponseAnswered`). Within one source revision it can compute what it wants exactly
  under the last two, and finds it stored exactly when the commit orphaned no space: the check compares all
  spaces, but pruning keeps spaces whose last vector it dropped (`OwnCommitWithinRevision`,
  `LostResponseRecognised`; `RepetitionNotRecognised` gives inputs where it is not recognised).
- One job commits a new revision twice only if another writer put the captured revision back in between, and
  one prepared enrichment commits twice only if another writer changed the row (`Retry`, `RetryPublication`).
- Another writer stops a prepared enrichment only for a reason that concerns it (`UnblockedExactly`): after a commit
  that added slots of its own to a closed graph, no check does (`NewSlotsDoNotBlock`). What others did to metadata
  and title that a reindex merely carried over is kept (`NoLostUpdate`).
- `build` succeeds exactly when every block passes a condition on the block alone (`Build`): each of its parts
  can be located in the source, and none is blank. Enough blank lines in a row, enough white space in a line
  over budget, or a table without text refuse the whole document (`BlankLinesFail`, `BlankSliceFails`,
  `EmptyTableFails`, `RefusesSpacedDiagram`). The two limit checks, in contrast, are dead code
  (`LimitChecksNeverFire`), and so is the branch at lines 317-325 of `src/mdrack/application/chunking.py`: when a
  line alone is over budget the open group has already been closed.
- Not all visible text is displayed. A table row that does not fit under its header, and a table of at most two
  lines that does not fit, are replaced by markers; everything else that a draft covers is shown by it
  (`EveryPositionIsCovered`). The header of a table lies in no draft's range exactly when the first row does not
  fit with it (`HeaderOfGridIsHidden` is such a table), and when no row fits every draft of the table is a
  marker (`HeaderIsDisplayed`).

## Model

| member | source | states |
|---|---|---|
| `Graph.CollectOutputs` | src/mdrack/application/enrichment.py:324-332 | the loop yields the slot table exactly when every provenance block is well formed and no slot has two owners, and raises otherwise |
| `Graph.TableDetermined` | src/mdrack/application/enrichment.py:324-332 | the slot table is the only map that sends each slot to its owner and misses none |
| `Graph.OutputDecides` | src/mdrack/application/enrichment.py:290-314 | a block declares an output exactly when every label of it has a visible character, its dependencies name other slots and each once, and an independent output has none; the output then says what the block says |
| `Graph.VectorResolves` | packages/mdrack-core/src/mdrack_core/application/validation.py:15-93 | in a valid graph a vector leads to exactly one unit, one representation of that modality and one space of its dimension, all of the same resource |
| `ReconcileAccepts.ValidMeans` | packages/mdrack-core/src/mdrack_core/application/validation.py:15-93 | validity record by record: every unit has its representation and its text or a vector, every vector its unit and a space of its dimension, every representation a unit |
| `Dependencies.CheckAcyclic` | src/mdrack/application/enrichment.py:335-342 | the peeling loop accepts exactly the dependency graphs without a cycle, where a cycle is a path that returns to its start |
| `Dependencies.AcyclicDecides` | src/mdrack/application/enrichment.py:335-342 | repeatedly removing nodes without pending dependencies ends empty if and only if no cycle exists |
| `Dependencies.InvalidDependenciesDecides` | src/mdrack/application/enrichment.py:345-359 | the slots not reported invalid are the greatest set in which every dependency is present at its declared revision; a cycle raises, and a protected slot outside that set raises instead of being dropped |
| `Dependencies.ComputeInvalidDependencies` | src/mdrack/application/enrichment.py:345-359 | the propagation loop over a growing set computes exactly that answer |
| `Dependencies.SurvivorsAvoid` | src/mdrack/application/enrichment.py:376-380 | when slots are taken away, the slots that stay closed are exactly those from which no taken slot can be reached by dependencies |
| `Merging.AnyForeignDecides` | src/mdrack/application/enrichment.py:402-405 | the source check passes exactly when every output has the graph's revision or declares independence |
| `Merging.SourceRevisionMeans` | src/mdrack/application/enrichment.py:275-278 | the source revision is a metadata string with a visible character |
| `Merging.SelectJoined` | src/mdrack/application/enrichment.py:417-422 | when two disjoint selections are joined, the projection of either side comes out unchanged, units and vectors in order |
| `MergeTheorems.MergeSurvivors` | src/mdrack/application/enrichment.py:444-459 | the slots after a merge are the greatest dependency-closed set inside the combined slots without the retained readers of an input that was replaced by different material, none of which is left; every incoming slot is among them, each survivor is owned by the incoming representation or else by the stored one, and no cycle arises |
| `MergeTheorems.MaterialAgrees` | src/mdrack/application/enrichment.py:136-149 | what is compared of an input is exactly: artifact revision, body digest, material fingerprint, kind, modality, producer fingerprint and language; each unit in id, kind, modality, evidence, ordinal, tokens and metadata; the vectors, and the spaces they use |
| `MergeTheorems.MergeRefusesStaleIncoming` | src/mdrack/application/enrichment.py:345-359 | an incoming slot that belongs to no closed set of those choices makes the merge raise; it is never dropped silently |
| `MergeTheorems.MergedReps` | src/mdrack/application/enrichment.py:460-464 | the representations after a merge are exactly the stored ones that own no changed or invalid slot, and the incoming owners of changed slots; the two groups share no identity |
| `MergeTheorems.MergePreserves` | src/mdrack/application/enrichment.py:460-476 | a stored representation that is neither re-supplied nor stale keeps its record, its units and its vectors |
| `MergeTheorems.MergeInstalls` | src/mdrack/application/enrichment.py:460-476 | every incoming output owns its slot afterwards, with exactly the incoming units and vectors |
| `MergeTheorems.MergeAddsNothingElse` | src/mdrack/application/enrichment.py:460-476 | every representation, unit and vector of the result came from one of the two graphs, the spaces are those of both, and resource and facets are unchanged |
| `MergeTheorems.MergeConserves` | src/mdrack/application/enrichment.py:478-486 | the report is exact: a stored representation is replaced if its slot changes, invalidated if its slot does not survive, preserved otherwise, an incoming one added if its slot is new; and the four lists account for every representation of both graphs once |
| `MergeAccepts.MergeAccepts` | src/mdrack/application/enrichment.py:425-476 | a merge succeeds if and only if the source is live, valid, bound and of one revision, the addition is a valid graph of the same resource whose representations all declare outputs of that revision, no space is redefined, no cycle arises, every incoming slot finds its dependencies, and no identity that enters is taken by what is kept |
| `MergeAccepts.MergeErrors` | src/mdrack/application/enrichment.py:436-458 | for complete graphs of one resource it is refused as stale exactly when an incoming output is of another revision or, without a cycle, finds its dependencies gone; any other refusal is an invalid request |
| `MergeTwice.MergeCloses` | src/mdrack/application/enrichment.py:425-486 | every merge result is dependency-closed |
| `MergeTwice.MergeAgain` | src/mdrack/application/enrichment.py:425-486 | merging the same addition into its own result, starting from a closed graph, returns exactly that batch and reports everything as preserved |
| `MergeTwice.MergeAgainExactly` | src/mdrack/application/enrichment.py:450-476 | on any graph, and of what the first call was given, the second merge is a no-op if and only if the addition revives no retained output through a new input whose spaces it lists in another order than the merged graph |
| `ReorderedSpaces.SecondMergeChanges` | src/mdrack/application/enrichment.py:450-476 | a family of graphs and additions where it is not |
| `ReorderedSpaces.InstanceOk` | src/mdrack/application/enrichment.py:450-476 | a concrete member of that family |
| `Port.PublicationPort.StateIdentifiesGraph` | packages/mdrack-sqlite/src/mdrack_sqlite/resource_store.py:548-573 | in the whole history no state recurs with a different graph |
| `Port.PublicationPort.ReadSnapshot` | packages/mdrack-sqlite/src/mdrack_sqlite/resource_store.py:587-601 | a read returns the row as it is after interference, commits nothing, and fails only on a fault |
| `Port.PublicationPort.CompareAndPublish` | packages/mdrack-sqlite/src/mdrack_sqlite/resource_store.py:603-641 | a commit happens only over the expected state and then replaced the very graph that state identifies; a live row keeps its lifecycle and any other begins a fresh one; refused exactly when the state differs or the request is invalid; an error may hide a commit only when the response was lost |
| `Port.PublicationPort.WithdrawIfCurrent` | packages/mdrack-sqlite/src/mdrack_sqlite/resource_store.py:643-682 | the same for withdrawal; lifecycle and source binding continue without a graph |
| `Enrichment.PreparedOutputsAreMet` | src/mdrack/application/enrichment.py:46-77 | a prepared enrichment has an output for each target, and every dependency it declares is a captured input at its captured revision |
| `Enrichment.PreparedIsPublishable` | src/mdrack/application/enrichment.py:46-77 | nothing blocks the publication of a prepared enrichment on the snapshot it was captured from |
| `Freshness.CaptureDecides` | src/mdrack/application/enrichment.py:46-62 | `capture` accepts exactly a current graph with distinct, non-blank slots, at least one target, and inputs that have owners, and records its revision |
| `Freshness.PrepareDecides` | src/mdrack/application/enrichment.py:65-77 | `prepare` accepts exactly additions that fill the declared targets, depend only on captured inputs at their captured revisions, and can be merged into the captured graph |
| `Freshness.AcceptedExactly` | src/mdrack/application/enrichment.py:114-162 | freshness and targets accept a snapshot if and only if it is current, has the captured lifecycle, binding, source revision, kind, media type and raw digest, every input agrees field by field, and every target is absent from both graphs or owned by the same representation with the same units and vectors |
| `Freshness.UnblockedExactly` | src/mdrack/application/enrichment.py:88-104 | no check stops a publication over a snapshot if and only if it is fresh in that sense, the merge accepts the addition, and the targets are as captured or the effect is there already |
| `Freshness.RefusedAsStale` | src/mdrack/application/enrichment.py:114-162 | a readable snapshot that freshness or targets refuse is refused as stale |
| `Freshness.UnrelatedCommitIsAdmitted` | src/mdrack/application/enrichment.py:114-162 | after another commit that touched no input and no target, and left those that were there, freshness and targets still accept |
| `Freshness.NewSlotsDoNotBlock` | src/mdrack/application/enrichment.py:88-111 | after another commit to a closed graph that only added slots which are neither stored nor targets, with identities of its own, no check at all stops the publication |
| `Enrichment.Publish` | src/mdrack/application/enrichment.py:80-111 | against every schedule: at most one commit, and a justified one; published if and only if it committed; already published only when the latest graph equals its merge with the addition; errors only for a retry budget or resource that does not fit, a failed check on an observed snapshot or a fault; at most max_retries+1 swaps and 2·(max_retries+1) iterations |
| `Enrichment.Confirm` | src/mdrack/application/enrichment.py:94-103 | the no-op branch: nothing is written; it answers only if the latest graph equals its merge, and goes on only to a fresh graph that the addition would change |
| `Enrichment.Submit` | src/mdrack/application/enrichment.py:105-111 | one attempt: a commit is justified and reported as published, and only a refused swap within the budget leads to another pass |
| `Enrichment.JustifiedMeans` | src/mdrack/application/enrichment.py:114-162 | the graph a justified commit replaced had the captured lifecycle, binding, source revision, raw digest, kind and media type; every input was in both graphs with the same material, field by field, and every target had its captured projection |
| `Enrichment.CommitPreserves` | src/mdrack/application/enrichment.py:80-162 | a justified commit loses no update: each representation of the replaced graph that is neither a target nor stale keeps its units and vectors |
| `Enrichment.NoSecondWrite` | src/mdrack/application/enrichment.py:91-103 | a commit never replaces a graph that already is the effect of the same addition on a closed graph |
| `Enrichment.JustifiedGraph` | src/mdrack/application/enrichment.py:392-405 | a justified commit leaves a valid, closed graph whose outputs all belong to its source revision or are independent |
| `Enrichment.Admissible` | src/mdrack/application/enrichment.py:104-108 | a merge result is always a write the store accepts for the row it was merged with |
| `Reconciling.UnionDecides` | src/mdrack/application/reindexing.py:74-81 | a union succeeds exactly when no identity has two values, and then holds precisely the members of both, each once, stored ones first |
| `Reconciling.ComputeUnion` | src/mdrack/application/reindexing.py:74-81 | the loop over the incoming records computes that union |
| `Reconciling.CheckIncomingDecides` | src/mdrack/application/reindexing.py:98-102 | incoming outputs are accepted exactly when each is independent or of the incoming generation |
| `ReconcileTheorems.PruneFacts` | src/mdrack/application/enrichment.py:372-389 | pruning removes the outdated slots and exactly those outside the greatest closed set of the others; it returns nothing if no representation is left |
| `ReconcileTheorems.PruneInvariant` | src/mdrack/application/enrichment.py:372-389 | what pruning returns is valid, dependency-closed, up to date, and contains no representation, unit or vector that was not there; spaces and facets stay |
| `ReconcileTheorems.ReconcileInvariant` | src/mdrack/application/reindexing.py:84-174 | every reconciled graph is valid, dependency-closed, of the supplied source revision, and each of its outputs that is not independent carries that revision |
| `ReconcileTheorems.CombineMembers` | src/mdrack/application/reindexing.py:119-171 | before pruning the graph holds exactly the preserved and the incoming representations, with the units, vectors and used spaces that follow them, and all facets |
| `ReconcileTheorems.GenerationChange` | src/mdrack/application/reindexing.py:131-143 | when the source revision changes, a representation that is not supplied is in the result if and only if it is stored, declares independence of the source, and is not asked to be removed |
| `ReconcileTheorems.IndependenceMeans` | src/mdrack/application/enrichment.py:362-369 | independence is readable exactly when the output is, the flag is a boolean, and no dependencies contradict it; it then is what the flag or the output block declares |
| `ReconcileTheorems.ProducerReplacesOwnBase` | src/mdrack/application/reindexing.py:124-143 | within a generation a legacy representation that is not re-supplied survives exactly when another producer owns it and no base representation of its kind is supplied |
| `ReconcileTheorems.ReconcileKeeps` | src/mdrack/application/reindexing.py:144-171 | a stored representation in the result has exactly its own units and vectors, if it is preserved, and those the producer supplies for it |
| `ReconcileTheorems.IncomingSurvives` | src/mdrack/application/reindexing.py:172-174 | an accepted incoming slot is in the result if and only if its dependencies do not lead to a preserved output of another source revision |
| `ReconcileContents.PruneKeeps` | src/mdrack/application/enrichment.py:372-389 | pruning keeps a representation if and only if it belongs to the generation or declares independence, and everything it depends on is kept |
| `ReconcileContents.ReconcileReturns` | src/mdrack/application/reindexing.py:109-174 | record by record: a representation is in the result if and only if it comes in, or carries over and is of the revision, and its dependencies are in the result; units and vectors follow their representations, spaces the vectors combined, facets accumulate, and metadata and title are the supplied ones over the stored ones |
| `ReconcileContents.RemovedIsGone` | src/mdrack/application/reindexing.py:131-134 | the owner of a slot asked to be removed is not in the result unless the producer supplies that very representation |
| `ReconcileContents.OutputSurvives` | src/mdrack/application/reindexing.py:131-143 | within one revision a stored output that is not independent is in the result if and only if its slot is neither removed nor supplied or it comes in itself, it carries the revision, and its dependencies are in the result |
| `ReconcileAccepts.ReconcileAccepts` | src/mdrack/application/reindexing.py:84-174 | a stored graph is reconciled if and only if both revisions are readable, the source has not changed behind an unchanged revision, the incoming graph fits, every stored representation can be read, and what carries over agrees with what comes in: one value per identity and per independent metadata key, one owner per slot, no cycle, every incoming slot with its dependencies |
| `ReconcileAccepts.FirstAccepts` | src/mdrack/application/reindexing.py:93-108 | with nothing stored, a base is accepted if and only if it fits the resource and revision, meets its own dependencies and has no cycle |
| `ReconcileAccepts.PruneAccepts` | src/mdrack/application/enrichment.py:372-389 | a valid graph with readable outputs and no cycle can always be pruned |
| `ReconcileTwice.FirstPublication` | src/mdrack/application/reindexing.py:103-108 | with nothing stored an accepted base is published exactly as it came |
| `ReconcileTwice.ReconcileAgain` | src/mdrack/application/reindexing.py:119-174 | over every valid stored graph, repeating a reconciliation on its own result succeeds if and only if, of the first call's input, provenance is supplied or no digest was stored, no legacy flag is malformed, and no incoming slot was silently dropped; it then gives the same graph up to order and unused spaces |
| `ReconcileTwice.LostResponseRecognised` | src/mdrack/application/reindexing.py:213-224 | when the repetition succeeds, it is recognised as already published if and only if, of the first call's input, no space was orphaned: used among what is preserved only by vectors of representations that pruning drops, and not supplied |
| `LostResponse.NothingPruned` | src/mdrack/application/reindexing.py:131-174 | when the source revision changes, pruning drops nothing, whatever valid graph was stored: what was preserved is independent and what came in is protected |
| `LostResponse.NewSourceRecognised` | src/mdrack/application/reindexing.py:280-288 | repeating a reconciliation that changed the source revision succeeds and equals the stored graph up to order, spaces included, if and only if provenance is supplied or no digest was stored, and no legacy flag is malformed |
| `LostResponse.RebaseStable` | src/mdrack/application/reindexing.py:238-255 | rebased onto the graph it wrote, a job asks for exactly the same again |
| `LostResponse.LostResponseAnswered` | src/mdrack/application/reindexing.py:268-288 | when a commit to a new source revision succeeded and its response was lost, the next look at the store answers already published if and only if those two conditions hold, whatever valid graph the commit replaced |
| `LostResponse.OwnCommitWithinRevision` | src/mdrack/application/reindexing.py:304-306 | a retry that meets its own commit within one revision can compute what it wants if and only if no legacy flag is malformed and no incoming slot was dropped, and then finds it stored if and only if no space was orphaned |
| `OrphanedSpace.RepetitionNotRecognised` | src/mdrack/application/reindexing.py:304-306 | when a producer re-supplies an input at a new revision and its only consumer held the only vector of a space, repeating the committed reindex succeeds but its graph differs from the stored one |
| `OrphanedSpace.InstanceOk` | src/mdrack/application/reindexing.py:304-306 | a concrete graph and base of that family |
| `Reindexing.PublishReindex` | src/mdrack/application/reindexing.py:258-341 | against every schedule: at most one commit, and an entitled one, which changes the graph if no-ops are allowed; already published only when an observed graph has exactly the representations, units, spaces, vectors, facets and resource record of its own reconciliation; errors only for what was observed or a fault; at most max_retries+1 swaps and iterations |
| `Reindexing.ConfirmReindex` | src/mdrack/application/reindexing.py:306-323 | the no-op branch writes nothing, answers only if the stored state is still the one examined, and otherwise rebases within the budget |
| `Reindexing.SubmitReindex` | src/mdrack/application/reindexing.py:324-341 | one attempt: a commit replaces exactly the examined snapshot with the desired graph or its withdrawal and is reported as such; only a refused swap within the budget leads to another pass |
| `Reindexing.SameGraphMeans` | src/mdrack/application/reindexing.py:213-224 | two valid graphs count as the same if and only if their resource records are equal and their representations, units, spaces, vectors and facets are, as multisets |
| `ReindexAccepts.ProceedsExactly` | src/mdrack/application/reindexing.py:268-303 | over a graph other than the captured one a reindex goes on if and only if the lifecycle and the source are the same, each slot it supplies or removes is as captured or as supplied, and each declared input has kept its revision |
| `ReindexAccepts.RecognisesExactly` | src/mdrack/application/reindexing.py:280-289 | over another source it never goes on, and answers already published if and only if the row shows the source it brought and the very records it wants |
| `Reindexing.EntitledMeans` | src/mdrack/application/reindexing.py:268-303 | a commit over a graph other than the captured one continued its lifecycle and source identity, found each target as captured or as wanted, and each declared input at its captured revision |
| `Reindexing.EntitledGraph` | src/mdrack/application/reindexing.py:84-174 | every graph a reindex commits is valid, dependency-closed, up to date and bound to its source |
| `Reindexing.RebaseOnCaptured` | src/mdrack/application/reindexing.py:238-255 | rebased onto the graph it was prepared from, a job is unchanged |
| `Reindexing.RebaseConflicts` | src/mdrack/application/reindexing.py:238-255 | a rebased record conflicts with the stored one if and only if the job itself set or changed an independent key that is now stored with another value; what it carried over never conflicts |
| `ReindexAccepts.NoLostUpdate` | src/mdrack/application/reindexing.py:238-255 | in what a reindex writes, metadata and title that the job merely carried over, or does not mention, are as others have left them, even changed or removed; what it set itself is as it set it |
| `Histories.EveryReadableGraph` | src/mdrack/application/enrichment.py:80-111 | in every history of enrichments, reindexes, withdrawals and deletions, every graph that can be read is valid, dependency-closed and bound to its source |
| `Histories.NeverPublishedTwice` | src/mdrack/application/enrichment.py:91-103 | in such a history a retry that finds its own effect makes no second write |
| `Histories.RepeatDecided` | src/mdrack/application/reindexing.py:119-174 | in such a history provenance and flags alone decide whether a repeated reconciliation succeeds |
| `Histories.NoSecondReindex` | src/mdrack/application/reindexing.py:258-341 | in every history of the store, between two commits of one job to a new source revision another commit put the captured revision back |
| `Histories.Retry` | src/mdrack/application/reindexing.py:258-341 | two calls of `publish_reindex` with any faults and writers: if both commit, even when the first response was lost, another writer restored the captured revision in between |
| `Histories.NoSecondPublication` | src/mdrack/application/enrichment.py:80-111 | in every history, between two commits of one prepared enrichment, the first over a closed graph, another commit changed the row |
| `Histories.RetryPublication` | src/mdrack/application/enrichment.py:80-111 | two calls of `publish` with any faults and writers: if both commit, even when the first response was lost, another writer committed to the row in between |
| `FailedRetries.MalformedFlagDefeatsRetry` | src/mdrack/application/reindexing.py:131-136 | a concrete base with a non-boolean flag that is published on the first attempt and raises on the repetition |
| `FailedRetries.ForgottenDigestDefeatsRetry` | src/mdrack/application/reindexing.py:109-118 | a concrete new revision supplied without provenance over a stored digest: published first, contradicted by its own result on the repetition |
| `SilentDrop.DroppedSilently` | src/mdrack/application/reindexing.py:172-174 | a family of bases whose output depends on a stored output of an older revision: accepted, then missing from the result, which is empty if nothing else comes in |
| `SilentDrop.RepetitionRaises` | src/mdrack/application/reindexing.py:172-174 | when a legacy representation comes in too, the first call succeeds and its repetition raises |
| `SilentDrop.InstanceOk` | src/mdrack/application/reindexing.py:172-174 | concrete members of that family, with and without a legacy representation |
| `Splitting.Units` | src/mdrack/application/chunking.py:217-239 | the scan cuts the range after every leftmost match of the level's pattern, without gap; only blank text has no words |
| `Splitting.SplitRange` | src/mdrack/application/chunking.py:185-214 | an ordered gap-free partition within both budgets, made as the levels prescribe; it raises if and only if one character alone exceeds the byte budget |
| `Splitting.PackUnits` | src/mdrack/application/chunking.py:241-280 | units that fit are never broken and start a piece only if the previous piece could not take them; each other unit is split at the next level |
| `Splitting.SplitCharacters` | src/mdrack/application/chunking.py:204-214 | the last level cuts pieces as long as both budgets allow |
| `Splitting.TilingLosesNothing` | src/mdrack/application/chunking.py:179-183 | the pieces of a split, laid end to end, are the text |
| `Splitting.SplitDetermined` | src/mdrack/application/chunking.py:185-280 | the levels leave no choice: a text has only one split |
| `Boundaries.MatchMeans` | src/mdrack/application/chunking.py:14-16 | the three patterns match just there: a blank line with the newlines after it, the space after a sentence, a word with the space before it |
| `RawBounds.Normalize` | src/mdrack/application/chunking.py:676-687 | the position map is strictly increasing, never cuts a CRLF pair, and maps each position to a prefix that folds to that many characters |
| `RawBounds.TextRawBounds` | src/mdrack/application/chunking.py:672-695 | the span is the slice itself at the text's first occurrence, otherwise it folds to the slice at the first folded occurrence and cuts no pair; refused exactly when neither exists |
| `RawBounds.BoundsDetermined` | src/mdrack/application/chunking.py:672-695 | there is only one such span |
| `Lines.LinesCover` | src/mdrack/application/chunking.py:608-618 | lines with their terminators cover the text without gap |
| `Boundaries.LinesMean` | src/mdrack/application/chunking.py:608-615 | every line ends with one of the ten line breaks, a carriage return together with a newline after it, or with the text, and holds none before |
| `Lines.LineGroups` | src/mdrack/application/chunking.py:296-349 | the group ranges tile the content; a whole group joins at most the window's lines, fits, and stops only at the window, the budget or the end; an oversized line is cut into longest slices |
| `Lines.RangeGroups` | src/mdrack/application/chunking.py:428-484 | the same for one range of lines, whose groups show their slice without outer newlines |
| `Lines.GroupsDetermined` | src/mdrack/application/chunking.py:296-349 | a text has only one grouping into windows of lines |
| `Lines.RangeGroupsDetermined` | src/mdrack/application/chunking.py:428-484 | nor has a range of lines more than one |
| `Tables.BoundedMarker` | src/mdrack/application/chunking.py:698-709 | the first marker that fits; with positive budgets one always does, so the error is unreachable |
| `Tables.RowGroups` | src/mdrack/application/chunking.py:497-542 | each data row belongs to exactly one draft, in order; a draft shows header and rows, as many as fit; only a row too large on its own becomes a marker |
| `Tables.HeaderRepeated` | src/mdrack/application/chunking.py:524-531 | every draft that is not a marker starts with the two header lines |
| `Tables.RowGroupsDetermined` | src/mdrack/application/chunking.py:497-542 | a table has only one grouping of its rows |
| `Drafts.ComputeTruncation` | src/mdrack/application/chunking.py:724-727 | the loop keeps the longest prefix within the byte limit |
| `Drafts.LimitsLeaveRoom` | src/mdrack/application/chunking.py:163-174 | for every configuration, heading path, language and kind at least four body bytes remain, so neither clamp is needed |
| `Drafts.BodyFitsChunk` | src/mdrack/application/chunking.py:711-736 | a body within its limits gives a display within the hard limit and an estimate within max_tokens |
| `Embedding.EmbeddingMeans` | src/mdrack/application/chunking.py:711-736 | what is embedded is, for heading path, language, kind and display, exactly one text: the headings joined by " > ", the tag of the kind on a new line, the longest beginning of this within max_tokens*4-6 bytes without space at its end, then a blank line and the display; the display alone if nothing precedes |
| `Embedding.WholeContext` | src/mdrack/application/chunking.py:711-736 | headings and tag that fit are embedded whole |
| `Embedding.HeadingIsEmbedded` | src/mdrack/application/chunking.py:711-736 | a concrete paragraph and a list under one heading with the default limits |
| `BlockContents.FitMeans` | src/mdrack/application/chunking.py:163-174 | a body is within its limits exactly if it has no more characters than the limit and the whole embedding text no more than four bytes for each token |
| `Drafts.MergeSmallDrafts` | src/mdrack/application/chunking.py:544-569 | the source blocks come out in the same order, none lost or duplicated; each output is the merge of one run of entries; neighbours stay apart only if they cannot merge or both are long enough |
| `Drafts.RunIsMergeable` | src/mdrack/application/chunking.py:544-589 | a merged run contains no barrier and no draft that must stay alone, and one content kind only |
| `BlockContents.MergePairDecides` | src/mdrack/application/chunking.py:571-589 | two drafts merge if and only if they are text, list or quotation alike, under the same headings, and their joined display fits the target |
| `BlockContents.RunMeans` | src/mdrack/application/chunking.py:571-606 | a merged draft has one kind and one heading path, shows the displays of its run in order with blank lines between, and has the least span that covers theirs, with offsets if all of them have |
| `Spans.SpanForSlice` | src/mdrack/application/chunking.py:620-645 | the span has the lines and offsets of the slice's place in the source; it fails exactly when the projection runs backwards or, without one, the text occurs in the source neither as it is nor folded |
| `Spans.LocatedDetermined` | src/mdrack/application/chunking.py:620-669 | a slice has at most one span |
| `BlockContents.SpanMeans` | src/mdrack/application/chunking.py:634-645 | the lines of a span are those of its first and of its last character, counted by the newlines before them, and its offsets are shifted by the block |
| `BlockContents.ProjectionMeans` | src/mdrack/application/chunking.py:647-669 | a projected slice begins with its first meeting row, or as far into it as the slice begins, and ends likewise with the last |
| `Shapes.DraftsDetermined` | src/mdrack/application/chunking.py:116-161 | the drafts of a block are determined by the block and the configuration |
| `Shapes.BlockIff` | src/mdrack/application/chunking.py:116-161 | a block whose drafts could be made can be built exactly when none of them is blank |
| `Shapes.MergeableIsSolid` | src/mdrack/application/chunking.py:149-161 | a draft that may merge is never blank |
| `BlockContents.DraftTextMeans` | src/mdrack/application/chunking.py:129-148 | which text of a block is cut: the source of a table, the plain text of code and diagrams without outer newlines, the plain text of paragraphs and of prose with a projection, otherwise the source |
| `BlockContents.DraftsMean` | src/mdrack/application/chunking.py:116-161 | every draft is of its block and its kind; it may merge if and only if the block is a paragraph, list or quotation whose whole text fits, and then it shows the whole text |
| `BlockContents.PythonIsSpelled` | src/mdrack/application/chunking.py:121 | which languages are taken for Python, in any case |
| `Chunker.ProseDrafts` | src/mdrack/application/chunking.py:129-161 | one draft per non-blank piece of the split, with its span; mergeable only if the block stays whole; within the body limits |
| `Chunker.LineDrafts` | src/mdrack/application/chunking.py:286-359 | one draft per line group, with the span of its range, within the body limits |
| `Chunker.StructuralRanges` | src/mdrack/application/chunking.py:385-393 | the definitions and the whole gaps between them tile all lines |
| `Chunker.PythonDrafts` | src/mdrack/application/chunking.py:361-426 | the drafts of each range in order: none if blank, one if it fits, otherwise line groups that tile it |
| `Chunker.TableDrafts` | src/mdrack/application/chunking.py:486-542 | one draft per row group with the span of the rows it owns; a header alone is shown whole or as a marker |
| `Chunker.BlockDrafts` | src/mdrack/application/chunking.py:116-161 | every kind of block is drafted by its own path; refused only if the block cannot be built, and otherwise it can be built exactly when no draft is blank |
| `Chunker.LimitChecksNeverFire` | src/mdrack/application/chunking.py:86-91 | no draft within its body limits can trip either limit check of `build` |
| `Chunker.Build` | src/mdrack/application/chunking.py:71-114 | it succeeds if and only if every block but the barriers can be built: each part of its text is located and not blank; then one chunk per merged draft, numbered in order, within both limits, each with the ids of its blocks, its display, kind and span, the headings of its first block, the embedding text these determine, and a token for every four bytes begun |
| `Chunker.SealIff` | src/mdrack/domain/chunks.py:38-44 | a draft within its limits is rejected exactly when its display is blank |
| `Parts.PartsDetermined` | src/mdrack/application/chunking.py:116-161 | the ranges into which a block is cut and what is shown for each are determined by the block and the configuration |
| `Parts.DraftsHaveParts` | src/mdrack/application/chunking.py:116-161 | the drafts of a block are drawn from those parts, one each, with the span of the range; only a table of at most two lines has its block's span |
| `Coverage.EveryPositionIsCovered` | src/mdrack/application/chunking.py:116-161 | a visible character lies in the range of a part if and only if it is not in the header of a table whose first row does not fit with it; the part displays what its range holds of the character's line, unless a row or a short table does not fit, and then it is the marker |
| `Coverage.HeaderIsDisplayed` | src/mdrack/application/chunking.py:502-531 | the header of a longer table is displayed if any row fits under it, and otherwise every draft of the table is a marker |
| `Coverage.EveryPositionIsRetrievable` | src/mdrack/application/chunking.py:71-114 | in a built document, barriers, hidden headers and omitted lines aside, the draft that the block contributes for that part is displayed by a chunk that names the block |
| `EdgeCases.BlankSliceFails` | src/mdrack/application/chunking.py:326-338 | at any budget, one character fewer than two budgets of white space in an over-budget line give a blank slice, and the block cannot be built |
| `EdgeCases.BlankLinesFail` | src/mdrack/application/chunking.py:296-316 | at any window, one line fewer than two windows of blank lines give a blank window, and the block cannot be built |
| `EdgeCases.EmptyTableFails` | src/mdrack/application/chunking.py:490-494 | a table block without text cannot be built |
| `EdgeCases.RefusesSpacedDiagram` | src/mdrack/application/chunking.py:71-114 | a concrete document that `build` refuses |
| `EdgeCases.HeaderOfGridIsHidden` | src/mdrack/application/chunking.py:508-522 | a concrete table whose row is replaced by a marker and whose visible header lies in no part's range |
| `FolderScan.ScanRoot` | src/mdrack/application/folder_import.py:395-485 | the stack walk reports exactly the observed names, blocked prefixes and completeness that recursion on the tree defines |
| `FolderScan.NothingMissed` | src/mdrack/application/folder_import.py:395-485 | a file in the tree is observed, lies under a blocked prefix, or the scan is incomplete |
| `FolderScan.ReportMeans` | src/mdrack/application/folder_import.py:395-460 | the report names exactly the entries reached through readable directories that are neither linked nor ignored, blocks exactly the links and ignored directories among them, and is complete exactly if all of them could be looked at |
| `FolderScan.MissingMeans` | src/mdrack/application/folder_import.py:702-728 | a file is taken as gone if and only if it is not excluded, the scan could look everywhere, nothing is at its place, and it lies at or below no link and no ignored directory |
| `FolderScan.ReconcileMissing` | src/mdrack/application/folder_import.py:784-827 | at most one commit, the withdrawal of the entry's own resource in its namespace; gone only when no longer published; conflict and contention only with their cause |
| `FolderScan.WithdrawMissing` | src/mdrack/application/folder_import.py:702-728 | every commit of the loop is authorised by the scan; entries of files not missing are unchanged, and a missing one stays available only for a conflict or another writer |
| `FolderScan.PresentFilesStay` | src/mdrack/application/folder_import.py:702-728 | no authorised commit withdraws the resource of a file that is still in the tree |
| `DurableArtifacts.StepKeepsSafe` | src/mdrack/application/durable_artifacts.py:75-115 | every step of every call, error or kill keeps the invariant and everything archived |
| `DurableArtifacts.ArchiveAlwaysSafe` | src/mdrack/application/durable_artifacts.py:64-128 | in every state of every run an entry under a digest name holds a complete bounded payload hashing to it |
| `DurableArtifacts.RetainedForever` | src/mdrack/application/durable_artifacts.py:75-128 | once `retain` has returned, every later read gives back exactly the retained bytes |
| `DurableArtifacts.ReadsAgree` | src/mdrack/application/durable_artifacts.py:117-128 | two reads of one reference never differ |
| `DurableArtifacts.StaysOnCourse` | src/mdrack/application/durable_artifacts.py:75-115 | on an opened archive a call is never made to fail by others: whatever they do or wherever they die, only an error or kill of its own can; retaining what is archived already needs nothing of the hash |
| `DurableArtifacts.RetainReturns` | src/mdrack/application/durable_artifacts.py:75-115 | from every such state the call, left to itself, returns |
| `DurableArtifacts.BeginsOnCourse` | src/mdrack/application/durable_artifacts.py:75-88 | in every run a new call on an opened archive is such a call, whatever calls before it left behind |
| `FilteredSearch.SearchVector` | src/mdrack/application/resources.py:73-99 | doubling the prefix until enough candidates pass terminates and gives the first of those that pass in the whole ranking, as many as the limit allows, the k-th with rank k |
| `FilteredSearch.SelectPrefix` | src/mdrack/application/resources.py:87-92 | what passes in a prefix is a prefix of what passes overall |
| `FilteredSearch.SelectKeeps` | src/mdrack/application/resources.py:87-92 | what passes is read off the ranking at increasing positions, exactly those whose basis is asked for and whose aggregation is one of the two textual ones |
| `FacetCodec.Utf8RoundTrip` | src/mdrack/application/metadata_projection.py:34-93 | UTF-8 decoding (section 3 of RFC 3629) inverts encoding |
| `FacetCodec.Utf8Strict` | src/mdrack/application/metadata_projection.py:34-93 | the strict decoder accepts no byte sequence but the encoding of its result |
| `FacetCodec.UnquoteQuote` | src/mdrack/application/metadata_projection.py:34-93 | percent-decoding (section 2.1 of RFC 3986) inverts percent-encoding for every text |
| `FacetCodec.DecodeEncode` | src/mdrack/application/metadata_projection.py:34-93 | every string, integer, boolean, null and accepted float comes back unchanged, type included |
| `FacetCodec.DecodeAcceptsOnlyEncodings` | src/mdrack/application/metadata_projection.py:54-93 | a text is accepted if and only if it is the encoding of some value, namely of the decoded one |
| `FacetCodec.EncodeInjective` | src/mdrack/application/metadata_projection.py:34-52 | encodings of different values or types never coincide |
| `FacetCodec.AcceptedTextIsStrict` | src/mdrack/application/metadata_projection.py:87-93 | an accepted string payload is ASCII and unquotes to the UTF-8 bytes of its text |
| `FacetCodec.QuoteSpelling` | src/mdrack/application/metadata_projection.py:47-51 | a text is spelled character by character: letters, digits and - . _ ~ as they are, every other character as its UTF-8 bytes, each a percent sign and two upper-case digits |
| `FacetCodec.IntegerSpelling` | src/mdrack/application/metadata_projection.py:40-41 | an integer is spelled in decimal, with a minus sign if negative and without leading zeros |
| `FacetCodec.EncodeSpelling` | src/mdrack/application/metadata_projection.py:36-49 | the type letters and the words for null, true and false |
| `FacetCodec.Utf8Size` | src/mdrack/application/chunking.py:57-59 | the byte size that budgets and token estimates count is the length of the UTF-8 encoding |

## Left out

- Per-field checks of records (empty strings, number ranges, cosine norms, ordinals in the adapter's preflight): they restrict which values exist, not how graphs combine.
- The JSON shape of the `enrichment_v1` block: a datatype with a `Malformed` case stands for it, other metadata is opaque text.
- Vectors compare as sequences of reals; -0.0, NaN and the difference of integer and float literals are not modelled.
- `prepare_ocr`, `producer_job`, `_source_components` and file preparation around the two protocols: they build batches, which are arbitrary here.
- SQLite storage, migrations, full-text search and vector backends: only the contract of the publication port is modelled.
- FacetCodec.DecodeEncode: floats are named by their JSON text, and which texts are canonical floats is a parameter; Python's limit on digits of very long integers and lone surrogates in strings are not modelled.
- Chunk identifiers, which hash the fields that `Chunker.Seal` collects.
- `ast.parse`: the line ranges of Python definitions are given, in order and disjoint; content on which definitions share a line, or whose line breaks the parser counts differently from `splitlines`, is outside the model.
- Spans.SpanForSlice: projection rows are lists of natural numbers; negative entries and non-integer rows are not modelled.
- `str.casefold` beyond ASCII in the test for Python code, which affects no other spelling of `py` and `python`.
- FolderScan.ScanRoot: the sorted candidate and result lists, media classification and reference validation; they do not influence what may be withdrawn.
- FolderScan.PresentFilesStay: that different files have different resource ids is a premise; the program derives them with `logical_id` from namespace, kind and reference.
- Saving the lifecycle file, importing candidates, embedding providers, the command line, logging.
- Durable artifacts: links and permissions in the archive directory, and `read`, which parses JSON on top of `read_bytes`.
- The evictable artifact cache, the RFC 6901 path resolver, result mapping and duplicate search.
