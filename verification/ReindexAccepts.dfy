/** Exactly when a reindex goes on over a graph that has moved, and what becomes of metadata and title that
    others have changed meanwhile. */
module ReindexAccepts {
  import opened Sequences
  import opened Graph
  import opened Merging
  import opened MergeTheorems
  import opened Enrichment
  import opened Reconciling
  import opened ReconcileTheorems
  import opened ReconcileContents
  import opened ReconcileAccepts
  import opened Freshness
  import opened Reindexing

  // ---------------------------------------------------------------- a graph that moved

  /** The same live or dead row, in one lifecycle; a deleted one must not have changed at all. */
  predicate SameLife(was: State, now: State) {
    && (was.Known? <==> now.Known?) && (was.Known? ==> was.lifecycle == now.lifecycle)
    && (was.Live() <==> now.Live()) && (now.Known? && now.status == Deleted ==> now == was)
  }

  /** One source under one revision. */
  predicate SameSource(a: Resource, b: Resource) {
    && SourceRevision(a).Ok? && SourceRevision(b).Ok? && SourceRevision(a).value == SourceRevision(b).value
    && a.namespace == b.namespace && a.locator == b.locator && RawDigest(a) == RawDigest(b)
    && a.kind == b.kind && a.mediaType == b.mediaType
  }

  /** A slot as the job itself supplies it: absent if it supplies nothing there. */
  predicate AsSupplied(job: Job, now: Batch, s: Slot)
    requires OutputsOk(now.reps) && (job.incoming.Some? ==> OutputsOk(job.incoming.value.reps))
  {
    if job.incoming.None? then s !in Table(now.reps) else TargetSame(job.incoming.value, now, s)
  }

  /** The graphs of the capture, of the store and of the job, all of them readable. */
  predicate Readings(job: Job, current: Snapshot) {
    && job.snapshot.batch.Some? && current.batch.Some?
    && Valid(job.snapshot.batch.value) && Valid(current.batch.value)
    && (job.incoming.Some? ==> Valid(job.incoming.value))
  }

  /** Every slot the job supplies or removes is as captured or as supplied, and every declared input has kept its
      revision. */
  predicate Undisturbed(job: Job, was: Batch, now: Batch)
    requires OutputsOk(was.reps) && OutputsOk(now.reps) && (job.incoming.Some? ==> OutputsOk(job.incoming.value.reps))
  {
    && (forall s :: s in job.remove ==> TargetSame(was, now, s) || AsSupplied(job, now, s))
    && (job.incoming.Some? ==>
          forall s :: s in Table(job.incoming.value.reps) ==> TargetSame(was, now, s) || AsSupplied(job, now, s))
    && (forall s :: s in job.inputs ==>
          && s in Table(was.reps) && s in Table(now.reps)
          && Table(now.reps)[s].output.artifactRevision == Table(was.reps)[s].output.artifactRevision)
  }

  lemma TargetKeptMeans(job: Job, was: Batch, now: Batch, s: Slot)
    requires OutputsOk(was.reps) && OutputsOk(now.reps) && Valid(was) && Valid(now)
    requires job.incoming.Some? ==> OutputsOk(job.incoming.value.reps) && Valid(job.incoming.value)
    ensures TargetKept(job, was, now, s) <==> TargetSame(was, now, s) || AsSupplied(job, now, s)
  {
    hide OutputsOk, Valid, Table, TargetSame, Projection;
    TargetDecides(was, now, s);
    if job.incoming.Some? {
      TargetDecides(job.incoming.value, now, s);
    }
  }

  lemma UnrevisedMeans(job: Job, was: Batch, now: Batch)
    requires Valid(was) && Valid(now) && (job.incoming.Some? ==> Valid(job.incoming.value))
    ensures Unrevised(job, was, now) <==>
            && SameSource(was.resource, now.resource) && OutputsOk(was.reps) && OutputsOk(now.reps)
            && (job.incoming.Some? ==> OutputsOk(job.incoming.value.reps)) && Undisturbed(job, was, now)
  {
    hide OutputsOk, Valid, Table, TargetSame, TargetKept, AsSupplied, RawDigest, SourceRevision;
    if OutputsOk(was.reps) && OutputsOk(now.reps) && (job.incoming.Some? ==> OutputsOk(job.incoming.value.reps)) {
      forall s ensures TargetKept(job, was, now, s) <==> TargetSame(was, now, s) || AsSupplied(job, now, s) {
        TargetKeptMeans(job, was, now, s);
      }
    }
  }

  /** A reindex goes on over a moved graph exactly if lifecycle and source are the same and nothing that concerns
      the job was disturbed; what else moved does not matter. */
  lemma ProceedsExactly(job: Job, current: Snapshot)
    requires Readings(job, current) && current != job.snapshot
    ensures CheckCurrent(job, current) == Ok(Proceed) <==>
            && SameLife(job.snapshot.state, current.state)
            && SameSource(job.snapshot.batch.value.resource, current.batch.value.resource)
            && OutputsOk(job.snapshot.batch.value.reps) && OutputsOk(current.batch.value.reps)
            && (job.incoming.Some? ==> OutputsOk(job.incoming.value.reps))
            && Undisturbed(job, job.snapshot.batch.value, current.batch.value)
  {
    hide OutputsOk, Valid, Table, Undisturbed, RawDigest, SourceRevision, Unrevised, Desired, SameGraph;
    UnrevisedMeans(job, job.snapshot.batch.value, current.batch.value);
  }

  /** Over another source it never goes on: it only recognises its own effect, exactly if the row shows the source it
      brought and the very records it wants. */
  lemma RecognisesExactly(job: Job, current: Snapshot)
    requires Readings(job, current) && current != job.snapshot
    requires !SameSource(job.snapshot.batch.value.resource, current.batch.value.resource)
    ensures CheckCurrent(job, current) != Ok(Proceed)
    ensures CheckCurrent(job, current).Ok? <==>
            && SameLife(job.snapshot.state, current.state) && job.incoming.Some?
            && SourceRevision(job.snapshot.batch.value.resource).Ok?
            && SameSource(current.batch.value.resource, job.resource)
            && Desired(job, current).Ok? && Desired(job, current).value.Some?
            && SameRecords(current.batch.value, Desired(job, current).value.value)
  {
    hide OutputsOk, Valid, RawDigest, SourceRevision, Unrevised, Desired, SameGraph, SameRecords;
    if Desired(job, current).Ok? {
      if Desired(job, current).value.Some? {
        SameRecordsMean(current.batch.value, Desired(job, current).value.value);
      } else {
        NoGraph(current.batch, Desired(job, current).value);
      }
    }
  }

  lemma NoGraph(l: Option<Batch>, r: Option<Batch>)
    requires l.Some? && r.None?
    ensures !SameGraph(l, r)
  {
  }

  // --------------------------------------------------------------------- no lost update

  /** Metadata that describes the source and is always the producer's. */
  predicate OfSource(k: string) {
    || k == "source_revision" || k == "source_revision_kind" || k == "provenance" || k == "ingestion"
    || k == "derived" || k == "source" || k == "adapter" || k == "byte_size"
  }

  /** The job says of this key just what it had captured. */
  predicate Unaltered(job: Job, was: Batch, k: string) {
    && !OfSource(k) && k in job.resource.metadata && k in was.resource.metadata
    && job.resource.metadata[k] == was.resource.metadata[k]
  }

  /** A key the job did not alter, or does not mention, is as it now is; one that it set is as it set it; a title it
      changed is its own, any other is the present one. */
  predicate Rewritten(job: Job, was: Batch, now: Resource, written: Resource, k: string) {
    && (Unaltered(job, was, k) || k !in job.resource.metadata ==>
          && (k in written.metadata <==> k in now.metadata)
          && (k in now.metadata ==> written.metadata[k] == now.metadata[k]))
    && (k in job.resource.metadata && !Unaltered(job, was, k) ==>
          k in written.metadata && written.metadata[k] == job.resource.metadata[k])
    && (if job.resource.title.Some? && job.resource.title != was.resource.title
        then written.title == job.resource.title else written.title == now.title)
  }

  /** In what a reindex writes, a key that the job did not alter is as others have left it, even if they changed or
      removed it; a key it set is as it set it; a key it does not mention stays; and so for the title. */
  lemma NoLostUpdate(job: Job, current: Snapshot, k: string)
    requires job.snapshot.batch.Some? && current.batch.Some? && Valid(current.batch.value)
    requires Desired(job, current).Ok? && Desired(job, current).value.Some?
    ensures Rewritten(job, job.snapshot.batch.value, current.batch.value.resource,
                      Desired(job, current).value.value.resource, k)
  {
    hide Valid, Reconcile, HoldsReps, HoldsRest;
    SourceKeys(k);
    ReconcileReturns(current, RebasedIncoming(job, current), RebasedResource(job, current), job.owner, RemoveSet(job));
  }

  lemma SourceKeys(k: string)
    ensures k in SOURCE_KEYS <==> OfSource(k)
  {
  }
}
