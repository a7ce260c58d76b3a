/** A reindex to a new source revision whose commit succeeded but whose response was lost: the retry finds
    its own graph, recognises it and writes nothing. */
module LostResponse {
  import opened Sequences
  import opened Graph
  import opened Dependencies
  import opened Merging
  import opened Port
  import opened Enrichment
  import opened Reconciling
  import opened ReconcileTheorems
  import opened ReconcileTwice
  import opened Reindexing

  /** Across a change of source revision pruning drops nothing: what was preserved is independent, what
      came in is protected. */
  lemma NothingPruned(prior: Batch, inc: Batch, resource: Resource, owner: string, remove: set<Slot>, b: Batch)
    requires Valid(prior) && IncomingOk(inc) && Step(prior, inc, resource, owner, remove, b)
    requires SourceRevision(prior.resource) != SourceRevision(resource)
    requires Prune(b).Ok? && Prune(b).value.Some?
    ensures Prune(b).value.value == b
  {
    hide Valid, UpToDate, OutputsOk, OutputOf, Prune, Table, Cyclic, Identified, Resolved, Combine, Condemned,
         InvalidDependencies, CheckIncoming, Restrict, Founded, BaseKinds, PreservedIds, OwnerIds, Preserved, Members,
         IncomingOk, SourceRevision;
    var claim := ClaimOf(prior, inc, resource, owner, remove);
    ValidIdentified(prior);
    ValidIdentified(b);
    StepRevision(prior, inc, resource, owner, remove, b);
    NoOldSlots(prior, inc, resource, owner, remove);
    FoundedStep(prior, inc, resource, owner, remove, b);
    CombineMembers(prior, inc, resource, claim);
    var r := Prune(b).value.value;
    forall x | x in b.reps ensures x in r.reps {
      FromEither(prior, inc, claim, b, x);
      if x in inc.reps {
        IncomingThere(r, inc, resource, owner, remove, x);
      } else {
        PreservedById(prior.reps, claim, x);
        PreservedIsIndependent(x, claim);
        IndependentStays(b, x);
      }
    }
    var leaving := PruneFacts(b);
    WholeRestriction(b, Keys(b.reps, RepId) - OwnerIds(Table(b.reps), leaving), r);
  }

  lemma FromEither(prior: Batch, inc: Batch, claim: Claim, b: Batch, x: Rep)
    requires Members(prior, inc, PreservedIds(prior.reps, claim), b) && x in b.reps
    ensures x in inc.reps || (x in prior.reps && x.id in PreservedIds(prior.reps, claim))
  {
    hide PreservedIds, UnitFollows, VectorFollows, SpaceUsed;
  }

  lemma IncomingThere(r: Batch, inc: Batch, resource: Resource, owner: string, remove: set<Slot>, x: Rep)
    requires Founded(r, inc, resource, owner, remove) && x in inc.reps
    ensures x in r.reps
  {
    hide Sound, IncomingOk, Overlaid, Explained;
  }

  lemma PreservedIsIndependent(x: Rep, claim: Claim)
    requires Preserved(x, claim) == Ok(true) && claim.changed
    ensures IndependentOutput(x) == Ok(true)
  {
    hide OutputOf, IndependentOutput;
  }

  lemma WholeRestriction(b: Batch, kept: set<string>, r: Batch)
    requires Valid(b) && r == Restrict(b, kept) && forall x :: x in b.reps ==> x in r.reps
    ensures r == b
  {
    hide Select;
    SelectMembers(b, kept);
    ValidMeans(b);
    SelectAll(b, kept);
  }

  /** So no space is left without a vector. */
  lemma NoOrphans(prior: Batch, inc: Batch, ids: set<string>, b: Batch, s: Space)
    requires Members(prior, inc, ids, b) && s in b.spaces
    ensures s in inc.spaces || exists v :: v in b.vectors && v.space == s.id
  {
    hide UnitFollows;
    if s !in inc.spaces {
      var v :| VectorFollows(prior, ids, v) && v.space == s.id;
      assert v in b.vectors;
    }
  }

  /** Repeating a reconciliation that changed the source revision is recognised exactly when provenance is
      supplied or no digest was stored, and no legacy incoming flag is malformed. */
  lemma NewSourceRecognised(current: Snapshot, incoming: Option<Batch>, resource: Resource, owner: string,
                            remove: set<Slot>, later: Snapshot)
    requires current.batch.Some? && Valid(current.batch.value)
    requires SeesOwnResult(current, incoming, resource, owner, remove, later)
    requires SourceRevision(current.batch.value.resource) != SourceRevision(resource)
    ensures var again := Reconcile(later, incoming, resource, owner, remove);
            again.Ok? && SameGraph(later.batch, again.value) <==>
              FlagsOk(OrEmpty(incoming, resource)) && DigestKept(current, resource)
  {
    hide Valid, OutputsOk, OutputOf, Table, Reconcile, SameGraph, FlagsOk, SourceRevision, Prune, Combine, Members,
         InvalidDependencies, CheckIncoming, PreservedIds, BaseKinds, Condemned, DigestKept;
    var prior, inc, r := current.batch.value, OrEmpty(incoming, resource), later.batch.value;
    var b := StepFacts(current, incoming, resource, owner, remove);
    StepRevision(prior, inc, resource, owner, remove, b);
    NoOldSlots(prior, inc, resource, owner, remove);
    ReconcileAgain(current, incoming, resource, owner, remove, later);
    if Reconcile(later, incoming, resource, owner, remove).Ok? {
      SpacesDecide(current, incoming, resource, owner, remove, later);
      IncomingAccepted(incoming, resource);
      NothingPruned(prior, inc, resource, owner, remove, b);
      ValidIdentified(prior);
      var claim := ClaimOf(prior, inc, resource, owner, remove);
      CombineMembers(prior, inc, resource, claim);
      forall s | s in r.spaces ensures s in inc.spaces || exists v :: v in r.vectors && v.space == s.id {
        NoOrphans(prior, inc, PreservedIds(prior.reps, claim), b, s);
      }
    }
  }

  // ----------------------------------------------------------- with rebasing

  /** Rebased onto the graph it wrote, a job asks for the same again. */
  lemma RebaseStable(job: Job, before: Snapshot, after: Snapshot)
    requires job.snapshot.batch.Some? && before.batch.Some? && after.batch.Some?
    requires StoredOver(after.batch.value.resource, before.batch.value.resource, RebasedResource(job, before))
    ensures RebasedResource(job, after) == RebasedResource(job, before)
    ensures RebasedIncoming(job, after) == RebasedIncoming(job, before)
  {
    var x, y := RebasedResource(job, before), RebasedResource(job, after);
    assert y.metadata.Keys == x.metadata.Keys;
    assert y.metadata == x.metadata;
    assert y.title == x.title;
  }

  /** Rebasing touches no source metadata. */
  lemma RebaseKeepsIdentity(job: Job, current: Snapshot)
    ensures SourceIdentity(RebasedResource(job, current)) == SourceIdentity(job.resource)
    ensures "provenance" in RebasedResource(job, current).metadata <==> "provenance" in job.resource.metadata
  {
    assert "source_revision" in SOURCE_KEYS && "provenance" in SOURCE_KEYS;
  }

  /** The stored record has the identity of the job's, if that states provenance or no digest was stored. */
  lemma ResultIdentity(result: Resource, prior: Resource, supplied: Resource)
    requires StoredOver(result, prior, supplied) && SourceRevision(supplied).Ok?
    requires "provenance" in supplied.metadata || RawDigest(prior).None?
    ensures SourceIdentity(result) == SourceIdentity(supplied)
  {
    DigestOverlaid(prior, supplied, result);
    assert "source_revision" in supplied.metadata;
  }

  /** The commit replaced the graph of another source revision and wrote what the job wants. */
  ghost predicate Advanced(job: Job, w: Write) {
    && Entitled(job, w) && job.incoming.Some? && job.snapshot.batch.Some? && w.before.batch.Some? && w.after.batch.Some?
    && SourceRevision(job.snapshot.batch.value.resource) != SourceRevision(job.resource)
    && w.after.state.resourceId == w.before.state.resourceId
  }

  /** After a lost response, whatever valid graph the commit replaced, the next look at the store finds the
      committed graph and answers that it is published, exactly when the job states provenance or no digest
      was stored, and no legacy incoming flag is malformed. */
  lemma LostResponseAnswered(job: Job, w: Write)
    requires Advanced(job, w) && Valid(w.before.batch.value) && SameLifecycle(job.snapshot.state, w.after.state)
    ensures CheckCurrent(job, w.after).Ok? && CheckCurrent(job, w.after).value.Recognised? <==>
              FlagsOk(job.incoming.value) && DigestKept(w.before, job.resource)
    ensures CheckCurrent(job, w.after).Ok? && CheckCurrent(job, w.after).value.Recognised? ==>
              SameGraph(w.after.batch, CheckCurrent(job, w.after).value.batch)
  {
    hide Valid, Reconcile, SameGraph, SourceRevision, SameLifecycle, Unrevised, RawDigest, StoredOver,
         RebasedResource, FlagsOk, OutputsOk;
    var before, after := w.before, w.after;
    var resource, incoming := RebasedResource(job, before), RebasedIncoming(job, before);
    ResultResource(before, incoming, resource, job.owner, RemoveSet(job));
    RebaseStable(job, before, after);
    RebaseKeepsIdentity(job, before);
    SameSource(job, w);
    SameFlags(job.incoming.value, resource);
    RevisionStated(before, incoming, resource, job.owner, RemoveSet(job));
    IdentityRevision(resource);
    IdentityRevision(job.resource);
    NewSourceRecognised(before, incoming, resource, job.owner, RemoveSet(job), after);
    ProceedMeans(job, after);
    if FlagsOk(job.incoming.value) && DigestKept(before, job.resource) {
      ResultIdentity(after.batch.value.resource, before.batch.value.resource, resource);
    }
    IdentityRevision(after.batch.value.resource);
    IdentityRevision(job.snapshot.batch.value.resource);
  }

  lemma SameFlags(inc: Batch, resource: Resource)
    ensures FlagsOk(inc) <==> FlagsOk(inc.(resource := resource))
  {
  }

  lemma RevisionStated(current: Snapshot, incoming: Option<Batch>, resource: Resource, owner: string, remove: set<Slot>)
    requires Reconcile(current, incoming, resource, owner, remove).Ok? && current.batch.Some?
    ensures SourceRevision(resource).Ok? && SourceRevision(current.batch.value.resource).Ok?
  {
    hide Valid, OutputsOk, Table, Combine, Prune, InvalidDependencies, CheckIncoming, SourceRevision;
  }

  lemma IdentityRevision(resource: Resource)
    ensures SourceIdentity(resource).Ok? <==> SourceRevision(resource).Ok?
    ensures SourceIdentity(resource).Ok? ==> SourceRevision(resource) == Ok(SourceIdentity(resource).value.revision)
  {
    hide SourceRevision, RawDigest;
  }

  /** An entitled commit replaced a graph of the captured source. */
  lemma SameSource(job: Job, w: Write)
    requires Entitled(job, w) && job.snapshot.batch.Some? && w.before.batch.Some?
    ensures SourceIdentity(w.before.batch.value.resource) == SourceIdentity(job.snapshot.batch.value.resource)
    ensures SourceRevision(w.before.batch.value.resource) == SourceRevision(job.snapshot.batch.value.resource)
  {
    hide Desired, OutputsOk, SameLifecycle, SourceRevision, RawDigest;
  }

  // -------------------------------------------------------- within one revision

  lemma DigestWithinRevision(current: Snapshot, incoming: Option<Batch>, resource: Resource, owner: string,
                             remove: set<Slot>)
    requires current.batch.Some? && Reconcile(current, incoming, resource, owner, remove).Ok?
    requires SourceRevision(current.batch.value.resource) == SourceRevision(resource)
    ensures DigestKept(current, resource)
  {
    hide Valid, OutputsOk, Table, Combine, Prune, InvalidDependencies, CheckIncoming, SourceRevision;
  }

  /** A retry that meets its own commit within one source revision: what it wants can be computed exactly
      when no legacy incoming flag is malformed and no incoming slot was silently dropped; it is then what is
      stored, so that nothing is written again, exactly when the commit orphaned no space. */
  lemma OwnCommitWithinRevision(job: Job, w: Write)
    requires Entitled(job, w) && job.snapshot.batch.Some? && w.before.batch.Some? && w.after.batch.Some?
    requires Valid(w.before.batch.value)
    requires SourceRevision(job.snapshot.batch.value.resource) == SourceRevision(job.resource)
    ensures var resource, incoming := RebasedResource(job, w.before), RebasedIncoming(job, w.before);
            var inc := OrEmpty(incoming, resource);
            && OutputsOk(inc.reps) && SourceRevision(resource).Ok?
            && (Desired(job, w.after).Ok? <==>
                  FlagsOk(inc) && NothingCondemned(w.before, incoming, resource, job.owner, RemoveSet(job)))
            && (Desired(job, w.after).Ok? ==>
                  (SameGraph(w.after.batch, Desired(job, w.after).value) <==>
                     forall s :: !Orphaned(w.before.batch.value, inc, resource, job.owner, RemoveSet(job), s)))
  {
    hide Valid, Reconcile, SameGraph, SourceRevision, SameLifecycle, Unrevised, RawDigest, StoredOver,
         RebasedResource, FlagsOk,
         OutputsOk, Orphaned, NothingCondemned, DigestKept;
    var before, after := w.before, w.after;
    var resource, incoming := RebasedResource(job, before), RebasedIncoming(job, before);
    ResultResource(before, incoming, resource, job.owner, RemoveSet(job));
    RebaseStable(job, before, after);
    RebaseKeepsIdentity(job, before);
    SameSource(job, w);
    IdentityRevision(resource);
    IdentityRevision(job.resource);
    RevisionStated(before, incoming, resource, job.owner, RemoveSet(job));
    SuppliedOutputs(before, incoming, resource, job.owner, RemoveSet(job));
    DigestWithinRevision(before, incoming, resource, job.owner, RemoveSet(job));
    ReconcileAgain(before, incoming, resource, job.owner, RemoveSet(job), after);
    if Desired(job, after).Ok? {
      LostResponseRecognised(before, incoming, resource, job.owner, RemoveSet(job), after);
    }
  }

  lemma SuppliedOutputs(current: Snapshot, incoming: Option<Batch>, resource: Resource, owner: string,
                        remove: set<Slot>)
    requires current.batch.Some? && Reconcile(current, incoming, resource, owner, remove).Ok?
    ensures OutputsOk(OrEmpty(incoming, resource).reps)
  {
    hide Valid, OutputsOk, OutputOf, Table, Reconcile, SourceRevision, Prune, InvalidDependencies, CheckIncoming,
         Combine;
    var b := StepFacts(current, incoming, resource, owner, remove);
  }
}
