/** Concrete bases that are published at the first attempt and refused when the attempt is repeated. */
module FailedRetries {
  import opened Sequences
  import opened Graph
  import opened Dependencies
  import opened Merging
  import opened Enrichment
  import opened Reconciling
  import opened ReconcileTheorems
  import opened ReconcileTwice
  import opened SmallGraphs

  function Single(resource: Resource, r: Rep, u: Unit): Batch { Batch(resource, [r], [u], [], [], []) }

  /** A graph of legacy representations has no slots, so nothing in it can be stale. */
  lemma LegacyIsSound(b: Batch)
    requires Graph.Valid(b) && forall r :: r in b.reps ==> r.provenance.NoBlock?
    ensures Sound(b) && Table(b.reps) == map[]
  {
    hide Graph.Valid;
    Legacies(b.reps);
    assert OutputsOk(b.reps);
    hide OutputsOk, OutputOf;
    assert Table(b.reps) == map[];
    assert Pending(Just(Table(b.reps))) == map[];
    AcyclicDecides(map[]);
  }

  lemma SingleIsSound(resource: Resource, r: Rep, u: Unit)
    requires UnitFor(u, r, resource) && r.provenance.NoBlock?
    ensures Graph.Valid(Single(resource, r, u)) && Sound(Single(resource, r, u)) && Table([r]) == map[]
  {
    hide Graph.Valid, Sound, UnitFor;
    OneUnit(u, r, resource);
    NothingAttached([u]);
    SmallIsValid(resource, [r], [u], [], []);
    LegacyIsSound(Single(resource, r, u));
  }

  // --------------------------------------------------------- a malformed flag

  /** One legacy representation whose independence flag is not a boolean. */
  function Flagless(): Batch {
    Single(ResourceWith(map["source_revision" := JString("r1")]), LegacyNamed("rep", NotBoolean), UnitNamed("u", "rep"))
  }

  /** It is published on the first attempt, but a retry that finds it published raises. */
  lemma MalformedFlagDefeatsRetry(current: Snapshot, later: Snapshot)
    requires current == Snapshot(NeverCreated("res"), None)
    requires later.state.resourceId == "res" && later.batch == Some(Flagless())
    ensures Reconcile(current, Some(Flagless()), Flagless().resource, "me", {}) == Ok(Some(Flagless()))
    ensures Reconcile(later, Some(Flagless()), Flagless().resource, "me", {}).Err?
  {
    hide Sound, Reconcile, Graph.Valid, RawDigest, Equivalent, UnitFor, NonBlank;
    var b := Flagless();
    Words();
    UnitMatches("u", "rep", b.reps[0], b.resource);
    SingleIsSound(b.resource, b.reps[0], b.units[0]);
    FirstIsPublished(current, b);
    hide SourceRevision;
    ReconcileAgain(current, Some(b), b.resource, "me", {}, later);
    assert b.reps[0] in b.reps;
  }

  lemma FirstIsPublished(current: Snapshot, b: Batch)
    requires current.batch.None? && current.state.resourceId == b.resource.id && Sound(b)
             && SourceRevision(b.resource).Ok?
    requires forall r :: r in b.reps ==> r.provenance.NoBlock?
    ensures Reconcile(current, Some(b), b.resource, "me", {}) == Ok(Some(b))
  {
    hide Graph.Valid, OutputsOk, InvalidDependencies, Prune, Cyclic, UpToDate;
    PruneNothing(b);
    CheckIncomingDecides(b.reps, SourceRevision(b.resource).value);
    NothingInvalid(Table(b.reps), Table(b.reps).Keys);
  }

  // --------------------------------------------------------- a forgotten digest

  /** A new source revision supplied without provenance, over a record that states a digest. */
  const BEFORE: Resource := ResourceWith(map["source_revision" := JString("r0"),
                                             "provenance" := JObject(map["raw_source_sha256" := JString("d0")])])
  const NOW: Resource := ResourceWith(map["source_revision" := JString("r1")])

  function Stored(): Batch { Single(BEFORE, LegacyNamed("one", Unset), UnitNamed("u1", "one")) }

  function Base(): Batch { Single(NOW, LegacyNamed("two", Unset), UnitNamed("u2", "two")) }

  /** The old digest is kept beside the new revision. */
  function Kept(): Batch { Base().(resource := NOW.(metadata := BEFORE.metadata + NOW.metadata)) }

  lemma Replaced(prior: Batch, inc: Batch, result: Batch, claim: Claim, p: Rep, q: Rep, u: Unit, w: Unit)
    requires prior == Single(prior.resource, p, u) && inc == Single(inc.resource, q, w)
    requires p.provenance.NoBlock? && p.independent.Unset? && claim.changed
    requires MergeMetadata(prior.resource.metadata, inc.resource.metadata).Ok?
             && inc.resource.title == prior.resource.title
    requires result == inc.(resource := inc.resource.(metadata := prior.resource.metadata + inc.resource.metadata))
    ensures Combine(prior, inc, inc.resource, claim) == Ok(Some(result))
  {
    hide Union, Keep;
    assert prior.reps[0] == p;
    assert PreservedIds(prior.reps, claim) == {};
    var none: set<string> := {};
    KeepNone(prior.reps, RepId, none);
    KeepNone(prior.units, UnitRep, none);
    KeepNone([], VectorUnit, Keys([], UnitId));
    KeepNone([], SpaceId, Keys([], VectorSpace));
    UnionDisjoint([], [q], RepId);
    UnionDisjoint([], [w], UnitId);
    NoUnion([], SpaceId);
    NoUnion([], VectorKey);
    NoUnion([], FacetKey);
    assert [] + [q] == [q] && [] + [w] == [w];
  }

  lemma Revisions()
    ensures SourceRevision(BEFORE) == Ok("r0") && SourceRevision(NOW) == Ok("r1")
            && SourceRevision(BEFORE) != SourceRevision(NOW)
    ensures MergeMetadata(BEFORE.metadata, NOW.metadata).Ok?
    ensures RawDigest(BEFORE).Some? && "provenance" !in NOW.metadata
  {
    Words();
    hide NonBlank;
    assert ("r0")[1] == '0' && ("r1")[1] == '1';
    assert |"provenance"| == 10 && |"source_revision"| == 15;
    assert "source_revision" in SOURCE_KEYS;
  }

  /** The record of the result keeps the old digest; repeating the call with the same revision then
      contradicts it and raises. */
  lemma ForgottenDigestDefeatsRetry(current: Snapshot, later: Snapshot)
    requires current.batch == Some(Stored()) && later.batch == Some(Kept())
    requires current.state.resourceId == later.state.resourceId == "res"
    ensures Reconcile(current, Some(Base()), NOW, "me", {}) == Ok(Some(Kept()))
    ensures Reconcile(later, Some(Base()), NOW, "me", {}).Err?
  {
    hide Sound, Graph.Valid, RawDigest, Equivalent, UnitFor, NonBlank, Combine, Prune, OutputsOk, Table,
         CheckIncoming, SourceRevision,
         InvalidDependencies, MergeMetadata, BaseKinds, BEFORE, NOW;
    Revisions();
    FirstRound(current);
    hide Reconcile;
    ReconcileAgain(current, Some(Base()), NOW, "me", {}, later);
  }

  lemma FirstRound(current: Snapshot)
    requires current.batch == Some(Stored()) && current.state.resourceId == "res"
    ensures Reconcile(current, Some(Base()), NOW, "me", {}) == Ok(Some(Kept())) && Graph.Valid(Stored())
  {
    hide Sound, Graph.Valid, RawDigest, UnitFor, NonBlank, Combine, Prune, OutputsOk, OutputOf, Table, CheckIncoming,
         SourceRevision,
         InvalidDependencies, MergeMetadata, BaseKinds;
    Revisions();
    var prior, inc, result := Stored(), Base(), Kept();
    UnitMatches("u1", "one", prior.reps[0], BEFORE);
    UnitMatches("u2", "two", inc.reps[0], NOW);
    UnitMatches("u2", "two", inc.reps[0], result.resource);
    SingleIsSound(BEFORE, prior.reps[0], prior.units[0]);
    SingleIsSound(NOW, inc.reps[0], inc.units[0]);
    SingleIsSound(result.resource, inc.reps[0], inc.units[0]);
    SoundOutputs(result);
    SoundOutputs(inc);
    Replaced(prior, inc, result, ClaimOf(prior, inc, NOW, "me", {}), prior.reps[0], inc.reps[0], prior.units[0],
        inc.units[0]);
    CheckIncomingDecides(inc.reps, "r1");
    Legacies(inc.reps);
    NothingInvalid(Table(result.reps), {});
    PruneNothing(result);
    assert Table(inc.reps).Keys == {};
  }

  lemma SoundOutputs(b: Batch)
    requires Sound(b)
    ensures OutputsOk(b.reps) && Closed(Just(Table(b.reps)), Table(b.reps).Keys)
            && !Cyclic(Pending(Just(Table(b.reps))))
  {
    hide OutputsOk, Cyclic, Closed, Graph.Valid, UpToDate;
  }
}
