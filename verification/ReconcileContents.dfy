/** What a reconciliation returns, record by record, and exactly what it accepts. */
module ReconcileContents {
  import opened Sequences
  import opened Graph
  import opened Dependencies
  import opened Merging
  import opened MergeTheorems
  import opened MergeTwice
  import opened Enrichment
  import opened Reconciling
  import opened ReconcileTheorems

  // ------------------------------------------------------------ what carries over

  /** A request to reconcile a stored graph. */
  datatype Request = Request(prior: Batch, inc: Batch, resource: Resource, owner: string, remove: set<Slot>)

  predicate SameRevision(q: Request) { SourceRevision(q.prior.resource) == SourceRevision(q.resource) }

  /** The producer supplies a base representation of this kind. */
  predicate Supplies(q: Request, kind: string) {
    exists x :: x in q.inc.reps && x.kind == kind && (x.provenance.NoBlock? || x.producerOwner == Some(q.owner))
  }

  /** The producer supplies an output for this slot. */
  predicate Refills(q: Request, s: Slot) { exists x :: x in q.inc.reps && Owns(x) && OutOf(x).slot == s }

  /** A stored representation that is combined with what comes in: never the owner of a slot to be removed; an
      independent one always; any other only within one source revision, and there an output whose slot is
      not supplied, or a base representation of another producer and of a kind that is not supplied. */
  predicate Carried(q: Request, r: Rep) {
    && r in q.prior.reps && !(Owns(r) && OutOf(r).slot in q.remove)
    && (|| DeclaresIndependence(r)
        || (&& SameRevision(q)
            && if Owns(r) then !Refills(q, OutOf(r).slot)
               else r.producerOwner != Some(q.owner) && !Supplies(q, r.kind)))
  }

  /** An output of the revision reconciled to, or independent of it. */
  predicate Dated(q: Request, r: Rep) {
    Owns(r) && !DeclaresIndependence(r) ==> Ok(OutOf(r).sourceRevision) == SourceRevision(q.resource)
  }

  /** Every dependency is among these representations at its declared revision. */
  predicate Supported(reps: seq<Rep>, r: Rep) {
    Owns(r) ==> forall d :: d in OutOf(r).dependencies ==> Provides(reps, d)
  }

  predicate Provides(reps: seq<Rep>, d: Dependency) {
    exists x :: x in reps && Owns(x) && OutOf(x).slot == d.slot && OutOf(x).artifactRevision == d.revision
  }

  /** The claim that reconciliation makes for a request. */
  function ClaimFor(q: Request): Claim
    requires OutputsOk(q.inc.reps)
  {
    ClaimOf(q.prior, q.inc, q.resource, q.owner, q.remove)
  }

  /** A stored representation that can be read: its output and, unless it is removed, its independence. */
  predicate Readable(q: Request, r: Rep) {
    && OutputOf(r).Ok?
    && ((Owns(r) && OutOf(r).slot in q.remove) || IndependentOutput(r).Ok?)
  }

  lemma PreservedMeans(q: Request, r: Rep)
    requires OutputsOk(q.inc.reps) && r in q.prior.reps
    ensures Preserved(r, ClaimFor(q)).Ok? <==> Readable(q, r)
    ensures Preserved(r, ClaimFor(q)).Ok? ==> (Preserved(r, ClaimFor(q)).value <==> Carried(q, r))
  {
    hide OutputsOk, BlockOk, Table, DeclaresIndependence, SourceRevision, IndependentOutput;
    IndependenceMeans(r);
    if Owns(r) {
      RefillsByTable(q, OutOf(r).slot);
    }
  }

  lemma RefillsByTable(q: Request, s: Slot)
    requires OutputsOk(q.inc.reps)
    ensures s in Table(q.inc.reps) <==> Refills(q, s)
  {
    hide OutputsOk, OutputOf, Table;
    if s in Table(q.inc.reps) {
      assert OutOf(Table(q.inc.reps)[s].rep).slot == s;
    }
  }

  // -------------------------------------------------------------- what is returned

  ghost predicate UnitCarried(q: Request, u: Unit) { u in q.prior.units && exists r :: Carried(q, r) && r.id == u.rep }

  ghost predicate VectorCarried(q: Request, v: Vector) {
    v in q.prior.vectors && exists u :: UnitCarried(q, u) && u.id == v.unit
  }

  ghost predicate SpaceCarried(q: Request, s: Space) {
    s in q.prior.spaces && exists v :: VectorCarried(q, v) && v.space == s.id
  }

  /** The representations of a returned graph. */
  ghost predicate HoldsReps(q: Request, reps: seq<Rep>) {
    forall r :: r in reps <==> (r in q.inc.reps || (Carried(q, r) && Dated(q, r))) && Supported(reps, r)
  }

  function RepsOf(result: Option<Batch>): seq<Rep> { if result.Some? then result.value.reps else [] }

  predicate UnitHeld(b: Batch, u: Unit) { exists r :: r in b.reps && r.id == u.rep }

  predicate VectorHeld(b: Batch, v: Vector) { exists u :: u in b.units && u.id == v.unit }

  /** The other records of a returned graph. */
  ghost predicate HoldsRest(q: Request, b: Batch) {
    && (forall u :: u in b.units <==> UnitHeld(b, u) && (u in q.inc.units || UnitCarried(q, u)))
    && (forall v :: v in b.vectors <==> VectorHeld(b, v) && (v in q.inc.vectors || VectorCarried(q, v)))
    && (forall s :: s in b.spaces <==> s in q.inc.spaces || SpaceCarried(q, s))
    && (forall f :: f in b.facets <==> f in q.prior.facets || f in q.inc.facets)
  }

  /** The resource record returned: what comes in, over the metadata and title stored. */
  ghost predicate HoldsResource(q: Request, b: Batch) {
    && b.resource.(metadata := q.resource.metadata, title := q.resource.title) == q.resource
    && (forall k :: k in b.resource.metadata <==> k in q.prior.resource.metadata || k in q.resource.metadata)
    && (forall k :: k in b.resource.metadata ==>
          b.resource.metadata[k] ==
          if k in q.resource.metadata then q.resource.metadata[k] else q.prior.resource.metadata[k])
    && b.resource.title == if q.resource.title.Some? then q.resource.title else q.prior.resource.title
  }

  /** What is combined before pruning, on the same records. */
  ghost predicate Pooled(q: Request, b: Batch) {
    && (forall r :: r in b.reps <==> r in q.inc.reps || Carried(q, r))
    && (forall u :: u in b.units <==> u in q.inc.units || UnitCarried(q, u))
    && (forall v :: v in b.vectors <==> v in q.inc.vectors || VectorCarried(q, v))
    && (forall s :: s in b.spaces <==> s in q.inc.spaces || SpaceCarried(q, s))
    && (forall f :: f in b.facets <==> f in q.prior.facets || f in q.inc.facets)
  }

  lemma CarriedIds(q: Request, ids: set<string>)
    requires Identified(q.prior) && forall r :: r in q.prior.reps ==> (r.id in ids <==> Carried(q, r))
    requires Resolved(q.prior)
    ensures forall u :: UnitFollows(q.prior, ids, u) <==> UnitCarried(q, u)
    ensures forall v :: VectorFollows(q.prior, ids, v) <==> VectorCarried(q, v)
    ensures forall s :: SpaceUsed(q.prior, ids, s) <==> SpaceCarried(q, s)
  {
    hide Carried, Identified;
    assert forall r :: Carried(q, r) ==> r in q.prior.reps by {
      CarriedIsStored(q);
    }
    forall u ensures UnitFollows(q.prior, ids, u) <==> UnitCarried(q, u) {
      if UnitFollows(q.prior, ids, u) {
        var r :| r in q.prior.reps && r.id == u.rep;
      }
    }
  }

  lemma CarriedIsStored(q: Request)
    ensures forall r :: Carried(q, r) ==> r in q.prior.reps
  {
  }

  lemma PreservedIdsMean(q: Request)
    requires OutputsOk(q.inc.reps) && Identified(q.prior)
    requires forall r :: r in q.prior.reps ==> Preserved(r, ClaimFor(q)).Ok?
    ensures forall r :: r in q.prior.reps ==> (r.id in PreservedIds(q.prior.reps, ClaimFor(q)) <==> Carried(q, r))
  {
    hide OutputsOk, Carried, Preserved, ClaimOf, PreservedIds, Readable;
    FacetsUnique(q.prior);
    forall r | r in q.prior.reps ensures r.id in PreservedIds(q.prior.reps, ClaimFor(q)) <==> Carried(q, r) {
      PreservedById(q.prior.reps, ClaimFor(q), r);
      PreservedMeans(q, r);
    }
  }

  lemma CombineAllRead(prior: Batch, inc: Batch, resource: Resource, claim: Claim)
    requires Combine(prior, inc, resource, claim).Ok?
    ensures forall r :: r in prior.reps ==> Preserved(r, claim).Ok?
  {
    hide Preserved, Select, Union, MergeMetadata, UsedSpaces;
  }

  lemma CombinePools(q: Request, b: Batch)
    requires OutputsOk(q.inc.reps) && Valid(q.prior) && Combine(q.prior, q.inc, q.resource, ClaimFor(q)) == Ok(Some(b))
    ensures Pooled(q, b)
  {
    hide OutputsOk, Carried, Preserved, ClaimOf, PreservedIds, Combine, UnitFollows, VectorFollows, SpaceUsed,
         UnitCarried,
         VectorCarried, SpaceCarried, Resolved, Populated, Owned, Identified;
    CombineAllRead(q.prior, q.inc, q.resource, ClaimFor(q));
    PreservedIdsMean(q);
    CombineMembers(q.prior, q.inc, q.resource, ClaimFor(q));
    CarriedIds(q, PreservedIds(q.prior.reps, ClaimFor(q)));
    CarriedIsStored(q);
  }

  // ----------------------------------------------------------------------- pruning

  /** Belongs to this generation, or declares independence of it. */
  predicate DatedBy(generation: Option<string>, r: Rep) {
    Owns(r) && !DeclaresIndependence(r) ==> Some(OutOf(r).sourceRevision) == generation
  }

  lemma DatedMeans(generation: Option<string>, r: Rep)
    requires Owns(r) ==> IndependentOutput(r).Ok?
    ensures DatedBy(generation, r) <==> !(Owns(r) && Outdated(r, generation))
  {
    hide OutputOf, IndependentOutput, DeclaresIndependence;
    IndependenceMeans(r);
  }

  /** Pruning keeps a representation exactly if it is dated and what it depends on is kept. */
  lemma PruneKeeps(b: Batch, r: Rep)
    requires Prune(b).Ok? && Unique(b.reps, RepId) && r in b.reps
    ensures r in RepsOf(Prune(b).value) <==>
            DatedBy(Generation(b.resource), r) && Supported(RepsOf(Prune(b).value), r)
  {
    hide OutputOf, OutputsOk, Valid, Prune, OutdatedSlots, Cyclic, Select, Greatest, Outdated, IndependentOutput,
         DatedBy, Supported, Just,
         Table, OwnerIds, Restrict;
    var leaving := PruneFacts(b);
    var reps, outdated := RepsOf(Prune(b).value), OutdatedSlots(b.reps, Generation(b.resource));
    RestrictMembers(b, leaving);
    assert forall x :: x in reps <==> x in b.reps && !(Owns(x) && OutOf(x).slot in leaving);
    DatedMeans(Generation(b.resource), r);
    if Owns(r) {
      OutdatedMember(b.reps, Generation(b.resource), r);
      if r in reps {
        KeptIsSupported(b, reps, outdated, leaving, r);
      }
      if OutOf(r).slot !in outdated && Supported(reps, r) {
        SupportedIsKept(b, reps, outdated, leaving, r);
      }
    } else {
      NothingToSupport(reps, r);
    }
  }

  lemma NothingToSupport(reps: seq<Rep>, r: Rep)
    requires !Owns(r)
    ensures Supported(reps, r)
  {
  }

  lemma KeptIsSupported(b: Batch, reps: seq<Rep>, outdated: set<Slot>, leaving: set<Slot>, r: Rep)
    requires OutputsOk(b.reps) && r in reps && Owns(r)
    requires Greatest(Just(Table(b.reps) - outdated), Table(b.reps).Keys - leaving)
    requires forall x :: x in reps <==> x in b.reps && !(Owns(x) && OutOf(x).slot in leaving)
    ensures Supported(reps, r)
  {
    hide OutputOf, OutputsOk, Table;
    var active, kept := Just(Table(b.reps) - outdated), Table(b.reps).Keys - leaving;
    assert OutOf(r).slot in Table(b.reps) && Table(b.reps)[OutOf(r).slot] == Owner(r, OutOf(r));
    assert OutOf(r).slot in kept;
    forall d | d in OutOf(r).dependencies ensures Provides(reps, d) {
      assert Met(active, kept, d);
      var x := Table(b.reps)[d.slot].rep;
      assert x in reps && OutOf(x).slot == d.slot;
    }
  }

  lemma SupportedIsKept(b: Batch, reps: seq<Rep>, outdated: set<Slot>, leaving: set<Slot>, r: Rep)
    requires OutputsOk(b.reps) && r in b.reps && Owns(r) && OutOf(r).slot !in outdated && Supported(reps, r)
    requires Greatest(Just(Table(b.reps) - outdated), Table(b.reps).Keys - leaving) && outdated <= leaving
    requires forall x :: x in reps <==> x in b.reps && !(Owns(x) && OutOf(x).slot in leaving)
    ensures r in reps
  {
    hide OutputOf, OutputsOk, Table;
    var active, kept := Just(Table(b.reps) - outdated), Table(b.reps).Keys - leaving;
    var s := OutOf(r).slot;
    var more := kept + {s};
    assert s in Table(b.reps) && Table(b.reps)[s] == Owner(r, OutOf(r));
    forall t, d | t in more && d in active[t].dependencies ensures Met(active, more, d) {
      if t == s {
        assert Provides(reps, d);
        var x :| x in reps && Owns(x) && OutOf(x).slot == d.slot && OutOf(x).artifactRevision == d.revision;
        assert Table(b.reps)[d.slot] == Owner(x, OutOf(x));
      } else {
        assert Met(active, kept, d);
      }
    }
    assert Closed(active, more);
  }

  // --------------------------------------------------------------- the whole result

  function RequestOf(current: Snapshot, incoming: Option<Batch>, resource: Resource, owner: string,
                     remove: set<Slot>): Request
    requires current.batch.Some?
  {
    Request(current.batch.value, OrEmpty(incoming, resource), resource, owner, remove)
  }

  lemma StepReps(q: Request, b: Batch)
    requires Step(q.prior, q.inc, q.resource, q.owner, q.remove, b) && Valid(q.prior) && Prune(b).Ok?
    ensures HoldsReps(q, RepsOf(Prune(b).value))
  {
    hide OutputOf, OutputsOk, Valid, Prune, CheckIncoming, InvalidDependencies, Combine, Table, Carried,
         IndependentOutput, Supported, Outdated,
         DeclaresIndependence;
    CombinePools(q, b);
    StepUnique(q.prior, q.inc, q.resource, q.owner, q.remove, b);
    CombinedFacts(q.prior, q.inc, q.resource, ClaimFor(q));
    CheckIncomingDecides(q.inc.reps, SourceRevision(q.resource).value);
    var reps := RepsOf(Prune(b).value);
    PrunedFrom(b);
    forall r ensures r in reps <==> (r in q.inc.reps || (Carried(q, r) && Dated(q, r))) && Supported(reps, r) {
      if r in b.reps {
        PruneKeeps(b, r);
        if r in q.inc.reps {
          DatedMeans(Generation(b.resource), r);
        }
      }
    }
  }

  lemma PrunedFrom(b: Batch)
    requires Prune(b).Ok? && Unique(b.reps, RepId)
    ensures forall r :: r in RepsOf(Prune(b).value) ==> r in b.reps
  {
    hide OutputOf, OutputsOk, Valid, Prune, GraphClosed, UpToDate;
    if Prune(b).value.Some? {
      PruneInvariant(b);
    }
  }

  /** Restricting a valid graph keeps what refers to what is kept. */
  lemma RestrictHolds(b: Batch, ids: set<string>)
    requires Valid(b)
    ensures var r := Restrict(b, ids);
            && (forall u :: u in r.units <==> u in b.units && UnitHeld(r, u))
            && (forall v :: v in r.vectors <==> v in b.vectors && VectorHeld(r, v))
            && r.spaces == b.spaces && r.facets == b.facets && r.resource == b.resource
  {
    hide Select, Identified, Owned, Populated;
    SelectMembers(b, ids);
    var r := Restrict(b, ids);
    forall u | u in b.units ensures u in r.units <==> UnitHeld(r, u) {
      var x :| x in b.reps && x.id == u.rep;
      assert x.id in ids ==> x in r.reps;
    }
  }

  lemma StepRest(q: Request, b: Batch)
    requires Step(q.prior, q.inc, q.resource, q.owner, q.remove, b) && Valid(q.prior) && Prune(b).Ok?
             && Prune(b).value.Some?
    ensures HoldsRest(q, Prune(b).value.value) && HoldsResource(q, Prune(b).value.value)
  {
    hide OutputOf, OutputsOk, Valid, Prune, CheckIncoming, InvalidDependencies, Combine, Table, Carried, UnitCarried,
         VectorCarried,
         SpaceCarried, UnitHeld, VectorHeld, Cyclic, Greatest, OutdatedSlots, Restrict, HoldsResource;
    CombinePools(q, b);
    StepUnique(q.prior, q.inc, q.resource, q.owner, q.remove, b);
    var leaving := PruneFacts(b);
    RestrictHolds(b, Keys(b.reps, RepId) - OwnerIds(Table(b.reps), leaving));
    CombineResource(q, b);
    SameResourceRecord(q, b, Prune(b).value.value);
  }

  lemma SameResourceRecord(q: Request, a: Batch, b: Batch)
    requires HoldsResource(q, a) && b.resource == a.resource
    ensures HoldsResource(q, b)
  {
  }

  lemma CombineResource(q: Request, b: Batch)
    requires OutputsOk(q.inc.reps) && Combine(q.prior, q.inc, q.resource, ClaimFor(q)) == Ok(Some(b))
    ensures HoldsResource(q, b)
  {
    hide OutputsOk, Preserved, Select, Union, UsedSpaces, ClaimOf, PreservedIds;
  }

  /** What a reconciliation of a stored graph returns. A representation is in the result exactly if it comes in,
      or carries over and is dated, and everything it depends on is in the result; units and vectors follow
      their representations, spaces the vectors that were combined, and facets and metadata accumulate. */
  lemma ReconcileReturns(current: Snapshot, incoming: Option<Batch>, resource: Resource, owner: string,
                         remove: set<Slot>)
    requires current.batch.Some? && Valid(current.batch.value)
    requires Reconcile(current, incoming, resource, owner, remove).Ok?
    ensures var q := RequestOf(current, incoming, resource, owner, remove);
            HoldsReps(q, RepsOf(Reconcile(current, incoming, resource, owner, remove).value))
    ensures var q := RequestOf(current, incoming, resource, owner, remove);
            Reconcile(current, incoming, resource, owner, remove).value.Some? ==>
              && HoldsRest(q, Reconcile(current, incoming, resource, owner, remove).value.value)
              && HoldsResource(q, Reconcile(current, incoming, resource, owner, remove).value.value)
  {
    hide OutputOf, OutputsOk, Valid, Prune, CheckIncoming, InvalidDependencies, Combine, Table, HoldsReps, HoldsRest,
         HoldsResource, Reconcile,
         Step, ClaimOf;
    var q := RequestOf(current, incoming, resource, owner, remove);
    var b := StepFacts(current, incoming, resource, owner, remove);
    if Combine(q.prior, q.inc, resource, ClaimFor(q)).value.Some? {
      StepPrunes(q, b, current, incoming);
      StepReps(q, b);
      if Prune(b).value.Some? {
        StepRest(q, b);
      }
    } else {
      NothingHeld(q);
    }
  }

  lemma StepPrunes(q: Request, b: Batch, current: Snapshot, incoming: Option<Batch>)
    requires Step(q.prior, q.inc, q.resource, q.owner, q.remove, b)
    requires Reconcile(current, incoming, q.resource, q.owner, q.remove).Ok?
    requires Reconcile(current, incoming, q.resource, q.owner, q.remove) == Prune(b)
    ensures Prune(b).Ok?
  {
    hide *;
  }

  lemma NothingHeld(q: Request)
    requires OutputsOk(q.inc.reps) && Valid(q.prior) && Combine(q.prior, q.inc, q.resource, ClaimFor(q)) == Ok(None)
    ensures HoldsReps(q, [])
  {
    hide OutputOf, OutputsOk, Resolved, Populated, Owned, Carried, Preserved, ClaimOf, PreservedIds, Combine, Supported;
    CombineAllRead(q.prior, q.inc, q.resource, ClaimFor(q));
    PreservedIdsMean(q);
    CarriedIsStored(q);
    forall r | r in q.prior.reps ensures !Carried(q, r) {
      NothingCombined(q.prior, q.inc, q.resource, ClaimFor(q), r);
    }
    if q.inc.reps != [] {
      IncomingCombined(q.prior, q.inc, q.resource, ClaimFor(q));
    }
  }

  /** The owner of a slot asked to be removed is gone, unless the producer itself supplies it again. */
  lemma RemovedIsGone(current: Snapshot, incoming: Option<Batch>, resource: Resource, owner: string,
                      remove: set<Slot>, r: Rep)
    requires current.batch.Some? && Valid(current.batch.value)
    requires Reconcile(current, incoming, resource, owner, remove).Ok?
    requires Owns(r) && OutOf(r).slot in remove && r !in OrEmpty(incoming, resource).reps
    ensures r !in RepsOf(Reconcile(current, incoming, resource, owner, remove).value)
  {
    hide OutputOf, Valid, Reconcile, Supported;
    ReconcileReturns(current, incoming, resource, owner, remove);
  }

  /** Within one source revision a stored output that is not independent is in the result exactly if its slot is
      neither removed nor supplied, or it comes in itself; it carries the revision; and its dependencies are in
      the result. */
  lemma OutputSurvives(current: Snapshot, incoming: Option<Batch>, resource: Resource, owner: string,
                       remove: set<Slot>, r: Rep)
    requires current.batch.Some? && Valid(current.batch.value)
    requires Reconcile(current, incoming, resource, owner, remove).Ok?
    requires SourceRevision(current.batch.value.resource) == SourceRevision(resource)
    requires r in current.batch.value.reps && Owns(r) && !DeclaresIndependence(r)
    ensures var inc, reps := OrEmpty(incoming, resource), RepsOf(Reconcile(current, incoming, resource, owner,
            remove).value);
            r in reps <==>
            && (|| r in inc.reps
                || (&& OutOf(r).slot !in remove
                    && !exists x :: x in inc.reps && Owns(x) && OutOf(x).slot == OutOf(r).slot))
            && Ok(OutOf(r).sourceRevision) == SourceRevision(resource)
            && (forall d :: d in OutOf(r).dependencies ==> Provides(reps, d))
  {
    hide OutputOf, OutputsOk, Valid, Reconcile, CheckIncoming, Prune, Combine, InvalidDependencies,
         DeclaresIndependence, Provides;
    ReconcileReturns(current, incoming, resource, owner, remove);
    if r in OrEmpty(incoming, resource).reps {
      IncomingDated(current, incoming, resource, owner, remove, r);
    }
  }

  lemma IncomingDated(current: Snapshot, incoming: Option<Batch>, resource: Resource, owner: string,
                      remove: set<Slot>, r: Rep)
    requires current.batch.Some? && Reconcile(current, incoming, resource, owner, remove).Ok?
    requires r in OrEmpty(incoming, resource).reps && Owns(r) && !DeclaresIndependence(r)
    ensures Ok(OutOf(r).sourceRevision) == SourceRevision(resource)
  {
    hide OutputOf, OutputsOk, Valid, CheckIncoming, Prune, Combine, InvalidDependencies, DeclaresIndependence,
         IndependentOutput;
    CheckIncomingDecides(incoming.value.reps, SourceRevision(resource).value);
    IndependenceMeans(r);
  }
}
