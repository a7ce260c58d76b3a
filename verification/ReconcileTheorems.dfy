/** What every reconciled graph satisfies, and what happens when a reconciliation is repeated. */
module ReconcileTheorems {
  import opened Sequences
  import opened Graph
  import opened Dependencies
  import opened Merging
  import opened MergeTheorems
  import opened MergeTwice
  import opened Enrichment
  import opened Reconciling

  /** Every derived output belongs to the resource's generation or declares independence of it. */
  predicate UpToDate(b: Batch) {
    && OutputsOk(b.reps)
    && forall r :: r in b.reps && Owns(r) ==> IndependentOutput(r).Ok? && !Outdated(r, Generation(b.resource))
  }

  /** What a representation says of itself: its own flag, or its output block. */
  predicate DeclaresIndependence(r: Rep) {
    r.independent == Flagged(true) || (r.provenance.Block? && r.provenance.sourceIndependent)
  }

  lemma IndependenceMeans(r: Rep)
    ensures IndependentOutput(r).Ok? <==>
            && OutputOf(r).Ok? && r.independent != NotBoolean
            && !(r.independent == Flagged(true) && r.provenance.Block? && r.provenance.dependencies != [])
    ensures IndependentOutput(r).Ok? ==> (IndependentOutput(r).value <==> DeclaresIndependence(r))
  {
    hide BlockOk;
  }

  // ------------------------------------------------------------------ prune

  /** The representations pruning keeps, by the slots it condemns. */
  lemma RestrictMembers(b: Batch, leaving: set<Slot>)
    requires Unique(b.reps, RepId) && OutputsOk(b.reps)
    ensures var r := Restrict(b, Keys(b.reps, RepId) - OwnerIds(Table(b.reps), leaving));
            forall x :: x in r.reps <==> x in b.reps && !(Owns(x) && OutOf(x).slot in leaving)
  {
    hide OutputOf, OutputsOk;
    var ids := Keys(b.reps, RepId) - OwnerIds(Table(b.reps), leaving);
    KeepMembers(b.reps, RepId, ids);
    forall x | x in b.reps ensures x.id in ids <==> !(Owns(x) && OutOf(x).slot in leaving) {
      OwnerKept(b.reps, leaving, x);
      assert RepId(x) in Keys(b.reps, RepId);
    }
  }

  /** The table after representations of some slots leave. */
  lemma TableRestricted(b: Batch, r: Batch, leaving: set<Slot>)
    requires OutputsOk(b.reps) && Unique(r.reps, RepId)
    requires forall x :: x in r.reps <==> x in b.reps && !(Owns(x) && OutOf(x).slot in leaving)
    ensures OutputsOk(r.reps) && Table(r.reps) == Table(b.reps) - leaving
  {
    hide OutputOf;
    forall x, y | x in r.reps && y in r.reps && Owns(x) && Owns(y) && OutOf(x).slot == OutOf(y).slot ensures x == y {
      OwnersDistinct(b.reps, x, y);
    }
    OutputsFromUnique(r.reps);
    TableDetermined(r.reps, Table(b.reps) - leaving);
  }

  /** What pruning removes: outdated slots, and then everything outside the greatest closed set. */
  lemma PruneFacts(b: Batch) returns (leaving: set<Slot>)
    requires Prune(b).Ok? && Unique(b.reps, RepId)
    ensures OutputsOk(b.reps) && forall r :: r in b.reps && Owns(r) ==> IndependentOutput(r).Ok?
    ensures OutdatedSlots(b.reps, Generation(b.resource)) <= leaving <= Table(b.reps).Keys
    ensures Greatest(Just(Table(b.reps) - OutdatedSlots(b.reps, Generation(b.resource))), Table(b.reps).Keys - leaving)
    ensures !Cyclic(Pending(Just(Table(b.reps) - OutdatedSlots(b.reps, Generation(b.resource)))))
    ensures Prune(b).value == var r := Restrict(b, Keys(b.reps, RepId) - OwnerIds(Table(b.reps), leaving));
                              if r.reps == [] then None else Some(r)
    ensures Prune(b).value.Some? ==> Valid(Prune(b).value.value)
  {
    hide OutputOf, OutputsOk, Valid, Table, OutdatedSlots, InvalidDependencies, Cyclic, Greatest, Restrict, Outdated;
    var outdated := OutdatedSlots(b.reps, Generation(b.resource));
    var active := Just(Table(b.reps) - outdated);
    var survivors := InvalidDependenciesDecides(active, {});
    var none: set<Slot> := {};
    assert none * active.Keys <= survivors;
    GreatestInside(active, survivors);
    leaving := outdated + (active.Keys - survivors);
    assert Table(b.reps).Keys - leaving == survivors;
  }

  lemma GreatestInside(active: map<Slot, Output>, survivors: set<Slot>)
    requires Greatest(active, survivors)
    ensures survivors <= active.Keys
  {
  }

  /** A pruned graph is valid, dependency-closed and up to date. */
  lemma PruneInvariant(b: Batch)
    requires Prune(b).Ok? && Prune(b).value.Some? && Unique(b.reps, RepId)
    ensures var r := Prune(b).value.value;
            && Valid(r) && GraphClosed(r) && UpToDate(r) && r.resource == b.resource
            && r.spaces == b.spaces && r.facets == b.facets && (forall x :: x in r.reps ==> x in b.reps)
            && (forall u :: u in r.units ==> u in b.units) && (forall v :: v in r.vectors ==> v in b.vectors)
  {
    hide OutputOf, OutputsOk, Owned, Populated, Resolved, Table, OutdatedSlots, Prune, Cyclic, Select;
    var leaving := PruneFacts(b);
    SelectedFrom(b, Keys(b.reps, RepId) - OwnerIds(Table(b.reps), leaving));
    var r := Prune(b).value.value;
    RestrictMembers(b, leaving);
    TableRestricted(b, r, leaving);
    var outdated := OutdatedSlots(b.reps, Generation(b.resource));
    ClosedRestricted(Table(b.reps) - outdated, Table(r.reps));
    forall x | x in r.reps && Owns(x) ensures !Outdated(x, Generation(b.resource)) {
      OutdatedMember(b.reps, Generation(b.resource), x);
    }
  }

  lemma OutdatedMember(reps: seq<Rep>, generation: Option<string>, r: Rep)
    requires OutputsOk(reps) && forall q :: q in reps && Owns(q) ==> IndependentOutput(q).Ok?
    requires r in reps && Owns(r)
    ensures Outdated(r, generation) <==> OutOf(r).slot in OutdatedSlots(reps, generation)
  {
    hide OutputOf, OutputsOk;
    assert Table(reps)[OutOf(r).slot].rep == r;
  }

  lemma ClosedRestricted(large: map<Slot, Owner>, small: map<Slot, Owner>)
    requires small.Keys <= large.Keys && forall s :: s in small ==> small[s] == large[s]
    requires Closed(Just(large), small.Keys)
    ensures Closed(Just(small), small.Keys)
  {
    forall s, d | s in small && d in small[s].output.dependencies ensures Met(Just(small), small.Keys, d) {
      assert Met(Just(large), small.Keys, d);
    }
  }

  // -------------------------------------------------------------- reconcile

  lemma CombinedFacts(prior: Batch, inc: Batch, resource: Resource, claim: Claim)
    requires Combine(prior, inc, resource, claim).Ok? && Combine(prior, inc, resource, claim).value.Some?
    ensures var b := Combine(prior, inc, resource, claim).value.value;
            && "source_revision" in resource.metadata ==> Generation(b.resource) == Generation(resource)
  {
  }

  /** Every graph `reconcile` returns is valid, dependency-closed, and holds no derived output of
      another source revision; its own revision is the one reconciled to. */
  lemma ReconcileInvariant(current: Snapshot, incoming: Option<Batch>, resource: Resource, owner: string,
                           remove: set<Slot>)
    requires Reconcile(current, incoming, resource, owner, remove).Ok?
    requires Reconcile(current, incoming, resource, owner, remove).value.Some?
    ensures var b := Reconcile(current, incoming, resource, owner, remove).value.value;
            && Valid(b) && GraphClosed(b) && UpToDate(b)
            && SourceRevision(resource).Ok? && Generation(b.resource) == Some(SourceRevision(resource).value)
  {
    hide OutputOf, OutputsOk, Owned, Populated, Resolved, Table, Prune, CheckIncoming, InvalidDependencies, Combine,
         GraphClosed, UpToDate;
    if current.batch.None? {
      PruneInvariant(incoming.value);
    } else {
      var inc := OrEmpty(incoming, resource);
      var stored := SourceRevision(current.batch.value.resource).value;
      var claim := Claim(owner, Table(inc.reps).Keys, BaseKinds(inc.reps, owner), remove,
                         stored != SourceRevision(resource).value);
      CombinedFacts(current.batch.value, inc, resource, claim);
      PruneInvariant(Combine(current.batch.value, inc, resource, claim).value.value);
    }
  }

  // ------------------------------------------------- members of the combination

  /** Vectors and units that follow a set of representations. */
  predicate UnitFollows(b: Batch, ids: set<string>, u: Unit) { u in b.units && u.rep in ids }

  ghost predicate VectorFollows(b: Batch, ids: set<string>, v: Vector) {
    v in b.vectors && exists u :: UnitFollows(b, ids, u) && u.id == v.unit
  }

  ghost predicate SpaceUsed(b: Batch, ids: set<string>, s: Space) {
    s in b.spaces && exists v :: VectorFollows(b, ids, v) && v.space == s.id
  }

  lemma SelectMembers(b: Batch, ids: set<string>)
    ensures forall r :: r in Select(b, ids).reps <==> r in b.reps && r.id in ids
    ensures forall u :: u in Select(b, ids).units <==> UnitFollows(b, ids, u)
    ensures forall v :: v in Select(b, ids).vectors <==> VectorFollows(b, ids, v)
    ensures forall s :: s in UsedSpaces(b, Select(b, ids).vectors) <==> SpaceUsed(b, ids, s)
  {
    var part := Select(b, ids);
    KeepMembers(b.reps, RepId, ids);
    KeepMembers(b.units, UnitRep, ids);
    KeepMembers(b.vectors, VectorUnit, Keys(part.units, UnitId));
    KeepMembers(b.spaces, SpaceId, Keys(part.vectors, VectorSpace));
  }

  lemma SelectUnique(b: Batch, ids: set<string>)
    requires Identified(b)
    ensures var p := Select(b, ids);
            && Unique(p.reps, RepId) && Unique(p.units, UnitId) && Unique(p.vectors, VectorKey)
            && Unique(UsedSpaces(b, p.vectors), SpaceId)
  {
    KeepUniqueBy(b.reps, RepId, ids, RepId);
    KeepUniqueBy(b.units, UnitRep, ids, UnitId);
    KeepUniqueBy(b.vectors, VectorUnit, Keys(Keep(b.units, UnitRep, ids), UnitId), VectorKey);
    KeepUniqueBy(b.spaces, SpaceId, Keys(Select(b, ids).vectors, VectorSpace), SpaceId);
  }

  /** The five unions of a reconciliation, as sets. */
  ghost predicate Members(prior: Batch, inc: Batch, ids: set<string>, b: Batch) {
    && (forall r :: r in b.reps <==> (r in prior.reps && r.id in ids) || r in inc.reps)
    && (forall u :: u in b.units <==> UnitFollows(prior, ids, u) || u in inc.units)
    && (forall v :: v in b.vectors <==> VectorFollows(prior, ids, v) || v in inc.vectors)
    && (forall s :: s in b.spaces <==> SpaceUsed(prior, ids, s) || s in inc.spaces)
    && (forall f :: f in b.facets <==> f in prior.facets || f in inc.facets)
  }

  lemma CombineMembers(prior: Batch, inc: Batch, resource: Resource, claim: Claim)
    requires Identified(prior)
    requires Combine(prior, inc, resource, claim).Ok? && Combine(prior, inc, resource, claim).value.Some?
    ensures Members(prior, inc, PreservedIds(prior.reps, claim), Combine(prior, inc, resource, claim).value.value)
  {
    hide OutputOf, Select, Union, UnitFollows, VectorFollows, SpaceUsed, UsedSpaces, MergeMetadata, Identified,
         Consistent;
    var ids := PreservedIds(prior.reps, claim);
    var part := Select(prior, ids);
    SelectMembers(prior, ids);
    SelectUnique(prior, ids);
    UnionDecides(part.reps, inc.reps, RepId);
    UnionDecides(part.units, inc.units, UnitId);
    UnionDecides(UsedSpaces(prior, part.vectors), inc.spaces, SpaceId);
    UnionDecides(part.vectors, inc.vectors, VectorKey);
    FacetsUnique(prior);
    UnionDecides(prior.facets, inc.facets, FacetKey);
  }

  lemma FacetsUnique(b: Batch)
    requires Identified(b)
    ensures Unique(b.facets, FacetKey) && Unique(b.reps, RepId)
  {
  }

  /** With unique identities, "preserved" and "has a preserved identity" are the same. */
  lemma PreservedById(reps: seq<Rep>, claim: Claim, r: Rep)
    requires Unique(reps, RepId) && r in reps
    ensures r.id in PreservedIds(reps, claim) <==> Preserved(r, claim) == Ok(true)
  {
    hide OutputOf, Preserved;
    if r.id in PreservedIds(reps, claim) {
      var q :| q in reps && Preserved(q, claim) == Ok(true) && q.id == r.id;
      UniqueMember(reps, RepId, q, r);
    }
  }

  // ------------------------------------------------- one step on a stored graph

  function ClaimOf(prior: Batch, inc: Batch, resource: Resource, owner: string, remove: set<Slot>): Claim
    requires OutputsOk(inc.reps)
  {
    Claim(owner, Table(inc.reps).Keys, BaseKinds(inc.reps, owner), remove,
          SourceRevision(prior.resource) != SourceRevision(resource))
  }

  /** The facts of a reconciliation that reached pruning. */
  ghost predicate Step(prior: Batch, inc: Batch, resource: Resource, owner: string, remove: set<Slot>, b: Batch) {
    && SourceRevision(resource).Ok? && OutputsOk(inc.reps)
    && CheckIncoming(inc.reps, SourceRevision(resource).value).Ok?
    && Combine(prior, inc, resource, ClaimOf(prior, inc, resource, owner, remove)) == Ok(Some(b))
    && Valid(b) && OutputsOk(b.reps) && InvalidDependencies(Just(Table(b.reps)), Table(inc.reps).Keys).Ok?
  }

  lemma StepFacts(current: Snapshot, incoming: Option<Batch>, resource: Resource, owner: string, remove: set<Slot>)
    returns (b: Batch)
    requires current.batch.Some? && Reconcile(current, incoming, resource, owner, remove).Ok?
    ensures SourceRevision(resource).Ok? && (incoming.Some? ==> Valid(incoming.value))
    ensures var prior, inc := current.batch.value, OrEmpty(incoming, resource);
            && OutputsOk(inc.reps) && SourceRevision(prior.resource).Ok?
            && inc.resource == resource && (inc.reps != [] ==> resource.id == current.state.resourceId)
            && var combined := Combine(prior, inc, resource, ClaimOf(prior, inc, resource, owner, remove));
            && combined.Ok?
            && if combined.value.None? then Reconcile(current, incoming, resource, owner, remove).value.None?
               else Step(prior, inc, resource, owner, remove, b)
                    && Reconcile(current, incoming, resource, owner, remove) == Prune(b)
  {
    hide OutputOf, OutputsOk, Table, Prune, CheckIncoming, InvalidDependencies, Combine, Valid;
    var inc := OrEmpty(incoming, resource);
    var combined := Combine(current.batch.value, inc, resource,
                            ClaimOf(current.batch.value, inc, resource, owner, remove));
    if incoming.None? {
      CheckIncomingDecides([], SourceRevision(resource).value);
    }
    b := if combined.value.Some? then combined.value.value else inc;
  }

  /** An output independent of the source needs nothing, so it is always in the greatest closed set. */
  lemma IndependentSurvives(active: map<Slot, Output>, survivors: set<Slot>, s: Slot)
    requires Greatest(active, survivors) && s in active && active[s].dependencies == []
    ensures s in survivors
  {
    assert Closed(active, {s});
  }

  lemma IndependentNeedsNothing(r: Rep)
    requires Owns(r) && IndependentOutput(r) == Ok(true)
    ensures OutOf(r).dependencies == [] && forall g :: !Outdated(r, g)
  {
  }

  lemma IndependentStays(b: Batch, r: Rep)
    requires Prune(b).Ok? && Unique(b.reps, RepId) && r in b.reps && (Owns(r) ==> IndependentOutput(r) == Ok(true))
    ensures Prune(b).value.Some? && r in Prune(b).value.value.reps
  {
    hide OutputOf, OutputsOk, Prune, OutdatedSlots, Valid, Cyclic, Select, Outdated, IndependentOutput;
    var leaving := PruneFacts(b);
    RestrictMembers(b, leaving);
    var outdated := OutdatedSlots(b.reps, Generation(b.resource));
    if Owns(r) {
      IndependentNeedsNothing(r);
      OutdatedMember(b.reps, Generation(b.resource), r);
      assert Table(b.reps)[OutOf(r).slot] == Owner(r, OutOf(r));
      IndependentSurvives(Just(Table(b.reps) - outdated), Table(b.reps).Keys - leaving, OutOf(r).slot);
    }
  }

  /** When the source generation changes, a representation that is not supplied is in the result exactly
      if it is stored, declares independence of the source, and is not asked to be removed. */
  lemma GenerationChange(current: Snapshot, incoming: Option<Batch>, resource: Resource, owner: string,
                         remove: set<Slot>, r: Rep)
    requires Reconcile(current, incoming, resource, owner, remove).Ok?
    requires current.batch.Some? && Valid(current.batch.value)
    requires SourceRevision(current.batch.value.resource) != SourceRevision(resource)
    requires r !in OrEmpty(incoming, resource).reps
    ensures var prior, result := current.batch.value, Reconcile(current, incoming, resource, owner, remove).value;
            result.Some? && r in result.value.reps <==>
            r in prior.reps && DeclaresIndependence(r) && !(Owns(r) && OutOf(r).slot in remove)
  {
    hide OutputOf, OutputsOk, Table, Prune, CheckIncoming, InvalidDependencies, Owned, Resolved, Populated, Reconcile,
         IndependentOutput, BaseKinds, Select, Union, MergeMetadata, UnitFollows, VectorFollows, SpaceUsed, UsedSpaces;
    var prior, inc := current.batch.value, OrEmpty(incoming, resource);
    var b := StepFacts(current, incoming, resource, owner, remove);
    var claim := ClaimOf(prior, inc, resource, owner, remove);
    IndependenceMeans(r);
    if r in prior.reps {
      PreservedById(prior.reps, claim, r);
    }
    if Combine(prior, inc, resource, claim).value.Some? {
      CombineMembers(prior, inc, resource, claim);
      if Prune(b).value.Some? {
        PruneInvariant(b);
      }
      if r in b.reps {
        IndependentStays(b, r);
      }
    } else if r in prior.reps {
      NothingCombined(prior, inc, resource, claim, r);
    }
  }

  lemma NothingCombined(prior: Batch, inc: Batch, resource: Resource, claim: Claim, r: Rep)
    requires Identified(prior) && Combine(prior, inc, resource, claim) == Ok(None) && r in prior.reps
    ensures r.id !in PreservedIds(prior.reps, claim)
  {
    hide OutputOf, Union, Preserved, Select;
    var part := Select(prior, PreservedIds(prior.reps, claim));
    SelectMembers(prior, PreservedIds(prior.reps, claim));
    SelectUnique(prior, PreservedIds(prior.reps, claim));
    UnionDecides(part.reps, inc.reps, RepId);
  }

  // ---------------------------------------------------------- what is untouched

  lemma LegacyStays(b: Batch, r: Rep)
    requires Prune(b).Ok? && Unique(b.reps, RepId) && r in b.reps && !Owns(r)
    ensures Prune(b).value.Some? && r in Prune(b).value.value.reps
  {
    hide OutputOf, OutputsOk, Prune, OutdatedSlots, Valid, Cyclic, Select, Outdated, Greatest;
    var leaving := PruneFacts(b);
    RestrictMembers(b, leaving);
  }

  /** Within a generation a producer replaces exactly its own base: a legacy representation that it does
      not re-supply survives iff it has another owner and a kind the producer does not supply. */
  lemma ProducerReplacesOwnBase(current: Snapshot, incoming: Option<Batch>, resource: Resource, owner: string,
                                remove: set<Slot>, r: Rep)
    requires Reconcile(current, incoming, resource, owner, remove).Ok?
    requires current.batch.Some? && Valid(current.batch.value) && r in current.batch.value.reps
    requires SourceRevision(current.batch.value.resource) == SourceRevision(resource)
    requires r.provenance.NoBlock? && !DeclaresIndependence(r) && r !in OrEmpty(incoming, resource).reps
    ensures var result := Reconcile(current, incoming, resource, owner, remove).value;
            result.Some? && r in result.value.reps <==>
            && r.producerOwner != Some(owner)
            && !exists q :: && q in OrEmpty(incoming, resource).reps && q.kind == r.kind
                            && (q.provenance.NoBlock? || q.producerOwner == Some(owner))
  {
    hide OutputsOk, Table, Prune, CheckIncoming, InvalidDependencies, Owned, Resolved, Populated, Reconcile, BlockOk,
         Select, Union, MergeMetadata, UnitFollows, VectorFollows, SpaceUsed, UsedSpaces;
    var prior, inc := current.batch.value, OrEmpty(incoming, resource);
    var b := StepFacts(current, incoming, resource, owner, remove);
    var claim := ClaimOf(prior, inc, resource, owner, remove);
    PreservedById(prior.reps, claim, r);
    if Combine(prior, inc, resource, claim).value.Some? {
      CombineMembers(prior, inc, resource, claim);
      if Prune(b).value.Some? {
        PruneInvariant(b);
      }
      if r in b.reps {
        LegacyStays(b, r);
      }
    } else {
      NothingCombined(prior, inc, resource, claim, r);
    }
  }

  /** A stored representation that survives has exactly its own units and vectors, if it is preserved, and
      those the producer supplies for it. */
  lemma ReconcileKeeps(current: Snapshot, incoming: Option<Batch>, resource: Resource, owner: string, remove: set<Slot>,
                       r: Rep, u: Unit, v: Vector)
    requires Reconcile(current, incoming, resource, owner, remove).Ok?
    requires Reconcile(current, incoming, resource, owner, remove).value.Some?
    requires current.batch.Some? && Valid(current.batch.value) && r in current.batch.value.reps
    requires r in Reconcile(current, incoming, resource, owner, remove).value.value.reps
    ensures var prior, inc, b := current.batch.value, OrEmpty(incoming, resource),
                                 Reconcile(current, incoming, resource, owner, remove).value.value;
            && OutputsOk(inc.reps)
            && var kept := Preserved(r, ClaimOf(prior, inc, resource, owner, remove)) == Ok(true);
            && (kept || r in inc.reps)
            && (u.rep == r.id ==> (u in b.units <==> u in inc.units || (kept && u in prior.units)))
            && (u in b.units && u.rep == r.id && v.unit == u.id ==>
                  (v in b.vectors <==> v in inc.vectors || (kept && u in prior.units && v in prior.vectors)))
  {
    hide OutputOf, OutputsOk, Table, Prune, CheckIncoming, InvalidDependencies, Owned, Populated, Reconcile, Preserved,
         BaseKinds, Select, Union, MergeMetadata, UsedSpaces, Combine, Resolved, Cyclic, Greatest, PreservedIds;
    var prior, inc := current.batch.value, OrEmpty(incoming, resource);
    var b := StepFacts(current, incoming, resource, owner, remove);
    var claim := ClaimOf(prior, inc, resource, owner, remove);
    CombineMembers(prior, inc, resource, claim);
    PreservedById(prior.reps, claim, r);
    var leaving := PruneFacts(b);
    KeptWith(prior, inc, PreservedIds(prior.reps, claim), b, Keys(b.reps, RepId) - OwnerIds(Table(b.reps), leaving),
        r, u, v);
  }

  lemma KeptWith(prior: Batch, inc: Batch, ids: set<string>, b: Batch, kept: set<string>, r: Rep, u: Unit, v: Vector)
    requires Members(prior, inc, ids, b) && Unique(b.units, UnitId) && r in prior.reps && r in Restrict(b, kept).reps
    ensures r.id in ids || r in inc.reps
    ensures u.rep == r.id ==> (u in Restrict(b, kept).units <==> u in inc.units || (r.id in ids && u in prior.units))
    ensures u in Restrict(b, kept).units && u.rep == r.id && v.unit == u.id ==>
              (v in Restrict(b, kept).vectors <==>
                  v in inc.vectors || (r.id in ids && u in prior.units && v in prior.vectors))
  {
    hide Select, SpaceUsed;
    SelectMembers(b, kept);
    var res := Restrict(b, kept);
    if u in res.units && u.rep == r.id && v.unit == u.id {
      assert UnitFollows(b, kept, u);
      assert v in res.vectors <==> v in b.vectors;
      if VectorFollows(prior, ids, v) {
        var w :| UnitFollows(prior, ids, w) && w.id == v.unit;
        UniqueMember(b.units, UnitId, u, w);
      }
      if r.id in ids && u in prior.units && v in prior.vectors {
        assert UnitFollows(prior, ids, u);
      }
    }
  }

  // ------------------------------------------------------- who survives pruning

  /** Slots of stored outputs that are preserved although they belong to another source revision. */
  function OldSlots(prior: Batch, claim: Claim, generation: string): set<Slot> {
    set r | r in prior.reps && Owns(r) && Preserved(r, claim) == Ok(true) && IndependentOutput(r) == Ok(false)
            && OutOf(r).sourceRevision != generation :: OutOf(r).slot
  }

  /** Following dependencies through what is preserved and what comes in, a slot leads to such an output. */
  ghost predicate Condemned(prior: Batch, inc: Batch, resource: Resource, owner: string, remove: set<Slot>, s: Slot)
    requires OutputsOk(inc.reps) && SourceRevision(resource).Ok?
  {
    var claim := ClaimOf(prior, inc, resource, owner, remove);
    var c := Combine(prior, inc, resource, claim);
    && c.Ok? && c.value.Some? && OutputsOk(c.value.value.reps)
    && Reaches(Pending(Just(Table(c.value.value.reps))), s, OldSlots(prior, claim, SourceRevision(resource).value))
  }

  lemma StepIndependence(prior: Batch, inc: Batch, resource: Resource, owner: string, remove: set<Slot>, b: Batch,
                         x: Rep)
    requires Step(prior, inc, resource, owner, remove, b) && Identified(prior) && x in b.reps && Owns(x)
    ensures IndependentOutput(x).Ok?
    ensures x in inc.reps ==> !Outdated(x, Some(SourceRevision(resource).value))
    ensures x !in inc.reps ==> x in prior.reps && Preserved(x, ClaimOf(prior, inc, resource, owner, remove)) == Ok(true)
  {
    hide OutputOf, OutputsOk, Valid, Table, InvalidDependencies, BaseKinds, Select, Union, UnitFollows, VectorFollows,
         SpaceUsed, CheckIncoming, PreservedIds, Combine, IndependentOutput;
    var claim := ClaimOf(prior, inc, resource, owner, remove);
    CombineMembers(prior, inc, resource, claim);
    CheckIncomingDecides(inc.reps, SourceRevision(resource).value);
    FacetsUnique(prior);
    if x !in inc.reps {
      PreservedById(prior.reps, claim, x);
    }
  }

  /** The outdated slots of the combination are the old slots that were preserved. */
  lemma StepOutdated(prior: Batch, inc: Batch, resource: Resource, owner: string, remove: set<Slot>, b: Batch)
    requires Step(prior, inc, resource, owner, remove, b) && Identified(prior)
    ensures forall r :: r in b.reps && Owns(r) ==> IndependentOutput(r).Ok?
    ensures Generation(b.resource) == Some(SourceRevision(resource).value)
    ensures OutdatedSlots(b.reps, Generation(b.resource)) ==
            OldSlots(prior, ClaimOf(prior, inc, resource, owner, remove), SourceRevision(resource).value)
  {
    hide OutputOf, OutputsOk, Valid, Table, InvalidDependencies, BaseKinds, Select, Union, UnitFollows, VectorFollows,
         SpaceUsed, CheckIncoming, PreservedIds, Combine, IndependentOutput, Preserved;
    var claim := ClaimOf(prior, inc, resource, owner, remove);
    var generation := SourceRevision(resource).value;
    CombinedFacts(prior, inc, resource, claim);
    forall x | x in b.reps && Owns(x)
      ensures IndependentOutput(x).Ok? && (x !in inc.reps ==> x in prior.reps && Preserved(x, claim) == Ok(true))
      ensures x in inc.reps ==> !Outdated(x, Some(generation))
    {
      StepIndependence(prior, inc, resource, owner, remove, b, x);
    }
    CombineMembers(prior, inc, resource, claim);
    FacetsUnique(prior);
    var stale, outdated := OldSlots(prior, claim, generation), OutdatedSlots(b.reps, Some(generation));
    forall s | s in outdated ensures s in stale {
      assert Outdated(Table(b.reps)[s].rep, Some(generation));
    }
    forall r | r in prior.reps && Owns(r) && Preserved(r, claim) == Ok(true) && IndependentOutput(r) == Ok(false)
               && OutOf(r).sourceRevision != generation
      ensures OutOf(r).slot in outdated
    {
      PreservedById(prior.reps, claim, r);
      OutdatedMember(b.reps, Some(generation), r);
    }
  }

  /** A slot of the combination that pruning must spare if it can is spared exactly when it is not
      condemned. */
  lemma StepSurvivors(prior: Batch, inc: Batch, resource: Resource, owner: string, remove: set<Slot>, b: Batch)
    returns (leaving: set<Slot>)
    requires Step(prior, inc, resource, owner, remove, b) && Identified(prior) && Prune(b).Ok?
    ensures leaving <= Table(b.reps).Keys && !Cyclic(Pending(Just(Table(b.reps))))
    ensures Prune(b).value == var r := Restrict(b, Keys(b.reps, RepId) - OwnerIds(Table(b.reps), leaving));
                              if r.reps == [] then None else Some(r)
    ensures forall s :: s in Table(inc.reps) ==>
              s in Table(b.reps) && (s in leaving <==> Condemned(prior, inc, resource, owner, remove, s))
  {
    hide OutputOf, OutputsOk, Valid, Table, InvalidDependencies, OutdatedSlots, OldSlots, Prune, Cyclic, Greatest,
         Restrict,
         OwnerIds, BaseKinds, CheckIncoming, Combine, Reaches, PreservedIds, UnitFollows, VectorFollows, SpaceUsed;
    StepUnique(prior, inc, resource, owner, remove, b);
    leaving := PruneFacts(b);
    StepOutdated(prior, inc, resource, owner, remove, b);
    var gone := OutdatedSlots(b.reps, Generation(b.resource));
    var t := Table(b.reps);
    var all := InvalidDependenciesDecides(Just(t), Table(inc.reps).Keys);
    assert Just(t) - gone == Just(t - gone);
    SurvivorsAvoid(Just(t), gone, all, t.Keys - leaving);
    CombineMembers(prior, inc, resource, ClaimOf(prior, inc, resource, owner, remove));
    forall s | s in Table(inc.reps) ensures s in t && s in all {
      assert OutOf(Table(inc.reps)[s].rep).slot in t;
      assert s in Table(inc.reps).Keys * Just(t).Keys;
    }
  }

  lemma StepUnique(prior: Batch, inc: Batch, resource: Resource, owner: string, remove: set<Slot>, b: Batch)
    requires Step(prior, inc, resource, owner, remove, b)
    ensures Unique(b.reps, RepId) && Unique(b.units, UnitId)
  {
    hide OutputsOk, InvalidDependencies, CheckIncoming, Combine;
  }

  /** Exactly when an accepted incoming slot is in the result: pruning drops it silently if and only if
      its dependencies lead to a preserved output of another source revision. */
  lemma IncomingSurvives(current: Snapshot, incoming: Batch, resource: Resource, owner: string, remove: set<Slot>,
                         s: Slot)
    requires current.batch.Some? && Valid(current.batch.value)
    requires Reconcile(current, Some(incoming), resource, owner, remove).Ok?
    ensures OutputsOk(incoming.reps) && SourceRevision(resource).Ok?
    ensures var result := Reconcile(current, Some(incoming), resource, owner, remove).value;
            s in Table(incoming.reps) ==>
              (result.Some? && OutputsOk(result.value.reps) && s in Table(result.value.reps)
               <==> !Condemned(current.batch.value, incoming, resource, owner, remove, s))
  {
    hide OutputOf, OutputsOk, Table, InvalidDependencies, Prune, Cyclic, Restrict, OwnerIds, BaseKinds, CheckIncoming,
         Combine, Condemned, PreservedIds, UnitFollows, VectorFollows, SpaceUsed, Reconcile, Owned, Resolved, Populated;
    var b := StepFacts(current, Some(incoming), resource, owner, remove);
    if s in Table(incoming.reps) {
      var prior := current.batch.value;
      IncomingCombined(prior, incoming, resource, ClaimOf(prior, incoming, resource, owner, remove));
      var leaving := StepSurvivors(prior, incoming, resource, owner, remove, b);
      StepUnique(prior, incoming, resource, owner, remove, b);
      var r := Restrict(b, Keys(b.reps, RepId) - OwnerIds(Table(b.reps), leaving));
      RestrictMembers(b, leaving);
      if r.reps == [] {
        EmptyTable(b, leaving, r, s);
      } else {
        RestrictUnique(b, Keys(b.reps, RepId) - OwnerIds(Table(b.reps), leaving));
        TableRestricted(b, r, leaving);
      }
    }
  }

  lemma RestrictUnique(b: Batch, ids: set<string>)
    requires Unique(b.reps, RepId)
    ensures Unique(Restrict(b, ids).reps, RepId)
  {
    KeepUniqueBy(b.reps, RepId, ids, RepId);
  }

  lemma EmptyTable(b: Batch, leaving: set<Slot>, r: Batch, s: Slot)
    requires OutputsOk(b.reps) && r.reps == [] && s in Table(b.reps)
    requires forall x :: x in r.reps <==> x in b.reps && !(Owns(x) && OutOf(x).slot in leaving)
    ensures s in leaving
  {
    hide OutputOf, OutputsOk;
    assert Table(b.reps)[s].rep in b.reps;
  }

  lemma IncomingCombined(prior: Batch, inc: Batch, resource: Resource, claim: Claim)
    requires Identified(prior) && inc.reps != [] && Combine(prior, inc, resource, claim).Ok?
    ensures Combine(prior, inc, resource, claim).value.Some?
  {
    hide OutputOf, Union, Preserved, Select, PreservedIds, Identified;
    var part := Select(prior, PreservedIds(prior.reps, claim));
    SelectUnique(prior, PreservedIds(prior.reps, claim));
    UnionDecides(part.reps, inc.reps, RepId);
    if Union(part.reps, inc.reps, RepId).Ok? {
      assert inc.reps[0] in Union(part.reps, inc.reps, RepId).value;
    }
  }
}
