/** Exactly which requests a reconciliation accepts. */
module ReconcileAccepts {
  import opened Sequences
  import opened Graph
  import opened Dependencies
  import opened Merging
  import opened MergeTheorems
  import opened Enrichment
  import opened Reconciling
  import opened ReconcileTheorems
  import opened MergeAccepts
  import opened ReconcileContents

  /** Combined records: those that come in and those that carry over. */
  predicate Pools(q: Request, r: Rep) { r in q.inc.reps || Carried(q, r) }

  /** Nothing comes in and nothing carries over. */
  ghost predicate Vacant(q: Request) { forall r :: !Pools(q, r) }

  /** No identity of what carries over is supplied with another value. */
  ghost predicate RecordsAgree(q: Request) {
    && (forall u, w :: UnitCarried(q, u) && w in q.inc.units && u.id == w.id ==> u == w)
    && (forall s, t :: SpaceCarried(q, s) && t in q.inc.spaces && s.id == t.id ==> s == t)
    && (forall v, w :: VectorCarried(q, v) && w in q.inc.vectors && v.unit == w.unit && v.space == w.space ==> v == w)
    && (forall f, g :: f in q.prior.facets && g in q.inc.facets && FacetKey(f) == FacetKey(g) ==> f == g)
  }

  ghost predicate RepsAgree(q: Request) {
    forall r, x :: Carried(q, r) && x in q.inc.reps && r.id == x.id ==> r == x
  }

  predicate MetadataAgrees(q: Request) {
    forall k :: k in q.prior.resource.metadata && k in q.resource.metadata && k !in SOURCE_KEYS ==>
      q.prior.resource.metadata[k] == q.resource.metadata[k]
  }

  /** One owner for each slot of the combination. */
  ghost predicate SlotsApart(q: Request) {
    forall x, y :: Pools(q, x) && Pools(q, y) && Owns(x) && Owns(y) && OutOf(x).slot == OutOf(y).slot ==> x == y
  }

  /** The outputs of the combination. */
  ghost function Active(q: Request): map<Slot, Output>
    requires SlotsApart(q)
  {
    map r | r in q.prior.reps + q.inc.reps && Pools(q, r) && Owns(r) :: OutOf(r).slot := OutOf(r)
  }

  /** The incoming graph is fit for this resource and this source revision. */
  predicate FitIncoming(current: Snapshot, incoming: Batch, resource: Resource) {
    && Valid(incoming) && incoming.resource == resource && resource.id == current.state.resourceId
    && OutputsOk(incoming.reps)
    && forall r :: r in incoming.reps && Owns(r) ==>
         && IndependentOutput(r).Ok?
         && (DeclaresIndependence(r) || Ok(OutOf(r).sourceRevision) == SourceRevision(resource))
  }

  /** The source has not changed behind an unchanged revision. */
  predicate SourceKept(a: Resource, b: Resource) {
    SourceRevision(a) == SourceRevision(b) ==>
      && RawDigest(a) == RawDigest(b) && a.namespace == b.namespace && a.locator == b.locator
      && a.kind == b.kind && a.mediaType == b.mediaType
  }

  /** What carries over and what comes in can stand together. */
  ghost predicate Combinable(q: Request) {
    && MetadataAgrees(q) && RecordsAgree(q) && q.resource.id == q.prior.resource.id
    && SlotsApart(q) && !Cyclic(Pending(Active(q)))
    && forall s :: Refills(q, s) ==> exists w :: Closed(Active(q), w) && s in w
  }

  /** Everything a reconciliation of a stored graph requires. */
  ghost predicate Reconcilable(current: Snapshot, incoming: Option<Batch>, resource: Resource, owner: string,
                               remove: set<Slot>)
    requires current.batch.Some?
  {
    var q := RequestOf(current, incoming, resource, owner, remove);
    && SourceRevision(resource).Ok? && SourceRevision(q.prior.resource).Ok?
    && (incoming.Some? ==> FitIncoming(current, incoming.value, resource))
    && SourceKept(q.prior.resource, resource) && (forall r :: r in q.prior.reps ==> Readable(q, r))
    && RepsAgree(q) && (Vacant(q) || Combinable(q))
  }

  // ------------------------------------------------------------------------ unions

  lemma ConsistentMeans<T(!new), K>(known: seq<T>, more: seq<T>, key: T -> K)
    requires Unique(known, key) && Unique(more, key)
    ensures Consistent(known, more, key) <==> forall x, y :: x in known && y in more && key(x) == key(y) ==> x == y
  {
    if forall x, y :: x in known && y in more && key(x) == key(y) ==> x == y {
      forall x, y | (x in known || x in more) && (y in known || y in more) && key(x) == key(y) ensures x == y {
        if x in known && y in known {
          UniqueMember(known, key, x, y);
        } else if x in more && y in more {
          UniqueMember(more, key, x, y);
        }
      }
    }
  }

  lemma UnionMeans<T(!new), K>(known: seq<T>, more: seq<T>, key: T -> K)
    requires Unique(known, key) && Unique(more, key)
    ensures Union(known, more, key).Ok? <==> forall x, y :: x in known && y in more && key(x) == key(y) ==> x == y
  {
    hide Union, Consistent;
    UnionDecides(known, more, key);
    ConsistentMeans(known, more, key);
  }

  ghost predicate Fit(q: Request) {
    && Valid(q.prior) && OutputsOk(q.inc.reps) && Identified(q.inc)
    && forall r :: r in q.prior.reps ==> Readable(q, r)
  }

  /** The identities that carry over, as the code computes them. */
  ghost predicate CarryIds(q: Request, ids: set<string>) {
    && (forall r :: r in Select(q.prior, ids).reps <==> Carried(q, r))
    && (forall u :: u in Select(q.prior, ids).units <==> UnitCarried(q, u))
    && (forall v :: v in Select(q.prior, ids).vectors <==> VectorCarried(q, v))
    && (forall s :: s in UsedSpaces(q.prior, Select(q.prior, ids).vectors) <==> SpaceCarried(q, s))
  }

  lemma CarryIdsMean(q: Request)
    requires Fit(q)
    ensures forall r :: r in q.prior.reps ==> Preserved(r, ClaimFor(q)).Ok?
    ensures CarryIds(q, PreservedIds(q.prior.reps, ClaimFor(q)))
  {
    hide OutputsOk, Carried, Preserved, ClaimOf, PreservedIds, UnitFollows, VectorFollows, SpaceUsed, UnitCarried,
         VectorCarried,
         SpaceCarried, Resolved, Populated, Owned, Identified, Select, Readable, UsedSpaces;
    var ids := PreservedIds(q.prior.reps, ClaimFor(q));
    forall r | r in q.prior.reps ensures Preserved(r, ClaimFor(q)).Ok? {
      PreservedMeans(q, r);
    }
    PreservedIdsMean(q);
    CarriedIds(q, ids);
    CarriedIsStored(q);
    SelectMembers(q.prior, ids);
  }

  /** The unions of the combination succeed exactly when the records agree. */
  lemma UnionsMean(q: Request, part: Part)
    requires Fit(q) && part == Select(q.prior, PreservedIds(q.prior.reps, ClaimFor(q)))
    ensures Union(part.reps, q.inc.reps, RepId).Ok? <==> RepsAgree(q)
    ensures && Union(part.units, q.inc.units, UnitId).Ok?
            && Union(UsedSpaces(q.prior, part.vectors), q.inc.spaces, SpaceId).Ok?
            && Union(part.vectors, q.inc.vectors, VectorKey).Ok? && Union(q.prior.facets, q.inc.facets, FacetKey).Ok?
            <==> RecordsAgree(q)
  {
    hide OutputsOk, Carried, Preserved, ClaimOf, PreservedIds, UnitCarried, VectorCarried, SpaceCarried, Resolved,
         Populated, Owned, Select,
         Readable, UsedSpaces, Union, Unique;
    CarryIdsMean(q);
    SelectUnique(q.prior, PreservedIds(q.prior.reps, ClaimFor(q)));
    UnionMeans(part.reps, q.inc.reps, RepId);
    UnionMeans(part.units, q.inc.units, UnitId);
    UnionMeans(UsedSpaces(q.prior, part.vectors), q.inc.spaces, SpaceId);
    UnionMeans(part.vectors, q.inc.vectors, VectorKey);
    UnionMeans(q.prior.facets, q.inc.facets, FacetKey);
  }

  lemma VacantMeans(q: Request, part: Part)
    requires Fit(q) && part == Select(q.prior, PreservedIds(q.prior.reps, ClaimFor(q)))
    requires Union(part.reps, q.inc.reps, RepId).Ok?
    ensures Union(part.reps, q.inc.reps, RepId).value == [] <==> Vacant(q)
  {
    hide OutputsOk, Carried, Preserved, ClaimOf, PreservedIds, UnitCarried, VectorCarried, SpaceCarried, Resolved,
         Populated, Owned, Select,
         Readable, UsedSpaces, Union, Unique;
    CarryIdsMean(q);
    SelectUnique(q.prior, PreservedIds(q.prior.reps, ClaimFor(q)));
    UnionDecides(part.reps, q.inc.reps, RepId);
    var u := Union(part.reps, q.inc.reps, RepId).value;
    if u != [] {
      assert u[0] in u;
      assert Pools(q, u[0]);
    }
  }

  /** When the combination succeeds, and when it is empty. */
  lemma CombineDecides(q: Request)
    requires Fit(q)
    ensures Combine(q.prior, q.inc, q.resource, ClaimFor(q)).Ok? <==>
            RepsAgree(q) && (Vacant(q) || (MetadataAgrees(q) && RecordsAgree(q)))
    ensures Combine(q.prior, q.inc, q.resource, ClaimFor(q)).Ok? ==>
            (Combine(q.prior, q.inc, q.resource, ClaimFor(q)).value.None? <==> Vacant(q))
  {
    hide OutputsOk, Preserved, ClaimOf, PreservedIds, Valid, Identified, Select, Readable, UsedSpaces, Union,
         RepsAgree, RecordsAgree, Vacant,
         MergeMetadata;
    var part := Select(q.prior, PreservedIds(q.prior.reps, ClaimFor(q)));
    CarryIdsMean(q);
    UnionsMean(q, part);
    MetadataMeans(q);
    if Union(part.reps, q.inc.reps, RepId).Ok? {
      VacantMeans(q, part);
    }
  }

  lemma MetadataMeans(q: Request)
    ensures MergeMetadata(q.prior.resource.metadata, q.resource.metadata).Ok? <==> MetadataAgrees(q)
  {
  }

  // ------------------------------------------------------------------- the combination

  /** What comes in is a valid graph of the resource, or nothing. */
  predicate SoundIncoming(q: Request) {
    || (q.inc.reps == [] && q.inc.units == [] && q.inc.spaces == [] && q.inc.vectors == [] && q.inc.facets == [])
    || (Valid(q.inc) && q.inc.resource == q.resource)
  }

  lemma CombineUnique(q: Request, b: Batch)
    requires Fit(q) && Combine(q.prior, q.inc, q.resource, ClaimFor(q)) == Ok(Some(b))
    ensures Identified(b)
  {
    hide OutputsOk, Preserved, ClaimOf, PreservedIds, Resolved, Populated, Owned, Select, Readable, UsedSpaces, Union,
         Unique,
         MergeMetadata, Consistent;
    var part := Select(q.prior, PreservedIds(q.prior.reps, ClaimFor(q)));
    SelectUnique(q.prior, PreservedIds(q.prior.reps, ClaimFor(q)));
    UnionDecides(part.reps, q.inc.reps, RepId);
    UnionDecides(part.units, q.inc.units, UnitId);
    UnionDecides(UsedSpaces(q.prior, part.vectors), q.inc.spaces, SpaceId);
    UnionDecides(part.vectors, q.inc.vectors, VectorKey);
    UnionDecides(q.prior.facets, q.inc.facets, FacetKey);
  }

  /** A unit that carries over finds its representation and its vectors in the combination. */
  lemma UnitPooled(q: Request, b: Batch, u: Unit)
    requires Valid(q.prior) && Pooled(q, b) && UnitCarried(q, u)
    ensures Housed(b, u) && Searchable(b, u)
  {
    hide Valid, Carried, Graph.HasText, SpaceCarried, Housed, Searchable;
    ValidMeans(q.prior);
    CarriedIsStored(q);
    var r :| Carried(q, r) && r.id == u.rep;
    HousedIn(q, b, u, r);
    SearchableIn(q, b, u);
  }

  lemma HousedIn(q: Request, b: Batch, u: Unit, r: Rep)
    requires Valid(q.prior) && Housed(q.prior, u) && Carried(q, r) && r.id == u.rep && r in q.prior.reps && r in b.reps
    ensures Housed(b, u)
  {
    hide Resolved, Populated, Owned, Carried;
    var x :| x in q.prior.reps && x.id == u.rep && x.modality == u.modality;
    UniqueMember(q.prior.reps, RepId, x, r);
  }

  lemma SearchableIn(q: Request, b: Batch, u: Unit)
    requires Searchable(q.prior, u) && UnitCarried(q, u) && forall v :: VectorCarried(q, v) ==> v in b.vectors
    ensures Searchable(b, u)
  {
    hide UnitCarried, Graph.HasText;
    if !Graph.HasText(u) {
      var v :| v in q.prior.vectors && v.unit == u.id;
      assert VectorCarried(q, v);
    }
  }

  lemma VectorPooled(q: Request, b: Batch, v: Vector)
    requires Placed(q.prior, v) && Pooled(q, b) && VectorCarried(q, v)
    ensures Placed(b, v)
  {
    hide Carried, UnitCarried;
    var u :| UnitCarried(q, u) && u.id == v.unit;
    var s :| s in q.prior.spaces && s.id == v.space && |v.values| == s.dimensions;
    assert SpaceCarried(q, s);
  }

  lemma RepPooled(q: Request, b: Batch, r: Rep)
    requires Filled(q.prior, r) && Pooled(q, b) && Carried(q, r)
    ensures Filled(b, r)
  {
    hide Carried;
    var u :| u in q.prior.units && u.rep == r.id;
    assert UnitCarried(q, u);
  }

  lemma ValidMeans(b: Batch)
    ensures Valid(b) <==>
            && Identified(b) && Owned(b) && b.reps != [] && b.units != []
            && (forall u :: u in b.units ==> Housed(b, u) && Searchable(b, u))
            && (forall v :: v in b.vectors ==> Placed(b, v)) && (forall r :: r in b.reps ==> Filled(b, r))
  {
    hide Identified, Owned, Resolved, Populated, Housed, Searchable, Placed, Filled;
    ResolvedMeans(b);
    PopulatedMeans(b);
  }

  /** Records that come in find what they refer to. */
  lemma IncomingPooled(q: Request, b: Batch)
    requires SoundIncoming(q) && Pooled(q, b)
    ensures forall u :: u in q.inc.units ==> Housed(b, u) && Searchable(b, u)
    ensures forall v :: v in q.inc.vectors ==> Placed(b, v)
    ensures forall r :: r in q.inc.reps ==> Filled(b, r)
  {
    hide Valid, Housed, Searchable, Placed, Filled;
    ValidMeans(q.inc);
    forall u | u in q.inc.units ensures Housed(b, u) && Searchable(b, u) {
      UnitInLarger(q.inc, b, u);
    }
    forall v | v in q.inc.vectors ensures Placed(b, v) {
      VectorInLarger(q.inc, b, v);
    }
    forall r | r in q.inc.reps ensures Filled(b, r) {
      RepInLarger(q.inc, b, r);
    }
  }

  lemma UnitInLarger(a: Batch, b: Batch, u: Unit)
    requires Housed(a, u) && Searchable(a, u)
    requires (forall r :: r in a.reps ==> r in b.reps) && (forall v :: v in a.vectors ==> v in b.vectors)
    ensures Housed(b, u) && Searchable(b, u)
  {
  }

  lemma VectorInLarger(a: Batch, b: Batch, v: Vector)
    requires Placed(a, v) && (forall u :: u in a.units ==>
                 u in b.units) && (forall s :: s in a.spaces ==> s in b.spaces)
    ensures Placed(b, v)
  {
  }

  lemma RepInLarger(a: Batch, b: Batch, r: Rep)
    requires Filled(a, r) && forall u :: u in a.units ==> u in b.units
    ensures Filled(b, r)
  {
  }

  lemma PooledRefers(q: Request, b: Batch)
    requires Valid(q.prior) && SoundIncoming(q) && Pooled(q, b)
    ensures forall u :: u in b.units ==> Housed(b, u) && Searchable(b, u)
    ensures forall v :: v in b.vectors ==> Placed(b, v)
    ensures forall r :: r in b.reps ==> Filled(b, r)
  {
    hide Valid, Housed, Searchable, Placed, Filled, SoundIncoming, UnitCarried, SpaceCarried, Carried;
    ValidMeans(q.prior);
    IncomingPooled(q, b);
    CarriedIsStored(q);
    forall u | u in b.units && u !in q.inc.units ensures Housed(b, u) && Searchable(b, u) {
      UnitPooled(q, b, u);
    }
    forall v | v in b.vectors && v !in q.inc.vectors ensures Placed(b, v) {
      VectorPooled(q, b, v);
    }
    forall r | r in b.reps && r !in q.inc.reps ensures Filled(b, r) {
      RepPooled(q, b, r);
    }
  }

  /** Everything of the combination belongs to its resource exactly if the two resources are one. */
  lemma PooledOwned(q: Request, b: Batch)
    requires Valid(q.prior) && SoundIncoming(q) && Pooled(q, b) && b.resource.id == q.resource.id && b.reps != []
    requires q.inc.reps != [] ==> q.resource.id == q.prior.resource.id
    ensures Owned(b) <==> q.resource.id == q.prior.resource.id
  {
    hide Identified, Resolved, Populated, Carried, VectorCarried, SpaceCarried;
    CarriedIsStored(q);
    assert b.reps[0] in b.reps;
    if q.resource.id == q.prior.resource.id {
      IncomingOwned(q);
    }
  }

  lemma IncomingOwned(q: Request)
    requires SoundIncoming(q)
    ensures forall r :: r in q.inc.reps ==> r.resourceId == q.resource.id
    ensures forall u :: u in q.inc.units ==> u.resourceId == q.resource.id
    ensures forall f :: f in q.inc.facets ==> f.resourceId == q.resource.id
  {
    hide Identified, Resolved, Populated;
  }

  lemma CombinedValid(q: Request, b: Batch)
    requires Fit(q) && SoundIncoming(q) && Combine(q.prior, q.inc, q.resource, ClaimFor(q)) == Ok(Some(b))
    requires q.inc.reps != [] ==> q.resource.id == q.prior.resource.id
    ensures Valid(b) <==> q.resource.id == q.prior.resource.id
  {
    hide OutputsOk, Valid, Identified, Owned, Housed, Searchable, Placed, Filled, SoundIncoming, Combine, ClaimOf,
         Pooled, HoldsResource,
         Readable;
    CombinePools(q, b);
    CombineUnique(q, b);
    CombineResource(q, b);
    SameId(q, b);
    NotEmpty(q, b);
    PooledRefers(q, b);
    PooledOwned(q, b);
    Inhabited(b);
    ValidMeans(b);
  }

  lemma SameId(q: Request, b: Batch)
    requires HoldsResource(q, b)
    ensures b.resource.id == q.resource.id
  {
  }

  lemma NotEmpty(q: Request, b: Batch)
    requires OutputsOk(q.inc.reps) && Combine(q.prior, q.inc, q.resource, ClaimFor(q)) == Ok(Some(b))
    ensures b.reps != []
  {
    hide OutputsOk, ClaimOf, Preserved, PreservedIds, Select, Union, UsedSpaces, MergeMetadata;
  }

  // ------------------------------------------------------------------- its outputs

  lemma PooledOutputs(q: Request, b: Batch)
    requires Pooled(q, b) && Unique(b.reps, RepId) && (forall r :: r in b.reps ==> OutputOf(r).Ok?)
    ensures OutputsOk(b.reps) <==> SlotsApart(q)
    ensures SlotsApart(q) ==> Just(Table(b.reps)) == Active(q)
  {
    hide OutputOf, UnitCarried, VectorCarried, SpaceCarried, Carried, Table, Unique;
    if OutputsOk(b.reps) {
      forall x, y | Pools(q, x) && Pools(q, y) && Owns(x) && Owns(y) && OutOf(x).slot == OutOf(y).slot ensures x == y {
        OwnersDistinct(b.reps, x, y);
      }
    }
    if SlotsApart(q) {
      OutputsFromUnique(b.reps);
      ActiveIsTable(q, b);
    }
  }

  lemma ActiveIsTable(q: Request, b: Batch)
    requires Pooled(q, b) && OutputsOk(b.reps) && SlotsApart(q)
    ensures Just(Table(b.reps)) == Active(q)
  {
    hide OutputOf, OutputsOk, UnitCarried, VectorCarried, SpaceCarried, Carried, Table;
    CarriedIsStored(q);
    var t, a := Table(b.reps), Active(q);
    forall s | s in t ensures s in a && a[s] == t[s].output {
      var r := t[s].rep;
      assert Pools(q, r) && r in q.prior.reps + q.inc.reps && OutOf(r).slot == s;
    }
    forall s | s in a ensures s in t {
      var r :| r in q.prior.reps + q.inc.reps && Pools(q, r) && Owns(r) && OutOf(r).slot == s;
      assert r in b.reps;
    }
  }

  lemma RestrictValid(b: Batch, ids: set<string>)
    requires Valid(b) && Restrict(b, ids).reps != []
    ensures Valid(Restrict(b, ids))
  {
    hide Identified, Owned, Resolved, Populated, Housed, Searchable, Placed, Filled, Select, UnitFollows, VectorFollows;
    var m := Restrict(b, ids);
    SelectMembers(b, ids);
    HalfResolves(b, ids, m);
    RestrictIdentified(b, ids);
    RestrictOwned(b, ids);
    Inhabited(m);
    ValidMeans(m);
  }

  lemma RestrictIdentified(b: Batch, ids: set<string>)
    requires Identified(b)
    ensures Identified(Restrict(b, ids))
  {
    hide Select, Unique, UsedSpaces;
    SelectUnique(b, ids);
  }

  lemma RestrictOwned(b: Batch, ids: set<string>)
    requires Owned(b)
    ensures Owned(Restrict(b, ids))
  {
    hide Select, VectorFollows, SpaceUsed;
    SelectMembers(b, ids);
  }

  /** A valid graph with readable outputs and no cycle can always be pruned. */
  lemma PruneAccepts(b: Batch)
    requires Valid(b) && OutputsOk(b.reps) && !Cyclic(Pending(Just(Table(b.reps))))
    requires forall r :: r in b.reps && Owns(r) ==> IndependentOutput(r).Ok?
    ensures Prune(b).Ok?
  {
    hide OutputOf, OutputsOk, Valid, Table, OutdatedSlots, InvalidDependencies, Cyclic, Greatest, Restrict,
         IndependentOutput, Acyclic,
         Pending;
    var outdated := OutdatedSlots(b.reps, Generation(b.resource));
    var active := Just(Table(b.reps) - outdated);
    AcyclicDecides(Pending(Just(Table(b.reps))));
    AcyclicSubset(active, Just(Table(b.reps)));
    AcyclicDecides(Pending(active));
    var survivors := InvalidDependenciesDecides(active, {});
    var none: set<Slot> := {};
    assert none * active.Keys <= survivors;
    var ids := Keys(b.reps, RepId) - OwnerIds(Table(b.reps), outdated + (active.Keys - survivors));
    if Restrict(b, ids).reps != [] {
      RestrictValid(b, ids);
    }
  }

  // ----------------------------------------------------------------- the whole request

  lemma StaysMeans(active: map<Slot, Output>, slots: set<Slot>)
    requires slots <= active.Keys
    ensures InvalidDependencies(active, slots).Ok? <==>
            !Cyclic(Pending(active)) && forall s :: s in slots ==> exists w :: Closed(active, w) && s in w
  {
    hide Cyclic, Pending, InvalidDependencies, Closed;
    var survivors := InvalidDependenciesDecides(active, slots);
    assert slots * active.Keys == slots;
    if slots <= survivors {
      forall s | s in slots ensures exists w :: Closed(active, w) && s in w {
        assert Closed(active, survivors);
      }
    }
  }

  lemma FitIncomingMeans(current: Snapshot, incoming: Batch, resource: Resource)
    requires SourceRevision(resource).Ok?
    ensures AcceptIncoming(current, incoming, resource, SourceRevision(resource).value).Ok? <==>
            FitIncoming(current, incoming, resource)
  {
    hide OutputOf, OutputsOk, Valid, CheckIncoming, IndependentOutput, DeclaresIndependence, Table;
    CheckIncomingDecides(incoming.reps, SourceRevision(resource).value);
    forall r | r in incoming.reps ensures IndependentOutput(r).Ok? ==>
      (IndependentOutput(r).value <==> DeclaresIndependence(r)) {
      IndependenceMeans(r);
    }
  }

  /** What can be read of the combination. */
  lemma PooledReadable(q: Request, b: Batch)
    requires Fit(q) && Pooled(q, b) && forall r :: r in q.inc.reps && Owns(r) ==> IndependentOutput(r).Ok?
    ensures forall r :: r in b.reps ==> OutputOf(r).Ok?
    ensures forall r :: r in b.reps && Owns(r) ==> IndependentOutput(r).Ok?
  {
    hide OutputOf, UnitCarried, VectorCarried, SpaceCarried, Valid, Table, IndependentOutput, DeclaresIndependence,
         SameRevision, Refills,
         Supplies;
    AllReadable(q.inc.reps);
  }

  /** The steps after the combination succeed exactly when it stands together. */
  lemma TailDecides(q: Request, b: Batch)
    requires Fit(q) && Pooled(q, b) && Valid(b) && forall r :: r in q.inc.reps && Owns(r) ==> IndependentOutput(r).Ok?
    ensures && OutputsOk(b.reps) && InvalidDependencies(Just(Table(b.reps)), Table(q.inc.reps).Keys).Ok? && Prune(b).Ok?
            <==>
            && SlotsApart(q) && !Cyclic(Pending(Active(q)))
            && (forall s :: Refills(q, s) ==> exists w :: Closed(Active(q), w) && s in w)
  {
    hide OutputOf, OutputsOk, UnitCarried, VectorCarried, SpaceCarried, Table, IndependentOutput, Carried, Readable,
         Prune, Owned, Resolved,
         Populated, InvalidDependencies, Cyclic, Pending, Closed, Active, SlotsApart, Refills, Unique, Just;
    PooledReadable(q, b);
    PooledOutputs(q, b);
    forall s ensures s in Table(q.inc.reps) <==> Refills(q, s) {
      RefillsByTable(q, s);
    }
    if SlotsApart(q) {
      IncomingActive(q, b);
      StaysMeans(Just(Table(b.reps)), Table(q.inc.reps).Keys);
      if !Cyclic(Pending(Active(q))) {
        PruneAccepts(b);
      }
    }
  }

  lemma IncomingActive(q: Request, b: Batch)
    requires OutputsOk(q.inc.reps) && OutputsOk(b.reps) && Pooled(q, b)
    ensures Table(q.inc.reps).Keys <= Just(Table(b.reps)).Keys
  {
    hide OutputOf, OutputsOk, UnitCarried, VectorCarried, SpaceCarried, Table, Carried;
    forall s | s in Table(q.inc.reps) ensures s in Table(b.reps) {
      assert OutOf(Table(q.inc.reps)[s].rep).slot == s;
    }
  }

  lemma StoredDecides(q: Request)
    requires Fit(q) && SoundIncoming(q) && SourceRevision(q.resource).Ok?
    requires forall r :: r in q.inc.reps && Owns(r) ==> IndependentOutput(r).Ok?
    requires q.inc.reps != [] ==> q.resource.id == q.prior.resource.id
    ensures ReconcileStored(q.prior, q.inc, q.resource, q.owner, q.remove, SourceRevision(q.resource).value).Ok? <==>
            && SourceRevision(q.prior.resource).Ok? && SourceKept(q.prior.resource, q.resource)
            && RepsAgree(q) && (Vacant(q) || Combinable(q))
  {
    hide OutputOf, OutputsOk, Table, IndependentOutput, Carried, Readable, Prune, Valid, Identified,
         InvalidDependencies, Cyclic, Pending,
         Closed, Active, SlotsApart, Refills, Just, Combine, RepsAgree, RecordsAgree, MetadataAgrees, Vacant,
             SoundIncoming, RawDigest, Pooled,
         SourceRevision, BaseKinds;
    if SourceRevision(q.prior.resource).Ok? {
      CombineDecides(q);
      var c := Combine(q.prior, q.inc, q.resource, ClaimFor(q));
      if c.Ok? && c.value.Some? {
        CombinePools(q, c.value.value);
        CombinedValid(q, c.value.value);
        if Valid(c.value.value) {
          TailDecides(q, c.value.value);
        }
      }
    }
  }

  /** Reconciling a stored graph succeeds exactly when the revisions are readable and the source unchanged
      behind an unchanged revision, the incoming graph fits, every stored representation can be read, and what
      carries over agrees with what comes in. */
  lemma ReconcileAccepts(current: Snapshot, incoming: Option<Batch>, resource: Resource, owner: string,
                         remove: set<Slot>)
    requires SnapshotOk(current) && current.batch.Some? && Valid(current.batch.value)
    ensures Reconcile(current, incoming, resource, owner, remove).Ok? <==>
            Reconcilable(current, incoming, resource, owner, remove)
  {
    hide OutputOf, Table, IndependentOutput, Carried, Prune, Valid, InvalidDependencies, Cyclic, Pending, Closed,
         Active, SlotsApart, Refills, Just,
         Combine, RepsAgree, RecordsAgree, MetadataAgrees, Vacant, RawDigest, SourceRevision, BaseKinds, Preserved,
             Readable, AcceptIncoming,
         ReconcileStored, DeclaresIndependence, Combinable;
    var q := RequestOf(current, incoming, resource, owner, remove);
    if SourceRevision(resource).Ok? {
      if incoming.Some? {
        FitIncomingMeans(current, incoming.value, resource);
      }
      if incoming.Some? ==> FitIncoming(current, incoming.value, resource) {
        SoundRequest(current, incoming, resource, owner, remove);
        if forall r :: r in q.prior.reps ==> Readable(q, r) {
          StoredDecides(q);
        } else {
          UnreadableRefused(q);
        }
      }
    }
  }

  lemma SoundRequest(current: Snapshot, incoming: Option<Batch>, resource: Resource, owner: string, remove: set<Slot>)
    requires current.batch.Some? && (incoming.Some? ==> FitIncoming(current, incoming.value, resource))
    ensures var q := RequestOf(current, incoming, resource, owner, remove);
            && SoundIncoming(q) && Identified(q.inc) && OutputsOk(q.inc.reps)
            && (forall r :: r in q.inc.reps && Owns(r) ==> IndependentOutput(r).Ok?)
            && (q.inc.reps != [] ==> resource.id == current.state.resourceId)
  {
    hide Owned, Resolved, Populated, OutputOf, IndependentOutput, DeclaresIndependence;
  }

  lemma UnreadableRefused(q: Request)
    requires OutputsOk(q.inc.reps) && SourceRevision(q.resource).Ok? && exists r :: r in q.prior.reps && !Readable(q, r)
    ensures ReconcileStored(q.prior, q.inc, q.resource, q.owner, q.remove, SourceRevision(q.resource).value).Err?
  {
    hide OutputOf, OutputsOk, Table, Prune, Valid, InvalidDependencies, Readable, Preserved, Select, Union,
         UsedSpaces, MergeMetadata, RawDigest,
         SourceRevision, BaseKinds, PreservedIds;
    var r :| r in q.prior.reps && !Readable(q, r);
    PreservedMeans(q, r);
  }

  /** With nothing stored, a complete base is accepted exactly if it fits, its dependencies are all met within it and
      they have no cycle; without a base there is nothing to do. */
  lemma FirstAccepts(current: Snapshot, incoming: Option<Batch>, resource: Resource, owner: string, remove: set<Slot>)
    requires current.batch.None?
    ensures Reconcile(current, incoming, resource, owner, remove).Ok? <==>
            && SourceRevision(resource).Ok?
            && (incoming.Some? ==>
                  && FitIncoming(current, incoming.value, resource)
                  && !Cyclic(Pending(Just(Table(incoming.value.reps))))
                  && Closed(Just(Table(incoming.value.reps)), Table(incoming.value.reps).Keys))
    ensures Reconcile(current, None, resource, owner, remove).Ok? ==>
            Reconcile(current, None, resource, owner, remove).value.None?
  {
    hide OutputOf, OutputsOk, Valid, Table, IndependentOutput, DeclaresIndependence, Prune, InvalidDependencies,
         Cyclic, Pending, Just, SourceRevision,
         AcceptIncoming, Closed;
    if SourceRevision(resource).Ok? && incoming.Some? {
      FitIncomingMeans(current, incoming.value, resource);
      if FitIncoming(current, incoming.value, resource) {
        var t := Table(incoming.value.reps);
        StaysMeans(Just(t), t.Keys);
        AllStay(Just(t));
        if InvalidDependencies(Just(t), t.Keys).Ok? {
          PruneAccepts(incoming.value);
        }
      }
    }
  }

  lemma AllStay(active: map<Slot, Output>)
    ensures (forall s :: s in active.Keys ==> exists w :: Closed(active, w) && s in w) <==> Closed(active, active.Keys)
  {
    if forall s :: s in active.Keys ==> exists w :: Closed(active, w) && s in w {
      forall s, d | s in active && d in active[s].dependencies ensures Met(active, active.Keys, d) {
        var w :| Closed(active, w) && s in w;
        assert Met(active, w, d);
      }
    }
  }
}
