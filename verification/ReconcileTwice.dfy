/** Reconciling the same producer base onto its own result. */
module ReconcileTwice {
  import opened Sequences
  import opened Graph
  import opened Dependencies
  import opened Merging
  import opened MergeTheorems
  import opened MergeTwice
  import opened Enrichment
  import opened Reconciling
  import opened ReconcileTheorems

  predicate Within<T(==)>(a: seq<T>, b: seq<T>) { forall x :: x in a ==> x in b }

  function Stay(inc: Batch, owner: string, remove: set<Slot>): Claim
    requires OutputsOk(inc.reps)
  {
    Claim(owner, Table(inc.reps).Keys, BaseKinds(inc.reps, owner), remove, false)
  }

  /** What pruning establishes. */
  ghost predicate Sound(r: Batch) {
    Valid(r) && GraphClosed(r) && UpToDate(r) && !Cyclic(Pending(Just(Table(r.reps))))
  }

  /** Everything incoming is there. */
  predicate Supplied(r: Batch, inc: Batch) {
    && Within(inc.reps, r.reps) && Within(inc.units, r.units) && Within(inc.vectors, r.vectors)
    && Within(inc.spaces, r.spaces) && Within(inc.facets, r.facets)
  }

  /** Everything there is incoming, or follows a representation with one of these identities. */
  ghost predicate Explained(r: Batch, inc: Batch, ids: set<string>) {
    && (forall x :: x in r.reps ==> x in inc.reps || x.id in ids)
    && (forall u :: u in r.units ==> u in inc.units || UnitFollows(r, ids, u))
    && (forall v :: v in r.vectors ==> v in inc.vectors || VectorFollows(r, ids, v))
  }

  /** The stored resource record is the supplied one over older independent metadata. */
  predicate Overlaid(stored: Resource, supplied: Resource) {
    && stored == supplied.(metadata := stored.metadata, title := stored.title)
    && (supplied.title.Some? ==> stored.title == supplied.title)
    && (forall k :: k in supplied.metadata ==> k in stored.metadata && stored.metadata[k] == supplied.metadata[k])
    && SourceRevision(supplied).Ok? && SourceRevision(stored) == SourceRevision(supplied)
  }

  predicate IncomingOk(inc: Batch) {
    OutputsOk(inc.reps) && Identified(inc) && Resolved(inc)
  }

  /** A graph made of everything incoming and of representations that a repetition would preserve. */
  ghost predicate Founded(r: Batch, inc: Batch, resource: Resource, owner: string, remove: set<Slot>) {
    && Sound(r) && IncomingOk(inc) && Supplied(r, inc) && Overlaid(r.resource, resource)
    && Explained(r, inc, PreservedIds(r.reps, Stay(inc, owner, remove)))
  }

  // -------------------------------------------------------- the second round

  lemma UnionWithin<T(!new), K>(known: seq<T>, more: seq<T>, key: T -> K, whole: seq<T>)
    requires Unique(known, key) && Unique(whole, key) && Within(known, whole) && Within(more, whole)
    ensures Union(known, more, key).Ok?
  {
    UnionDecides(known, more, key);
    forall x, y | (x in known || x in more) && (y in known || y in more) && key(x) == key(y) ensures x == y {
      UniqueMember(whole, key, x, y);
    }
  }

  /** No representation of the result makes the repetition raise, except a legacy incoming one whose
      independence flag is not a boolean. */
  predicate FlagsOk(inc: Batch) {
    forall x :: x in inc.reps && x.provenance.NoBlock? ==> !x.independent.NotBoolean?
  }

  lemma PreservedDecides(r: Batch, inc: Batch, resource: Resource, owner: string, remove: set<Slot>)
    requires Founded(r, inc, resource, owner, remove)
    ensures (exists x :: x in r.reps && Preserved(x, Stay(inc, owner, remove)).Err?) <==> !FlagsOk(inc)
  {
    hide OutputsOk, Valid, GraphClosed, Cyclic, Identified, Resolved, Table, BlockOk, BaseKinds, UnitFollows,
         VectorFollows;
    var claim := Stay(inc, owner, remove);
    forall x | x in r.reps && Preserved(x, claim).Err?
      ensures x in inc.reps && x.provenance.NoBlock? && x.independent.NotBoolean?
    {
      FoundedRep(r, inc, resource, owner, remove, x);
    }
    forall x | x in inc.reps && x.provenance.NoBlock? && x.independent.NotBoolean?
      ensures x in r.reps && Preserved(x, claim).Err?
    {
    }
  }

  lemma FoundedRep(r: Batch, inc: Batch, resource: Resource, owner: string, remove: set<Slot>, x: Rep)
    requires Founded(r, inc, resource, owner, remove) && x in r.reps
    ensures OutputOf(x).Ok? && (Owns(x) ==> IndependentOutput(x).Ok?)
    ensures x !in inc.reps ==> Preserved(x, Stay(inc, owner, remove)) == Ok(true)
  {
    hide OutputOf, Owned, Populated, GraphClosed, Cyclic, Resolved, Table, BaseKinds, UnitFollows, VectorFollows,
         Outdated, IndependentOutput, Preserved;
    PreservedById(r.reps, Stay(inc, owner, remove), x);
  }

  lemma CombineAgain(r: Batch, inc: Batch, resource: Resource, owner: string, remove: set<Slot>) returns (b: Batch)
    requires Founded(r, inc, resource, owner, remove) && FlagsOk(inc)
    ensures Combine(r, inc, resource, Stay(inc, owner, remove)) == Ok(Some(b))
    ensures b.resource == r.resource && Identified(b)
    ensures Members(r, inc, PreservedIds(r.reps, Stay(inc, owner, remove)), b)
  {
    hide OutputOf, OutputsOk, Owned, Resolved, GraphClosed, UpToDate, Cyclic, Table, BaseKinds, Preserved,
         PreservedIds, Select, UsedSpaces, UnitFollows, VectorFollows, SpaceUsed, Union, Members, SourceRevision;
    var claim := Stay(inc, owner, remove);
    var ids := PreservedIds(r.reps, claim);
    var part := Select(r, ids);
    PreservedDecides(r, inc, resource, owner, remove);
    SelectWithin(r, ids);
    SelectUnique(r, ids);
    var spaces := UsedSpaces(r, part.vectors);
    UnionWithin(part.reps, inc.reps, RepId, r.reps);
    UnionWithin(part.units, inc.units, UnitId, r.units);
    UnionWithin(spaces, inc.spaces, SpaceId, r.spaces);
    UnionWithin(part.vectors, inc.vectors, VectorKey, r.vectors);
    UnionWithin(r.facets, inc.facets, FacetKey, r.facets);
    UnionDecides(part.reps, inc.reps, RepId);
    UnionDecides(part.units, inc.units, UnitId);
    UnionDecides(spaces, inc.spaces, SpaceId);
    UnionDecides(part.vectors, inc.vectors, VectorKey);
    UnionDecides(r.facets, inc.facets, FacetKey);
    var first := r.reps[0];
    assert first in inc.reps || first in part.reps by {
      SelectMembers(r, ids);
    }
    assert r.resource.metadata + resource.metadata == r.resource.metadata;
    b := Combine(r, inc, resource, claim).value.value;
    CombineMembers(r, inc, resource, claim);
  }

  lemma SelectWithin(b: Batch, ids: set<string>)
    ensures var p := Select(b, ids);
            && Within(p.reps, b.reps) && Within(p.units, b.units) && Within(p.vectors, b.vectors)
            && Within(UsedSpaces(b, p.vectors), b.spaces)
  {
    hide Select, UsedSpaces;
    SelectMembers(b, ids);
  }

  /** Same representations, units, vectors and facets; the spaces are those still in use or supplied. */
  ghost predicate Equivalent(r: Batch, inc: Batch, b: Batch) {
    && b.resource == r.resource
    && SameMembers(b.reps, r.reps) && SameMembers(b.units, r.units)
    && SameMembers(b.vectors, r.vectors) && SameMembers(b.facets, r.facets)
    && (forall s :: s in b.spaces <==>
        s in r.spaces && (s in inc.spaces || exists v :: v in r.vectors && v.space == s.id))
  }

  lemma MembersEquivalent(r: Batch, inc: Batch, resource: Resource, owner: string, remove: set<Slot>, b: Batch)
    requires Founded(r, inc, resource, owner, remove) && b.resource == r.resource
    requires Members(r, inc, PreservedIds(r.reps, Stay(inc, owner, remove)), b)
    ensures Equivalent(r, inc, b)
  {
    hide OutputOf, OutputsOk, Owned, GraphClosed, UpToDate, Cyclic, Table, BaseKinds, Preserved, PreservedIds,
         Populated,
         SourceRevision, Unique;
    var ids := PreservedIds(r.reps, Stay(inc, owner, remove));
    assert SameMembers(b.reps, r.reps);
    assert SameMembers(b.units, r.units);
    assert SameMembers(b.vectors, r.vectors);
    assert SameMembers(b.facets, r.facets);
    forall s | s in r.spaces && exists v :: v in r.vectors && v.space == s.id ensures s in b.spaces {
      var v :| v in r.vectors && v.space == s.id;
      if v in inc.vectors {
        var t :| t in inc.spaces && t.id == v.space;
        UniqueMember(r.spaces, SpaceId, s, t);
      }
    }
  }

  lemma SameMembersMeans<T(!new)>(a: seq<T>, b: seq<T>)
    ensures SameMembers(a, b) <==> forall x :: x in a <==> x in b
  {
    var sa, sb := (set x | x in a), (set x | x in b);
    assert forall x :: x in a <==> x in sa;
    assert forall x :: x in b <==> x in sb;
  }

  lemma ResolvedAgain(r: Batch, inc: Batch, b: Batch)
    requires Resolved(r) && Equivalent(r, inc, b)
    ensures Resolved(b)
  {
    SameMembersMeans(b.reps, r.reps);
    SameMembersMeans(b.units, r.units);
    SameMembersMeans(b.vectors, r.vectors);
    hide SameMembers, Resolved;
    forall u | u in b.units ensures exists x :: x in b.reps && x.id == u.rep && x.modality == u.modality {
      ResolvedUnit(r, u);
    }
    forall v | v in b.vectors
      ensures exists u :: u in b.units && u.id == v.unit
      ensures exists s :: s in b.spaces && s.id == v.space && |v.values| == s.dimensions
    {
      ResolvedVector(r, v);
    }
    ResolvedFrom(b);
  }

  lemma ResolvedUnit(r: Batch, u: Unit)
    requires Resolved(r) && u in r.units
    ensures exists x :: x in r.reps && x.id == u.rep && x.modality == u.modality
  {
  }

  lemma ResolvedVector(r: Batch, v: Vector)
    requires Resolved(r) && v in r.vectors
    ensures exists u :: u in r.units && u.id == v.unit
    ensures exists s :: s in r.spaces && s.id == v.space && |v.values| == s.dimensions
  {
  }

  lemma ResolvedFrom(b: Batch)
    requires forall u :: u in b.units ==> exists r :: r in b.reps && r.id == u.rep && r.modality == u.modality
    requires forall v :: v in b.vectors ==> exists u :: u in b.units && u.id == v.unit
    requires forall v :: v in b.vectors ==> exists s :: s in b.spaces && s.id == v.space && |v.values| == s.dimensions
    ensures Resolved(b)
  {
  }

  lemma PopulatedAgain(r: Batch, inc: Batch, b: Batch)
    requires Populated(r) && Owned(r) && Equivalent(r, inc, b)
    ensures Populated(b) && Owned(b)
  {
    SameMembersMeans(b.reps, r.reps);
    SameMembersMeans(b.units, r.units);
    SameMembersMeans(b.vectors, r.vectors);
    SameMembersMeans(b.facets, r.facets);
    hide SameMembers, HasText;
    assert r.reps[0] in b.reps && r.units[0] in b.units;
  }

  lemma EquivalentValid(r: Batch, inc: Batch, b: Batch)
    requires Valid(r) && Identified(b) && Equivalent(r, inc, b)
    ensures Valid(b)
  {
    hide Identified, Resolved, Populated, Owned, Equivalent;
    ResolvedAgain(r, inc, b);
    PopulatedAgain(r, inc, b);
  }

  lemma SameTable(r: Batch, b: Batch)
    requires OutputsOk(r.reps) && Unique(b.reps, RepId) && SameMembers(b.reps, r.reps)
    ensures OutputsOk(b.reps) && Table(b.reps) == Table(r.reps)
  {
    hide OutputOf, Unique;
    SameMembersMeans(b.reps, r.reps);
    var none: set<Slot> := {};
    assert Table(r.reps) - none == Table(r.reps);
    TableRestricted(r, b, none);
  }

  lemma NoneOutdated(b: Batch)
    requires UpToDate(b)
    ensures forall r :: r in b.reps && Owns(r) ==> IndependentOutput(r).Ok?
    ensures OutdatedSlots(b.reps, Generation(b.resource)) == {}
  {
    hide OutputOf, OutputsOk, Outdated, IndependentOutput;
  }

  lemma RestrictNothing(b: Batch)
    requires Resolved(b) && OutputsOk(b.reps)
    ensures Restrict(b, Keys(b.reps, RepId) - OwnerIds(Table(b.reps), {})) == b
  {
    hide OutputOf, OutputsOk, Resolved, Select, Table;
    assert OwnerIds(Table(b.reps), {}) == {};
    assert Keys(b.reps, RepId) - {} == Keys(b.reps, RepId);
    SelectAll(b, Keys(b.reps, RepId));
  }

  lemma NothingInvalid(t: map<Slot, Owner>, protected: set<Slot>)
    requires Closed(Just(t), t.Keys) && !Cyclic(Pending(Just(t)))
    ensures InvalidDependencies(Just(t), protected) == Ok({})
  {
    hide Closed, Cyclic, Acyclic, Propagate;
    AcyclicDecides(Pending(Just(t)));
    ClosedHasNoInvalid(Just(t), protected);
  }

  lemma ValidMeans(b: Batch)
    requires Valid(b)
    ensures Resolved(b) && b.reps != []
  {
  }

  /** Nothing to prune in a graph that already satisfies what pruning establishes. */
  lemma PruneNothing(b: Batch)
    requires Sound(b)
    ensures Prune(b) == Ok(Some(b))
  {
    hide OutputOf, OutputsOk, Valid, Resolved, Table, Cyclic, InvalidDependencies, IndependentOutput, Closed, UpToDate,
         OutdatedSlots, Restrict, OwnerIds, Pending;
    var none: set<Slot> := {};
    ValidMeans(b);
    NoneOutdated(b);
    assert Table(b.reps) - none == Table(b.reps) && none + none == none;
    NothingInvalid(Table(b.reps), {});
    RestrictNothing(b);
  }

  lemma UpToDateAgain(r: Batch, b: Batch)
    requires GraphClosed(r) && UpToDate(r) && Unique(b.reps, RepId) && SameMembers(b.reps, r.reps)
    requires b.resource == r.resource
    ensures OutputsOk(b.reps) && Table(b.reps) == Table(r.reps) && GraphClosed(b) && UpToDate(b)
  {
    hide OutputOf, Unique, Closed, Outdated, IndependentOutput, OutputsOk, Table;
    SameTable(r, b);
    SameMembersMeans(b.reps, r.reps);
  }

  lemma ReconcileFounded(r: Batch, inc: Batch, resource: Resource, owner: string, remove: set<Slot>)
    requires Founded(r, inc, resource, owner, remove)
    requires RawDigest(r.resource) == RawDigest(resource) && FlagsOk(inc)
    ensures var again := ReconcileStored(r, inc, resource, owner, remove, SourceRevision(resource).value);
            && again.Ok? && again.value.Some? && Valid(again.value.value) && Equivalent(r, inc, again.value.value)
  {
    hide OutputOf, OutputsOk, Owned, Resolved, Populated, Table, Cyclic, Acyclic, Propagate, Unique, BaseKinds,
         Preserved,
         PreservedIds, GraphClosed, UpToDate, Combine, Members, Prune, RawDigest, SourceRevision, Equivalent,
         UnitFollows, VectorFollows, Closed, InvalidDependencies, Explained, Supplied;
    var b := CombineAgain(r, inc, resource, owner, remove);
    MembersEquivalent(r, inc, resource, owner, remove, b);
    EquivalentValid(r, inc, b);
    EquivalentReps(r, inc, b);
    UpToDateAgain(r, b);
    PruneNothing(b);
    ClosedTable(b);
    NothingInvalid(Table(b.reps), Table(inc.reps).Keys);
  }

  lemma EquivalentReps(r: Batch, inc: Batch, b: Batch)
    requires Equivalent(r, inc, b)
    ensures SameMembers(b.reps, r.reps) && b.resource == r.resource
  {
  }

  lemma ClosedTable(b: Batch)
    requires GraphClosed(b)
    ensures OutputsOk(b.reps) && Closed(Just(Table(b.reps)), Table(b.reps).Keys)
  {
  }

  // -------------------------------------------------------- the first round

  /** Without outputs of older sources, or when the source revision changes, nothing old is preserved. */
  lemma NoOldSlots(prior: Batch, inc: Batch, resource: Resource, owner: string, remove: set<Slot>)
    requires OutputsOk(inc.reps) && SourceRevision(resource).Ok?
    requires AllBound(prior) || SourceRevision(prior.resource) != SourceRevision(resource)
    ensures OldSlots(prior, ClaimOf(prior, inc, resource, owner, remove), SourceRevision(resource).value) == {}
    ensures forall s :: !Condemned(prior, inc, resource, owner, remove, s)
  {
    hide OutputOf, OutputsOk, Combine, IndependentOutput, Table, BaseKinds;
  }

  lemma GreatestUnique(active: map<Slot, Output>, a: set<Slot>, b: set<Slot>)
    requires Greatest(active, a) && Greatest(active, b)
    ensures a == b
  {
  }

  /** Whatever an identity kept by the restriction carries is kept with it. */
  lemma StepSupplied(prior: Batch, inc: Batch, b: Batch, ids: set<string>, kept: set<string>)
    requires Members(prior, inc, ids, b) && Resolved(inc)
    requires forall x :: x in inc.reps ==> x.id in kept
    ensures Supplied(Restrict(b, kept), inc)
  {
    hide UnitFollows, SpaceUsed, Select, UsedSpaces;
    var r := Restrict(b, kept);
    SelectMembers(b, kept);
    forall u | u in inc.units ensures u in r.units {
      ResolvedUnit(inc, u);
      var x :| x in inc.reps && x.id == u.rep;
      Follows(b, kept, u);
    }
    forall v | v in inc.vectors ensures v in r.vectors {
      ResolvedVector(inc, v);
      var u :| u in inc.units && u.id == v.unit;
      assert UnitFollows(b, kept, u);
    }
  }

  lemma Follows(b: Batch, ids: set<string>, u: Unit)
    ensures UnitFollows(b, ids, u) <==> u in b.units && u.rep in ids
  {
  }

  /** What is not incoming was preserved, and would be preserved again. */
  lemma StepExplained(prior: Batch, inc: Batch, b: Batch, claim: Claim, stay: Claim, kept: set<string>)
    requires Unique(prior.reps, RepId) && Unique(b.units, UnitId)
    requires Members(prior, inc, PreservedIds(prior.reps, claim), b) && stay == claim.(changed := false)
    ensures var r := Restrict(b, kept); Explained(r, inc, PreservedIds(r.reps, stay))
  {
    hide OutputOf, Select, Unique, UsedSpaces, Preserved;
    var ids := PreservedIds(prior.reps, claim);
    var r := Restrict(b, kept);
    SelectMembers(b, kept);
    forall x | x in prior.reps && x.id in ids && x.id in kept ensures x.id in PreservedIds(r.reps, stay) {
      PreservedById(prior.reps, claim, x);
      StaysPreserved(x, claim);
      assert x in r.reps;
    }
    forall id | id in ids && id in kept ensures id in PreservedIds(r.reps, stay) {
      var x :| x in prior.reps && x.id == id;
    }
    forall v | v in r.vectors && v !in inc.vectors ensures VectorFollows(r, PreservedIds(r.reps, stay), v) {
      var u :| UnitFollows(prior, ids, u) && u.id == v.unit;
      var w :| UnitFollows(b, kept, w) && w.id == v.unit;
      UniqueMember(b.units, UnitId, u, w);
      assert UnitFollows(r, PreservedIds(r.reps, stay), u);
    }
  }

  lemma StaysPreserved(x: Rep, claim: Claim)
    requires Preserved(x, claim) == Ok(true)
    ensures Preserved(x, claim.(changed := false)) == Ok(true)
  {
    hide OutputOf;
  }

  lemma CombineOverlaid(prior: Batch, inc: Batch, resource: Resource, claim: Claim)
    requires Combine(prior, inc, resource, claim).Ok? && Combine(prior, inc, resource, claim).value.Some?
    requires SourceRevision(resource).Ok?
    ensures Overlaid(Combine(prior, inc, resource, claim).value.value.resource, resource)
  {
    hide Union, Select, Preserved, PreservedIds, UsedSpaces;
  }

  lemma IncomingAccepted(incoming: Option<Batch>, resource: Resource)
    requires incoming.Some? ==> Valid(incoming.value) && OutputsOk(incoming.value.reps)
    ensures IncomingOk(OrEmpty(incoming, resource))
  {
    hide OutputOf;
  }

  lemma ValidIdentified(b: Batch)
    requires Valid(b)
    ensures Identified(b) && Unique(b.reps, RepId) && Unique(b.units, UnitId)
  {
  }

  lemma SlotsInTable(small: seq<Rep>, large: seq<Rep>)
    requires OutputsOk(small) && OutputsOk(large) && Within(small, large)
    ensures Table(small).Keys <= Table(large).Keys
  {
    hide OutputsOk, OutputOf;
    forall s | s in Table(small) ensures s in Table(large) {
      assert OutOf(Table(small)[s].rep).slot in Table(large);
    }
  }

  lemma IncomingKept(b: Batch, inc: Batch, leaving: set<Slot>)
    requires Unique(b.reps, RepId) && OutputsOk(b.reps) && OutputsOk(inc.reps) && Within(inc.reps, b.reps)
    requires leaving !! Table(inc.reps).Keys
    ensures forall x :: x in inc.reps ==> x.id in Keys(b.reps, RepId) - OwnerIds(Table(b.reps), leaving)
  {
    hide OutputsOk, OutputOf, OwnerIds;
    forall x | x in inc.reps ensures x.id in Keys(b.reps, RepId) - OwnerIds(Table(b.reps), leaving) {
      OwnerKept(b.reps, leaving, x);
      assert RepId(x) in Keys(b.reps, RepId);
    }
  }

  lemma PrunedSound(b: Batch, leaving: set<Slot>)
    requires Prune(b).Ok? && Prune(b).value.Some? && Unique(b.reps, RepId) && OutputsOk(b.reps)
    requires Prune(b).value.value == Restrict(b, Keys(b.reps, RepId) - OwnerIds(Table(b.reps), leaving))
    requires !Cyclic(Pending(Just(Table(b.reps))))
    ensures Sound(Prune(b).value.value) && Prune(b).value.value.resource == b.resource
  {
    hide OutputsOk, OutputOf, Prune, Owned, Resolved, Populated, GraphClosed, UpToDate, Restrict, Cyclic, Table,
         Acyclic;
    PruneInvariant(b);
    var r := Prune(b).value.value;
    RestrictMembers(b, leaving);
    TableRestricted(b, r, leaving);
    AcyclicDecides(Pending(Just(Table(b.reps))));
    AcyclicSubset(Just(Table(r.reps)), Just(Table(b.reps)));
    AcyclicDecides(Pending(Just(Table(r.reps))));
  }

  lemma FoundedStep(prior: Batch, inc: Batch, resource: Resource, owner: string, remove: set<Slot>, b: Batch)
    requires Valid(prior) && IncomingOk(inc) && Step(prior, inc, resource, owner, remove, b)
    requires forall s :: s in Table(inc.reps) ==> !Condemned(prior, inc, resource, owner, remove, s)
    requires Prune(b).Ok? && Prune(b).value.Some?
    ensures Founded(Prune(b).value.value, inc, resource, owner, remove)
  {
    hide Valid, OutputsOk, OutputOf, Prune, Table, Cyclic, Identified, Resolved, Combine, InvalidDependencies,
         CheckIncoming, Restrict, Explained, Supplied, Overlaid, Sound, BaseKinds, PreservedIds, OwnerIds,
         UnitFollows, VectorFollows, SpaceUsed, Condemned;
    var claim := ClaimOf(prior, inc, resource, owner, remove);
    ValidIdentified(prior);
    ValidIdentified(b);
    CombineMembers(prior, inc, resource, claim);
    CombineOverlaid(prior, inc, resource, claim);
    var leaving := StepSurvivors(prior, inc, resource, owner, remove, b);
    var kept := Keys(b.reps, RepId) - OwnerIds(Table(b.reps), leaving);
    IncomingKept(b, inc, leaving);
    StepSupplied(prior, inc, b, PreservedIds(prior.reps, claim), kept);
    StepExplained(prior, inc, b, claim, Stay(inc, owner, remove), kept);
    PrunedSound(b, leaving);
  }

  /** With nothing stored the incoming graph is published as it is. */
  lemma FirstPublication(current: Snapshot, incoming: Batch, resource: Resource, owner: string, remove: set<Slot>)
    requires current.batch.None? && Reconcile(current, Some(incoming), resource, owner, remove).Ok?
    ensures Reconcile(current, Some(incoming), resource, owner, remove) == Ok(Some(incoming))
    ensures Sound(incoming) && incoming.resource == resource && SourceRevision(resource).Ok?
  {
    hide OutputOf, OutputsOk, Owned, Resolved, Populated, Table, Cyclic, InvalidDependencies, CheckIncoming, Restrict,
         OwnerIds, UpToDate, GraphClosed, Prune, Outdated, Sound;
    CheckIncomingDecides(incoming.reps, SourceRevision(resource).value);
    FreshUpToDate(incoming, SourceRevision(resource).value);
    var leaving := PruneFacts(incoming);
    NoneOutdated(incoming);
    var t := Just(Table(incoming.reps));
    assert Table(incoming.reps) - {} == Table(incoming.reps);
    var survivors := InvalidDependenciesDecides(t, t.Keys);
    GreatestInside(t, survivors);
    assert t.Keys * t.Keys == t.Keys;
    GreatestUnique(t, survivors, t.Keys - leaving);
    assert leaving == {};
    RestrictNothing(incoming);
    ValidMeans(incoming);
    PrunedSound(incoming, {});
  }

  lemma FreshUpToDate(b: Batch, generation: string)
    requires OutputsOk(b.reps) && CheckIncoming(b.reps, generation).Ok? && SourceRevision(b.resource) == Ok(generation)
    ensures UpToDate(b)
  {
    hide OutputOf, OutputsOk, CheckIncoming, IndependentOutput;
    CheckIncomingDecides(b.reps, generation);
  }

  // ------------------------------------------------------------ the theorems

  /** What the store holds passed validation. */
  predicate StoredValid(current: Snapshot) {
    current.batch.Some? ==> Valid(current.batch.value)
  }

  /** No incoming slot leads to a preserved output of another source revision. */
  ghost predicate NothingCondemned(current: Snapshot, incoming: Option<Batch>, resource: Resource, owner: string,
                                   remove: set<Slot>)
  {
    var inc := OrEmpty(incoming, resource);
    current.batch.Some? && OutputsOk(inc.reps) && SourceRevision(resource).Ok? ==>
      forall s :: s in Table(inc.reps) ==> !Condemned(current.batch.value, inc, resource, owner, remove, s)
  }

  lemma ReconcileFounds(current: Snapshot, incoming: Option<Batch>, resource: Resource, owner: string,
                        remove: set<Slot>)
    requires StoredValid(current) && Reconcile(current, incoming, resource, owner, remove).Ok?
    requires Reconcile(current, incoming, resource, owner, remove).value.Some?
    requires NothingCondemned(current, incoming, resource, owner, remove)
    ensures Founded(Reconcile(current, incoming, resource, owner, remove).value.value, OrEmpty(incoming, resource),
                    resource, owner, remove)
  {
    hide Valid, UpToDate, OutputsOk, OutputOf, Prune, Table, Combine, InvalidDependencies, CheckIncoming, Sound,
         PreservedIds, BaseKinds, UnitFollows, VectorFollows, Step, Condemned;
    var inc := OrEmpty(incoming, resource);
    IncomingTable(current, incoming, resource, owner, remove);
    IncomingAccepted(incoming, resource);
    if current.batch.None? {
      FirstPublication(current, incoming.value, resource, owner, remove);
    } else {
      var b := StepFacts(current, incoming, resource, owner, remove);
      StepRevision(current.batch.value, inc, resource, owner, remove, b);
      FoundedStep(current.batch.value, inc, resource, owner, remove, b);
    }
  }

  lemma StepRevision(prior: Batch, inc: Batch, resource: Resource, owner: string, remove: set<Slot>, b: Batch)
    requires Step(prior, inc, resource, owner, remove, b)
    ensures SourceRevision(resource).Ok? && OutputsOk(inc.reps)
  {
    hide OutputsOk, Valid, Combine, InvalidDependencies, CheckIncoming;
  }

  lemma IncomingTable(current: Snapshot, incoming: Option<Batch>, resource: Resource, owner: string, remove: set<Slot>)
    requires Reconcile(current, incoming, resource, owner, remove).Ok?
    ensures incoming.Some? ==> Valid(incoming.value) && OutputsOk(incoming.value.reps)
    ensures current.batch.None? && Reconcile(current, incoming, resource, owner, remove).value.Some? ==> incoming.Some?
  {
    hide Valid, OutputsOk, OutputOf, Prune, Table, Combine, InvalidDependencies, CheckIncoming;
  }

  /** Repeating a reconciliation on its own result. */
  predicate SeesOwnResult(current: Snapshot, incoming: Option<Batch>, resource: Resource, owner: string,
                          remove: set<Slot>, later: Snapshot)
  {
    && Reconcile(current, incoming, resource, owner, remove).Ok?
    && Reconcile(current, incoming, resource, owner, remove).value.Some?
    && later.batch == Reconcile(current, incoming, resource, owner, remove).value
    && later.state.resourceId == current.state.resourceId
  }

  /** The raw digest that a result stores is the supplied one exactly when provenance is supplied, or none
      was stored. */
  predicate DigestKept(current: Snapshot, resource: Resource) {
    current.batch.None? || "provenance" in resource.metadata || RawDigest(current.batch.value.resource).None?
  }

  /** Reconciling the same base onto its own result succeeds exactly when, of what the first call was
      given, the supplied record states provenance or no digest was stored, no legacy incoming
      representation has a malformed independence flag, and no incoming slot leads to a preserved output
      of another source revision. The result then has the same resource, representations, units, vectors
      and facets, and of the spaces precisely those supplied or still used by a vector. */
  lemma ReconcileAgain(current: Snapshot, incoming: Option<Batch>, resource: Resource, owner: string,
                       remove: set<Slot>, later: Snapshot)
    requires StoredValid(current) && SeesOwnResult(current, incoming, resource, owner, remove, later)
    ensures var again := Reconcile(later, incoming, resource, owner, remove);
            && (again.Ok? <==> && DigestKept(current, resource) && FlagsOk(OrEmpty(incoming, resource))
                               && NothingCondemned(current, incoming, resource, owner, remove))
            && (again.Ok? ==> again.value.Some? && Valid(again.value.value)
                              && Equivalent(later.batch.value, OrEmpty(incoming, resource), again.value.value))
  {
    hide Valid, UpToDate, OutputsOk, OutputOf, Prune, Table, CheckIncoming, InvalidDependencies, Founded,
         Preserved, RawDigest, Equivalent, Combine, FlagsOk, Sound, NothingCondemned, DigestKept, StoredValid;
    var r, inc := later.batch.value, OrEmpty(incoming, resource);
    DigestDecided(current, incoming, resource, owner, remove);
    if NothingCondemned(current, incoming, resource, owner, remove) {
      ReconcileFounds(current, incoming, resource, owner, remove);
      FoundedSource(r, inc, resource, owner, remove);
      if RawDigest(r.resource) == RawDigest(resource) {
        if FlagsOk(inc) {
          ReconcileFounded(r, inc, resource, owner, remove);
        } else {
          CombineRefuses(r, inc, resource, owner, remove);
        }
      }
    } else {
      CondemnedDefeats(current, incoming, resource, owner, remove, later);
    }
  }

  /** A condemned slot was dropped, so the repetition finds its dependency missing and raises. */
  lemma CondemnedDefeats(current: Snapshot, incoming: Option<Batch>, resource: Resource, owner: string,
                         remove: set<Slot>, later: Snapshot)
    requires StoredValid(current) && SeesOwnResult(current, incoming, resource, owner, remove, later)
    requires !NothingCondemned(current, incoming, resource, owner, remove)
    ensures Reconcile(later, incoming, resource, owner, remove).Err?
  {
    hide Valid, UpToDate, OutputsOk, OutputOf, Prune, Table, CheckIncoming, InvalidDependencies, Reconcile, Condemned,
         Preserved, RawDigest, Combine, Step, BaseKinds;
    var prior, inc, r := current.batch.value, OrEmpty(incoming, resource), later.batch.value;
    var s :| s in Table(inc.reps) && Condemned(prior, inc, resource, owner, remove, s);
    if Reconcile(later, incoming, resource, owner, remove).Ok? {
      var b := StepFacts(current, incoming, resource, owner, remove);
      ValidIdentified(prior);
      StepUnique(prior, inc, resource, owner, remove, b);
      PruneInvariant(b);
      ValidIdentified(r);
      var c := StepFacts(later, incoming, resource, owner, remove);
      IncomingCombined(r, inc, resource, ClaimOf(r, inc, resource, owner, remove));
      StepMembers(r, inc, resource, owner, remove, c);
      CondemnedStays(prior, inc, resource, owner, remove, b, r, c, s);
    }
  }

  lemma StepMembers(prior: Batch, inc: Batch, resource: Resource, owner: string, remove: set<Slot>, b: Batch)
    requires Step(prior, inc, resource, owner, remove, b) && Identified(prior)
    ensures OutputsOk(b.reps) && Within(inc.reps, b.reps) && forall x :: x in b.reps ==>
              x in prior.reps || x in inc.reps
    ensures InvalidDependencies(Just(Table(b.reps)), Table(inc.reps).Keys).Ok?
  {
    hide Valid, OutputsOk, OutputOf, Table, CheckIncoming, InvalidDependencies, Preserved, Combine, BaseKinds,
         Identified,
         PreservedIds, UnitFollows, VectorFollows, SpaceUsed;
    CombineMembers(prior, inc, resource, ClaimOf(prior, inc, resource, owner, remove));
  }

  /** Whatever of its dependencies is left, a condemned slot has no closed set any more. */
  lemma CondemnedStays(prior: Batch, inc: Batch, resource: Resource, owner: string, remove: set<Slot>, b: Batch,
                       r: Batch, c: Batch, s: Slot)
    requires Step(prior, inc, resource, owner, remove, b) && Identified(prior)
    requires UpToDate(r) && r.resource == b.resource && Within(r.reps, b.reps)
    requires OutputsOk(c.reps) && Within(inc.reps, c.reps) && forall x :: x in c.reps ==> x in r.reps || x in inc.reps
    requires s in Table(inc.reps) && Condemned(prior, inc, resource, owner, remove, s)
    ensures InvalidDependencies(Just(Table(c.reps)), Table(inc.reps).Keys).Err?
  {
    hide Valid, UpToDate, OutputsOk, OutputOf, Table, CheckIncoming, InvalidDependencies, Preserved, Combine, BaseKinds,
         OldSlots, Identified, Cyclic, OutdatedSlots, Closed, IsPath, Greatest;
    StepOutdated(prior, inc, resource, owner, remove, b);
    StepMembers(prior, inc, resource, owner, remove, b);
    var gone := OutdatedSlots(b.reps, Generation(b.resource));
    var tb, tc := Just(Table(b.reps)), Just(Table(c.reps));
    SubTable(c.reps, b.reps);
    SlotsInTable(inc.reps, c.reps);
    var all := InvalidDependenciesDecides(tc, Table(inc.reps).Keys);
    assert s in Table(inc.reps).Keys * tc.Keys;
    StillClosed(tc, tb, all);
    var p :| p != [] && IsPath(Pending(tb), p) && p[0] == s && p[|p| - 1] in gone;
    NotThere(prior, inc, resource, owner, remove, b, r, c, p[|p| - 1]);
    if s in all {
      PathStays(tb, all, p);
    }
  }

  lemma StillClosed(small: map<Slot, Output>, large: map<Slot, Output>, within: set<Slot>)
    requires Greatest(small, within) && forall s :: s in small ==> s in large && large[s] == small[s]
    ensures Closed(large, within) && within <= small.Keys
  {
    forall t, d | t in within && d in large[t].dependencies ensures Met(large, within, d) {
      assert Met(small, within, d);
    }
  }

  lemma SubTable(small: seq<Rep>, large: seq<Rep>)
    requires OutputsOk(small) && OutputsOk(large) && Within(small, large)
    ensures forall s :: s in Table(small) ==> s in Table(large) && Table(large)[s] == Table(small)[s]
  {
    hide OutputsOk, OutputOf;
    forall s | s in Table(small) ensures s in Table(large) && Table(large)[s] == Table(small)[s] {
      assert OutOf(Table(small)[s].rep).slot == s;
    }
  }

  /** No outdated slot of the first combination is in the second. */
  lemma NotThere(prior: Batch, inc: Batch, resource: Resource, owner: string, remove: set<Slot>, b: Batch,
                 r: Batch, c: Batch, s: Slot)
    requires Step(prior, inc, resource, owner, remove, b) && Identified(prior)
    requires UpToDate(r) && r.resource == b.resource && Within(c.reps, b.reps)
    requires OutputsOk(c.reps) && forall x :: x in c.reps ==> x in r.reps || x in inc.reps
    requires forall x :: x in b.reps && Owns(x) ==> IndependentOutput(x).Ok?
    requires Generation(b.resource) == Some(SourceRevision(resource).value)
    requires s in OutdatedSlots(b.reps, Generation(b.resource))
    ensures s !in Table(c.reps)
  {
    hide Valid, OutputsOk, OutputOf, Table, CheckIncoming, InvalidDependencies, Combine, BaseKinds, Identified,
         IndependentOutput;
    CheckIncomingDecides(inc.reps, SourceRevision(resource).value);
    SubTable(c.reps, b.reps);
  }

  lemma FoundedSource(r: Batch, inc: Batch, resource: Resource, owner: string, remove: set<Slot>)
    requires Founded(r, inc, resource, owner, remove)
    ensures SourceRevision(r.resource) == SourceRevision(resource) && SourceRevision(resource).Ok?
    ensures OutputsOk(inc.reps)
  {
    hide Sound, OutputsOk, Explained, Supplied, Identified, Resolved;
  }

  lemma CombineRefuses(r: Batch, inc: Batch, resource: Resource, owner: string, remove: set<Slot>)
    requires Founded(r, inc, resource, owner, remove) && !FlagsOk(inc)
    ensures Combine(r, inc, resource, Stay(inc, owner, remove)).Err?
  {
    hide Founded, FlagsOk, Preserved, Select, Union, OutputsOk;
    PreservedDecides(r, inc, resource, owner, remove);
  }

  /** When the repetition succeeds, the two graphs are the same to the check for an earlier effect exactly
      when no space was orphaned. */
  lemma SpacesDecide(current: Snapshot, incoming: Option<Batch>, resource: Resource, owner: string,
                     remove: set<Slot>, later: Snapshot)
    requires StoredValid(current) && SeesOwnResult(current, incoming, resource, owner, remove, later)
    requires Reconcile(later, incoming, resource, owner, remove).Ok?
    ensures var again, r, inc := Reconcile(later, incoming, resource, owner, remove), later.batch.value,
                                 OrEmpty(incoming, resource);
            SameGraph(later.batch, again.value) <==>
              forall s :: s in r.spaces ==> s in inc.spaces || exists v :: v in r.vectors && v.space == s.id
  {
    hide Valid, UpToDate, OutputsOk, OutputOf, Table, CheckIncoming, FlagsOk, SameMembers, Reconcile, StoredValid,
         NothingCondemned, DigestKept;
    ReconcileAgain(current, incoming, resource, owner, remove, later);
    var r, b := later.batch.value, Reconcile(later, incoming, resource, owner, remove).value.value;
    SameMembersMeans(r.spaces, b.spaces);
    SameMembersSymmetric(r, b);
  }

  /** The representation is not dropped by pruning what is combined: it is legacy, or its slot is in a set
      that stays closed when the preserved outputs of other source revisions leave. */
  ghost predicate Spared(prior: Batch, inc: Batch, resource: Resource, owner: string, remove: set<Slot>, b: Batch,
                         x: Rep)
    requires OutputsOk(inc.reps) && OutputsOk(b.reps) && SourceRevision(resource).Ok?
  {
    var gone := OldSlots(prior, ClaimOf(prior, inc, resource, owner, remove), SourceRevision(resource).value);
    Owns(x) ==> exists w :: Closed(Just(Table(b.reps)) - gone, w) && OutOf(x).slot in w
  }

  /** A space that is not supplied, and that only vectors of representations dropped by pruning use. */
  ghost predicate Orphaned(prior: Batch, inc: Batch, resource: Resource, owner: string, remove: set<Slot>, s: Space)
    requires OutputsOk(inc.reps) && SourceRevision(resource).Ok?
  {
    var c := Combine(prior, inc, resource, ClaimOf(prior, inc, resource, owner, remove));
    && c.Ok? && c.value.Some? && OutputsOk(c.value.value.reps)
    && var b := c.value.value;
    && s in b.spaces && s !in inc.spaces
    && forall x, u, v :: && x in b.reps && u in b.units && v in b.vectors
                         && u.rep == x.id && v.unit == u.id && v.space == s.id ==>
         !Spared(prior, inc, resource, owner, remove, b, x)
  }

  lemma SparedStays(prior: Batch, inc: Batch, resource: Resource, owner: string, remove: set<Slot>, b: Batch, x: Rep)
    requires Step(prior, inc, resource, owner, remove, b) && Identified(prior) && Prune(b).Ok? && Prune(b).value.Some?
    ensures x in Prune(b).value.value.reps <==> x in b.reps && Spared(prior, inc, resource, owner, remove, b, x)
  {
    hide Valid, OutputsOk, OutputOf, Table, CheckIncoming, InvalidDependencies, Preserved, Combine, BaseKinds, OldSlots,
         Identified, Cyclic, OutdatedSlots, Closed, Restrict, OwnerIds, Prune;
    StepUnique(prior, inc, resource, owner, remove, b);
    StepOutdated(prior, inc, resource, owner, remove, b);
    var leaving := PruneFacts(b);
    RestrictMembers(b, leaving);
    var t, gone := Table(b.reps), OutdatedSlots(b.reps, Generation(b.resource));
    assert Just(t) - gone == Just(t - gone);
    if x in b.reps && Owns(x) {
      assert OutOf(x).slot in t;
    }
  }

  /** What pruning keeps: the vectors of spared representations. */
  lemma SparedVectors(prior: Batch, inc: Batch, resource: Resource, owner: string, remove: set<Slot>, b: Batch,
                      v: Vector)
    requires Step(prior, inc, resource, owner, remove, b) && Identified(prior) && Prune(b).Ok? && Prune(b).value.Some?
    ensures v in Prune(b).value.value.vectors <==>
              v in b.vectors && exists x, u :: && x in b.reps && u in b.units && u.rep == x.id && v.unit == u.id
                                               && Spared(prior, inc, resource, owner, remove, b, x)
  {
    hide Valid, OutputsOk, OutputOf, Table, CheckIncoming, InvalidDependencies, Combine, Identified, Spared, Prune,
         Select,
         OutdatedSlots, Cyclic, Greatest, OwnerIds;
    StepUnique(prior, inc, resource, owner, remove, b);
    var leaving := PruneFacts(b);
    var kept := Keys(b.reps, RepId) - OwnerIds(Table(b.reps), leaving);
    SelectMembers(b, kept);
    var r := Prune(b).value.value;
    forall x ensures x in r.reps <==> x in b.reps && Spared(prior, inc, resource, owner, remove, b, x) {
      SparedStays(prior, inc, resource, owner, remove, b, x);
    }
    if v in r.vectors {
      var u :| UnitFollows(b, kept, u) && u.id == v.unit;
      var x :| x in b.reps && RepId(x) == u.rep;
      assert x in r.reps;
    }
    if x, u :| && v in b.vectors && x in b.reps && u in b.units && u.rep == x.id && v.unit == u.id
               && Spared(prior, inc, resource, owner, remove, b, x) {
      assert x in r.reps && UnitFollows(b, kept, u);
    }
  }

  /** When the repetition succeeds, the check for an earlier effect recognises it exactly when, of what the
      first call was given, no space was orphaned. */
  lemma LostResponseRecognised(current: Snapshot, incoming: Option<Batch>, resource: Resource, owner: string,
                               remove: set<Slot>, later: Snapshot)
    requires StoredValid(current) && SeesOwnResult(current, incoming, resource, owner, remove, later)
    requires Reconcile(later, incoming, resource, owner, remove).Ok?
    ensures var inc := OrEmpty(incoming, resource);
            && OutputsOk(inc.reps) && SourceRevision(resource).Ok?
            && (SameGraph(later.batch, Reconcile(later, incoming, resource, owner, remove).value) <==>
                  current.batch.Some? ==> forall s :: !Orphaned(current.batch.value, inc, resource, owner, remove, s))
  {
    hide Valid, UpToDate, OutputsOk, OutputOf, Table, CheckIncoming, SameGraph, Reconcile, Prune, Combine,
         InvalidDependencies,
         BaseKinds, Sound, Spared, SourceRevision, Identified;
    SpacesDecide(current, incoming, resource, owner, remove, later);
    IncomingTable(current, incoming, resource, owner, remove);
    var inc, r := OrEmpty(incoming, resource), later.batch.value;
    if current.batch.None? {
      FirstPublication(current, incoming.value, resource, owner, remove);
    } else {
      var prior := current.batch.value;
      var b := StepFacts(current, incoming, resource, owner, remove);
      ValidIdentified(prior);
      SpacesStay(b);
      forall s | s in r.spaces && s !in inc.spaces
        ensures Orphaned(prior, inc, resource, owner, remove, s) <==> !exists v :: v in r.vectors && v.space == s.id
      {
        OrphanedMeans(prior, inc, resource, owner, remove, b, s);
      }
      forall s | Orphaned(prior, inc, resource, owner, remove, s) ensures s in r.spaces && s !in inc.spaces {
      }
    }
  }

  lemma SpacesStay(b: Batch)
    requires Prune(b).Ok? && Prune(b).value.Some?
    ensures Prune(b).value.value.spaces == b.spaces
  {
    hide OutputsOk, OutputOf, Table, Select, Valid, InvalidDependencies, OutdatedSlots;
  }

  lemma OrphanedMeans(prior: Batch, inc: Batch, resource: Resource, owner: string, remove: set<Slot>, b: Batch,
                      s: Space)
    requires Step(prior, inc, resource, owner, remove, b) && Identified(prior) && Prune(b).Ok? && Prune(b).value.Some?
    requires s in b.spaces && s !in inc.spaces
    ensures Orphaned(prior, inc, resource, owner, remove, s) <==>
              !exists v :: v in Prune(b).value.value.vectors && v.space == s.id
  {
    hide Valid, OutputsOk, OutputOf, Table, CheckIncoming, InvalidDependencies, Combine, Identified, Spared, Prune,
         BaseKinds;
    forall v ensures v in Prune(b).value.value.vectors <==>
                       v in b.vectors && exists x, u :: && x in b.reps && u in b.units && u.rep == x.id
                                                        && v.unit == u.id
                                                        && Spared(prior, inc, resource, owner, remove, b, x) {
      SparedVectors(prior, inc, resource, owner, remove, b, v);
    }
  }

  lemma SameMembersSymmetric(r: Batch, b: Batch)
    ensures SameMembers(b.reps, r.reps) <==> SameMembers(r.reps, b.reps)
    ensures SameMembers(b.units, r.units) <==> SameMembers(r.units, b.units)
    ensures SameMembers(b.vectors, r.vectors) <==> SameMembers(r.vectors, b.vectors)
    ensures SameMembers(b.facets, r.facets) <==> SameMembers(r.facets, b.facets)
  {
  }

  predicate StoredOver(result: Resource, prior: Resource, supplied: Resource) {
    result == supplied.(metadata := prior.metadata + supplied.metadata,
                        title := if supplied.title.Some? then supplied.title else prior.title)
  }

  /** The record that a reconciliation stores. */
  lemma ResultResource(current: Snapshot, incoming: Option<Batch>, resource: Resource, owner: string, remove: set<Slot>)
    requires current.batch.Some? && Reconcile(current, incoming, resource, owner, remove).Ok?
    requires Reconcile(current, incoming, resource, owner, remove).value.Some?
    ensures StoredOver(Reconcile(current, incoming, resource, owner, remove).value.value.resource,
                       current.batch.value.resource, resource)
  {
    hide Valid, OutputsOk, OutputOf, Table, Reconcile, SourceRevision, Prune, InvalidDependencies, CheckIncoming,
         Combine;
    var prior, inc := current.batch.value, OrEmpty(incoming, resource);
    var b := StepFacts(current, incoming, resource, owner, remove);
    PrunedResource(b);
    CombinedResource(prior, inc, resource, ClaimOf(prior, inc, resource, owner, remove));
  }

  lemma CombinedResource(prior: Batch, inc: Batch, resource: Resource, claim: Claim)
    requires Combine(prior, inc, resource, claim).Ok? && Combine(prior, inc, resource, claim).value.Some?
    ensures StoredOver(Combine(prior, inc, resource, claim).value.value.resource, prior.resource, resource)
  {
    hide Union, Select, Preserved, PreservedIds, UsedSpaces;
  }

  lemma DigestDecided(current: Snapshot, incoming: Option<Batch>, resource: Resource, owner: string, remove: set<Slot>)
    requires Reconcile(current, incoming, resource, owner, remove).Ok?
    requires Reconcile(current, incoming, resource, owner, remove).value.Some?
    ensures RawDigest(Reconcile(current, incoming, resource, owner, remove).value.value.resource) == RawDigest(resource)
            <==> DigestKept(current, resource)
  {
    hide Valid, OutputsOk, OutputOf, RawDigest, Reconcile, Sound, SourceRevision;
    IncomingTable(current, incoming, resource, owner, remove);
    if current.batch.None? {
      FirstPublication(current, incoming.value, resource, owner, remove);
    } else {
      ResultResource(current, incoming, resource, owner, remove);
      DigestOverlaid(current.batch.value.resource, resource,
                     Reconcile(current, incoming, resource, owner, remove).value.value.resource);
    }
  }

  lemma DigestOverlaid(prior: Resource, resource: Resource, result: Resource)
    requires StoredOver(result, prior, resource)
    ensures RawDigest(result) == RawDigest(resource) <==> "provenance" in resource.metadata || RawDigest(prior).None?
  {
  }

  lemma PrunedResource(b: Batch)
    requires Prune(b).Ok? && Prune(b).value.Some?
    ensures Prune(b).value.value.resource == b.resource
  {
    hide OutputsOk, OutputOf, Table, Select, Valid, InvalidDependencies, OutdatedSlots;
  }
}
