/** A family of reindexes whose repetition is not recognised: a producer re-supplies an input at a new
    revision, its consumer is pruned, and the space that only the consumer used stays behind. */
module OrphanedSpace {
  import opened Sequences
  import opened Graph
  import opened Dependencies
  import opened Merging
  import opened Enrichment
  import opened Reconciling
  import opened ReconcileTheorems
  import opened ReconcileTwice
  import opened SmallGraphs

  /** `earlier` is stored with `consumer`, which depends on it and has the only vector; `supplied` comes in. */
  datatype Scene = Scene(resource: Resource, earlier: Rep, consumer: Rep, supplied: Rep,
                         earlierUnit: Unit, consumerUnit: Unit, suppliedUnit: Unit, space: Space, vector: Vector)
  {
    function Stored(): Batch {
      Batch(resource, [earlier, consumer], [earlierUnit, consumerUnit], [space], [vector], [])
    }

    function Incoming(): Batch {
      Batch(resource, [supplied], [suppliedUnit], [], [], [])
    }

    function Together(): Batch {
      Batch(resource, [consumer, supplied], [consumerUnit, suppliedUnit], [space], [vector], [])
    }

    function Result(): Batch {
      Batch(resource, [supplied], [suppliedUnit], [space], [], [])
    }
  }

  predicate SceneOk(x: Scene, a: Slot, b: Slot, generation: string) {
    && SourceRevision(x.resource) == Ok(generation) && a != b
    && OutputLike(x.earlier, a, generation, []) && OutputLike(x.supplied, a, generation, [])
    && OutputLike(x.consumer, b, generation, [Dependency(a, OutOf(x.earlier).artifactRevision)])
    && OutOf(x.supplied).artifactRevision != OutOf(x.earlier).artifactRevision
    && UnitFor(x.earlierUnit, x.earlier, x.resource) && UnitFor(x.consumerUnit, x.consumer, x.resource)
    && UnitFor(x.suppliedUnit, x.supplied, x.resource)
    && x.earlier.id != x.consumer.id && x.supplied.id != x.consumer.id
    && x.earlierUnit.id != x.consumerUnit.id && x.suppliedUnit.id != x.consumerUnit.id
    && x.vector.unit == x.consumerUnit.id && x.vector.space == x.space.id && |x.vector.values| == x.space.dimensions
  }

  lemma SceneValid(x: Scene, a: Slot, b: Slot, generation: string)
    requires SceneOk(x, a, b, generation)
    ensures Graph.Valid(x.Stored()) && Graph.Valid(x.Incoming()) && Graph.Valid(x.Together()) && Graph.Valid(x.Result())
  {
    hide Graph.Valid, OutputLike, UnitFor;
    AttachedHere(x, [x.earlierUnit, x.consumerUnit]);
    AttachedHere(x, [x.consumerUnit, x.suppliedUnit]);
    AttachedHere(x, [x.suppliedUnit]);
    SmallIsValid(x.resource, [x.earlier, x.consumer], [x.earlierUnit, x.consumerUnit], [x.space], [x.vector]);
    SmallIsValid(x.resource, [x.consumer, x.supplied], [x.consumerUnit, x.suppliedUnit], [x.space], [x.vector]);
    SmallIsValid(x.resource, [x.supplied], [x.suppliedUnit], [], []);
    SmallIsValid(x.resource, [x.supplied], [x.suppliedUnit], [x.space], []);
  }

  lemma AttachedHere(x: Scene, units: seq<Unit>)
    requires x.vector.unit == x.consumerUnit.id && x.vector.space == x.space.id
             && |x.vector.values| == x.space.dimensions
    ensures Attached([], [], units) && Attached([x.space], [], units)
    ensures x.consumerUnit in units ==> Attached([x.space], [x.vector], units)
  {
    assert [x.space][0] == x.space;
  }

  lemma Tables(x: Scene, a: Slot, b: Slot, generation: string)
    requires SceneOk(x, a, b, generation)
    ensures OutputsOk(x.Incoming().reps) && Table(x.Incoming().reps) == map[a := Owner(x.supplied, OutOf(x.supplied))]
    ensures OutputsOk(x.Together().reps)
    ensures Table(x.Together().reps) == map[b := Owner(x.consumer, OutOf(x.consumer)),
            a := Owner(x.supplied, OutOf(x.supplied))]
  {
    hide OutputOf, IndependentOutput, UnitFor, SourceRevision;
    assert x.Incoming().reps[0] == x.supplied;
    assert x.Together().reps[0] == x.consumer && x.Together().reps[1] == x.supplied;
    TableDetermined(x.Incoming().reps, map[a := Owner(x.supplied, OutOf(x.supplied))]);
    TableDetermined(x.Together().reps, map[b := Owner(x.consumer, OutOf(x.consumer)),
        a := Owner(x.supplied, OutOf(x.supplied))]);
  }

  /** Only the consumer's dependency fails. */
  lemma ConsumerIsInvalid(active: map<Slot, Output>, a: Slot, b: Slot, revision: string, protected: set<Slot>)
    requires a != b && active.Keys == {a, b} && active[a].dependencies == []
    requires active[b].dependencies == [Dependency(a, revision)] && active[a].artifactRevision != revision
    requires protected <= {a}
    ensures InvalidDependencies(active, protected) == Ok({b})
  {
    var survivors := InvalidDependenciesDecides(active, protected);
    assert Dependency(a, revision) in active[b].dependencies && !Met(active, survivors, Dependency(a, revision));
    assert Closed(active, {a});
    assert b !in survivors;
    assert survivors == {a} && active.Keys - survivors == {b};
    NoCycle(Pending(active), a, b);
  }

  // ------------------------------------------------------------ the first round

  function ClaimIn(x: Scene): Claim
    requires OutputsOk(x.Incoming().reps)
  {
    ClaimOf(x.Stored(), x.Incoming(), x.resource, "me", {})
  }

  /** The re-supplied slot is given up, its consumer is preserved. */
  lemma OnlyConsumerPreserved(x: Scene, a: Slot, b: Slot, generation: string)
    requires SceneOk(x, a, b, generation) && OutputsOk(x.Incoming().reps)
    ensures Preserved(x.earlier, ClaimIn(x)) == Ok(false) && Preserved(x.consumer, ClaimIn(x)) == Ok(true)
    ensures PreservedIds(x.Stored().reps, ClaimIn(x)) == {x.consumer.id}
  {
    hide OutputOf, IndependentOutput, UnitFor, SourceRevision, OutputsOk, BaseKinds;
    Tables(x, a, b, generation);
    assert OutputOf(x.earlier) == Ok(Some(OutOf(x.earlier))) && OutputOf(x.consumer) == Ok(Some(OutOf(x.consumer)));
    assert x.Stored().reps[1] == x.consumer;
  }

  lemma KeepOne<T, U, K>(y: T, key: T -> K, wanted: seq<U>, of: U -> K, w: U)
    requires w in wanted && key(y) == of(w)
    ensures Keep([y], key, Keys(wanted, of)) == [y]
  {
    assert of(w) in Keys(wanted, of);
    KeepAll([y], key, Keys(wanted, of));
  }

  lemma KeepSecond<T, K>(p: T, q: T, key: T -> K, ids: set<K>)
    requires key(p) !in ids && key(q) in ids
    ensures Keep([p, q], key, ids) == [q]
  {
    assert [p, q][1..] == [q];
    KeepAll([q], key, ids);
  }

  lemma SelectConsumer(x: Scene, a: Slot, b: Slot, generation: string)
    requires SceneOk(x, a, b, generation)
    ensures Select(x.Stored(), {x.consumer.id}) == Part([x.consumer], [x.consumerUnit], [x.vector])
    ensures UsedSpaces(x.Stored(), [x.vector]) == [x.space]
  {
    hide OutputLike, SourceRevision;
    assert x.Stored().reps[1..] == [x.consumer] && x.Stored().units[1..] == [x.consumerUnit];
    assert Keep([x.consumer], RepId, {x.consumer.id}) == [x.consumer];
    assert Keep([x.consumerUnit], UnitRep, {x.consumer.id}) == [x.consumerUnit];
    KeepOne(x.vector, VectorUnit, [x.consumerUnit], UnitId, x.consumerUnit);
    KeepOne(x.space, SpaceId, [x.vector], VectorSpace, x.vector);
  }

  lemma Combined(x: Scene, a: Slot, b: Slot, generation: string)
    requires SceneOk(x, a, b, generation) && OutputsOk(x.Incoming().reps)
    ensures Combine(x.Stored(), x.Incoming(), x.resource, ClaimIn(x)) == Ok(Some(x.Together()))
  {
    hide OutputLike, SourceRevision, UnitFor, OutputsOk, Preserved, PreservedIds, Select, UsedSpaces, Union;
    OnlyConsumerPreserved(x, a, b, generation);
    SelectConsumer(x, a, b, generation);
    assert x.Stored().reps == [x.earlier, x.consumer];
    UnionDisjoint([x.consumer], [x.supplied], RepId);
    UnionDisjoint([x.consumerUnit], [x.suppliedUnit], UnitId);
    assert [x.consumer] + [x.supplied] == x.Together().reps;
    assert [x.consumerUnit] + [x.suppliedUnit] == x.Together().units;
    NoUnion([x.space], SpaceId);
    NoUnion([x.vector], VectorKey);
    NoUnion([], FacetKey);
    assert x.resource.metadata + x.resource.metadata == x.resource.metadata;
  }

  lemma Pruned(x: Scene, a: Slot, b: Slot, generation: string)
    requires SceneOk(x, a, b, generation)
    ensures Prune(x.Together()) == Ok(Some(x.Result()))
  {
    hide OutputOf, IndependentOutput, UnitFor, InvalidDependencies, Graph.Valid, OutputsOk, Table, Restrict,
         OutdatedSlots,
         OwnerIds, SourceRevision;
    var u := x.Together();
    SceneValid(x, a, b, generation);
    Tables(x, a, b, generation);
    assert u.reps == [x.consumer, x.supplied];
    NoneOutdatedHere(x, a, b, generation);
    ConsumerIsInvalid(Just(Table(u.reps)), a, b, OutOf(x.earlier).artifactRevision, {});
    assert Table(u.reps) - {} == Table(u.reps) && {} + {b} == {b};
    RestrictToSupplied(x, a, b, generation);
  }

  lemma NoneOutdatedHere(x: Scene, a: Slot, b: Slot, generation: string)
    requires SceneOk(x, a, b, generation) && OutputsOk(x.Together().reps)
    ensures forall r :: r in x.Together().reps && Owns(r) ==> IndependentOutput(r).Ok?
    ensures OutdatedSlots(x.Together().reps, Generation(x.resource)) == {}
  {
    hide OutputOf, IndependentOutput, UnitFor, OutputsOk, Table;
    assert forall r :: r in x.Together().reps ==> r == x.consumer || r == x.supplied;
  }

  lemma KeptHere(x: Scene, a: Slot, b: Slot, generation: string)
    requires SceneOk(x, a, b, generation) && OutputsOk(x.Together().reps)
    ensures Keys(x.Together().reps, RepId) - OwnerIds(Table(x.Together().reps), {b}) == {x.supplied.id}
  {
    hide OutputLike, SourceRevision, OutputsOk, UnitFor, OutOf, Table;
    var u := x.Together();
    Tables(x, a, b, generation);
    assert u.reps[0] == x.consumer && u.reps[1] == x.supplied;
    assert OwnerIds(Table(u.reps), {b}) == {x.consumer.id} by {
      assert Table(u.reps)[b].rep == x.consumer;
    }
    assert Keys(u.reps, RepId) == {x.consumer.id, x.supplied.id} by {
      assert RepId(u.reps[0]) in Keys(u.reps, RepId) && RepId(u.reps[1]) in Keys(u.reps, RepId);
    }
  }

  lemma RestrictToSupplied(x: Scene, a: Slot, b: Slot, generation: string)
    requires SceneOk(x, a, b, generation) && OutputsOk(x.Together().reps)
    ensures Restrict(x.Together(), Keys(x.Together().reps, RepId) - OwnerIds(Table(x.Together().reps),
            {b})) == x.Result()
  {
    hide OutputLike, SourceRevision, OutputsOk, Graph.HasText, Table, OutOf, Keep;
    var u := x.Together();
    KeptHere(x, a, b, generation);
    var kept := Keys(u.reps, RepId) - OwnerIds(Table(u.reps), {b});
    KeepSecond(x.consumer, x.supplied, RepId, kept);
    KeepSecond(x.consumerUnit, x.suppliedUnit, UnitRep, kept);
    KeepNone([x.vector], VectorUnit, Keys([x.suppliedUnit], UnitId));
  }

  /** The producer's repetition of a committed reindex succeeds, but it is not recognised: what it computes
      lacks the space left behind by the consumer. */
  lemma RepetitionNotRecognised(x: Scene, a: Slot, b: Slot, generation: string, current: Snapshot, later: Snapshot)
    requires SceneOk(x, a, b, generation) && current.batch == Some(x.Stored())
    requires current.state.resourceId == later.state.resourceId == x.resource.id
    requires later.batch == Some(x.Result())
    ensures Reconcile(current, Some(x.Incoming()), x.resource, "me", {}) == Ok(later.batch)
    ensures Reconcile(later, Some(x.Incoming()), x.resource, "me", {}).Ok?
    ensures !SameGraph(later.batch, Reconcile(later, Some(x.Incoming()), x.resource, "me", {}).value)
  {
    hide Reconcile, OutputOf, IndependentOutput, Graph.Valid, UnitFor, SourceRevision, SameGraph, Condemned,
         DigestKept, AllBound,
         OutputsOk, Table;
    SceneValid(x, a, b, generation);
    FirstRound(x, a, b, generation, current);
    StoredBound(x, a, b, generation);
    Tables(x, a, b, generation);
    NoOldSlots(x.Stored(), x.Incoming(), x.resource, "me", {});
    assert x.Incoming().reps == [x.supplied];
    assert FlagsOk(x.Incoming());
    SameDigest(x, current, later);
    ReconcileAgain(current, Some(x.Incoming()), x.resource, "me", {}, later);
    SpacesDecide(current, Some(x.Incoming()), x.resource, "me", {}, later);
    assert x.Result().spaces[0] == x.space;
  }

  lemma SameDigest(x: Scene, current: Snapshot, later: Snapshot)
    requires current.batch == Some(x.Stored()) && later.batch == Some(x.Result())
    requires Reconcile(current, Some(x.Incoming()), x.resource, "me", {}) == Ok(later.batch)
    ensures DigestKept(current, x.resource)
  {
    hide Reconcile, RawDigest;
    DigestDecided(current, Some(x.Incoming()), x.resource, "me", {});
  }

  lemma StoredBound(x: Scene, a: Slot, b: Slot, generation: string)
    requires SceneOk(x, a, b, generation)
    ensures AllBound(x.Stored()) && !x.supplied.provenance.NoBlock?
  {
    hide IndependentOutput, UnitFor, SourceRevision, BlockOk;
    assert forall r :: r in x.Stored().reps ==> r == x.earlier || r == x.consumer;
  }

  lemma FirstRound(x: Scene, a: Slot, b: Slot, generation: string, current: Snapshot)
    requires SceneOk(x, a, b, generation) && current.batch == Some(x.Stored())
             && current.state.resourceId == x.resource.id
    ensures Reconcile(current, Some(x.Incoming()), x.resource, "me", {}) == Ok(Some(x.Result()))
  {
    hide OutputOf, IndependentOutput, Graph.Valid, UnitFor, SourceRevision, Combine, Prune, InvalidDependencies,
         OutputsOk, Table,
         CheckIncoming, BaseKinds, RawDigest;
    SceneValid(x, a, b, generation);
    Tables(x, a, b, generation);
    AcceptedHere(x, a, b, generation);
    Combined(x, a, b, generation);
    ConsumerIsInvalid(Just(Table(x.Together().reps)), a, b, OutOf(x.earlier).artifactRevision, {a});
    Pruned(x, a, b, generation);
    assert Table(x.Incoming().reps).Keys == {a};
    assert ReconcileStored(x.Stored(), x.Incoming(), x.resource, "me", {}, generation) == Ok(Some(x.Result()));
    assert AcceptIncoming(current, x.Incoming(), x.resource, generation).Ok?;
  }

  lemma AcceptedHere(x: Scene, a: Slot, b: Slot, generation: string)
    requires SceneOk(x, a, b, generation)
    ensures CheckIncoming(x.Incoming().reps, generation).Ok?
  {
    hide OutputOf, IndependentOutput, UnitFor, SourceRevision, CheckIncoming;
    CheckIncomingDecides(x.Incoming().reps, generation);
    assert x.Incoming().reps == [x.supplied];
  }

  // ---------------------------------------------------------- a member of the family

  function Instance(): Scene {
    Scene(ResourceWith(map["source_revision" := JString("r1")]),
          OutputNamed("one", CAPTION, "r1", "v1", []),
          OutputNamed("two", SUMMARY, "r1", "v1", [Dependency(CAPTION, "v1")]),
          OutputNamed("three", CAPTION, "r1", "v2", []), UnitNamed("u1", "one"), UnitNamed("u2", "two"),
          UnitNamed("u3", "three"), Space("s", 1, "cosine", "f"), Vector("u2", "s", [1.0]))
  }

  lemma InstanceOk()
    ensures SceneOk(Instance(), CAPTION, SUMMARY, "r1")
  {
    hide OutputLike, OutOf, UnitFor;
    var x := Instance();
    Words();
    hide NonBlank;
    assert CAPTION.purpose[0] == 'c' && SUMMARY.purpose[0] == 's';
    Named("one", CAPTION, "r1", "v1", []);
    Named("two", SUMMARY, "r1", "v1", [Dependency(CAPTION, "v1")]);
    Named("three", CAPTION, "r1", "v2", []);
    UnitMatches("u1", "one", x.earlier, x.resource);
    UnitMatches("u2", "two", x.consumer, x.resource);
    UnitMatches("u3", "three", x.supplied, x.resource);
    assert ("v1")[1] == '1' && ("v2")[1] == '2';
    assert |"one"| == 3 && |"two"| == 3 && ("one")[0] == 'o' && ("two")[0] == 't' && |"three"| == 5;
    assert ("u1")[1] == '1' && ("u2")[1] == '2' && ("u3")[1] == '3';
  }
}
