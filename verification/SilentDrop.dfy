/** A reconciliation that drops what it was asked to publish: the incoming output depends on a stored one
    of an older source revision, which is accepted as a dependency and then pruned. */
module SilentDrop {
  import opened Sequences
  import opened Graph
  import opened Dependencies
  import opened Merging
  import opened Enrichment
  import opened Reconciling
  import opened ReconcileTheorems
  import opened ReconcileTwice
  import opened SmallGraphs

  /** `stale` is stored; `dependent` comes in, together with any legacy representations. */
  datatype Scene = Scene(resource: Resource, stale: Rep, staleUnit: Unit, dependent: Rep, dependentUnit: Unit,
                         legacy: seq<Rep>, legacyUnits: seq<Unit>)
  {
    function Stored(): Batch { Batch(resource, [stale], [staleUnit], [], [], []) }

    function Incoming(): Batch { Batch(resource, [dependent] + legacy, [dependentUnit] + legacyUnits, [], [], []) }

    function Together(): Batch {
      Batch(resource, [stale] + Incoming().reps, [staleUnit] + Incoming().units, [], [], [])
    }

    function Left(): Batch { Batch(resource, legacy, legacyUnits, [], [], []) }
  }

  predicate SceneOk(x: Scene, a: Slot, b: Slot, older: string, generation: string) {
    && SourceRevision(x.resource) == Ok(generation) && a != b && older != generation
    && OutputLike(x.stale, a, older, [])
    && OutputLike(x.dependent, b, generation, [Dependency(a, OutOf(x.stale).artifactRevision)])
    && (forall r :: r in x.legacy ==> r.provenance.NoBlock?)
    && UnitsFor([x.staleUnit] + ([x.dependentUnit] + x.legacyUnits), [x.stale] + ([x.dependent] + x.legacy), x.resource)
    && Unique([x.stale] + ([x.dependent] + x.legacy), RepId)
    && Unique([x.staleUnit] + ([x.dependentUnit] + x.legacyUnits), UnitId)
  }

  // ------------------------------------------------------------------ validity

  lemma TailFor(u: Unit, units: seq<Unit>, r: Rep, reps: seq<Rep>, resource: Resource)
    requires UnitsFor([u] + units, [r] + reps, resource) && Unique([r] + reps, RepId) && Unique([u] + units, UnitId)
    ensures UnitFor(u, r, resource) && UnitsFor(units, reps, resource) && Unique(reps, RepId) && Unique(units, UnitId)
    ensures forall q :: q in reps ==> q.id != r.id
    ensures forall w :: w in units ==> w.id != u.id && w.rep != r.id
  {
    hide UnitFor;
    var us, rs := [u] + units, [r] + reps;
    assert us[0] == u && rs[0] == r;
    forall i | 0 <= i < |reps|
      ensures UnitFor(units[i], reps[i], resource) && reps[i].id != r.id && units[i].id != u.id
    {
      assert us[i + 1] == units[i] && rs[i + 1] == reps[i];
      assert RepId(rs[0]) != RepId(rs[i + 1]) && UnitId(us[0]) != UnitId(us[i + 1]);
    }
    forall i, j | 0 <= i < j < |reps| ensures RepId(reps[i]) != RepId(reps[j]) && UnitId(units[i]) != UnitId(units[j]) {
      assert RepId(rs[i + 1]) != RepId(rs[j + 1]) && UnitId(us[i + 1]) != UnitId(us[j + 1]);
    }
    forall w | w in units ensures w.rep != r.id {
      var i :| 0 <= i < |units| && units[i] == w;
      assert UnitFor(units[i], reps[i], resource);
      OwnRep(w, reps[i], resource);
    }
  }

  lemma OwnRep(u: Unit, r: Rep, resource: Resource)
    requires UnitFor(u, r, resource)
    ensures u.rep == r.id
  {
  }

  lemma SceneValid(x: Scene, a: Slot, b: Slot, older: string, generation: string)
    requires SceneOk(x, a, b, older, generation)
    ensures Graph.Valid(x.Stored()) && Graph.Valid(x.Incoming()) && Graph.Valid(x.Together())
    ensures x.legacy != [] ==> Graph.Valid(x.Left())
  {
    hide Graph.Valid, OutputLike, UnitsFor, Unique, UnitFor;
    TailFor(x.staleUnit, x.Incoming().units, x.stale, x.Incoming().reps, x.resource);
    TailFor(x.dependentUnit, x.legacyUnits, x.dependent, x.legacy, x.resource);
    NothingAttached(x.Together().units);
    NothingAttached(x.Incoming().units);
    NothingAttached([x.staleUnit]);
    NothingAttached(x.legacyUnits);
    OneUnit(x.staleUnit, x.stale, x.resource);
    SmallIsValid(x.resource, [x.stale], [x.staleUnit], [], []);
    SmallIsValid(x.resource, x.Incoming().reps, x.Incoming().units, [], []);
    SmallIsValid(x.resource, x.Together().reps, x.Together().units, [], []);
    if x.legacy != [] {
      SmallIsValid(x.resource, x.legacy, x.legacyUnits, [], []);
    }
  }

  // -------------------------------------------------------------------- tables

  lemma Tables(x: Scene, a: Slot, b: Slot, older: string, generation: string)
    requires SceneOk(x, a, b, older, generation)
    ensures OutputsOk(x.Incoming().reps) && Table(x.Incoming().reps) == map[b := Owner(x.dependent, OutOf(x.dependent))]
    ensures OutputsOk(x.Together().reps)
    ensures Table(x.Together().reps) == map[a := Owner(x.stale, OutOf(x.stale)),
            b := Owner(x.dependent, OutOf(x.dependent))]
  {
    hide OutputOf, IndependentOutput, UnitsFor, SourceRevision;
    Legacies(x.legacy);
    TableOf([x.dependent], x.legacy, map[b := Owner(x.dependent, OutOf(x.dependent))], x.Incoming().reps);
    assert x.Together().reps == [x.stale, x.dependent] + x.legacy;
    TableOf([x.stale, x.dependent], x.legacy,
            map[a := Owner(x.stale, OutOf(x.stale)), b := Owner(x.dependent, OutOf(x.dependent))], x.Together().reps);
  }

  lemma TableOf(owners: seq<Rep>, legacy: seq<Rep>, m: map<Slot, Owner>, reps: seq<Rep>)
    requires reps == owners + legacy && (forall r :: r in legacy ==> OutputOf(r).Ok? && !Owns(r))
    requires forall i :: 0 <= i < |owners| ==> Owns(owners[i])
    requires forall i, j :: 0 <= i < j < |owners| ==> OutOf(owners[i]).slot != OutOf(owners[j]).slot
    requires forall r :: r in owners ==> OutOf(r).slot in m
    requires forall s :: s in m ==>
               m[s].rep in owners && m[s] == Owner(m[s].rep, OutOf(m[s].rep)) && m[s].output.slot == s
    ensures OutputsOk(reps) && Table(reps) == m
  {
    hide OutputOf;
    forall i | 0 <= i < |reps| ensures Owns(reps[i]) <==> i < |owners| {
      if i >= |owners| {
        assert reps[i] in legacy;
      } else {
        assert reps[i] == owners[i];
      }
    }
    TableDetermined(reps, m);
  }

  // ----------------------------------------------------------------- combining

  function ClaimIn(x: Scene): Claim
    requires OutputsOk(x.Incoming().reps)
  {
    ClaimOf(x.Stored(), x.Incoming(), x.resource, "me", {})
  }

  lemma StaleIsPreserved(x: Scene, a: Slot, b: Slot, older: string, generation: string)
    requires SceneOk(x, a, b, older, generation) && OutputsOk(x.Incoming().reps)
    ensures Preserved(x.stale, ClaimIn(x)) == Ok(true) && PreservedIds(x.Stored().reps, ClaimIn(x)) == {x.stale.id}
    ensures OldSlots(x.Stored(), ClaimIn(x), generation) == {a}
  {
    hide OutputOf, IndependentOutput, UnitsFor, SourceRevision, OutputsOk, BaseKinds, Unique, PreservedIds, OldSlots,
         Table;
    Tables(x, a, b, older, generation);
    assert OutputOf(x.stale) == Ok(Some(OutOf(x.stale)));
    OnlyOne(x.Stored(), x.stale, ClaimIn(x), generation);
  }

  lemma OnlyOne(stored: Batch, r: Rep, claim: Claim, generation: string)
    requires stored.reps == [r] && Preserved(r, claim) == Ok(true)
    requires Owns(r) && IndependentOutput(r) == Ok(false) && OutOf(r).sourceRevision != generation
    ensures PreservedIds(stored.reps, claim) == {r.id} && OldSlots(stored, claim, generation) == {OutOf(r).slot}
  {
    hide OutputOf, IndependentOutput, Preserved;
    assert stored.reps[0] == r;
  }

  lemma Combined(x: Scene, a: Slot, b: Slot, older: string, generation: string)
    requires SceneOk(x, a, b, older, generation) && OutputsOk(x.Incoming().reps)
    ensures Combine(x.Stored(), x.Incoming(), x.resource, ClaimIn(x)) == Ok(Some(x.Together()))
  {
    hide OutputLike, SourceRevision, UnitsFor, OutputsOk, Preserved, PreservedIds, Select, UsedSpaces, Union, Unique,
         Graph.Valid, OldSlots;
    StaleIsPreserved(x, a, b, older, generation);
    SceneValid(x, a, b, older, generation);
    TailFor(x.staleUnit, x.Incoming().units, x.stale, x.Incoming().reps, x.resource);
    var stored := x.Stored();
    ValidMeans(stored);
    assert Keys(stored.reps, RepId) == {x.stale.id} by {
      assert stored.reps[0] == x.stale && RepId(x.stale) in Keys(stored.reps, RepId);
    }
    SelectAll(stored, {x.stale.id});
    UnionDisjoint([x.stale], x.Incoming().reps, RepId);
    UnionDisjoint([x.staleUnit], x.Incoming().units, UnitId);
    NoSpaces(stored);
    NoUnion([], SpaceId);
    NoUnion([], VectorKey);
    NoUnion([], FacetKey);
    assert x.resource.metadata + x.resource.metadata == x.resource.metadata;
    assert stored.reps == [x.stale];
  }

  lemma NoSpaces(b: Batch)
    requires b.spaces == []
    ensures UsedSpaces(b, b.vectors) == []
  {
  }

  // ------------------------------------------------------------------- pruning

  lemma DependenciesMet(x: Scene, a: Slot, b: Slot, older: string, generation: string)
    requires SceneOk(x, a, b, older, generation) && OutputsOk(x.Together().reps)
    ensures InvalidDependencies(Just(Table(x.Together().reps)), {b}) == Ok({})
    ensures InvalidDependencies(Just(Table(x.Together().reps) - {a}), {}) == Ok({b})
  {
    hide OutputOf, IndependentOutput, UnitsFor, SourceRevision, OutputsOk, Unique, InvalidDependencies, Table, Cyclic;
    Tables(x, a, b, older, generation);
    var t := Table(x.Together().reps);
    NoCycle(Pending(Just(t)), a, b);
    NothingInvalid(t, {b});
    var small := Just(t - {a});
    var survivors := InvalidDependenciesDecides(small, {});
    var d := Dependency(a, OutOf(x.stale).artifactRevision);
    assert d in small[b].dependencies && !Met(small, survivors, d);
    assert survivors == {} && small.Keys - survivors == {b};
    NoEdges(Pending(small));
  }

  lemma NoEdges(g: Edges)
    requires forall s :: s in g ==> g[s] == {}
    ensures !Cyclic(g)
  {
    forall p ensures !IsCycle(g, p) {
      assert |p| >= 2 && IsPath(g, p) ==> p[1] in g[p[0]];
    }
  }

  lemma Pruned(x: Scene, a: Slot, b: Slot, older: string, generation: string)
    requires SceneOk(x, a, b, older, generation)
    ensures Prune(x.Together()) == Ok(if x.legacy == [] then None else Some(x.Left()))
  {
    hide OutputOf, IndependentOutput, UnitsFor, InvalidDependencies, Graph.Valid, OutputsOk, Table, Restrict,
         OutdatedSlots,
         OwnerIds, SourceRevision, Unique;
    Tables(x, a, b, older, generation);
    SceneValid(x, a, b, older, generation);
    OnlyStaleOutdated(x, a, b, older, generation);
    DependenciesMet(x, a, b, older, generation);
    assert {a} + {b} == {a, b};
    LeftOver(x, a, b, older, generation);
  }

  lemma OnlyStaleOutdated(x: Scene, a: Slot, b: Slot, older: string, generation: string)
    requires SceneOk(x, a, b, older, generation) && OutputsOk(x.Together().reps)
    ensures forall r :: r in x.Together().reps && Owns(r) ==> IndependentOutput(r).Ok?
    ensures OutdatedSlots(x.Together().reps, Generation(x.resource)) == {a}
  {
    hide OutputOf, IndependentOutput, UnitsFor, OutputsOk, Table, Unique;
    Tables(x, a, b, older, generation);
    Legacies(x.legacy);
    assert forall r :: r in x.Together().reps ==> r == x.stale || r == x.dependent || r in x.legacy;
  }

  lemma LeftOver(x: Scene, a: Slot, b: Slot, older: string, generation: string)
    requires SceneOk(x, a, b, older, generation) && OutputsOk(x.Together().reps)
    ensures Restrict(x.Together(), Keys(x.Together().reps, RepId) - OwnerIds(Table(x.Together().reps),
            {a, b})) == x.Left()
  {
    hide OutputLike, SourceRevision, OutputsOk, UnitsFor, Unique, Table, OutOf, Keep, OwnerIds;
    var u := x.Together();
    TailFor(x.staleUnit, x.Incoming().units, x.stale, x.Incoming().reps, x.resource);
    TailFor(x.dependentUnit, x.legacyUnits, x.dependent, x.legacy, x.resource);
    OwnersHere(x, a, b, older, generation);
    var kept := Keys(u.reps, RepId) - {x.stale.id, x.dependent.id};
    assert x.staleUnit.rep == x.stale.id && x.dependentUnit.rep == x.dependent.id;
    assert forall r :: r in x.legacy ==> r in u.reps && RepId(r) in Keys(u.reps, RepId);
    LegacyUnitsKept(x.legacy, x.legacyUnits, x.resource, kept);
    hide UnitFor;
    KeepBehind(x.stale, x.dependent, x.legacy, RepId, kept);
    KeepBehind(x.staleUnit, x.dependentUnit, x.legacyUnits, UnitRep, kept);
    KeepNone([], VectorUnit, Keys(x.legacyUnits, UnitId));
  }

  lemma KeepBehind<T(!new), K>(p: T, q: T, rest: seq<T>, key: T -> K, ids: set<K>)
    requires key(p) !in ids && key(q) !in ids && forall x :: x in rest ==> key(x) in ids
    ensures Keep([p] + ([q] + rest), key, ids) == rest
  {
    KeepConcat([p], [q] + rest, key, ids);
    KeepConcat([q], rest, key, ids);
    KeepNone([p], key, ids);
    KeepNone([q], key, ids);
    KeepAll(rest, key, ids);
  }

  lemma LegacyUnitsKept(legacy: seq<Rep>, units: seq<Unit>, resource: Resource, kept: set<string>)
    requires UnitsFor(units, legacy, resource) && forall r :: r in legacy ==> r.id in kept
    ensures forall u :: u in units ==> u.rep in kept
  {
    forall u | u in units ensures u.rep in kept {
      var i :| 0 <= i < |units| && units[i] == u;
      assert UnitFor(units[i], legacy[i], resource) && legacy[i] in legacy;
    }
  }

  lemma OwnersHere(x: Scene, a: Slot, b: Slot, older: string, generation: string)
    requires SceneOk(x, a, b, older, generation) && OutputsOk(x.Together().reps)
    ensures OwnerIds(Table(x.Together().reps), {a, b}) == {x.stale.id, x.dependent.id}
  {
    hide OutputLike, SourceRevision, OutputsOk, UnitsFor, Unique, OutOf, Table;
    Tables(x, a, b, older, generation);
    var t := Table(x.Together().reps);
    assert t[a].rep == x.stale && t[b].rep == x.dependent;
  }

  // -------------------------------------------------------------- the theorems

  /** The incoming output is accepted, and then neither it nor the stored one is in the result: with
      nothing else coming in, the reconciliation asks for the resource to be withdrawn. */
  lemma DroppedSilently(x: Scene, a: Slot, b: Slot, older: string, generation: string, current: Snapshot)
    requires SceneOk(x, a, b, older, generation) && current.batch == Some(x.Stored())
    requires current.state.resourceId == x.resource.id
    ensures Reconcile(current, Some(x.Incoming()), x.resource, "me",
            {}) == Ok(if x.legacy == [] then None else Some(x.Left()))
  {
    hide OutputOf, IndependentOutput, Graph.Valid, UnitsFor, SourceRevision, Combine, Prune, InvalidDependencies,
         OutputsOk, Table,
         CheckIncoming, BaseKinds, RawDigest, Unique;
    SceneValid(x, a, b, older, generation);
    Tables(x, a, b, older, generation);
    Accepted(x, a, b, older, generation);
    Combined(x, a, b, older, generation);
    DependenciesMet(x, a, b, older, generation);
    Pruned(x, a, b, older, generation);
    assert Table(x.Incoming().reps).Keys == {b};
    assert ReconcileStored(x.Stored(), x.Incoming(), x.resource, "me", {}, generation) == Prune(x.Together());
    assert AcceptIncoming(current, x.Incoming(), x.resource, generation).Ok?;
  }

  lemma Accepted(x: Scene, a: Slot, b: Slot, older: string, generation: string)
    requires SceneOk(x, a, b, older, generation)
    ensures CheckIncoming(x.Incoming().reps, generation).Ok?
  {
    hide OutputOf, IndependentOutput, UnitsFor, SourceRevision, CheckIncoming, Unique;
    CheckIncomingDecides(x.Incoming().reps, generation);
    Legacies(x.legacy);
  }

  /** When a legacy representation comes in with it, the first call succeeds and its repetition raises. */
  lemma RepetitionRaises(x: Scene, a: Slot, b: Slot, older: string, generation: string, current: Snapshot,
                         later: Snapshot)
    requires SceneOk(x, a, b, older, generation) && x.legacy != []
    requires current.batch == Some(x.Stored()) && later.batch == Some(x.Left())
    requires current.state.resourceId == later.state.resourceId == x.resource.id
    ensures Reconcile(current, Some(x.Incoming()), x.resource, "me", {}) == Ok(later.batch)
    ensures Reconcile(later, Some(x.Incoming()), x.resource, "me", {}).Err?
  {
    hide OutputOf, OutputLike, IndependentOutput, Graph.Valid, UnitsFor, SourceRevision, OutputsOk, Table, Reconcile,
         Unique,
         Condemned;
    DroppedSilently(x, a, b, older, generation, current);
    SceneValid(x, a, b, older, generation);
    Tables(x, a, b, older, generation);
    DependentCondemned(x, a, b, older, generation);
    CondemnedDefeats(current, Some(x.Incoming()), x.resource, "me", {}, later);
  }

  lemma DependentCondemned(x: Scene, a: Slot, b: Slot, older: string, generation: string)
    requires SceneOk(x, a, b, older, generation) && OutputsOk(x.Incoming().reps)
    ensures Condemned(x.Stored(), x.Incoming(), x.resource, "me", {}, b)
  {
    hide OutputOf, IndependentOutput, Graph.Valid, UnitsFor, SourceRevision, OutputsOk, Table, Unique, Combine,
         OldSlots;
    Tables(x, a, b, older, generation);
    Combined(x, a, b, older, generation);
    StaleIsPreserved(x, a, b, older, generation);
    var g := Pending(Just(Table(x.Together().reps)));
    var d := Dependency(a, OutOf(x.stale).artifactRevision);
    assert d in OutOf(x.dependent).dependencies;
    assert IsPath(g, [b, a]);
  }

  // ---------------------------------------------------------- a member of the family

  function Instance(): Scene {
    Scene(ResourceWith(map["source_revision" := JString("r1")]),
          OutputNamed("one", CAPTION, "r0", "v1", []), UnitNamed("u1", "one"),
          OutputNamed("two", SUMMARY, "r1", "v1", [Dependency(CAPTION, "v1")]), UnitNamed("u2", "two"),
          [LegacyNamed("three", Unset)], [UnitNamed("u3", "three")])
  }

  lemma InstanceOk()
    ensures SceneOk(Instance(), CAPTION, SUMMARY, "r0", "r1")
    ensures SceneOk(Instance().(legacy := [], legacyUnits := []), CAPTION, SUMMARY, "r0", "r1")
  {
    hide OutputLike, OutOf, UnitFor;
    var x := Instance();
    Words();
    hide NonBlank;
    assert CAPTION.purpose[0] == 'c' && SUMMARY.purpose[0] == 's';
    Named("one", CAPTION, "r0", "v1", []);
    Named("two", SUMMARY, "r1", "v1", [Dependency(CAPTION, "v1")]);
    UnitMatches("u1", "one", x.stale, x.resource);
    UnitMatches("u2", "two", x.dependent, x.resource);
    UnitMatches("u3", "three", x.legacy[0], x.resource);
    assert ("r0")[1] == '0' && ("r1")[1] == '1';
    assert |"one"| == 3 && |"two"| == 3 && ("one")[0] == 'o' && ("two")[0] == 't' && |"three"| == 5;
    assert ("u1")[1] == '1' && ("u2")[1] == '2' && ("u3")[1] == '3';
  }
}
