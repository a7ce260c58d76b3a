/** Merges whose repetition is not a no-op: the addition revives a waiting output through an input whose
    spaces it lists in another order than the graph does, and the second merge takes that for a change. */
module ReorderedSpaces {
  import opened Sequences
  import opened Graph
  import opened Dependencies
  import opened Merging
  import opened MergeTheorems
  import opened MergeTwice
  import opened SmallGraphs

  /** `waiting` is stored and depends on the slot that `input` brings; the two spaces swap places. */
  datatype Scene = Scene(resource: Resource, waiting: Rep, waitingUnit: Unit, input: Rep, inputUnit: Unit,
                         first: Space, second: Space, one: Vector, two: Vector)
  {
    function Stored(): Batch { Batch(resource, [waiting], [waitingUnit], [first, second], [], []) }

    function Addition(): Batch { Batch(resource, [input], [inputUnit], [second, first], [one, two], []) }

    function Merged(): Batch {
      Batch(resource, [waiting, input], [waitingUnit, inputUnit], [first, second], [one, two], [])
    }
  }

  predicate SceneOk(x: Scene, a: Slot, b: Slot, generation: string) {
    && SourceRevision(x.resource) == Ok(generation) && a != b
    && OutputLike(x.input, a, generation, [])
    && OutputLike(x.waiting, b, generation, [Dependency(a, OutOf(x.input).artifactRevision)])
    && UnitFor(x.waitingUnit, x.waiting, x.resource) && UnitFor(x.inputUnit, x.input, x.resource)
    && x.waiting.id != x.input.id && x.waitingUnit.id != x.inputUnit.id && x.first.id != x.second.id
    && x.one.unit == x.two.unit == x.inputUnit.id && x.one.space == x.first.id && x.two.space == x.second.id
    && |x.one.values| == x.first.dimensions && |x.two.values| == x.second.dimensions
  }

  predicate Bound(s: Snapshot, b: Batch) {
    s.batch == Some(b) && s.state.Live() && s.state.namespace == b.resource.namespace
        && s.state.locator == b.resource.locator
  }

  lemma SpacesAttached(x: Scene, a: Slot, b: Slot, generation: string, units: seq<Unit>)
    requires SceneOk(x, a, b, generation)
    ensures Attached([x.first, x.second], [], units)
    ensures x.inputUnit in units ==>
              Attached([x.first, x.second], [x.one, x.two], units)
                  && Attached([x.second, x.first], [x.one, x.two], units)
  {
    hide OutputLike, UnitFor, SourceRevision;
    var s, t := [x.first, x.second], [x.second, x.first];
    assert s[0] == t[1] == x.first && s[1] == t[0] == x.second;
  }

  lemma SceneValid(x: Scene, a: Slot, b: Slot, generation: string)
    requires SceneOk(x, a, b, generation)
    ensures Graph.Valid(x.Stored()) && Graph.Valid(x.Addition()) && Graph.Valid(x.Merged())
  {
    hide Graph.Valid, OutputLike, UnitFor, Attached, SourceRevision;
    OneUnit(x.waitingUnit, x.waiting, x.resource);
    OneUnit(x.inputUnit, x.input, x.resource);
    SpacesAttached(x, a, b, generation, [x.waitingUnit]);
    SpacesAttached(x, a, b, generation, [x.inputUnit]);
    SpacesAttached(x, a, b, generation, [x.waitingUnit, x.inputUnit]);
    SmallIsValid(x.resource, [x.waiting], [x.waitingUnit], [x.first, x.second], []);
    SmallIsValid(x.resource, [x.input], [x.inputUnit], [x.second, x.first], [x.one, x.two]);
    SmallIsValid(x.resource, [x.waiting, x.input], [x.waitingUnit, x.inputUnit], [x.first, x.second], [x.one, x.two]);
  }

  lemma Tables(x: Scene, a: Slot, b: Slot, generation: string)
    requires SceneOk(x, a, b, generation)
    ensures OutputsOk(x.Stored().reps) && Table(x.Stored().reps) == map[b := Owner(x.waiting, OutOf(x.waiting))]
    ensures OutputsOk(x.Addition().reps) && Table(x.Addition().reps) == map[a := Owner(x.input, OutOf(x.input))]
  {
    hide OutputOf, IndependentOutput, UnitFor, SourceRevision;
    assert x.Stored().reps[0] == x.waiting && x.Addition().reps[0] == x.input;
    TableDetermined(x.Stored().reps, map[b := Owner(x.waiting, OutOf(x.waiting))]);
    TableDetermined(x.Addition().reps, map[a := Owner(x.input, OutOf(x.input))]);
  }

  /** Nothing is stale the first time: the input is new. */
  lemma FirstPlan(x: Scene, a: Slot, b: Slot, generation: string)
    requires SceneOk(x, a, b, generation)
    ensures OutputsOk(x.Stored().reps) && OutputsOk(x.Addition().reps)
    ensures var all := map[b := OutOf(x.waiting), a := OutOf(x.input)];
            && Candidates(x.Stored(), x.Addition()) == Just(Combined(x.Stored(), x.Addition())) == all
            && StaleConsumers(x.Stored(), x.Addition()) == {} && Closed(all, {a, b})
    ensures PlanFor(x.Stored(), x.Addition(), generation) == Ok(Plan({a}, {}))
  {
    hide OutputOf, IndependentOutput, UnitFor, SourceRevision, OutputsOk, Table, Select, Acyclic, InputMaterial;
    var p, q := x.Stored(), x.Addition();
    Tables(x, a, b, generation);
    assert ChangedInputs(p, q) == {};
    assert StaleConsumers(p, q) == {};
    var none: set<Slot> := {};
    assert Combined(p, q) - none == Combined(p, q);
    var all := Candidates(p, q);
    assert all.Keys == {a, b};
    assert Closed(all, {a, b});
    NoCycle(Pending(all), a, b);
    AcyclicDecides(Pending(all));
    ClosedHasNoInvalid(all, {a});
    assert ChangedSlots(p, q) == {a};
    assert q.reps == [x.input];
    assert none + none == none;
  }

  lemma SourceHere(x: Scene, a: Slot, b: Slot, generation: string, current: Snapshot)
    requires SceneOk(x, a, b, generation) && Bound(current, x.Stored())
    ensures Source(current) == Ok(generation)
  {
    hide OutputOf, IndependentOutput, UnitFor, SourceRevision, OutputsOk, Table, Graph.Valid, AnyForeign;
    SceneValid(x, a, b, generation);
    Tables(x, a, b, generation);
    assert x.Stored().reps == [x.waiting];
    AnyForeignDecides(x.Stored().reps, generation);
  }

  lemma SpacesKept(x: Scene)
    requires x.first.id != x.second.id
    ensures MergeSpaces(x.Stored().spaces, x.Addition().spaces) == Ok([x.first, x.second])
  {
    var p, q := [x.first, x.second], [x.second, x.first];
    assert p[0] == x.first && p[1] == x.second && q[0] == x.second && q[1] == x.first;
    assert Keys(p, SpaceId) == Keys(q, SpaceId);
    KeepNone(q, SpaceId, Keys(q, SpaceId) - Keys(p, SpaceId));
    assert p + [] == p;
  }

  lemma Assembled(x: Scene, a: Slot, b: Slot, generation: string)
    requires SceneOk(x, a, b, generation) && OutputsOk(x.Stored().reps) && OutputsOk(x.Addition().reps)
    ensures Assemble(x.Stored(), x.Addition(), Plan({a}, {}), [x.first, x.second]) == x.Merged()
  {
    hide OutputLike, SourceRevision, OutputsOk, Table, OutOf, Graph.Valid, Resolved, Select;
    var p, q, plan := x.Stored(), x.Addition(), Plan({a}, {});
    Tables(x, a, b, generation);
    SceneValid(x, a, b, generation);
    ValidResolved(p);
    ValidResolved(q);
    assert {a} + {} == {a} && OwnerIds(Table(p.reps), {a}) == {};
    assert Keys(p.reps, RepId) - {} == Keys(p.reps, RepId);
    assert NewIds(q, plan) == {x.input.id} by {
      assert Table(q.reps)[a].rep == x.input;
    }
    assert forall r :: r in q.reps ==> RepId(r) in {x.input.id};
    SelectAll(p, Keys(p.reps, RepId));
    SelectAll(q, {x.input.id});
    assert [x.waiting] + [x.input] == x.Merged().reps && [x.waitingUnit] + [x.inputUnit] == x.Merged().units;
    assert [] + [x.one, x.two] == x.Merged().vectors;
  }

  lemma ValidResolved(b: Batch)
    requires Graph.Valid(b)
    ensures Resolved(b)
  {
  }

  /** The first merge keeps everything and adds the input. */
  lemma FirstMerge(x: Scene, a: Slot, b: Slot, generation: string, current: Snapshot)
    requires SceneOk(x, a, b, generation) && Bound(current, x.Stored())
    ensures Merge(current, x.Addition()).Ok? && Merge(current, x.Addition()).value.batch == x.Merged()
  {
    hide OutputOf, OutputLike, UnitFor, SourceRevision, OutputsOk, Graph.Valid, Source, PlanFor, Assemble,
         MergeSpaces, Report;
    SourceHere(x, a, b, generation, current);
    FirstPlan(x, a, b, generation);
    SceneValid(x, a, b, generation);
    SpacesKept(x);
    Assembled(x, a, b, generation);
  }

  lemma Swapped(x: Scene, a: Slot, b: Slot, generation: string)
    requires SceneOk(x, a, b, generation) && OutputsOk(x.Addition().reps) && a in Table(x.Addition().reps)
    ensures Reordered(x.Stored(), x.Addition(), a)
  {
    hide OutputLike, SourceRevision, OutputsOk, Table, OutOf, Graph.Valid, MergeSpaces, Select, Resolved;
    var p, q := x.Stored(), x.Addition();
    Tables(x, a, b, generation);
    SpacesKept(x);
    SceneValid(x, a, b, generation);
    ValidResolved(q);
    assert forall r :: r in q.reps ==> RepId(r) in {x.input.id};
    SelectAll(q, {x.input.id});
    var used := Keys([x.one, x.two], VectorSpace);
    assert VectorSpace(x.one) in used && VectorSpace(x.two) in used;
    KeepAll([x.first, x.second], SpaceId, used);
    KeepAll([x.second, x.first], SpaceId, used);
    assert [x.first, x.second][0] != [x.second, x.first][0];
  }

  /** Merging the same addition again does not leave the graph as it is. */
  lemma SecondMergeChanges(x: Scene, a: Slot, b: Slot, generation: string, current: Snapshot, later: Snapshot)
    requires SceneOk(x, a, b, generation) && Bound(current, x.Stored()) && Bound(later, x.Merged())
    ensures Merge(current, x.Addition()).Ok? && later.batch == Some(Merge(current, x.Addition()).value.batch)
    ensures !(Merge(later, x.Addition()).Ok? && Merge(later, x.Addition()).value.batch == later.batch.value)
  {
    hide OutputOf, OutputLike, UnitFor, SourceRevision, OutputsOk, Graph.Valid, Merge, PlanFor, Reordered, Candidates,
         Table,
         StaleConsumers, Combined;
    FirstMerge(x, a, b, generation, current);
    Tables(x, a, b, generation);
    FirstPlan(x, a, b, generation);
    Swapped(x, a, b, generation);
    Waits(x, a, b, generation);
    MergeAgainExactly(current, x.Addition(), later);
    assert Revived(x.Stored(), x.Addition(), b, a) && Reordered(x.Stored(), x.Addition(), a);
  }

  lemma Waits(x: Scene, a: Slot, b: Slot, generation: string)
    requires SceneOk(x, a, b, generation) && OutputsOk(x.Stored().reps) && OutputsOk(x.Addition().reps)
    ensures Revived(x.Stored(), x.Addition(), b, a)
  {
    hide OutputOf, UnitFor, SourceRevision, OutputsOk, Table, Candidates, StaleConsumers, Combined, Closed,
         IndependentOutput;
    Tables(x, a, b, generation);
    FirstPlan(x, a, b, generation);
    assert Dependency(a, OutOf(x.input).artifactRevision) in OutOf(x.waiting).dependencies;
    assert b in {a, b};
  }

  // ---------------------------------------------------------- a member of the family

  function Instance(): Scene {
    Scene(ResourceWith(map["source_revision" := JString("r1")]),
          OutputNamed("two", SUMMARY, "r1", "v1", [Dependency(CAPTION, "v1")]), UnitNamed("u2", "two"),
          OutputNamed("one", CAPTION, "r1", "v1", []), UnitNamed("u1", "one"),
          Space("s1", 1, "cosine", "f"), Space("s2", 1, "cosine", "g"),
          Vector("u1", "s1", [1.0]), Vector("u1", "s2", [1.0]))
  }

  lemma InstanceOk()
    ensures SceneOk(Instance(), CAPTION, SUMMARY, "r1")
  {
    hide OutputLike, OutOf, UnitFor;
    var x := Instance();
    Words();
    hide NonBlank;
    assert CAPTION.purpose[0] == 'c' && SUMMARY.purpose[0] == 's';
    Named("one", CAPTION, "r1", "v1", []);
    Named("two", SUMMARY, "r1", "v1", [Dependency(CAPTION, "v1")]);
    UnitMatches("u1", "one", x.input, x.resource);
    UnitMatches("u2", "two", x.waiting, x.resource);
    assert ("one")[0] == 'o' && ("two")[0] == 't';
    assert ("u1")[1] == '1' && ("u2")[1] == '2' && ("s1")[1] == '1' && ("s2")[1] == '2';
  }
}
