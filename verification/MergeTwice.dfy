/** Merging the same addition a second time is a no-op. */
module MergeTwice {
  import opened Sequences
  import opened Graph
  import opened Dependencies
  import opened Merging
  import opened MergeTheorems

  /** A graph whose every declared dependency is present at its declared revision. */
  predicate GraphClosed(b: Batch) {
    OutputsOk(b.reps) && Closed(Just(Table(b.reps)), Table(b.reps).Keys)
  }

  // ------------------------------------------------------------ the checks

  lemma StillBound(current: Snapshot, addition: Batch)
    requires Merge(current, addition).Ok?
    ensures AnyForeign(Merge(current, addition).value.batch.reps, Source(current).value) == Ok(false)
  {
    hide OutputOf, Valid, OutputsOk, Greatest, Candidates, Select, Assemble, ChangedSlots, StaleConsumers, Merge,
         InvalidDependencies, Table, Combined;
    var source := Source(current).value;
    var plan, survivors := MergeFacts(current, addition);
    var prior, m := current.batch.value, Merge(current, addition).value.batch;
    MergedReps(prior, addition, plan, m, survivors);
    AnyForeignDecides(prior.reps, source);
    forall r | r in m.reps ensures SourceBound(r, source) {
      if r !in prior.reps {
        assert Table(addition.reps)[OutOf(r).slot].output.sourceRevision == source;
      }
    }
    AnyForeignDecides(m.reps, source);
  }

  lemma SourceAgain(current: Snapshot, addition: Batch, later: Snapshot)
    requires Merge(current, addition).Ok?
    requires later.batch == Some(Merge(current, addition).value.batch) && later.state.Live()
    requires later.state.namespace == later.batch.value.resource.namespace
    requires later.state.locator == later.batch.value.resource.locator
    ensures Source(later) == Source(current)
  {
    hide OutputOf, Valid, OutputsOk, Greatest, Candidates, Select, Assemble, ChangedSlots, StaleConsumers, Merge,
         MergePlan, Table, Combined, AnyForeign;
    var plan, survivors := MergeFacts(current, addition);
    MergedTable(current.batch.value, addition, plan, later.batch.value, survivors);
    StillBound(current, addition);
  }

  // ------------------------------------------------------------ the spaces

  lemma SpacesAgain(prior: seq<Space>, more: seq<Space>)
    requires MergeSpaces(prior, more).Ok? && Unique(more, SpaceId)
    ensures MergeSpaces(MergeSpaces(prior, more).value, more) == MergeSpaces(prior, more)
  {
    var m := MergeSpaces(prior, more).value;
    var extra := Drop(more, SpaceId, Keys(prior, SpaceId));
    KeepMembers(more, SpaceId, Keys(more, SpaceId) - Keys(prior, SpaceId));
    forall s, t | s in m && t in more && s.id == t.id ensures s == t {
      if s !in prior {
        UniqueMember(more, SpaceId, s, t);
      }
    }
    forall t | t in more ensures SpaceId(t) in Keys(m, SpaceId) {
      assert t in prior || t in extra || SpaceId(t) in Keys(prior, SpaceId);
    }
    KeepNone(more, SpaceId, Keys(more, SpaceId) - Keys(m, SpaceId));
    assert m + [] == m;
  }

  /** The spaces used by vectors of the prior graph are found first, and unchanged. */
  lemma SpacesStable(prior: Batch, more: seq<Space>, m: Batch, vectors: seq<Vector>)
    requires Resolved(prior) && MergeSpaces(prior.spaces, more) == Ok(m.spaces)
    requires forall v :: v in vectors ==> v in prior.vectors
    ensures UsedSpaces(m, vectors) == UsedSpaces(prior, vectors)
  {
    var used := Keys(vectors, VectorSpace);
    var extra := Drop(more, SpaceId, Keys(prior.spaces, SpaceId));
    KeepConcat(prior.spaces, extra, SpaceId, used);
    forall id | id in used ensures id in Keys(prior.spaces, SpaceId) {
      var v :| v in vectors && VectorSpace(v) == id;
      var s :| s in prior.spaces && s.id == v.space;
      assert SpaceId(s) == id;
    }
    KeepMembers(more, SpaceId, Keys(more, SpaceId) - Keys(prior.spaces, SpaceId));
    KeepNone(extra, SpaceId, used);
  }

  // ---------------------------------------------------------- the material

  /** Replaced in place by equal material, an input still shows the same material afterwards. */
  lemma MaterialStable(prior: Batch, addition: Batch, plan: Plan, m: Batch, survivors: set<Slot>, s: Slot)
    requires Merged(prior, addition, plan, m, survivors)
    requires s in Table(addition.reps) && s in Table(prior.reps) && s !in ChangedInputs(prior, addition)
    ensures OutputsOk(m.reps) && s in Table(m.reps) && Owns(Table(m.reps)[s].rep)
    ensures InputMaterial(m, Table(m.reps)[s].rep) == InputMaterial(addition, Table(addition.reps)[s].rep)
  {
    hide OutputOf, OutputsOk, Identified, Owned, Populated, Resolved, Greatest, Candidates, ChangedSlots, Assemble,
         StaleConsumers, Table, Shapes, MergeSpaces, UsedSpaces, Select;
    var r, q := Table(addition.reps)[s].rep, Table(prior.reps)[s].rep;
    IncomingProjection(prior, addition, plan, m, survivors, s);
    var vectors := Projection(addition, r.id).vectors;
    assert InputMaterial(prior, q) == InputMaterial(addition, r);
    assert Projection(prior, q.id).vectors == vectors;
    SelectedVectors(prior, {q.id});
    SpacesStable(prior, addition.spaces, m, vectors);
  }

  lemma SelectedVectors(b: Batch, ids: set<string>)
    ensures forall v :: v in Select(b, ids).vectors ==> v in b.vectors
  {
    KeepMembers(b.vectors, VectorUnit, Keys(Keep(b.units, UnitRep, ids), UnitId));
  }

  lemma CombinedAgain(prior: Batch, addition: Batch, plan: Plan, m: Batch, survivors: set<Slot>)
    requires Merged(prior, addition, plan, m, survivors)
    ensures OutputsOk(m.reps) && Combined(m, addition) == Table(m.reps)
  {
    hide OutputOf, OutputsOk, Valid, Greatest, Candidates, ChangedSlots, Assemble, Table, StaleConsumers, MergeSpaces;
    MergedTable(prior, addition, plan, m, survivors);
  }

  /** No retained consumer is stale the second time, if none was dangling before the first. */
  lemma NoStaleConsumers(prior: Batch, addition: Batch, plan: Plan, m: Batch, survivors: set<Slot>)
    requires Merged(prior, addition, plan, m, survivors) && GraphClosed(prior)
    ensures OutputsOk(m.reps) && StaleConsumers(m, addition) == {}
  {
    hide OutputOf, OutputsOk, Valid, Greatest, Candidates, ChangedSlots, Assemble, Table, InputMaterial, MergeSpaces;
    MergedTable(prior, addition, plan, m, survivors);
    CombinedAgain(prior, addition, plan, m, survivors);
    forall s | s in StaleConsumers(m, addition) ensures false {
      var d :| d in Needs(Table(m.reps)[s].output) * ChangedInputs(m, addition);
      assert s in Table(prior.reps) && s !in StaleConsumers(prior, addition);
      var dependency :| dependency in Table(prior.reps)[s].output.dependencies && dependency.slot == d;
      assert Met(Just(Table(prior.reps)), Table(prior.reps).Keys, dependency);
      assert d !in Needs(Table(prior.reps)[s].output) * ChangedInputs(prior, addition);
      MaterialStable(prior, addition, plan, m, survivors, d);
    }
  }

  lemma NothingChanged(prior: Batch, addition: Batch, plan: Plan, m: Batch, survivors: set<Slot>)
    requires Merged(prior, addition, plan, m, survivors)
    ensures OutputsOk(m.reps) && ChangedSlots(m, addition) == {}
  {
    hide OutputOf, OutputsOk, Valid, Greatest, Candidates, Assemble, Table, MergeSpaces, StaleConsumers, Select;
    MergedTable(prior, addition, plan, m, survivors);
    forall s | s in Table(addition.reps) ensures s !in ChangedSlots(m, addition) {
      IncomingProjection(prior, addition, plan, m, survivors, s);
    }
  }

  /** The second merge of an addition, on the graph the first one left. */
  predicate SeesOwnEffect(current: Snapshot, addition: Batch, later: Snapshot) {
    && Merge(current, addition).Ok?
    && later.batch == Some(Merge(current, addition).value.batch) && later.state.Live()
    && later.state.namespace == later.batch.value.resource.namespace
    && later.state.locator == later.batch.value.resource.locator
  }

  lemma PlanAgain(current: Snapshot, addition: Batch, later: Snapshot)
    requires SeesOwnEffect(current, addition, later) && OutputsOk(later.batch.value.reps)
    requires StaleConsumers(later.batch.value, addition) == {}
    ensures MergePlan(later, addition) == Ok(Plan({}, {}))
  {
    hide OutputOf, Valid, OutputsOk, Greatest, Select, Assemble, ChangedSlots, StaleConsumers, Merge, Source, Round,
         Table, Acyclic, Pending;
    SourceAgain(current, addition, later);
    var plan, survivors := MergeFacts(current, addition);
    var prior, m := current.batch.value, later.batch.value;
    CombinedAgain(prior, addition, plan, m, survivors);
    NothingChanged(prior, addition, plan, m, survivors);
    SurvivorsAreGreatest(current, addition);
    var t := Just(Table(m.reps));
    assert Candidates(m, addition) == t by {
      assert Table(m.reps) - {} == Table(m.reps);
    }
    AcyclicSubset(t, Just(Combined(prior, addition)));
    ClosedHasNoInvalid(t, Table(addition.reps).Keys);
    assert InvalidDependencies(t, Table(addition.reps).Keys) == Ok({});
    assert MergePlan(current, addition).Ok?;
    assert m.resource == prior.resource;
    var none: set<Slot> := {};
    assert none + none == none;
  }

  /** Keeping everything and adding nothing rebuilds the graph as it was. */
  lemma AssembleNothing(m: Batch, addition: Batch)
    requires Valid(m) && OutputsOk(m.reps) && OutputsOk(addition.reps)
    ensures Assemble(m, addition, Plan({}, {}), m.spaces) == m
    ensures Report(m, addition, Plan({}, {}), m) == MergeResult(m, [], [], Ids(m.reps), [])
  {
    hide OutputOf, OutputsOk, Owned, Populated, Identified, Table, Resolved;
    var none: set<string> := {};
    var nothing := Plan({}, {});
    assert OwnerIds(Table(m.reps), {}) == none && OwnerIds(Table(addition.reps), {}) == none;
    assert nothing.changed + nothing.invalid == {} && nothing.changed - nothing.invalid == {};
    assert nothing.changed - Table(m.reps).Keys == {};
    assert KeptIds(m, nothing) == Keys(m.reps, RepId);
    assert NewIds(addition, nothing) == none;
    SelectAll(m, Keys(m.reps, RepId));
    KeepNone(addition.reps, RepId, none);
    KeepNone(addition.units, UnitRep, none);
    assert Keys([], UnitId) == none;
    KeepNone(addition.vectors, VectorUnit, none);
    KeepNone(m.reps, RepId, none);
    var part := Join(Select(m, KeptIds(m, nothing)), Select(addition, none));
    assert part == Part(m.reps + [], m.units + [], m.vectors + []);
  }

  lemma MergeAgainWithout(current: Snapshot, addition: Batch, later: Snapshot)
    requires SeesOwnEffect(current, addition, later) && OutputsOk(later.batch.value.reps)
    requires StaleConsumers(later.batch.value, addition) == {}
    ensures Merge(later, addition) ==
            Ok(MergeResult(later.batch.value, [], [], Ids(later.batch.value.reps), []))
  {
    hide OutputOf, OutputsOk, Greatest, Select, Assemble, ChangedSlots, StaleConsumers, Source, Round,
         Table, Acyclic, Pending, Report, Candidates, MergePlan, MergeSpaces, Owned, Resolved, Populated;
    PlanAgain(current, addition, later);
    AssembleNothing(later.batch.value, addition);
    SpacesAgain(current.batch.value.spaces, addition.spaces);
  }

  lemma MergeAgainDrops(later: Snapshot, addition: Batch)
    requires Merge(later, addition).Ok? && OutputsOk(later.batch.value.reps)
    requires StaleConsumers(later.batch.value, addition) != {}
    requires Combined(later.batch.value, addition) == Table(later.batch.value.reps)
    ensures Merge(later, addition).value.batch != later.batch.value
  {
    hide OutputOf, OutputsOk, Merge, Met, Table, Cyclic, ChangedInputs, Needs, Source, Valid, StaleConsumers, MergePlan;
    SurvivorsAreGreatest(later, addition);
    var s :| s in StaleConsumers(later.batch.value, addition);
    assert s !in Candidates(later.batch.value, addition);
    assert s in Table(later.batch.value.reps) by {
      ConsumersAreActive(later.batch.value, addition);
    }
  }

  lemma ConsumersAreActive(b: Batch, addition: Batch)
    requires OutputsOk(b.reps) && OutputsOk(addition.reps)
    ensures StaleConsumers(b, addition) <= Combined(b, addition).Keys
  {
    hide OutputOf, OutputsOk, Table, ChangedInputs;
  }

  lemma MergeAgainByConsumers(current: Snapshot, addition: Batch, later: Snapshot)
    requires SeesOwnEffect(current, addition, later)
    ensures OutputsOk(later.batch.value.reps)
    ensures Merge(later, addition).Ok? && Merge(later, addition).value.batch == later.batch.value
            <==> StaleConsumers(later.batch.value, addition) == {}
  {
    hide Merge, MergePlan, OutputsOk, StaleConsumers, Merged, Combined, Table;
    var plan, survivors := MergeFacts(current, addition);
    CombinedAgain(current.batch.value, addition, plan, later.batch.value, survivors);
    if StaleConsumers(later.batch.value, addition) == {} {
      MergeAgainWithout(current, addition, later);
    } else if Merge(later, addition).Ok? {
      MergeAgainDrops(later, addition);
    }
  }

  /** The spaces an incoming output uses come in another order in the merged graph than in the addition. */
  predicate Reordered(prior: Batch, addition: Batch, s: Slot)
    requires OutputsOk(addition.reps) && s in Table(addition.reps)
  {
    var used := Keys(Projection(addition, Table(addition.reps)[s].rep.id).vectors, VectorSpace);
    var merged := MergeSpaces(prior.spaces, addition.spaces);
    merged.Ok? && Keep(merged.value, SpaceId, used) != Keep(addition.spaces, SpaceId, used)
  }

  /** A retained output depended on a slot that was not there; the addition brings it at the revision
      declared, so that the output can stay. */
  ghost predicate Revived(prior: Batch, addition: Batch, t: Slot, s: Slot)
    requires OutputsOk(prior.reps) && OutputsOk(addition.reps)
  {
    && t in Table(prior.reps) && t !in Table(addition.reps) && s in Needs(Table(prior.reps)[t].output)
    && s in Table(addition.reps) && s !in Table(prior.reps)
    && exists w :: Closed(Candidates(prior, addition), w) && t in w
  }

  /** The material of an incoming output reads differently in the merged graph exactly when its spaces
      are reordered. */
  lemma MaterialReordered(prior: Batch, addition: Batch, plan: Plan, m: Batch, survivors: set<Slot>, s: Slot)
    requires Merged(prior, addition, plan, m, survivors) && s in Table(addition.reps)
    ensures OutputsOk(m.reps) && s in Table(m.reps)
    ensures s in ChangedInputs(m, addition) <==> Reordered(prior, addition, s)
  {
    hide OutputOf, OutputsOk, Valid, Greatest, Candidates, ChangedSlots, Assemble, StaleConsumers, Table, Shapes,
         MergeSpaces, Select, Keep;
    IncomingProjection(prior, addition, plan, m, survivors, s);
  }

  lemma StaleAgain(prior: Batch, addition: Batch, plan: Plan, m: Batch, survivors: set<Slot>)
    requires Merged(prior, addition, plan, m, survivors)
    ensures OutputsOk(m.reps)
    ensures StaleConsumers(m, addition) != {} <==>
            exists t, s :: Revived(prior, addition, t, s) && Reordered(prior, addition, s)
  {
    hide OutputOf, OutputsOk, Valid, Greatest, ChangedSlots, Assemble, Table, InputMaterial, MergeSpaces, Reordered,
         Candidates;
    MergedTable(prior, addition, plan, m, survivors);
    CombinedAgain(prior, addition, plan, m, survivors);
    if StaleConsumers(m, addition) != {} {
      var t :| t in StaleConsumers(m, addition);
      var s :| s in Needs(Table(m.reps)[t].output) * ChangedInputs(m, addition);
      MaterialReordered(prior, addition, plan, m, survivors, s);
      assert t in Table(prior.reps) && t !in StaleConsumers(prior, addition);
      if s in Table(prior.reps) {
        assert s !in Needs(Table(prior.reps)[t].output) * ChangedInputs(prior, addition);
        MaterialStable(prior, addition, plan, m, survivors, s);
      }
      GreatestIsClosed(Candidates(prior, addition), survivors);
      assert Revived(prior, addition, t, s);
    }
    forall t, s | Revived(prior, addition, t, s) && Reordered(prior, addition, s)
      ensures t in StaleConsumers(m, addition)
    {
      MaterialReordered(prior, addition, plan, m, survivors, s);
      var w :| Closed(Candidates(prior, addition), w) && t in w;
      GreatestHolds(Candidates(prior, addition), survivors, w);
      assert s in Needs(Table(m.reps)[t].output) * ChangedInputs(m, addition);
    }
  }

  lemma GreatestIsClosed(active: map<Slot, Output>, survivors: set<Slot>)
    requires Greatest(active, survivors)
    ensures Closed(active, survivors)
  {
  }

  lemma GreatestHolds(active: map<Slot, Output>, survivors: set<Slot>, w: set<Slot>)
    requires Greatest(active, survivors) && Closed(active, w)
    ensures w <= survivors
  {
  }

  /** From an arbitrary graph, and of what the first call was given: the second merge is a no-op exactly
      when the addition does not revive a retained output through an input whose spaces it lists in
      another order than the merged graph does. */
  lemma MergeAgainExactly(current: Snapshot, addition: Batch, later: Snapshot)
    requires SeesOwnEffect(current, addition, later)
    ensures var prior := current.batch.value;
            && OutputsOk(prior.reps) && OutputsOk(addition.reps)
            && (Merge(later, addition).Ok? && Merge(later, addition).value.batch == later.batch.value
                <==> !exists t, s :: Revived(prior, addition, t, s) && Reordered(prior, addition, s))
  {
    hide Merge, MergePlan, OutputsOk, StaleConsumers, Combined, Table, Revived, Reordered, Valid, Greatest,
         Candidates, ChangedSlots,
         MergeSpaces, Assemble;
    var plan, survivors := MergeFacts(current, addition);
    StaleAgain(current.batch.value, addition, plan, later.batch.value, survivors);
    MergeAgainByConsumers(current, addition, later);
  }

  /** From a dependency-closed graph, merging an addition into the result of merging it changes
      nothing: the graph is exactly the same and every representation is reported preserved. A lost
      response is therefore recognised, not written twice. */
  lemma MergeAgain(current: Snapshot, addition: Batch, later: Snapshot)
    requires SeesOwnEffect(current, addition, later) && GraphClosed(current.batch.value)
    ensures Merge(later, addition) ==
            Ok(MergeResult(later.batch.value, [], [], Ids(later.batch.value.reps), []))
  {
    hide Merge, MergePlan, OutputsOk, StaleConsumers, Merged, Combined, Table, GraphClosed;
    var plan, survivors := MergeFacts(current, addition);
    NoStaleConsumers(current.batch.value, addition, plan, later.batch.value, survivors);
    MergeAgainWithout(current, addition, later);
  }

  /** Every merge result is dependency-closed, whatever graph it started from. */
  lemma MergeCloses(current: Snapshot, addition: Batch)
    requires Merge(current, addition).Ok?
    ensures GraphClosed(Merge(current, addition).value.batch)
  {
    hide OutputOf, OutputsOk, Merge, Closed, Table, Greatest, Candidates, Cyclic, Combined;
    SurvivorsAreGreatest(current, addition);
  }
}
