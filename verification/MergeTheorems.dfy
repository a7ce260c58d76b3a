/** What a merge keeps, replaces and drops, and that repeating it changes nothing. */
module MergeTheorems {
  import opened Sequences
  import opened Graph
  import opened Dependencies
  import opened Merging

  // ------------------------------------------------------- material, on records

  function UnitsOf(b: Batch, id: string): seq<Unit> { Keep(b.units, UnitRep, {id}) }

  function VectorsOf(b: Batch, id: string): seq<Vector> {
    Keep(b.vectors, VectorUnit, Keys(UnitsOf(b, id), UnitId))
  }

  function SpacesOf(b: Batch, id: string): seq<Space> {
    Keep(b.spaces, SpaceId, Keys(VectorsOf(b, id), VectorSpace))
  }

  /** Units that differ in their text at most. */
  predicate SameShape(u: Unit, w: Unit) {
    && u.id == w.id && u.kind == w.kind && u.modality == w.modality && u.evidence == w.evidence
    && u.ordinal == w.ordinal && u.tokens == w.tokens && u.tokensKind == w.tokensKind && u.metadata == w.metadata
  }

  /** Two outputs a consumer cannot tell apart: the same labels, body digest and fingerprint, the same kind,
      modality, producer and language, the same units up to their text, and the same vectors and spaces. */
  predicate SameMaterial(a: Batch, x: Rep, b: Batch, y: Rep)
    requires Owns(x) && Owns(y)
  {
    && OutOf(x).artifactRevision == OutOf(y).artifactRevision
    && x.provenance.digest == y.provenance.digest && x.provenance.fingerprint == y.provenance.fingerprint
    && x.kind == y.kind && x.modality == y.modality && x.language == y.language
    && x.producerFingerprint == y.producerFingerprint
    && |UnitsOf(a, x.id)| == |UnitsOf(b, y.id)|
    && (forall k :: 0 <= k < |UnitsOf(a, x.id)| ==> SameShape(UnitsOf(a, x.id)[k], UnitsOf(b, y.id)[k]))
    && VectorsOf(a, x.id) == VectorsOf(b, y.id) && SpacesOf(a, x.id) == SpacesOf(b, y.id)
  }

  lemma ShapesAgree(a: seq<Unit>, b: seq<Unit>)
    ensures Shapes(a) == Shapes(b) <==> |a| == |b| && forall k :: 0 <= k < |a| ==> SameShape(a[k], b[k])
  {
    var x, y := Shapes(a), Shapes(b);
    if |a| == |b| && forall k :: 0 <= k < |a| ==> SameShape(a[k], b[k]) {
      forall k | 0 <= k < |x| ensures x[k] == y[k] {
        assert SameShape(a[k], b[k]);
      }
      assert x == y;
    }
    if x == y {
      forall k | 0 <= k < |a| ensures SameShape(a[k], b[k]) {
        assert x[k] == y[k];
      }
    }
  }

  /** What the merge and the freshness check compare is exactly that. */
  lemma MaterialAgrees(a: Batch, x: Rep, b: Batch, y: Rep)
    requires Owns(x) && Owns(y)
    ensures InputMaterial(a, x) == InputMaterial(b, y) <==> SameMaterial(a, x, b, y)
  {
    hide Shapes, Keep;
    ShapesAgree(UnitsOf(a, x.id), UnitsOf(b, y.id));
  }

  predicate DependsOn(o: Output, s: Slot) { exists d :: d in o.dependencies && d.slot == s }

  /** A retained output that depends on a slot whose material the addition changes. */
  predicate ReadsChanged(prior: Batch, addition: Batch, t: Slot)
    requires OutputsOk(prior.reps) && OutputsOk(addition.reps)
  {
    && t in Table(prior.reps) && t !in Table(addition.reps)
    && exists s :: && s in Table(prior.reps) && s in Table(addition.reps) && DependsOn(Table(prior.reps)[t].output, s)
                   && !SameMaterial(prior, Table(prior.reps)[s].rep, addition, Table(addition.reps)[s].rep)
  }

  lemma StaleMeans(prior: Batch, addition: Batch)
    requires OutputsOk(prior.reps) && OutputsOk(addition.reps)
    ensures forall t :: t in StaleConsumers(prior, addition) <==> ReadsChanged(prior, addition, t)
  {
    hide OutputOf, OutputsOk, Table, InputMaterial, SameMaterial;
    var before, incoming := Table(prior.reps), Table(addition.reps);
    forall s | s in before && s in incoming
      ensures s in ChangedInputs(prior, addition) <==> !SameMaterial(prior, before[s].rep, addition, incoming[s].rep)
    {
      MaterialAgrees(prior, before[s].rep, addition, incoming[s].rep);
    }
    forall t | ReadsChanged(prior, addition, t) ensures t in StaleConsumers(prior, addition) {
      var s :| && s in before && s in incoming && DependsOn(before[t].output, s)
               && !SameMaterial(prior, before[s].rep, addition, incoming[s].rep);
      assert s in Needs(before[t].output) * ChangedInputs(prior, addition);
    }
    forall t | t in StaleConsumers(prior, addition) ensures ReadsChanged(prior, addition, t) {
      var s :| s in Needs(Combined(prior, addition)[t].output) * ChangedInputs(prior, addition);
      assert DependsOn(before[t].output, s);
    }
  }

  /** The slots a merge chooses from: those combined, without retained readers of changed material. */
  function Choices(prior: Batch, addition: Batch): map<Slot, Output>
    requires OutputsOk(prior.reps) && OutputsOk(addition.reps)
  {
    var all := Table(prior.reps) + Table(addition.reps);
    map t | t in all && !ReadsChanged(prior, addition, t) :: all[t].output
  }

  lemma ChoicesAreCandidates(prior: Batch, addition: Batch)
    requires OutputsOk(prior.reps) && OutputsOk(addition.reps)
    ensures Choices(prior, addition) == Candidates(prior, addition)
  {
    hide OutputOf, OutputsOk, Table, StaleConsumers, ReadsChanged;
    StaleMeans(prior, addition);
  }

  /** The facts of one successful merge, with the greatest closed set it is built from. */
  ghost predicate Merged(prior: Batch, addition: Batch, plan: Plan, m: Batch, survivors: set<Slot>) {
    && Valid(prior) && OutputsOk(prior.reps) && Valid(addition) && OutputsOk(addition.reps) && Valid(m)
    && (forall r :: r in addition.reps ==> Owns(r))
    && Greatest(Candidates(prior, addition), survivors)
    && Table(addition.reps).Keys <= survivors
    && plan == Plan(ChangedSlots(prior, addition),
                    StaleConsumers(prior, addition) + (Candidates(prior, addition).Keys - survivors))
    && MergeSpaces(prior.spaces, addition.spaces) == Ok(m.spaces)
    && m == Assemble(prior, addition, plan, m.spaces)
  }

  lemma IncomingAreCandidates(prior: Batch, addition: Batch)
    requires OutputsOk(prior.reps) && OutputsOk(addition.reps)
    ensures Table(addition.reps).Keys <= Candidates(prior, addition).Keys
  {
    hide OutputsOk, OutputOf, ChangedInputs, Needs, Table;
  }

  lemma MergeFacts(current: Snapshot, addition: Batch) returns (plan: Plan, survivors: set<Slot>)
    requires Merge(current, addition).Ok?
    ensures MergePlan(current, addition) == Ok(plan)
    ensures Merged(current.batch.value, addition, plan, Merge(current, addition).value.batch, survivors)
  {
    hide Valid, OutputsOk, OutputOf, Acyclic, Propagate, ChangedSlots, StaleConsumers, Select, Report, Source,
         MergeSpaces, Candidates, Combined, Assemble, InvalidDependencies, Cyclic, Greatest;
    plan := MergePlan(current, addition).value;
    var prior := current.batch.value;
    var incoming := Table(addition.reps);
    IncomingAreCandidates(prior, addition);
    survivors := InvalidDependenciesDecides(Candidates(prior, addition), incoming.Keys);
    assert incoming.Keys * Candidates(prior, addition).Keys == incoming.Keys;
  }

  lemma OwnerKept(reps: seq<Rep>, leaving: set<Slot>, r: Rep)
    requires Unique(reps, RepId) && OutputsOk(reps) && r in reps
    ensures r.id in OwnerIds(Table(reps), leaving) <==> Owns(r) && OutOf(r).slot in leaving
  {
    var before := Table(reps);
    if r.id in OwnerIds(before, leaving) {
      var s :| s in before && s in leaving && before[s].rep.id == r.id;
      UniqueMember(reps, RepId, r, before[s].rep);
    }
  }

  /** Which representations make up the merged graph. */
  lemma MergedReps(prior: Batch, addition: Batch, plan: Plan, m: Batch, survivors: set<Slot>)
    requires Merged(prior, addition, plan, m, survivors)
    ensures KeptIds(prior, plan) !! NewIds(addition, plan)
    ensures forall r :: r in m.reps <==>
              || (r in prior.reps && !(Owns(r) && OutOf(r).slot in plan.changed + plan.invalid))
              || (r in addition.reps && OutOf(r).slot in plan.changed)
  {
    hide OutputOf, OutputsOk, Owned, Resolved, Populated, ChangedSlots, StaleConsumers, Candidates, Greatest,
         MergeSpaces;
    var kept, added := KeptIds(prior, plan), NewIds(addition, plan);
    var a, b := Keep(prior.reps, RepId, kept), Keep(addition.reps, RepId, added);
    UniqueConcat(a, b, RepId);
    KeysKeep(prior.reps, RepId, kept);
    KeysKeep(addition.reps, RepId, added);
    forall id | id in added ensures id in Keys(addition.reps, RepId) {
      var s :| s in Table(addition.reps) && Table(addition.reps)[s].rep.id == id;
      assert RepId(Table(addition.reps)[s].rep) == id;
    }
    assert Keys(b, RepId) == added && Keys(a, RepId) == kept;
    KeepMembers(prior.reps, RepId, kept);
    KeepMembers(addition.reps, RepId, added);
    forall r | r in prior.reps
      ensures r in a <==> !(Owns(r) && OutOf(r).slot in plan.changed + plan.invalid)
    {
      OwnerKept(prior.reps, plan.changed + plan.invalid, r);
      assert RepId(r) in Keys(prior.reps, RepId);
    }
    forall r | r in addition.reps ensures r in b <==> OutOf(r).slot in plan.changed {
      OwnerKept(addition.reps, plan.changed, r);
    }
  }

  /** An unchanged incoming slot is already owned by the very same representation. */
  lemma UnchangedOwner(prior: Batch, addition: Batch, s: Slot)
    requires Valid(prior) && OutputsOk(prior.reps) && Valid(addition) && OutputsOk(addition.reps)
    requires s in Table(addition.reps) && s !in ChangedSlots(prior, addition)
    ensures s in Table(prior.reps) && Table(prior.reps)[s] == Table(addition.reps)[s]
  {
    hide OutputOf, OutputsOk, Owned, Resolved, Populated;
    var r, q := Table(addition.reps)[s].rep, Table(prior.reps)[s].rep;
    KeepMember(addition.reps, RepId, {r.id}, r);
    KeepMember(prior.reps, RepId, {q.id}, r);
    assert r in Projection(addition, r.id).reps;
    UniqueMember(prior.reps, RepId, r, q);
  }

  lemma MergedOutputs(prior: Batch, addition: Batch, plan: Plan, m: Batch, survivors: set<Slot>)
    requires Merged(prior, addition, plan, m, survivors)
    ensures OutputsOk(m.reps)
  {
    hide OutputOf, OutputsOk, Owned, Resolved, Populated, MergeSpaces, Assemble, Table, Greatest, Candidates,
         ChangedSlots, StaleConsumers;
    MergedReps(prior, addition, plan, m, survivors);
    AllReadable(prior.reps);
    AllReadable(addition.reps);
    forall r, q | r in m.reps && q in m.reps && Owns(r) && Owns(q) && OutOf(r).slot == OutOf(q).slot
      ensures r == q
    {
      if r in prior.reps && q in prior.reps {
        OwnersDistinct(prior.reps, r, q);
      } else if r in addition.reps && q in addition.reps {
        OwnersDistinct(addition.reps, r, q);
      }
    }
    OutputsFromUnique(m.reps);
  }

  lemma AllReadable(reps: seq<Rep>)
    requires OutputsOk(reps)
    ensures forall r :: r in reps ==> OutputOf(r).Ok?
  {
    hide OutputOf;
  }

  /** The slot table after a merge: everything combined, minus what is invalid. */
  lemma MergedTable(prior: Batch, addition: Batch, plan: Plan, m: Batch, survivors: set<Slot>)
    requires Merged(prior, addition, plan, m, survivors)
    ensures OutputsOk(m.reps)
    ensures Table(m.reps) == Combined(prior, addition) - plan.invalid
    ensures Table(m.reps).Keys == survivors
  {
    hide OutputOf, OutputsOk, Owned, Resolved, Populated, MergeSpaces, Assemble, Table, ChangedSlots;
    var before, incoming := Table(prior.reps), Table(addition.reps);
    MergedOutputs(prior, addition, plan, m, survivors);
    MergedReps(prior, addition, plan, m, survivors);
    var t := Combined(prior, addition) - plan.invalid;
    forall s | s in t ensures t[s].rep in m.reps {
      if s in incoming && s !in plan.changed {
        UnchangedOwner(prior, addition, s);
      }
    }
    TableDetermined(m.reps, t);
    assert t.Keys == survivors;
  }

  // ------------------------------------------------------------ survivors

  lemma SurvivorsAreGreatest(current: Snapshot, addition: Batch)
    requires Merge(current, addition).Ok?
    ensures var prior, m := current.batch.value, Merge(current, addition).value.batch;
            && OutputsOk(m.reps)
            && Greatest(Candidates(prior, addition), Table(m.reps).Keys)
            && Table(addition.reps).Keys <= Table(m.reps).Keys
            && (forall s :: s in Table(m.reps) ==>
                  s in Combined(prior, addition) && Table(m.reps)[s] == Combined(prior, addition)[s])
            && !Cyclic(Pending(Just(Combined(prior, addition))))
            && Closed(Just(Table(m.reps)), Table(m.reps).Keys)
  {
    hide OutputOf, Valid, MergeSpaces, Assemble, OutputsOk, Merge, Source, ChangedSlots, Table, ChangedInputs;
    var plan, survivors := MergeFacts(current, addition);
    var prior, m := current.batch.value, Merge(current, addition).value.batch;
    MergedTable(prior, addition, plan, m, survivors);
    AcyclicDecides(Pending(Just(Combined(prior, addition))));
    var t := Just(Table(m.reps));
    forall s, d | s in t && d in t[s].dependencies ensures Met(t, t.Keys, d) {
      assert Met(Candidates(prior, addition), survivors, d);
    }
  }

  /** The active slots of the merged graph are exactly the greatest dependency-closed set drawn from the
      combined slots without the retained readers of changed material, none of which is left; every incoming
      slot is among them, and each survivor is owned by the incoming representation, or else by the retained
      one. */
  ghost predicate Survived(prior: Batch, addition: Batch, m: Batch) {
    && OutputsOk(prior.reps) && OutputsOk(addition.reps) && OutputsOk(m.reps)
    && Greatest(Choices(prior, addition), Table(m.reps).Keys)
    && (forall t :: ReadsChanged(prior, addition, t) ==> t !in Table(m.reps))
    && (forall s :: s in Table(addition.reps) ==> s in Table(m.reps) && Table(m.reps)[s] == Table(addition.reps)[s])
    && (forall s :: s in Table(m.reps) && s !in Table(addition.reps) ==>
          s in Table(prior.reps) && Table(m.reps)[s] == Table(prior.reps)[s])
    && !Cyclic(Pending(Just(Table(prior.reps) + Table(addition.reps))))
    && Closed(Just(Table(m.reps)), Table(m.reps).Keys)
  }

  lemma MergeSurvivors(current: Snapshot, addition: Batch)
    requires Merge(current, addition).Ok?
    ensures Survived(current.batch.value, addition, Merge(current, addition).value.batch)
  {
    hide OutputOf, Valid, OutputsOk, Merge, Source, Table, ReadsChanged, Choices, Cyclic, Closed, Candidates,
         Greatest, Pending, Just, Acyclic;
    SurvivorsAreGreatest(current, addition);
    var prior, m := current.batch.value, Merge(current, addition).value.batch;
    ChoicesAreCandidates(prior, addition);
    ChosenOnly(prior, addition, Table(m.reps).Keys);
  }

  lemma ChosenOnly(prior: Batch, addition: Batch, within: set<Slot>)
    requires OutputsOk(prior.reps) && OutputsOk(addition.reps) && Greatest(Choices(prior, addition), within)
    ensures forall t :: ReadsChanged(prior, addition, t) ==> t !in within
  {
    hide OutputOf, OutputsOk, Table, ReadsChanged;
  }

  /** A stale incoming slot is refused, never silently dropped. */
  lemma MergeRefusesStaleIncoming(current: Snapshot, addition: Batch, s: Slot)
    requires Source(current).Ok? && OutputsOk(addition.reps) && s in Table(addition.reps)
    requires forall t :: Closed(Choices(current.batch.value, addition), t) ==> s !in t
    ensures Merge(current, addition).Err?
  {
    hide OutputOf, Valid, OutputsOk, Merge, Table, Choices;
    if Merge(current, addition).Ok? {
      MergeSurvivors(current, addition);
    }
  }

  // ----------------------------------------------------------- preservation

  /** A retained representation keeps its record, units and vectors. */
  lemma KeptProjection(prior: Batch, addition: Batch, plan: Plan, m: Batch, survivors: set<Slot>, r: Rep)
    requires Merged(prior, addition, plan, m, survivors)
    requires r in prior.reps && !(Owns(r) && OutOf(r).slot in plan.changed + plan.invalid)
    ensures r in m.reps && Projection(m, r.id) == Projection(prior, r.id)
  {
    hide OutputOf, Owned, Resolved, Populated, OutputsOk, Greatest, Candidates, ChangedSlots, StaleConsumers, Select;
    MergedReps(prior, addition, plan, m, survivors);
    OwnerKept(prior.reps, plan.changed + plan.invalid, r);
    assert RepId(r) in Keys(prior.reps, RepId);
    SelectJoined(m, prior, KeptIds(prior, plan), addition, NewIds(addition, plan), {r.id});
  }

  /** An incoming slot carries exactly the addition's record, units and vectors. */
  lemma IncomingProjection(prior: Batch, addition: Batch, plan: Plan, m: Batch, survivors: set<Slot>, s: Slot)
    requires Merged(prior, addition, plan, m, survivors) && s in Table(addition.reps)
    ensures var owner := Table(addition.reps)[s];
            && OutputsOk(m.reps) && s in Table(m.reps) && Table(m.reps)[s] == owner
            && Projection(m, owner.rep.id) == Projection(addition, owner.rep.id)
  {
    hide OutputOf, Owned, Resolved, Populated, OutputsOk, Greatest, Candidates, StaleConsumers, Select;
    MergedTable(prior, addition, plan, m, survivors);
    var r := Table(addition.reps)[s].rep;
    if s in plan.changed {
      MergedReps(prior, addition, plan, m, survivors);
      OwnerKept(addition.reps, plan.changed, r);
      SelectJoined(m, prior, KeptIds(prior, plan), addition, NewIds(addition, plan), {r.id});
    } else {
      UnchangedOwner(prior, addition, s);
      KeptProjection(prior, addition, plan, m, survivors, r);
    }
  }

  /** A representation that is neither a replaced target nor transitively stale keeps its record,
      units and vectors: legacy ones always, slot owners whenever their slot survives. */
  lemma MergePreserves(current: Snapshot, addition: Batch, r: Rep)
    requires Merge(current, addition).Ok? && r in current.batch.value.reps
    requires OutputsOk(Merge(current, addition).value.batch.reps)
    requires Owns(r) ==> && OutOf(r).slot in Table(Merge(current, addition).value.batch.reps)
                         && OutOf(r).slot !in Table(addition.reps)
    ensures r in Merge(current, addition).value.batch.reps
    ensures Projection(Merge(current, addition).value.batch, r.id) == Projection(current.batch.value, r.id)
  {
    hide OutputOf, Valid, OutputsOk, Greatest, Candidates, Select, Assemble, ChangedSlots, StaleConsumers, Merge,
         MergePlan, Table;
    var plan, survivors := MergeFacts(current, addition);
    var prior, m := current.batch.value, Merge(current, addition).value.batch;
    MergedTable(prior, addition, plan, m, survivors);
    KeptProjection(prior, addition, plan, m, survivors, r);
  }

  /** Every incoming slot ends up owned by the addition's representation, with its units and vectors. */
  lemma MergeInstalls(current: Snapshot, addition: Batch, s: Slot)
    requires Merge(current, addition).Ok? && s in Table(addition.reps)
    ensures var m, owner := Merge(current, addition).value.batch, Table(addition.reps)[s];
            && OutputsOk(m.reps) && s in Table(m.reps) && Table(m.reps)[s] == owner
            && Projection(m, owner.rep.id) == Projection(addition, owner.rep.id)
  {
    hide *;
    var plan, survivors := MergeFacts(current, addition);
    IncomingProjection(current.batch.value, addition, plan, Merge(current, addition).value.batch, survivors, s);
  }

  /** Nothing else enters the graph, and no space is redefined or dropped. */
  lemma MergeAddsNothingElse(current: Snapshot, addition: Batch)
    requires Merge(current, addition).Ok?
    ensures var prior, m := current.batch.value, Merge(current, addition).value.batch;
            && (forall r :: r in m.reps ==>
                  r in prior.reps || (r in addition.reps && Owns(r) && OutOf(r).slot in ChangedSlots(prior, addition)))
            && (forall u :: u in m.units ==> u in prior.units || u in addition.units)
            && (forall v :: v in m.vectors ==> v in prior.vectors || v in addition.vectors)
            && (forall s :: s in m.spaces <==> s in prior.spaces || s in addition.spaces)
            && m.resource == prior.resource && m.facets == prior.facets && prior.spaces <= m.spaces
  {
    hide OutputOf, Valid, OutputsOk, Greatest, Candidates, Select, ChangedSlots, StaleConsumers, Merge, MergePlan;
    var plan, survivors := MergeFacts(current, addition);
    MergedReps(current.batch.value, addition, plan, Merge(current, addition).value.batch, survivors);
    SpacesMerged(current.batch.value.spaces, addition.spaces);
    SelectedFrom(current.batch.value, KeptIds(current.batch.value, plan));
    SelectedFrom(addition, NewIds(addition, plan));
  }

  lemma SelectedFrom(b: Batch, ids: set<string>)
    ensures var p := Select(b, ids);
            (forall u :: u in p.units ==> u in b.units) && (forall v :: v in p.vectors ==> v in b.vectors)
  {
    KeepMembers(b.units, UnitRep, ids);
    KeepMembers(b.vectors, VectorUnit, Keys(Keep(b.units, UnitRep, ids), UnitId));
  }

  lemma SpacesMerged(prior: seq<Space>, more: seq<Space>)
    requires MergeSpaces(prior, more).Ok?
    ensures forall s :: s in MergeSpaces(prior, more).value <==> s in prior || s in more
  {
    KeepMembers(more, SpaceId, Keys(more, SpaceId) - Keys(prior, SpaceId));
    forall s | s in more ensures s in prior || SpaceId(s) in Keys(more, SpaceId) - Keys(prior, SpaceId) {
      assert SpaceId(s) in Keys(more, SpaceId);
      if SpaceId(s) in Keys(prior, SpaceId) {
        var t :| t in prior && SpaceId(t) == SpaceId(s);
      }
    }
  }

  // ----------------------------------------------------------- conservation

  lemma OwnerCount(reps: seq<Rep>, slots: set<Slot>)
    requires Unique(reps, RepId) && OutputsOk(reps) && slots <= Table(reps).Keys
    ensures |OwnerIds(Table(reps), slots)| == |slots| && OwnerIds(Table(reps), slots) <= Keys(reps, RepId)
  {
    hide OutputOf, OutputsOk, Table, Unique;
    var t := Table(reps);
    forall id | id in OwnerIds(t, slots) ensures id in Keys(reps, RepId) {
      var s :| s in t && s in slots && t[s].rep.id == id;
      assert RepId(t[s].rep) == id;
    }
    forall s, q | s in t && q in t && t[s].rep.id == t[q].rep.id ensures s == q {
      UniqueMember(reps, RepId, t[s].rep, t[q].rep);
    }
    OneIdPerSlot(t, slots);
  }

  lemma {:induction false} OneIdPerSlot(t: map<Slot, Owner>, slots: set<Slot>)
    requires slots <= t.Keys && forall s, q :: s in t && q in t && t[s].rep.id == t[q].rep.id ==> s == q
    ensures |OwnerIds(t, slots)| == |slots|
    decreases slots
  {
    if slots == {} {
      assert OwnerIds(t, slots) == {};
    } else {
      var s :| s in slots;
      var rest := slots - {s};
      OneIdPerSlot(t, rest);
      assert t[s].rep.id !in OwnerIds(t, rest);
      assert OwnerIds(t, slots) == OwnerIds(t, rest) + {t[s].rep.id};
    }
  }

  lemma IncomingStay(prior: Batch, addition: Batch, plan: Plan, m: Batch, survivors: set<Slot>)
    requires Merged(prior, addition, plan, m, survivors)
    ensures plan.changed !! plan.invalid
  {
    hide OutputOf, OutputsOk, Greatest, Select, Valid, ChangedSlots, Table, MergeSpaces, Candidates;
  }

  /** Slots of a table, by what happens to their owner. */
  lemma KeptCount(reps: seq<Rep>, replaced: set<Slot>, invalid: set<Slot>)
    requires Unique(reps, RepId) && OutputsOk(reps)
    requires replaced !! invalid && replaced + invalid <= Table(reps).Keys
    ensures |Keep(reps, RepId, OwnerIds(Table(reps), replaced))| == |replaced|
    ensures |Keep(reps, RepId, OwnerIds(Table(reps), invalid))| == |invalid|
    ensures |reps| == |replaced| + |invalid| +
                      |Keep(reps, RepId, Keys(reps, RepId) - OwnerIds(Table(reps), replaced + invalid))|
  {
    hide OutputOf, OutputsOk, Table;
    OwnerCount(reps, replaced);
    OwnerCount(reps, invalid);
    OwnerCount(reps, replaced + invalid);
    var all := Keys(reps, RepId);
    KeepCount(reps, RepId, OwnerIds(Table(reps), replaced));
    KeepCount(reps, RepId, OwnerIds(Table(reps), invalid));
    KeepCount(reps, RepId, all - OwnerIds(Table(reps), replaced + invalid));
    KeepCount(reps, RepId, all);
    KeepAll(reps, RepId, all);
    assert |replaced + invalid| == |replaced| + |invalid|;
  }

  lemma ConservesPrior(prior: Batch, plan: Plan)
    requires Unique(prior.reps, RepId) && OutputsOk(prior.reps) && plan.changed !! plan.invalid
    ensures |prior.reps| == |Keep(prior.reps, RepId, KeptIds(prior, plan))|
                          + |Keep(prior.reps, RepId, OwnerIds(Table(prior.reps), plan.changed - plan.invalid))|
                          + |Keep(prior.reps, RepId, OwnerIds(Table(prior.reps), plan.invalid))|
    ensures |Keep(prior.reps, RepId, OwnerIds(Table(prior.reps), plan.changed - plan.invalid))|
            == |plan.changed * Table(prior.reps).Keys|
  {
    hide OutputOf, OutputsOk, Table, Keep;
    var before := Table(prior.reps);
    var replaced, invalid := plan.changed * before.Keys, plan.invalid * before.Keys;
    assert OwnerIds(before, plan.changed - plan.invalid) == OwnerIds(before, replaced);
    assert OwnerIds(before, plan.invalid) == OwnerIds(before, invalid);
    assert OwnerIds(before, plan.changed + plan.invalid) == OwnerIds(before, replaced + invalid);
    KeptCount(prior.reps, replaced, invalid);
  }

  lemma ConservesAdded(addition: Batch, changed: set<Slot>, before: set<Slot>)
    requires Unique(addition.reps, RepId) && OutputsOk(addition.reps) && changed <= Table(addition.reps).Keys
    ensures |Keep(addition.reps, RepId, OwnerIds(Table(addition.reps), changed))|
            == |changed * before| + |Keep(addition.reps, RepId, OwnerIds(Table(addition.reps), changed - before))|
  {
    hide OutputOf, OutputsOk, Table, Keep, OwnerIds;
    KeptCount(addition.reps, changed - before, {});
    KeptCount(addition.reps, changed, {});
    InAndOut(changed, before);
  }

  lemma InAndOut(s: set<Slot>, t: set<Slot>)
    ensures |s| == |s * t| + |s - t|
  {
    assert s == s * t + (s - t);
  }

  lemma Conserves(prior: Batch, addition: Batch, plan: Plan, m: Batch, survivors: set<Slot>)
    requires Merged(prior, addition, plan, m, survivors)
    ensures var r := Report(prior, addition, plan, m);
            && |prior.reps| == |r.preserved| + |r.replaced| + |r.invalidated|
            && |m.reps| == |r.preserved| + |r.replaced| + |r.added|
  {
    hide OutputOf, OutputsOk, Greatest, Owned, Resolved, Populated, ChangedSlots, StaleConsumers, Table,
         MergeSpaces, Candidates, Keep, OwnerIds;
    IncomingStay(prior, addition, plan, m, survivors);
    ConservesPrior(prior, plan);
    ConservesAdded(addition, plan.changed, Table(prior.reps).Keys);
  }

  lemma IdsMember(reps: seq<Rep>, wanted: set<string>, r: Rep)
    requires Unique(reps, RepId) && r in reps
    ensures r.id in Ids(Keep(reps, RepId, wanted)) <==> r.id in wanted
  {
    var kept := Keep(reps, RepId, wanted);
    KeepMembers(reps, RepId, wanted);
    if r.id in Ids(kept) {
      var i :| 0 <= i < |kept| && Ids(kept)[i] == r.id;
      UniqueMember(reps, RepId, kept[i], r);
    }
    if r in kept {
      var i :| 0 <= i < |kept| && kept[i] == r;
      assert Ids(kept)[i] == r.id;
    }
  }

  /** Which list of the report a stored representation is on. */
  lemma StoredReported(prior: Batch, addition: Batch, plan: Plan, m: Batch, survivors: set<Slot>, x: Rep)
    requires Merged(prior, addition, plan, m, survivors) && x in prior.reps
    ensures var r := Report(prior, addition, plan, m);
            && (x.id in r.replaced <==> Owns(x) && OutOf(x).slot in ChangedSlots(prior, addition))
            && (x.id in r.invalidated <==> Owns(x) && OutOf(x).slot !in survivors)
            && (x.id in r.preserved <==> x.id !in r.replaced && x.id !in r.invalidated)
  {
    hide OutputOf, OutputsOk, Greatest, Owned, Resolved, Populated, ChangedSlots, Table, MergeSpaces, Keep, OwnerIds,
         Assemble,
         StaleConsumers, Candidates;
    IncomingStay(prior, addition, plan, m, survivors);
    MergedTable(prior, addition, plan, m, survivors);
    OwnerKept(prior.reps, plan.changed - plan.invalid, x);
    OwnerKept(prior.reps, plan.invalid, x);
    OwnerKept(prior.reps, plan.changed + plan.invalid, x);
    assert RepId(x) in Keys(prior.reps, RepId);
    IdsMember(prior.reps, OwnerIds(Table(prior.reps), plan.changed - plan.invalid), x);
    IdsMember(prior.reps, OwnerIds(Table(prior.reps), plan.invalid), x);
    IdsMember(prior.reps, KeptIds(prior, plan), x);
  }

  lemma AddedReported(prior: Batch, addition: Batch, plan: Plan, m: Batch, survivors: set<Slot>, x: Rep)
    requires Merged(prior, addition, plan, m, survivors) && x in addition.reps
    ensures x.id in Report(prior, addition, plan, m).added <==> OutOf(x).slot !in Table(prior.reps)
  {
    hide OutputOf, OutputsOk, Greatest, Owned, Resolved, Populated, MergeSpaces, Keep, OwnerIds, Assemble,
         StaleConsumers, Candidates, Table, Select;
    OwnerKept(addition.reps, plan.changed - Table(prior.reps).Keys, x);
    IdsMember(addition.reps, OwnerIds(Table(addition.reps), plan.changed - Table(prior.reps).Keys), x);
  }

  /** Every representation is accounted for exactly once. A stored one is replaced if its slot changes,
      invalidated if its slot does not survive, preserved otherwise; an incoming one is added if its slot
      is new. The new graph holds the preserved ones, the replacements and the additions. */
  lemma MergeConserves(current: Snapshot, addition: Batch)
    requires Merge(current, addition).Ok?
    ensures var r := Merge(current, addition).value;
            && |current.batch.value.reps| == |r.preserved| + |r.replaced| + |r.invalidated|
            && |r.batch.reps| == |r.preserved| + |r.replaced| + |r.added|
    ensures var prior, r := current.batch.value, Merge(current, addition).value;
            && OutputsOk(r.batch.reps)
            && (forall x :: x in prior.reps ==>
                  && (x.id in r.replaced <==> Owns(x) && OutOf(x).slot in ChangedSlots(prior, addition))
                  && (x.id in r.invalidated <==> Owns(x) && OutOf(x).slot !in Table(r.batch.reps))
                  && (x.id in r.preserved <==> x.id !in r.replaced && x.id !in r.invalidated))
            && (forall x :: x in addition.reps ==>
                Owns(x) && (x.id in r.added <==> OutOf(x).slot !in Table(prior.reps)))
  {
    hide Report, Assemble, MergePlan, OutputsOk, MergeSpaces, Valid, Greatest, Candidates, StaleConsumers,
         ChangedSlots, Table;
    var plan, survivors := MergeFacts(current, addition);
    var prior, m := current.batch.value, Merge(current, addition).value.batch;
    Conserves(prior, addition, plan, m, survivors);
    MergedTable(prior, addition, plan, m, survivors);
    forall x | x in prior.reps
      ensures var r := Merge(current, addition).value;
              && (x.id in r.replaced <==> Owns(x) && OutOf(x).slot in ChangedSlots(prior, addition))
              && (x.id in r.invalidated <==> Owns(x) && OutOf(x).slot !in survivors)
              && (x.id in r.preserved <==> x.id !in r.replaced && x.id !in r.invalidated)
    {
      StoredReported(prior, addition, plan, m, survivors, x);
    }
    forall x | x in addition.reps ensures x.id in Merge(current, addition).value.added <==>
      OutOf(x).slot !in Table(prior.reps) {
      AddedReported(prior, addition, plan, m, survivors, x);
    }
  }
}
