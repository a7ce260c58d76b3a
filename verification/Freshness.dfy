/** Exactly which snapshots a captured preparation may be published over, and that other writers who
    touch none of its inputs and targets do not stand in its way. */
module Freshness {
  import opened Sequences
  import opened Graph
  import opened Dependencies
  import opened Merging
  import opened MergeTheorems
  import opened MergeTwice
  import opened MergeAccepts
  import opened Enrichment

  // ------------------------------------------------------------ capture and preparation

  /** What `capture` accepts. */
  lemma CaptureDecides(snapshot: Snapshot, targets: seq<Slot>, inputs: seq<Slot>)
    ensures Capture(snapshot, targets, inputs).Ok? <==>
            && Current(snapshot) && targets != [] && SlotsOk(targets) && SlotsOk(inputs)
            && forall s :: s in inputs ==> s in Table(snapshot.batch.value.reps)
    ensures Capture(snapshot, targets, inputs).Ok? ==>
            && Capture(snapshot, targets, inputs).value.snapshot == snapshot
            && Capture(snapshot, targets, inputs).value.targets == targets
            && Capture(snapshot, targets, inputs).value.inputs == inputs
            && SourceRevision(snapshot.batch.value.resource) == Ok(Capture(snapshot, targets,
                inputs).value.sourceRevision)
  {
    hide Graph.Valid, OutputsOk, Table, AllBound, AnyForeign, SourceRevision, SlotsOk;
    SourceDecides(snapshot);
  }

  /** The outputs fill exactly the targets, and depend on inputs at the revisions captured. */
  ghost predicate Answers(outputs: map<Slot, Owner>, before: map<Slot, Owner>, targets: seq<Slot>, inputs: seq<Slot>) {
    && (forall s :: s in outputs <==> s in targets)
    && (forall s, d :: s in outputs && d in outputs[s].output.dependencies ==>
          d.slot in inputs && d.slot in before && before[d.slot].output.artifactRevision == d.revision)
  }

  lemma AnswersMean(outputs: map<Slot, Owner>, before: map<Slot, Owner>, targets: seq<Slot>, inputs: seq<Slot>)
    ensures Answers(outputs, before, targets, inputs) <==>
            outputs.Keys == SlotSet(targets) && FromInputs(outputs, before, inputs) && AtRevisions(outputs, before)
  {
    if outputs.Keys == SlotSet(targets) {
      forall s ensures s in outputs <==> s in targets {
        assert s in outputs.Keys <==> s in SlotSet(targets);
      }
    }
  }

  /** What `prepare` accepts: outputs for exactly the captured targets, computed from captured inputs at their
      captured revisions, that the captured graph can take. */
  lemma PrepareDecides(snapshot: Snapshot, targets: seq<Slot>, inputs: seq<Slot>, addition: Batch)
    requires Capture(snapshot, targets, inputs).Ok?
    ensures Prepare(Capture(snapshot, targets, inputs).value, addition).Ok? <==>
            && OutputsOk(addition.reps) && Acceptable(snapshot, addition)
            && Answers(Table(addition.reps), Table(snapshot.batch.value.reps), targets, inputs)
  {
    hide Graph.Valid, OutputsOk, Table, Capture, Prepare, SourceRevision, SlotsOk, Acceptable, Merge, Answers, Current;
    CaptureDecides(snapshot, targets, inputs);
    CurrentMeans(snapshot);
    MergeAccepts.MergeAccepts(snapshot, addition);
    var c := Capture(snapshot, targets, inputs).value;
    if OutputsOk(addition.reps) {
      PrepareMeans(c, addition);
    } else {
      UnreadableAddition(c, addition);
    }
  }

  lemma UnreadableAddition(c: Captured, addition: Batch)
    requires !OutputsOk(addition.reps)
    ensures Prepare(c, addition).Err?
  {
    hide OutputsOk, Table, Merge;
  }

  lemma PrepareMeans(c: Captured, addition: Batch)
    requires c.snapshot.batch.Some? && OutputsOk(c.snapshot.batch.value.reps) && OutputsOk(addition.reps)
    ensures Prepare(c, addition).Ok? <==>
            && Answers(Table(addition.reps), Table(c.snapshot.batch.value.reps), c.targets, c.inputs)
            && Merge(c.snapshot, addition).Ok?
  {
    hide OutputsOk, OutputOf, Owns, Table, Merge, MergePlan, Graph.Valid, Source, FromInputs, AtRevisions, Answers,
         SlotSet;
    AnswersMean(Table(addition.reps), Table(c.snapshot.batch.value.reps), c.targets, c.inputs);
  }

  // --------------------------------------------------------------------- freshness

  /** A target is absent from both graphs, or owned in both by one representation with the same units and
      vectors. */
  predicate TargetSame(was: Batch, now: Batch, s: Slot)
    requires OutputsOk(was.reps) && OutputsOk(now.reps)
  {
    || (s !in Table(was.reps) && s !in Table(now.reps))
    || (&& s in Table(was.reps) && s in Table(now.reps)
        && var x := Table(was.reps)[s].rep;
        && Table(now.reps)[s].rep == x && UnitsOf(was, x.id) == UnitsOf(now, x.id)
        && VectorsOf(was, x.id) == VectorsOf(now, x.id))
  }

  lemma ProjectionMeans(b: Batch, x: Rep)
    requires Graph.Valid(b) && x in b.reps
    ensures Projection(b, x.id) == Part([x], UnitsOf(b, x.id), VectorsOf(b, x.id))
  {
    hide Owned, Resolved, Populated;
    KeepOne(b.reps, x);
  }

  lemma {:induction false} KeepOne(reps: seq<Rep>, x: Rep)
    requires Unique(reps, RepId) && x in reps
    ensures Keep(reps, RepId, {x.id}) == [x]
  {
    var kept := Keep(reps, RepId, {x.id});
    KeepMembers(reps, RepId, {x.id});
    KeepUniqueBy(reps, RepId, {x.id}, RepId);
    assert x in kept;
    assert |kept| < 2 || RepId(kept[0]) != RepId(kept[1]);
    forall i | 0 <= i < |kept| ensures kept[i] == x {
      assert kept[i] in kept;
      UniqueMember(reps, RepId, kept[i], x);
    }
  }

  lemma TargetDecides(was: Batch, now: Batch, s: Slot)
    requires OutputsOk(was.reps) && OutputsOk(now.reps) && Graph.Valid(was) && Graph.Valid(now)
    ensures SlotProjection(was, s) == SlotProjection(now, s) <==> TargetSame(was, now, s)
  {
    hide OutputsOk, Graph.Valid, Table, OutputOf, UnitsOf, VectorsOf, Projection;
    if s in Table(was.reps) && s in Table(now.reps) {
      ProjectionMeans(was, Table(was.reps)[s].rep);
      ProjectionMeans(now, Table(now.reps)[s].rep);
      assert [Table(was.reps)[s].rep][0] == Table(was.reps)[s].rep;
      assert [Table(now.reps)[s].rep][0] == Table(now.reps)[s].rep;
    }
  }

  /** The same lifecycle, binding and source material, with every input as it was. */
  predicate StillFresh(snapshot: Snapshot, inputs: seq<Slot>, current: Snapshot)
    requires Current(snapshot)
  {
    && Current(current)
    && current.state.resourceId == snapshot.state.resourceId && current.state.lifecycle == snapshot.state.lifecycle
    && current.state.namespace == snapshot.state.namespace && current.state.locator == snapshot.state.locator
    && var was, now := snapshot.batch.value, current.batch.value;
    && SourceRevision(now.resource) == SourceRevision(was.resource)
    && now.resource.kind == was.resource.kind && now.resource.mediaType == was.resource.mediaType
    && RawDigest(now.resource) == RawDigest(was.resource)
    && (forall s :: s in inputs ==> InputSame(was, now, s))
  }

  /** Everything the captured preparation needs of the graph it is published over. */
  predicate Admits(snapshot: Snapshot, targets: seq<Slot>, inputs: seq<Slot>, current: Snapshot)
    requires Current(snapshot)
  {
    && StillFresh(snapshot, inputs, current)
    && forall s :: s in targets ==> TargetSame(snapshot.batch.value, current.batch.value, s)
  }

  /** Freshness and targets block a snapshot exactly when it does not admit the preparation: whatever else
      moved in the graph is no obstacle. */
  lemma AcceptedExactly(snapshot: Snapshot, targets: seq<Slot>, inputs: seq<Slot>, current: Snapshot)
    requires Capture(snapshot, targets, inputs).Ok?
    ensures Current(snapshot)
    ensures var c := Capture(snapshot, targets, inputs).value;
            && (Fresh(c, current).Ok? <==> StillFresh(snapshot, inputs, current))
            && (Fresh(c, current).Ok? && TargetsUnchanged(c, current).Ok? <==>
                Admits(snapshot, targets, inputs, current))
  {
    hide OutputsOk, Graph.Valid, Table, Capture, Source, SourceRevision, AllBound, InputFresh, InputSame, TargetSame,
         SlotProjection,
         RawDigest, SlotsOk;
    CaptureDecides(snapshot, targets, inputs);
    SourceDecides(snapshot);
    SourceDecides(current);
    if Current(current) {
      var was, now := snapshot.batch.value, current.batch.value;
      forall s ensures InputFresh(was, now, s) <==> InputSame(was, now, s) {
        InputDecides(was, now, s);
      }
      forall s ensures SlotProjection(was, s) == SlotProjection(now, s) <==> TargetSame(was, now, s) {
        TargetDecides(was, now, s);
      }
    }
  }

  /** The snapshot is fresh, the merge accepts the addition, and the targets are as captured or the effect is there
      already. */
  ghost predicate Clear(snapshot: Snapshot, targets: seq<Slot>, inputs: seq<Slot>, addition: Batch, current: Snapshot)
    requires Current(snapshot)
  {
    && StillFresh(snapshot, inputs, current) && Acceptable(current, Rebase(addition, current))
    && (|| Admits(snapshot, targets, inputs, current)
        || (&& Merge(current, Rebase(addition, current)).Ok?
            && current.batch == Some(Merge(current, Rebase(addition, current)).value.batch)))
  }

  /** Exactly when no check stops a publication over a snapshot. */
  lemma UnblockedExactly(snapshot: Snapshot, targets: seq<Slot>, inputs: seq<Slot>, addition: Batch, current: Snapshot)
    requires Capture(snapshot, targets, inputs).Ok?
    requires Prepare(Capture(snapshot, targets, inputs).value, addition).Ok?
    ensures Current(snapshot)
    ensures var p := Prepare(Capture(snapshot, targets, inputs).value, addition).value;
            (forall e :: !Blocked(p, current, e)) <==> Clear(snapshot, targets, inputs, addition, current)
  {
    hide OutputsOk, OutputOf, Graph.Valid, Table, Merge, Capture, Source, SourceRevision, AllBound, Acceptable,
         Current, Fresh, TargetsUnchanged,
         Admits, StillFresh, SlotsOk, Prepare, Blocked;
    var c := Capture(snapshot, targets, inputs).value;
    var p := Prepare(c, addition).value;
    PreparedIs(c, addition);
    CaptureDecides(snapshot, targets, inputs);
    AcceptedExactly(snapshot, targets, inputs, current);
    if Fresh(c, current).Ok? {
      MergeAccepts.MergeAccepts(current, Rebase(addition, current));
    }
    BlockedMeans(p, current);
  }

  lemma PreparedIs(c: Captured, addition: Batch)
    requires Prepare(c, addition).Ok?
    ensures Prepare(c, addition).value == Prepared(c, addition)
  {
    hide Outputs, Merge, Table;
  }

  /** A check that fails names one error. */
  lemma BlockedMeans(p: Prepared, s: Snapshot)
    ensures (exists e :: Blocked(p, s, e)) <==>
            || Fresh(p.captured, s).Err? || Merge(s, Rebase(p.addition, s)).Err?
            || (TargetsUnchanged(p.captured, s).Err? && s.batch != Some(Merge(s, Rebase(p.addition, s)).value.batch))
  {
    hide Fresh, Merge, TargetsUnchanged;
    if Fresh(p.captured, s).Err? {
      assert Blocked(p, s, Fresh(p.captured, s).error);
    } else if Merge(s, Rebase(p.addition, s)).Err? {
      assert Blocked(p, s, Merge(s, Rebase(p.addition, s)).error);
    } else if TargetsUnchanged(p.captured, s).Err? && s.batch != Some(Merge(s, Rebase(p.addition, s)).value.batch) {
      assert Blocked(p, s, TargetsUnchanged(p.captured, s).error);
    }
  }

  /** A snapshot of readable records that is refused by freshness or by its targets is refused as stale. */
  lemma RefusedAsStale(snapshot: Snapshot, targets: seq<Slot>, inputs: seq<Slot>, current: Snapshot)
    requires Capture(snapshot, targets, inputs).Ok?
    requires current.batch.Some? ==>
               && Graph.Valid(current.batch.value) && SourceRevision(current.batch.value.resource).Ok?
                                     && OutputsOk(current.batch.value.reps)
                                     && forall r :: r in current.batch.value.reps ==> IndependentOutput(r).Ok?
    ensures var c := Capture(snapshot, targets, inputs).value;
            if Fresh(c, current).Err? then Fresh(c, current) == Err(Stale)
            else TargetsUnchanged(c, current).Err? ==> TargetsUnchanged(c, current) == Err(Stale)
  {
    hide OutputsOk, OutputOf, Graph.Valid, Table, IndependentOutput, InputFresh, SlotProjection, RawDigest, SlotsOk,
         SourceRevision, AnyForeign;
    if current.batch.Some? {
      ForeignDecided(current.batch.value.reps, SourceRevision(current.batch.value.resource).value);
    }
  }

  lemma {:induction false} ForeignDecided(reps: seq<Rep>, source: string)
    requires forall r :: r in reps ==> IndependentOutput(r).Ok?
    ensures AnyForeign(reps, source).Ok?
  {
    hide OutputOf, IndependentOutput;
    if reps != [] {
      assert reps[0] in reps;
      ForeignDecided(reps[1..], source);
    }
  }

  // --------------------------------------------------------------------- other writers

  /** The same live resource with the graph that another addition left. */
  ghost predicate Moved(snapshot: Snapshot, other: Batch, later: Snapshot) {
    && Merge(snapshot, other).Ok? && later.state.Live() && later.batch == Some(Merge(snapshot, other).value.batch)
    && later.state.resourceId == snapshot.state.resourceId && later.state.lifecycle == snapshot.state.lifecycle
    && later.state.namespace == snapshot.state.namespace && later.state.locator == snapshot.state.locator
  }

  lemma MovedIsCurrent(snapshot: Snapshot, other: Batch, later: Snapshot)
    requires Moved(snapshot, other, later)
    ensures Current(snapshot) && Current(later) && later.batch.value.resource == snapshot.batch.value.resource
  {
    hide OutputsOk, Graph.Valid, Table, Merge, Source, SourceRevision, AllBound;
    SourceDecides(snapshot);
    SourceDecides(later);
    MergeAddsNothingElse(snapshot, other);
    SourceAgain(snapshot, other, later);
  }

  /** A slot the other writer did not touch, and which is still there, looks as it did. */
  lemma UntouchedLooksTheSame(snapshot: Snapshot, other: Batch, later: Snapshot, s: Slot)
    requires Moved(snapshot, other, later) && Current(snapshot) && Current(later) && OutputsOk(other.reps)
    requires s in Table(snapshot.batch.value.reps) && s in Table(later.batch.value.reps) && s !in Table(other.reps)
    ensures var was, now := snapshot.batch.value, later.batch.value;
            && Table(now.reps)[s] == Table(was.reps)[s] && Table(was.reps)[s].rep in now.reps
            && Projection(now, Table(was.reps)[s].rep.id) == Projection(was, Table(was.reps)[s].rep.id)
            && InputMaterial(now, Table(was.reps)[s].rep) == InputMaterial(was, Table(was.reps)[s].rep)
  {
    hide OutputsOk, OutputOf, Identified, Owned, Resolved, Populated, Table, Merge, Source, SourceRevision, AllBound,
         Select, Greatest,
         Candidates, UsedSpaces, Shapes, Assemble, MergeSpaces, StaleConsumers, ChangedSlots;
    var was, now := snapshot.batch.value, later.batch.value;
    var x := Table(was.reps)[s].rep;
    MergePreserves(snapshot, other, x);
    SurvivorsAreGreatest(snapshot, other);
    var plan, survivors := MergeFacts(snapshot, other);
    SelectedVectors(was, {x.id});
    SpacesStable(was, other.spaces, now, Projection(was, x.id).vectors);
  }

  /** A commit that touches no input and no target, and after which those that were there still are, leaves
      nothing in the way of freshness. */
  lemma UnrelatedCommitIsAdmitted(snapshot: Snapshot, targets: seq<Slot>, inputs: seq<Slot>, other: Batch,
                                  later: Snapshot)
    requires Capture(snapshot, targets, inputs).Ok? && Moved(snapshot, other, later) && OutputsOk(other.reps)
    requires OutputsOk(later.batch.value.reps)
    requires forall s :: s in inputs || s in targets ==> s !in Table(other.reps)
    requires forall s :: (s in inputs || s in targets) && s in Table(snapshot.batch.value.reps) ==>
               s in Table(later.batch.value.reps)
    ensures Current(snapshot) && Admits(snapshot, targets, inputs, later)
  {
    hide OutputsOk, OutputOf, Graph.Valid, Table, Capture, Merge, Source, SourceRevision, AllBound, RawDigest,
         SlotsOk, InputMaterial,
         SlotProjection, InputSame, TargetSame, Current, MergePlan;
    CaptureDecides(snapshot, targets, inputs);
    MovedIsCurrent(snapshot, other, later);
    CurrentMeans(snapshot);
    CurrentMeans(later);
    var was, now := snapshot.batch.value, later.batch.value;
    forall s | s in inputs ensures InputSame(was, now, s) {
      UntouchedLooksTheSame(snapshot, other, later, s);
      InputDecides(was, now, s);
    }
    forall s | s in targets ensures TargetSame(was, now, s) {
      TargetLooksTheSame(snapshot, other, later, s);
    }
  }

  lemma CurrentMeans(s: Snapshot)
    requires Current(s)
    ensures s.state.Live() && s.batch.Some? && Graph.Valid(s.batch.value) && OutputsOk(s.batch.value.reps)
  {
    hide Graph.Valid, OutputsOk;
  }

  lemma TargetLooksTheSame(snapshot: Snapshot, other: Batch, later: Snapshot, s: Slot)
    requires Moved(snapshot, other, later) && Current(snapshot) && Current(later) && OutputsOk(other.reps)
    requires s !in Table(other.reps) && (s in Table(snapshot.batch.value.reps) ==> s in Table(later.batch.value.reps))
    ensures TargetSame(snapshot.batch.value, later.batch.value, s)
  {
    hide OutputsOk, OutputOf, Graph.Valid, Table, Merge, Source, SourceRevision, AllBound, Greatest, Candidates,
         Projection,
         Just, Closed, Cyclic, Pending, TargetSame;
    var was, now := snapshot.batch.value, later.batch.value;
    if s in Table(was.reps) {
      UntouchedLooksTheSame(snapshot, other, later, s);
    } else {
      SurvivorsAreGreatest(snapshot, other);
    }
    TargetDecides(was, now, s);
  }

  // ------------------------------------------------------------ writers of new slots

  /** Two additions whose slots, identities and spaces do not meet. */
  ghost predicate Disjoint(prior: Batch, other: Batch, addition: Batch)
    requires OutputsOk(prior.reps) && OutputsOk(other.reps) && OutputsOk(addition.reps)
  {
    && Table(other.reps).Keys !! Table(prior.reps).Keys && Table(other.reps).Keys !! Table(addition.reps).Keys
    && (forall x, y :: x in other.reps && y in addition.reps ==> x.id != y.id)
    && (forall u, w :: u in other.units && w in addition.units ==> u.id != w.id)
    && SpacesAgree(other.spaces, addition.spaces)
  }

  /** New slots join a closed graph without displacing anything. */
  lemma NewcomersJoin(snapshot: Snapshot, other: Batch)
    requires Merge(snapshot, other).Ok? && OutputsOk(other.reps) && GraphClosed(snapshot.batch.value)
    requires Table(other.reps).Keys !! Table(snapshot.batch.value.reps).Keys
    ensures OutputsOk(Merge(snapshot, other).value.batch.reps)
    ensures Table(Merge(snapshot, other).value.batch.reps) == Table(snapshot.batch.value.reps) + Table(other.reps)
  {
    hide OutputsOk, OutputOf, Graph.Valid, Table, Merge, Source, SameMaterial, Cyclic, Pending;
    var prior, m := snapshot.batch.value, Merge(snapshot, other).value.batch;
    MergeSurvivors(snapshot, other);
    var all := Choices(prior, other);
    forall s | s in Table(prior.reps) ensures s in all && all[s] == Table(prior.reps)[s].output {
    }
    ClosedElsewhere(Just(Table(prior.reps)), all, Table(prior.reps).Keys);
    assert Table(prior.reps).Keys <= Table(m.reps).Keys;
  }

  /** A closed set stays closed wherever its slots have the same outputs. */
  lemma ClosedElsewhere(a: map<Slot, Output>, b: map<Slot, Output>, within: set<Slot>)
    requires Closed(a, within) && forall s :: s in within ==> s in b && b[s] == a[s]
    ensures Closed(b, within)
  {
    forall s, d | s in within && d in b[s].dependencies ensures Met(b, within, d) {
      assert Met(a, within, d);
    }
  }

  /** If nothing outside `extra` depends on it, a cycle lies inside it or outside it. */
  lemma CycleLies(all: map<Slot, Output>, extra: set<Slot>, p: seq<Slot>)
    requires forall s, d :: s in all && s !in extra && d in all[s].dependencies ==> d.slot !in extra
    requires IsCycle(Pending(all), p)
    ensures p[0] in extra ==> IsCycle(Pending(map s | s in all && s in extra :: all[s]), p)
    ensures p[0] !in extra ==> IsCycle(Pending(all - extra), p)
  {
    forall i | 0 <= i < |p| ensures p[i] in extra <==> p[0] in extra {
      BackwardInto(all, extra, p, i);
      BackwardInto(all, extra, p, |p| - 1);
    }
  }

  lemma CyclesSplit(all: map<Slot, Output>, extra: set<Slot>)
    requires forall s, d :: s in all && s !in extra && d in all[s].dependencies ==> d.slot !in extra
    requires !Cyclic(Pending(all - extra)) && !Cyclic(Pending(map s | s in all && s in extra :: all[s]))
    ensures !Cyclic(Pending(all))
  {
    hide IsCycle, Pending;
    if Cyclic(Pending(all)) {
      var p :| IsCycle(Pending(all), p);
      CycleLies(all, extra, p);
    }
  }

  /** Along a path, whoever precedes a slot of `extra` belongs to it. */
  lemma {:induction false} BackwardInto(all: map<Slot, Output>, extra: set<Slot>, p: seq<Slot>, k: nat)
    requires forall s, d :: s in all && s !in extra && d in all[s].dependencies ==> d.slot !in extra
    requires IsPath(Pending(all), p) && k < |p|
    ensures p[k] in extra ==> forall i :: 0 <= i <= k ==> p[i] in extra
  {
    if k > 0 {
      BackwardInto(all, extra, p, k - 1);
      assert p[k - 1 + 1] in Pending(all)[p[k - 1]];
    }
  }

  /** An addition prepared on one snapshot of a closed graph, and another that has since added new slots. */
  ghost predicate Bystander(snapshot: Snapshot, addition: Batch, other: Batch, later: Snapshot) {
    && Moved(snapshot, other, later) && Current(snapshot) && Current(later) && GraphClosed(snapshot.batch.value)
    && Acceptable(snapshot, addition) && OutputsOk(other.reps)
    && Disjoint(snapshot.batch.value, other, addition)
    && (forall s, d :: s in Table(addition.reps) && d in Table(addition.reps)[s].output.dependencies ==>
          d.slot in Table(snapshot.batch.value.reps))
  }

  /** What stands beside what: the tables, and that a stored slot looks as it did. */
  ghost predicate Beside(was: Batch, other: Batch, addition: Batch, now: Batch) {
    && OutputsOk(was.reps) && OutputsOk(now.reps) && OutputsOk(other.reps) && OutputsOk(addition.reps)
    && Table(now.reps) == Table(was.reps) + Table(other.reps)
    && Table(other.reps).Keys !! Table(was.reps).Keys && Table(other.reps).Keys !! Table(addition.reps).Keys
    && (forall s, d :: s in Table(addition.reps) && d in Table(addition.reps)[s].output.dependencies ==>
          d.slot in Table(was.reps))
    && Closed(Just(Table(was.reps)), Table(was.reps).Keys)
    && (forall s :: s in Table(was.reps) ==> LooksTheSame(was, now, Table(was.reps)[s].rep))
  }

  ghost predicate LooksTheSame(was: Batch, now: Batch, x: Rep) {
    && Owns(x) && x in now.reps && Projection(now, x.id) == Projection(was, x.id)
    && InputMaterial(now, x) == InputMaterial(was, x)
  }

  lemma BystanderIsBeside(snapshot: Snapshot, addition: Batch, other: Batch, later: Snapshot)
    requires Bystander(snapshot, addition, other, later)
    ensures Beside(snapshot.batch.value, other, addition, later.batch.value)
  {
    hide OutputsOk, OutputOf, Graph.Valid, Table, Merge, Source, SourceRevision, AllBound, Projection, InputMaterial,
         Stays, NoClash,
         Cyclic, Just, Closed, Pending;
    NewcomersJoin(snapshot, other);
    forall s | s in Table(snapshot.batch.value.reps)
      ensures LooksTheSame(snapshot.batch.value, later.batch.value, Table(snapshot.batch.value.reps)[s].rep)
    {
      UntouchedLooksTheSame(snapshot, other, later, s);
    }
  }

  /** A stored slot reads changed material after the other write exactly if it did before. */
  lemma ReadsTheSame(was: Batch, other: Batch, addition: Batch, now: Batch, t: Slot)
    requires Beside(was, other, addition, now) && t !in Table(other.reps)
    ensures ReadsChanged(now, addition, t) <==> ReadsChanged(was, addition, t)
  {
    hide OutputsOk, OutputOf, Table, SameMaterial, Just, Closed, InputMaterial, Projection, DependsOn;
    forall s | s in Table(was.reps) && s in Table(addition.reps)
      ensures SameMaterial(now, Table(was.reps)[s].rep, addition, Table(addition.reps)[s].rep) <==>
              SameMaterial(was, Table(was.reps)[s].rep, addition, Table(addition.reps)[s].rep)
    {
      var x, y := Table(was.reps)[s].rep, Table(addition.reps)[s].rep;
      assert LooksTheSame(was, now, x);
      MaterialAgrees(now, x, addition, y);
      MaterialAgrees(was, x, addition, y);
    }
  }

  lemma ChangesTheSame(was: Batch, other: Batch, addition: Batch, now: Batch)
    requires Beside(was, other, addition, now)
    ensures ChangedSlots(now, addition) == ChangedSlots(was, addition)
  {
    hide OutputsOk, OutputOf, Table, Just, Closed, InputMaterial, Projection;
    forall s | s in Table(addition.reps) ensures s in ChangedSlots(now, addition) <==>
      s in ChangedSlots(was, addition) {
      if s in Table(was.reps) {
        assert LooksTheSame(was, now, Table(was.reps)[s].rep);
      }
    }
  }

  lemma ChoosesTheSame(was: Batch, other: Batch, addition: Batch, now: Batch, t: Slot)
    requires Beside(was, other, addition, now) && t !in Table(other.reps)
    ensures t in Choices(now, addition) <==> t in Choices(was, addition)
    ensures t in Choices(now, addition) ==> Choices(now, addition)[t] == Choices(was, addition)[t]
  {
    hide OutputsOk, OutputOf, Table, ReadsChanged, Just, Closed, LooksTheSame;
    ReadsTheSame(was, other, addition, now, t);
  }

  /** No slot that was there, and none that comes in, depends on a new slot of the other writer. */
  lemma NoneDepends(was: Batch, other: Batch, addition: Batch, now: Batch, s: Slot, d: Dependency)
    requires Beside(was, other, addition, now) && s in Table(now.reps) + Table(addition.reps) && s !in Table(other.reps)
    requires d in (Table(now.reps) + Table(addition.reps))[s].output.dependencies
    ensures d.slot !in Table(other.reps)
  {
    hide OutputsOk, OutputOf, Table, LooksTheSame;
    if s !in Table(addition.reps) {
      assert d in Just(Table(was.reps))[s].dependencies;
      assert Met(Just(Table(was.reps)), Table(was.reps).Keys, d);
    }
  }

  lemma StaysLater(was: Batch, other: Batch, addition: Batch, now: Batch, s: Slot)
    requires Beside(was, other, addition, now) && Stays(was, addition, s)
    ensures Stays(now, addition, s)
  {
    hide OutputsOk, OutputOf, Table, ReadsChanged, Just, Choices, LooksTheSame;
    var w :| Closed(Choices(was, addition), w) && s in w;
    ChosenFrom(was, addition);
    forall t | t in w ensures t in Choices(now, addition) && Choices(now, addition)[t] == Choices(was, addition)[t] {
      ChoosesTheSame(was, other, addition, now, t);
    }
    ClosedElsewhere(Choices(was, addition), Choices(now, addition), w);
  }

  lemma ChosenFrom(prior: Batch, addition: Batch)
    requires OutputsOk(prior.reps) && OutputsOk(addition.reps)
    ensures forall t :: t in Choices(prior, addition) ==>
              && t in Table(prior.reps) + Table(addition.reps)
              && Choices(prior, addition)[t] == (Table(prior.reps) + Table(addition.reps))[t].output
  {
    hide OutputsOk, Table, ReadsChanged;
  }

  lemma StayedBefore(was: Batch, other: Batch, addition: Batch, now: Batch, s: Slot)
    requires Beside(was, other, addition, now) && Stays(now, addition, s) && s !in Table(other.reps)
    ensures Stays(was, addition, s)
  {
    hide OutputsOk, OutputOf, Table, ReadsChanged, Just, Choices, LooksTheSame;
    var w :| Closed(Choices(now, addition), w) && s in w;
    var rest := w - Table(other.reps).Keys;
    ChosenFrom(now, addition);
    forall t | t in rest ensures t in Choices(was, addition) && Choices(now, addition)[t] == Choices(was, addition)[t] {
      ChoosesTheSame(was, other, addition, now, t);
    }
    forall t, d | t in rest && d in Choices(now, addition)[t].dependencies
      ensures Met(Choices(now, addition), rest, d)
    {
      assert Met(Choices(now, addition), w, d);
      NoneDepends(was, other, addition, now, t, d);
    }
    ClosedElsewhere(Choices(now, addition), Choices(was, addition), rest);
  }

  lemma StillAcyclic(was: Batch, other: Batch, addition: Batch, now: Batch)
    requires Beside(was, other, addition, now)
    requires !Cyclic(Pending(Just(Table(was.reps) + Table(addition.reps))))
    requires !Cyclic(Pending(Just(Table(was.reps) + Table(other.reps))))
    ensures !Cyclic(Pending(Just(Table(now.reps) + Table(addition.reps))))
  {
    hide OutputsOk, OutputOf, Table, LooksTheSame, Cyclic, Pending, Closed, Acyclic;
    forall s, d | s in Table(now.reps) + Table(addition.reps) && s !in Table(other.reps)
                  && d in (Table(now.reps) + Table(addition.reps))[s].output.dependencies
      ensures d.slot !in Table(other.reps)
    {
      NoneDepends(was, other, addition, now, s, d);
    }
    JoinedAcyclic(Table(was.reps), Table(other.reps), Table(addition.reps));
  }

  lemma JoinedAcyclic(a: map<Slot, Owner>, o: map<Slot, Owner>, b: map<Slot, Owner>)
    requires o.Keys !! a.Keys && o.Keys !! b.Keys && !Cyclic(Pending(Just(a + b))) && !Cyclic(Pending(Just(a + o)))
    requires forall s, d :: s in a + o + b && s !in o && d in (a + o + b)[s].output.dependencies ==> d.slot !in o
    ensures !Cyclic(Pending(Just(a + o + b)))
  {
    hide Cyclic, Pending, Just;
    var all := Just(a + o + b);
    OutsideAndInside(a, o, b);
    FewerSlots(map s | s in all && s in o.Keys :: all[s], Just(a + o));
    CyclesSplit(all, o.Keys);
  }

  lemma OutsideAndInside(a: map<Slot, Owner>, o: map<Slot, Owner>, b: map<Slot, Owner>)
    requires o.Keys !! a.Keys && o.Keys !! b.Keys
    requires forall s, d :: s in a + o + b && s !in o && d in (a + o + b)[s].output.dependencies ==> d.slot !in o
    ensures var all := Just(a + o + b);
            && all - o.Keys == Just(a + b) && o.Keys <= Just(a + o).Keys && o.Keys <= all.Keys
            && (forall s :: s in all && s in o.Keys ==> all[s] == Just(a + o)[s])
            && (forall s, d :: s in all && s !in o.Keys && d in all[s].dependencies ==> d.slot !in o.Keys)
  {
  }

  lemma FewerSlots(small: map<Slot, Output>, large: map<Slot, Output>)
    requires small.Keys <= large.Keys && (forall s :: s in small ==> small[s] == large[s]) && !Cyclic(Pending(large))
    ensures !Cyclic(Pending(small))
  {
    hide Cyclic, Pending, Acyclic;
    AcyclicDecides(Pending(large));
    AcyclicSubset(small, large);
    AcyclicDecides(Pending(small));
  }

  /** Who is kept beside the addition, now and before. */
  lemma KeptBefore(was: Batch, other: Batch, addition: Batch, now: Batch, x: Rep)
    requires Beside(was, other, addition, now) && Kept(now, addition, x) && x in was.reps
    ensures Kept(was, addition, x)
  {
    hide OutputsOk, OutputOf, Table, LooksTheSame, Stays, Closed, Just, ChangedSlots;
    ChangesTheSame(was, other, addition, now);
    if Owns(x) {
      assert OutOf(x).slot in Table(was.reps);
      StayedBefore(was, other, addition, now, OutOf(x).slot);
    }
  }

  lemma EntersTheSame(was: Batch, other: Batch, addition: Batch, now: Batch, y: Rep)
    requires Beside(was, other, addition, now)
    ensures Enters(now, addition, y) <==> Enters(was, addition, y)
  {
    hide OutputsOk, OutputOf, Table, LooksTheSame, Closed, Just, ChangedSlots;
    ChangesTheSame(was, other, addition, now);
  }

  /** The units of a stored representation are still its only units. */
  lemma UnitsStay(snapshot: Snapshot, other: Batch, later: Snapshot, x: Rep, u: Unit)
    requires Moved(snapshot, other, later) && Current(snapshot) && GraphClosed(snapshot.batch.value)
             && OutputsOk(other.reps)
    requires Table(other.reps).Keys !! Table(snapshot.batch.value.reps).Keys
    requires x in snapshot.batch.value.reps && Of(later.batch.value, x, u)
    ensures x in later.batch.value.reps && Of(snapshot.batch.value, x, u)
  {
    hide OutputsOk, OutputOf, Graph.Valid, Table, Merge, Closed, Just, Source, SourceRevision, AllBound, GraphClosed;
    NewcomersJoin(snapshot, other);
    MergePreserves(snapshot, other, x);
    var was, now := snapshot.batch.value, later.batch.value;
    KeepMember(now.units, UnitRep, {x.id}, u);
    KeepMember(was.units, UnitRep, {x.id}, u);
    assert u in Projection(now, x.id).units;
  }

  /** A unit of the moved graph belongs to a stored representation, or came with the other writer. */
  lemma UnitOrigin(snapshot: Snapshot, other: Batch, later: Snapshot, x: Rep, u: Unit)
    requires Moved(snapshot, other, later) && Current(snapshot) && Current(later) && GraphClosed(snapshot.batch.value)
    requires OutputsOk(other.reps) && Table(other.reps).Keys !! Table(snapshot.batch.value.reps).Keys
    requires x in later.batch.value.reps && Of(later.batch.value, x, u)
    ensures x in snapshot.batch.value.reps || (x in other.reps && u in other.units)
  {
    hide OutputsOk, OutputOf, Owned, Populated, Identified, Table, Merge, Closed, Just, Source, SourceRevision,
         AllBound, GraphClosed,
         ChangedSlots;
    MergeAddsNothingElse(snapshot, other);
    if x !in snapshot.batch.value.reps && u !in other.units {
      var z :| z in snapshot.batch.value.reps && z.id == u.rep;
      UnitsStay(snapshot, other, later, z, u);
      OneOwner(later.batch.value, x, z);
    }
  }

  lemma OneOwner(b: Batch, x: Rep, z: Rep)
    requires Graph.Valid(b) && x in b.reps && z in b.reps && x.id == z.id
    ensures x == z
  {
    hide Owned, Resolved, Populated;
    UniqueMember(b.reps, RepId, x, z);
  }

  lemma StillNoClash(snapshot: Snapshot, addition: Batch, other: Batch, later: Snapshot)
    requires Bystander(snapshot, addition, other, later)
    ensures NoClash(later.batch.value, addition)
  {
    hide OutputsOk, OutputOf, Graph.Valid, Table, Merge, Closed, Just, Source, SourceRevision, AllBound, GraphClosed,
         Stays, ChangedSlots,
         Moved, Beside, Of, Cyclic;
    var was, now := snapshot.batch.value, later.batch.value;
    BystanderIsBeside(snapshot, addition, other, later);
    forall x, y | Kept(now, addition, x) && Enters(now, addition, y) ensures x.id != y.id {
      NoRepClash(snapshot, addition, other, later, x, y);
    }
    forall x, y, u, w | Kept(now, addition, x) && Enters(now, addition, y) && Of(now, x, u) && Of(addition, y, w)
      ensures u.id != w.id
    {
      NoUnitClash(snapshot, addition, other, later, x, y, u, w);
    }
  }

  lemma NoRepClash(snapshot: Snapshot, addition: Batch, other: Batch, later: Snapshot, x: Rep, y: Rep)
    requires Bystander(snapshot, addition, other, later)
    requires Kept(later.batch.value, addition, x) && Enters(later.batch.value, addition, y)
    ensures x.id != y.id
  {
    hide OutputsOk, OutputOf, Graph.Valid, Table, Merge, Closed, Just, Source, SourceRevision, AllBound, GraphClosed,
         Stays, ChangedSlots,
         Beside, Of, Cyclic, WellMade;
    var was, now := snapshot.batch.value, later.batch.value;
    BystanderIsBeside(snapshot, addition, other, later);
    MergeAddsNothingElse(snapshot, other);
    EntersTheSame(was, other, addition, now, y);
    if x in was.reps {
      KeptBefore(was, other, addition, now, x);
    }
  }

  lemma NoUnitClash(snapshot: Snapshot, addition: Batch, other: Batch, later: Snapshot, x: Rep, y: Rep, u: Unit,
                    w: Unit)
    requires Bystander(snapshot, addition, other, later)
    requires Kept(later.batch.value, addition, x) && Enters(later.batch.value, addition, y)
    requires Of(later.batch.value, x, u) && Of(addition, y, w)
    ensures u.id != w.id
  {
    hide OutputsOk, OutputOf, Graph.Valid, Table, Merge, Closed, Just, Source, SourceRevision, AllBound, GraphClosed,
         Stays, ChangedSlots,
         Beside, Cyclic, WellMade;
    var was, now := snapshot.batch.value, later.batch.value;
    BystanderIsBeside(snapshot, addition, other, later);
    EntersTheSame(was, other, addition, now, y);
    UnitOrigin(snapshot, other, later, x, u);
    if x in was.reps {
      KeptBefore(was, other, addition, now, x);
      UnitsStay(snapshot, other, later, x, u);
    }
  }

  /** The addition is as acceptable over the moved graph as it was over the captured one. */
  lemma StillAcceptable(snapshot: Snapshot, addition: Batch, other: Batch, later: Snapshot)
    requires Bystander(snapshot, addition, other, later)
    ensures Acceptable(later, Rebase(addition, later))
  {
    hide OutputsOk, OutputOf, Graph.Valid, Table, Merge, Closed, Just, Source, SourceRevision, AllBound, GraphClosed,
         Stays, ChangedSlots,
         Beside, Cyclic, NoClash, Pending, Choices;
    var was, now := snapshot.batch.value, later.batch.value;
    BystanderIsBeside(snapshot, addition, other, later);
    MovedIsCurrent(snapshot, other, later);
    assert Rebase(addition, later) == addition;
    MergeAddsNothingElse(snapshot, other);
    StillNoClash(snapshot, addition, other, later);
    MergeSurvivors(snapshot, other);
    StillAcyclic(was, other, addition, now);
    forall s | s in Table(addition.reps) ensures Stays(now, addition, s) {
      StaysLater(was, other, addition, now, s);
    }
  }

  /** Writers of new slots do not disturb one another: after a commit that only added slots which are
      neither stored nor targets, with identities of its own, no check stops the publication. */
  lemma NewSlotsDoNotBlock(snapshot: Snapshot, targets: seq<Slot>, inputs: seq<Slot>, addition: Batch, other: Batch,
                           later: Snapshot)
    requires Capture(snapshot, targets, inputs).Ok?
    requires Prepare(Capture(snapshot, targets, inputs).value, addition).Ok?
    requires GraphClosed(snapshot.batch.value) && Moved(snapshot, other, later)
    requires OutputsOk(other.reps) && OutputsOk(addition.reps) && Disjoint(snapshot.batch.value, other, addition)
    ensures var p := Prepare(Capture(snapshot, targets, inputs).value, addition).value;
            !Enrichment.Malformed(p, 1) && forall e :: !Blocked(p, later, e)
  {
    hide OutputsOk, OutputOf, Graph.Valid, Table, Merge, Source, SourceRevision, AllBound, GraphClosed, Acceptable,
         Admits, Moved, Fresh,
         TargetsUnchanged, SlotsOk, Disjoint, Prepare, Capture, Blocked, Current, StillFresh;
    CaptureDecides(snapshot, targets, inputs);
    PreparedIs(Capture(snapshot, targets, inputs).value, addition);
    PrepareDecides(snapshot, targets, inputs, addition);
    CurrentMeans(snapshot);
    MovedIsCurrent(snapshot, other, later);
    TablesMeet(snapshot, targets, inputs, addition, other, later);
    UnrelatedCommitIsAdmitted(snapshot, targets, inputs, other, later);
    AdmitsIsFresh(snapshot, targets, inputs, later);
    StillAcceptable(snapshot, addition, other, later);
    UnblockedExactly(snapshot, targets, inputs, addition, later);
    SameResourceAs(snapshot, addition);
  }

  lemma AdmitsIsFresh(snapshot: Snapshot, targets: seq<Slot>, inputs: seq<Slot>, current: Snapshot)
    requires Current(snapshot) && Admits(snapshot, targets, inputs, current)
    ensures StillFresh(snapshot, inputs, current)
  {
    hide Current, StillFresh;
  }

  lemma SameResourceAs(snapshot: Snapshot, addition: Batch)
    requires Acceptable(snapshot, addition)
    ensures addition.resource == snapshot.batch.value.resource
  {
    hide OutputsOk, Graph.Valid, Table, AllBound, Stays, NoClash, Cyclic;
  }

  lemma TablesMeet(snapshot: Snapshot, targets: seq<Slot>, inputs: seq<Slot>, addition: Batch, other: Batch,
                   later: Snapshot)
    requires Current(snapshot) && GraphClosed(snapshot.batch.value) && Moved(snapshot, other, later)
    requires OutputsOk(other.reps) && OutputsOk(addition.reps) && Disjoint(snapshot.batch.value, other, addition)
    requires forall s :: s in targets ==> s in Table(addition.reps)
    requires forall s :: s in inputs ==> s in Table(snapshot.batch.value.reps)
    ensures OutputsOk(later.batch.value.reps)
    ensures forall s :: s in inputs || s in targets ==> s !in Table(other.reps)
    ensures forall s :: s in Table(snapshot.batch.value.reps) ==> s in Table(later.batch.value.reps)
  {
    hide OutputsOk, OutputOf, Graph.Valid, Table, Merge, Source, SourceRevision, AllBound, GraphClosed;
    NewcomersJoin(snapshot, other);
  }
}
