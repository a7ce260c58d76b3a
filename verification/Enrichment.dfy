/** Capture, preparation and freshness-checked publication of an enrichment. */
module Enrichment {
  import opened Sequences
  import opened Graph
  import opened Dependencies
  import opened Merging
  import opened MergeTheorems
  import opened MergeTwice
  import opened Port

  datatype Captured = Captured(snapshot: Snapshot, sourceRevision: string, targets: seq<Slot>, inputs: seq<Slot>)

  datatype Prepared = Prepared(captured: Captured, addition: Batch)

  function Same<T>(x: T): T { x }

  predicate SlotsOk(slots: seq<Slot>) {
    Unique(slots, Same) && forall s :: s in slots ==> NonBlank(s.purpose) && NonBlank(s.variant)
  }

  /** `capture` */
  function Capture(snapshot: Snapshot, targets: seq<Slot>, inputs: seq<Slot>): (r: Result<Captured>)
    ensures r.Ok? ==> r.value.snapshot.batch.Some? && OutputsOk(r.value.snapshot.batch.value.reps)
  {
    var source :- Source(snapshot);
    if !SlotsOk(targets) || !SlotsOk(inputs) || targets == [] then Err(Invalid)
    else if exists s :: s in inputs && s !in Table(snapshot.batch.value.reps) then Err(Stale)
    else Ok(Captured(snapshot, source, targets, inputs))
  }

  function SlotSet(slots: seq<Slot>): set<Slot> { set s | s in slots }

  /** Every dependency was captured before preparation. */
  predicate FromInputs(outputs: map<Slot, Owner>, before: map<Slot, Owner>, inputs: seq<Slot>) {
    forall s, d :: s in outputs && d in outputs[s].output.dependencies ==> d.slot in inputs && d.slot in before
  }

  /** Every dependency is at the revision captured. */
  predicate AtRevisions(outputs: map<Slot, Owner>, before: map<Slot, Owner>) {
    forall s, d :: s in outputs && d in outputs[s].output.dependencies && d.slot in before ==>
      before[d.slot].output.artifactRevision == d.revision
  }

  /** `prepare`: only the declared targets, computed from captured inputs at their captured revisions. */
  function Prepare(captured: Captured, addition: Batch): (r: Result<Prepared>) {
    if captured.snapshot.batch.None? then Err(Invalid) else
    var outputs :- Outputs(addition.reps);
    var before :- Outputs(captured.snapshot.batch.value.reps);
    if outputs.Keys != SlotSet(captured.targets) then Err(Invalid)
    else if !FromInputs(outputs, before, captured.inputs) then Err(Invalid)
    else if !AtRevisions(outputs, before) then Err(Stale)
    else
      var _ :- Merge(captured.snapshot, addition);
      Ok(Prepared(captured, addition))
  }

  function RawDigest(resource: Resource): Option<Json> {
    if "provenance" in resource.metadata && resource.metadata["provenance"].JObject?
       && "raw_source_sha256" in resource.metadata["provenance"].fields
       && resource.metadata["provenance"].fields["raw_source_sha256"] != JOther("null")
    then Some(resource.metadata["provenance"].fields["raw_source_sha256"]) else None
  }

  /** `_slot_projection` */
  function SlotProjection(b: Batch, s: Slot): Option<Part>
    requires OutputsOk(b.reps)
  {
    if s in Table(b.reps) then Some(Projection(b, Table(b.reps)[s].rep.id)) else None
  }

  /** An input still has its captured revision and shows its captured material. */
  predicate InputFresh(before: Batch, now: Batch, s: Slot)
    requires OutputsOk(before.reps) && OutputsOk(now.reps)
  {
    && s in Table(before.reps) && s in Table(now.reps)
    && InputMaterial(before, Table(before.reps)[s].rep) == InputMaterial(now, Table(now.reps)[s].rep)
  }

  predicate BindingSame(a: State, b: State) {
    && a.resourceId == b.resourceId && a.Known? && b.Known?
    && a.lifecycle == b.lifecycle && a.namespace == b.namespace && a.locator == b.locator
  }

  predicate SourceMaterialSame(a: Resource, b: Resource) {
    a.kind == b.kind && a.mediaType == b.mediaType && RawDigest(a) == RawDigest(b)
  }

  /** `_fresh` */
  function Fresh(captured: Captured, current: Snapshot): (r: Result<()>)
    ensures r.Ok? ==> Source(current) == Ok(captured.sourceRevision)
  {
    if !current.state.Live() || !BindingSame(captured.snapshot.state, current.state) then Err(Stale)
    else
      var source :- Source(current);
      if source != captured.sourceRevision then Err(Stale)
      else if captured.snapshot.batch.None? then Err(Invalid)
      else
        var before, now := captured.snapshot.batch.value, current.batch.value;
        if !SourceMaterialSame(before.resource, now.resource) then Err(Stale)
        else if !OutputsOk(before.reps) then Err(Invalid)
        else if exists s :: s in captured.inputs && !InputFresh(before, now, s) then Err(Stale)
        else Ok(())
  }

  /** `_targets_unchanged` */
  function TargetsUnchanged(captured: Captured, current: Snapshot): Result<()>
    requires Fresh(captured, current).Ok?
  {
    if exists s :: s in captured.targets
                   && SlotProjection(captured.snapshot.batch.value, s) != SlotProjection(current.batch.value, s)
    then Err(Stale) else Ok(())
  }

  /** The addition rebased on the resource record now published. */
  function Rebase(addition: Batch, current: Snapshot): Batch
    requires current.batch.Some?
  {
    addition.(resource := current.batch.value.resource)
  }

  datatype PublicationStatus = PublishedNow | AlreadyPublished | Conflict

  datatype Publication = Publication(status: PublicationStatus, attempts: nat, merge: MergeResult)

  /** A commit is justified: what it replaced was fresh with unrevised targets, and what it wrote is
      the merge of the addition with exactly that graph, different from it. */
  ghost predicate Justified(p: Prepared, w: Write) {
    && Fresh(p.captured, w.before).Ok? && TargetsUnchanged(p.captured, w.before).Ok?
    && Merge(w.before, Rebase(p.addition, w.before)).Ok?
    && w.after.batch == Some(Merge(w.before, Rebase(p.addition, w.before)).value.batch)
    && w.after.batch != w.before.batch && w.after.state.resourceId == w.before.state.resourceId
  }

  /** The addition's effect is already what this snapshot shows. */
  predicate Settled(p: Prepared, s: Snapshot, merge: MergeResult) {
    && Fresh(p.captured, s).Ok? && Merge(s, Rebase(p.addition, s)) == Ok(merge) && s.batch == Some(merge.batch)
  }

  /** The checks that stop a publication, in order, on one observed snapshot. */
  predicate Blocked(p: Prepared, s: Snapshot, e: Error) {
    if Fresh(p.captured, s).Err? then Fresh(p.captured, s).error == e
    else if Merge(s, Rebase(p.addition, s)).Err? then Merge(s, Rebase(p.addition, s)).error == e
    else TargetsUnchanged(p.captured, s) == Err(e) && s.batch != Some(Merge(s, Rebase(p.addition, s)).value.batch)
  }

  /** Requests `publish` refuses before looking at the store. */
  predicate Malformed(p: Prepared, maxRetries: int) {
    || !(0 <= maxRetries <= 3) || p.captured.snapshot.batch.None?
    || p.addition.resource != p.captured.snapshot.batch.value.resource
  }

  /** A merge result is always an admissible write over the snapshot it was merged with. */
  lemma Admissible(s: Snapshot, addition: Batch)
    requires SnapshotOk(s) && Merge(s, addition).Ok?
    ensures var b := Merge(s, addition).value.batch;
            Graph.Valid(b) && b.resource.id == s.state.resourceId && s.state.Live() && BindingKept(s.state, b.resource)
  {
    hide Graph.Valid, Merged, AnyForeign, OutputsOk;
    var plan, survivors := MergeFacts(s, addition);
    SameResource(s.batch.value, addition, plan, Merge(s, addition).value.batch, survivors);
  }

  lemma SameResource(prior: Batch, addition: Batch, plan: Plan, m: Batch, survivors: set<Slot>)
    requires Merged(prior, addition, plan, m, survivors)
    ensures m.resource == prior.resource
  {
    hide Graph.Valid, OutputsOk, Greatest, Candidates, Assemble;
  }

  /** What one pass of the loop leads to: an answer, or another pass over a fresh snapshot. */
  datatype Progress = Finished(answer: Result<Publication>) | Again(next: Snapshot)

  /** The snapshot has just been read. */
  ghost predicate JustRead(port: PublicationPort, p: Prepared, s: Snapshot)
    reads port
  {
    port.Genuine(s) && SnapshotOk(s) && s.state.resourceId == p.captured.snapshot.state.resourceId
  }

  /** The addition would change this snapshot, which is still fresh. */
  predicate Differs(p: Prepared, s: Snapshot) {
    && Fresh(p.captured, s).Ok? && Merge(s, Rebase(p.addition, s)).Ok?
    && Merge(s, Rebase(p.addition, s)).value.batch != s.batch.value
  }

  /** The no-op branch of `publish`: the effect was seen, so it is confirmed on what is stored now. */
  method Confirm(port: PublicationPort, p: Prepared, attempts: nat, ghost current: Snapshot)
    returns (a: Progress, ghost seen: Snapshot)
    requires port.Valid()
    modifies port
    ensures port.Valid() && ForeignOnly(old(port.log), port.log) && old(port.clock) <= port.clock
    ensures port.conditionalWrites == old(port.conditionalWrites)
    ensures old(port.Genuine(current)) ==> port.Genuine(current)
    ensures seen == current || port.Genuine(seen)
    ensures a.Again? ==> JustRead(port, p, a.next) && Differs(p, a.next)
    ensures a.Finished? && a.answer.Ok? ==>
              && a.answer.value.status == AlreadyPublished && a.answer.value.attempts == attempts
              && Settled(p, port.Row(p.captured.snapshot.state.resourceId), a.answer.value.merge)
    ensures a.Finished? && a.answer.Err? ==>
              Blocked(p, seen, a.answer.error) || port.Faulted(old(port.clock), port.clock)
  {
    hide Source, Merge, Fresh, TargetsUnchanged, SnapshotOk, PublicationPort.Valid, Observable, ForeignOnly,
         Graph.Valid, MergePlan;
    ghost var before, since := port.log, port.clock;
    ghost var genuine := port.Genuine(current);
    seen := current;
    var latest := port.ReadSnapshot(p.captured.snapshot.state.resourceId);
    Extended(before, port.log);
    if genuine {
      StillObservable(before, port.log, current);
    }
    if latest.Err? {
      assert port.schedule(since).fault != NoFault;
      return Finished(Err(latest.error)), seen;
    }
    seen := latest.value;
    var check := Fresh(p.captured, latest.value);
    if check.Err? {
      return Finished(Err(check.error)), seen;
    }
    var again := Merge(latest.value, Rebase(p.addition, latest.value));
    if again.Err? {
      return Finished(Err(again.error)), seen;
    }
    if again.value.batch == latest.value.batch.value {
      return Finished(Ok(Publication(AlreadyPublished, attempts, again.value))), seen;
    }
    return Again(latest.value), seen;
  }

  /** The conditional write of `publish` and, if another writer was first, the next read. */
  method Submit(port: PublicationPort, p: Prepared, current: Snapshot, merge: MergeResult, attempts: nat,
                maxRetries: nat)
    returns (a: Progress)
    requires port.Valid() && attempts <= maxRetries
    requires Differs(p, current) && TargetsUnchanged(p.captured, current).Ok?
    requires Merge(current, Rebase(p.addition, current)) == Ok(merge)
    requires current.state.resourceId == p.captured.snapshot.state.resourceId
    modifies port
    ensures port.Valid() && old(port.clock) <= port.clock && port.conditionalWrites == old(port.conditionalWrites) + 1
    ensures ForeignOnly(old(port.log), port.log) || CallerLast(old(port.log), port.log)
    ensures CallerLast(old(port.log), port.log) && old(port.Genuine(current)) ==> Justified(p, port.log[|port.log| - 1])
    ensures old(port.Genuine(current)) ==> port.Genuine(current)
    ensures a.Again? ==> JustRead(port, p, a.next) && ForeignOnly(old(port.log), port.log) && attempts < maxRetries
    ensures a.Finished? && a.answer.Ok? ==>
              && a.answer.value.attempts == attempts + 1
              && (a.answer.value.status == PublishedNow <==> CallerLast(old(port.log), port.log))
              && (a.answer.value.status == PublishedNow ==>
                    port.Row(p.captured.snapshot.state.resourceId).batch == Some(a.answer.value.merge.batch))
              && (a.answer.value.status == Conflict ==> attempts == maxRetries)
              && a.answer.value.status != AlreadyPublished
    ensures a.Finished? && a.answer.Err? && SnapshotOk(current) ==> port.Faulted(old(port.clock), port.clock)
  {
    hide Source, Merge, Fresh, TargetsUnchanged, SnapshotOk, PublicationPort.Valid, Observable, ForeignOnly, CallerLast,
         Graph.Valid, MergePlan;
    ghost var before, since := port.log, port.clock;
    ghost var genuine := port.Genuine(current);
    if SnapshotOk(current) {
      Admissible(current, Rebase(p.addition, current));
    }
    var publication := port.CompareAndPublish(merge.batch, current.state, false);
    NoWrites(before);
    ForeignThen(before, before, port.log);
    Extended(before, port.log);
    if genuine {
      StillObservable(before, port.log, current);
    }
    if publication.Err? {
      assert SnapshotOk(current) ==> port.schedule(since).fault != NoFault;
      return Finished(Err(publication.error));
    }
    if publication.value.applied {
      return Finished(Ok(Publication(PublishedNow, attempts + 1, merge)));
    }
    if attempts + 1 > maxRetries {
      return Finished(Ok(Publication(Conflict, attempts + 1, merge)));
    }
    ghost var middle, again := port.log, port.clock;
    var reread := port.ReadSnapshot(current.state.resourceId);
    ForeignThen(before, middle, port.log);
    Extended(middle, port.log);
    if genuine {
      StillObservable(middle, port.log, current);
    }
    if reread.Err? {
      assert port.schedule(again).fault != NoFault;
      return Finished(Err(reread.error));
    }
    return Again(reread.value);
  }

  /** `publish`, against every schedule of other writers and faults. `seen` is the last snapshot the
      loop worked from. */
  method Publish(port: PublicationPort, p: Prepared, maxRetries: int)
    returns (r: Result<Publication>, ghost seen: Snapshot, ghost iterations: nat)
    requires port.Valid()
    modifies port
    ensures port.Valid()
    // safety over the whole run: at most one commit, and a justified one
    ensures ForeignOnly(old(port.log), port.log) || CallerLast(old(port.log), port.log)
    ensures CallerLast(old(port.log), port.log) && old(port.Genuine(p.captured.snapshot)) ==>
              Justified(p, port.log[|port.log| - 1])
    // what each answer means
    ensures r.Ok? ==> (r.value.status == PublishedNow <==> CallerLast(old(port.log), port.log))
    ensures r.Ok? && r.value.status == PublishedNow ==>
              port.Row(p.captured.snapshot.state.resourceId).batch == Some(r.value.merge.batch)
    ensures r.Ok? && r.value.status == AlreadyPublished ==>
              Settled(p, port.Row(p.captured.snapshot.state.resourceId), r.value.merge)
    ensures r.Ok? && r.value.status == Conflict ==> r.value.attempts == maxRetries + 1
    // why it refuses: the request, a check on an observed snapshot, or a fault of the store
    ensures !(0 <= maxRetries <= 3) ==> r == Err(Invalid)
    ensures p.captured.snapshot.batch.None? ==> r == Err(Invalid)
    ensures p.captured.snapshot.batch.Some? && p.addition.resource != p.captured.snapshot.batch.value.resource ==>
              r == Err(Invalid)
    ensures r.Err? && !Malformed(p, maxRetries) && SnapshotOk(p.captured.snapshot) ==>
              Blocked(p, seen, r.error) || port.Faulted(old(port.clock), port.clock)
    ensures old(port.Genuine(p.captured.snapshot)) ==> port.Genuine(seen)
    // bounds, whatever the other writers do
    ensures 0 <= maxRetries <= 3 ==> && port.conditionalWrites <= old(port.conditionalWrites) + maxRetries + 1
                                     && iterations <= 2 * (maxRetries + 1)
    ensures r.Ok? ==> port.conditionalWrites == old(port.conditionalWrites) + r.value.attempts
  {
    hide Source, Merge, Fresh, TargetsUnchanged, SnapshotOk, PublicationPort.Valid, Observable, ForeignOnly, CallerLast,
         Graph.Valid, MergePlan, Justified, Settled;
    ghost var start := port.log;
    NoWrites(start);
    iterations, seen := 0, p.captured.snapshot;
    if Malformed(p, maxRetries) {
      return Err(Invalid), seen, 0;
    }
    var current := p.captured.snapshot;
    var attempts: nat := 0;
    ghost var genuine := port.Genuine(current);
    ghost var sound := SnapshotOk(current);
    ghost var pending := false;
    while true
      invariant port.Valid() && ForeignOnly(start, port.log) && !CallerLast(start, port.log)
      invariant genuine ==> port.Genuine(current)
      invariant current.state.resourceId == p.captured.snapshot.state.resourceId && (sound ==> SnapshotOk(current))
      invariant attempts <= maxRetries && port.conditionalWrites == old(port.conditionalWrites) + attempts
      invariant old(port.clock) <= port.clock && (pending ==> Differs(p, current))
      invariant iterations <= 2 * attempts + (if pending then 1 else 0)
      decreases maxRetries - attempts, if pending then 0 else 1
    {
      iterations := iterations + 1;
      seen := current;
      var check := Fresh(p.captured, current);
      if check.Err? {
        return Err(check.error), seen, iterations;
      }
      var result := Merge(current, Rebase(p.addition, current));
      if result.Err? {
        return Err(result.error), seen, iterations;
      }
      ghost var middle := port.log;
      var step: Progress;
      if result.value.batch == current.batch.value {
        step, seen := Confirm(port, p, attempts, current);
        ForeignThen(start, middle, port.log);
        pending := true;
      } else {
        var targets := TargetsUnchanged(p.captured, current);
        if targets.Err? {
          return Err(targets.error), seen, iterations;
        }
        step := Submit(port, p, current, result.value, attempts, maxRetries);
        ForeignThen(start, middle, port.log);
        attempts := attempts + 1;
        pending := false;
      }
      if step.Finished? {
        return step.answer, seen, iterations;
      }
      current := step.next;
    }
  }

  /** Every graph a justified commit writes is valid, dependency-closed and bound to its source. */
  lemma JustifiedGraph(p: Prepared, w: Write)
    requires Justified(p, w)
    ensures w.after.batch.Some? && Graph.Valid(w.after.batch.value) && GraphClosed(w.after.batch.value)
            && AllBound(w.after.batch.value)
  {
    hide Merge, Fresh, TargetsUnchanged, OutputsOk, Graph.Valid, Source, GraphClosed, AllBound;
    MergeCloses(w.before, Rebase(p.addition, w.before));
    MergeStaysBound(w.before, Rebase(p.addition, w.before));
  }

  lemma MergeStaysBound(current: Snapshot, addition: Batch)
    requires Merge(current, addition).Ok?
    ensures AllBound(current.batch.value) && AllBound(Merge(current, addition).value.batch)
  {
    hide Graph.Valid, OutputsOk, OutputOf, Table, IndependentOutput, Assemble, Greatest, Candidates, MergeSpaces,
         Acyclic;
    var plan, survivors := MergeFacts(current, addition);
    var m := Merge(current, addition).value.batch;
    SameResource(current.batch.value, addition, plan, m, survivors);
    MergedReps(current.batch.value, addition, plan, m, survivors);
    AnyForeignDecides(current.batch.value.reps, Source(current).value);
    IncomingBound(current, addition);
  }

  lemma IncomingBound(current: Snapshot, addition: Batch)
    requires MergePlan(current, addition).Ok?
    ensures forall r :: r in addition.reps && Owns(r) ==> OutOf(r).sourceRevision == Source(current).value
  {
    hide Graph.Valid, OutputOf, IndependentOutput, Source, Candidates, Combined, Acyclic, InvalidDependencies;
    forall r | r in addition.reps && Owns(r) ensures OutOf(r).sourceRevision == Source(current).value {
      assert OutOf(r).slot in Table(addition.reps);
    }
  }

  /** A justified commit keeps every representation of the graph it replaced that is neither an
      output of the addition nor transitively stale, with its units and vectors. */
  lemma CommitPreserves(p: Prepared, w: Write, r: Rep)
    requires Justified(p, w) && r in w.before.batch.value.reps && OutputsOk(p.addition.reps)
    requires OutputsOk(w.after.batch.value.reps)
    requires Owns(r) ==> OutOf(r).slot in Table(w.after.batch.value.reps) && OutOf(r).slot !in Table(p.addition.reps)
    ensures r in w.after.batch.value.reps
    ensures Projection(w.after.batch.value, r.id) == Projection(w.before.batch.value, r.id)
  {
    hide Merge, Fresh, TargetsUnchanged, OutputsOk, Table, OutputOf, Select, Source;
    MergePreserves(w.before, Rebase(p.addition, w.before), r);
  }

  /** A retry that finds the effect of the same addition, merged earlier into some closed graph, never
      writes it again. */
  lemma NoSecondWrite(p: Prepared, w: Write, earlier: Snapshot)
    requires Justified(p, w) && earlier.batch.Some? && GraphClosed(earlier.batch.value)
    requires Merge(earlier, Rebase(p.addition, earlier)).Ok?
    ensures w.before.batch != Some(Merge(earlier, Rebase(p.addition, earlier)).value.batch)
  {
    hide Merge, Fresh, TargetsUnchanged, OutputsOk, Table, Graph.Valid, AnyForeign, GraphClosed, Merged;
    if w.before.batch == Some(Merge(earlier, Rebase(p.addition, earlier)).value.batch) {
      var plan, survivors := MergeFacts(earlier, Rebase(p.addition, earlier));
      SameResource(earlier.batch.value, Rebase(p.addition, earlier), plan, w.before.batch.value, survivors);
      MergeAgain(earlier, Rebase(p.addition, earlier), w.before);
    }
  }

  /** An input is in both graphs, and its consumers cannot tell one from the other. */
  predicate InputSame(was: Batch, now: Batch, s: Slot)
    requires OutputsOk(was.reps) && OutputsOk(now.reps)
  {
    && s in Table(was.reps) && s in Table(now.reps)
    && SameMaterial(was, Table(was.reps)[s].rep, now, Table(now.reps)[s].rep)
  }

  lemma InputDecides(was: Batch, now: Batch, s: Slot)
    requires OutputsOk(was.reps) && OutputsOk(now.reps)
    ensures InputFresh(was, now, s) <==> InputSame(was, now, s)
  {
    hide OutputsOk, Table, OutputOf, SameMaterial, InputMaterial;
    if s in Table(was.reps) && s in Table(now.reps) {
      MaterialAgrees(was, Table(was.reps)[s].rep, now, Table(now.reps)[s].rep);
    }
  }

  /** What a justified commit replaced: a live graph of the captured lifecycle, binding, revision and
      source material, with every captured input's material and every target exactly as captured. */
  lemma JustifiedMeans(p: Prepared, w: Write)
    requires Justified(p, w)
    ensures var c, was, now := p.captured, p.captured.snapshot, w.before;
            && now.state.Live() && now.batch.Some? && was.batch.Some?
            && now.state.resourceId == was.state.resourceId && was.state.Known?
            && now.state.lifecycle == was.state.lifecycle
            && now.state.namespace == was.state.namespace && now.state.locator == was.state.locator
            && now.batch.value.resource.namespace == now.state.namespace
            && now.batch.value.resource.locator == now.state.locator
            && SourceRevision(now.batch.value.resource) == Ok(c.sourceRevision)
            && RawDigest(now.batch.value.resource) == RawDigest(was.batch.value.resource)
            && now.batch.value.resource.kind == was.batch.value.resource.kind
            && now.batch.value.resource.mediaType == was.batch.value.resource.mediaType
            && OutputsOk(was.batch.value.reps) && OutputsOk(now.batch.value.reps)
            && (forall s :: s in c.inputs ==> InputSame(was.batch.value, now.batch.value, s))
            && (forall s :: s in c.targets ==>
                  SlotProjection(was.batch.value, s) == SlotProjection(now.batch.value, s))
  {
    hide Merge, Graph.Valid, OutputsOk, InputMaterial, SlotProjection, Table, AnyForeign, RawDigest, SameMaterial;
    forall s | s in p.captured.inputs
      ensures InputSame(p.captured.snapshot.batch.value, w.before.batch.value, s)
    {
      InputDecides(p.captured.snapshot.batch.value, w.before.batch.value, s);
    }
  }

  /** What was captured and prepared can be published: on the captured snapshot itself no check fails. */
  lemma PreparedIsPublishable(snapshot: Snapshot, targets: seq<Slot>, inputs: seq<Slot>, addition: Batch)
    requires Capture(snapshot, targets, inputs).Ok?
    requires Prepare(Capture(snapshot, targets, inputs).value, addition).Ok?
    ensures var p := Prepare(Capture(snapshot, targets, inputs).value, addition).value;
            && !Malformed(p, 1) && forall e :: !Blocked(p, snapshot, e)
  {
    hide Merge, Graph.Valid, OutputsOk, InputMaterial, SlotProjection, Table, AnyForeign, RawDigest;
    assert Rebase(addition, snapshot) == addition;
  }

  /** A prepared output depends only on captured inputs, at the revisions captured, and its slots are
      exactly the declared targets; so in the merged graph all its dependencies are met. */
  lemma PreparedOutputsAreMet(snapshot: Snapshot, targets: seq<Slot>, inputs: seq<Slot>, addition: Batch, s: Slot,
                              d: Dependency)
    requires Capture(snapshot, targets, inputs).Ok? && s in targets
    requires Prepare(Capture(snapshot, targets, inputs).value, addition).Ok?
    requires OutputsOk(addition.reps)
    ensures s in Table(addition.reps)
    ensures d in Table(addition.reps)[s].output.dependencies ==>
              && d.slot in inputs && d.slot in Table(snapshot.batch.value.reps)
              && Table(snapshot.batch.value.reps)[d.slot].output.artifactRevision == d.revision
  {
    hide Merge, Graph.Valid, OutputsOk, InputMaterial, Table, AnyForeign;
    var c := Capture(snapshot, targets, inputs).value;
    assert s in SlotSet(c.targets);
  }
}
