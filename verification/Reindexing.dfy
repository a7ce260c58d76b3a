/** Publication of a prepared reindex: bounded rebasing over a store that other writers change. */
module Reindexing {
  import opened Sequences
  import opened Graph
  import opened Merging
  import opened Enrichment
  import opened Reconciling
  import opened ReconcileTheorems
  import opened Port
  import MergeTwice

  datatype Job = Job(snapshot: Snapshot, incoming: Option<Batch>, resource: Resource, owner: string,
                     inputs: seq<Slot>, remove: seq<Slot>)

  function RemoveSet(job: Job): set<Slot> { set s | s in job.remove }

  datatype Identity = Identity(revision: string, namespace: string, locator: Locator, raw: Option<Json>,
                               kind: string, mediaType: string)

  /** `_source_identity` */
  function SourceIdentity(resource: Resource): Result<Identity> {
    var revision :- SourceRevision(resource);
    Ok(Identity(revision, resource.namespace, resource.locator, RawDigest(resource), resource.kind, resource.mediaType))
  }

  /** Independent metadata that the job merely carried over from what it captured. */
  predicate CarriedOver(job: Job, original: Batch, k: string) {
    && k !in SOURCE_KEYS && k in job.resource.metadata && k in original.resource.metadata
    && original.resource.metadata[k] == job.resource.metadata[k]
  }

  /** `_rebased_material`: carried-over metadata and title follow the graph now stored. */
  function RebasedResource(job: Job, current: Snapshot): Resource {
    if job.snapshot.batch.None? || current.batch.None? then job.resource
    else
      var original, now := job.snapshot.batch.value, current.batch.value;
      var metadata := map k | k in job.resource.metadata
                              && (CarriedOver(job, original, k) ==> k in now.resource.metadata)
                      :: if CarriedOver(job, original, k) then now.resource.metadata[k] else job.resource.metadata[k];
      var title := if job.resource.title == original.resource.title then now.resource.title else job.resource.title;
      job.resource.(metadata := metadata, title := title)
  }

  function RebasedIncoming(job: Job, current: Snapshot): Option<Batch> {
    if job.incoming.None? then None else Some(job.incoming.value.(resource := RebasedResource(job, current)))
  }

  /** The graph this job wants, seen from the graph now stored. */
  function Desired(job: Job, current: Snapshot): Result<Option<Batch>> {
    Reconcile(current, RebasedIncoming(job, current), RebasedResource(job, current), job.owner, RemoveSet(job))
  }

  function LifecycleOf(s: State): Option<nat> {
    if s.Known? then Some(s.lifecycle) else None
  }

  predicate SameLifecycle(original: State, current: State) {
    && LifecycleOf(original) == LifecycleOf(current) && original.Live() == current.Live()
    && (current.Known? && current.status == Deleted ==> current == original)
  }

  /** The slots a job writes or removes. */
  function Targets(job: Job): set<Slot>
    requires job.incoming.Some? ==> OutputsOk(job.incoming.value.reps)
  {
    RemoveSet(job) + if job.incoming.Some? then Table(job.incoming.value.reps).Keys else {}
  }

  function Wanted(job: Job, s: Slot): Option<Part>
    requires job.incoming.Some? ==> OutputsOk(job.incoming.value.reps)
  {
    if job.incoming.None? then None else SlotProjection(job.incoming.value, s)
  }

  /** A target is as captured, or already as wanted. */
  predicate TargetKept(job: Job, original: Batch, now: Batch, s: Slot)
    requires OutputsOk(original.reps) && OutputsOk(now.reps)
    requires job.incoming.Some? ==> OutputsOk(job.incoming.value.reps)
  {
    SlotProjection(original, s) == SlotProjection(now, s) || Wanted(job, s) == SlotProjection(now, s)
  }

  predicate InputKept(original: Batch, now: Batch, s: Slot)
    requires OutputsOk(original.reps) && OutputsOk(now.reps)
  {
    && s in Table(original.reps) && s in Table(now.reps)
    && Table(original.reps)[s].output.artifactRevision == Table(now.reps)[s].output.artifactRevision
  }

  /** Same source, no target revised by someone else, no declared input revised. */
  predicate Unrevised(job: Job, original: Batch, now: Batch) {
    && SourceIdentity(original.resource).Ok? && SourceIdentity(original.resource) == SourceIdentity(now.resource)
    && OutputsOk(original.reps) && OutputsOk(now.reps)
    && (job.incoming.Some? ==> OutputsOk(job.incoming.value.reps))
    && (forall s :: s in Targets(job) ==> TargetKept(job, original, now, s))
    && (forall s :: s in job.inputs ==> InputKept(original, now, s))
  }

  datatype Verdict = Proceed | Recognised(batch: Option<Batch>)

  /** The checks on a graph other than the captured one. */
  function CheckMoved(job: Job, current: Snapshot): Result<Verdict> {
    if current.batch.None? || job.snapshot.batch.None? then Err(Stale)
    else
      var original, now := job.snapshot.batch.value, current.batch.value;
      var before :- SourceIdentity(original.resource);
      var after :- SourceIdentity(now.resource);
      if before != after then
        if job.incoming.None? then Err(Stale)
        else
          var wanted :- SourceIdentity(job.resource);
          if after != wanted then Err(Stale)
          else
            var desired :- Desired(job, current);
            if SameGraph(current.batch, desired) then Ok(Recognised(desired)) else Err(Stale)
      else
        var _ :- Outputs(original.reps);
        var _ :- Outputs(now.reps);
        var _ :- if job.incoming.Some? then Outputs(job.incoming.value.reps) else Ok(map[]);
        if Unrevised(job, original, now) then Ok(Proceed) else Err(Stale)
  }

  /** Everything checked at the head of an iteration. */
  function CheckCurrent(job: Job, current: Snapshot): Result<Verdict> {
    if !SameLifecycle(job.snapshot.state, current.state) then Err(Stale)
    else if current == job.snapshot then Ok(Proceed)
    else CheckMoved(job, current)
  }

  datatype ReindexStatus = Reindexed | AlreadyThere | WithdrawnNow | AlreadyWithdrawn | Contended

  datatype ReindexResult = ReindexResult(status: ReindexStatus, attempts: nat, batch: Option<Batch>)

  /** A commit is entitled: it continues the captured lifecycle, replaces the captured graph or one with
      the same source, targets and inputs, and writes the reconciliation with exactly that graph. */
  ghost predicate Entitled(job: Job, w: Write) {
    && SameLifecycle(job.snapshot.state, w.before.state)
    && (w.before == job.snapshot || (&& job.snapshot.batch.Some? && w.before.batch.Some?
                                     && Unrevised(job, job.snapshot.batch.value, w.before.batch.value)))
    && Desired(job, w.before) == Ok(w.after.batch)
    && w.before.state.resourceId == w.after.state.resourceId == job.snapshot.state.resourceId
  }

  /** The observed graph is the one this job would write. */
  predicate AlreadyAsDesired(job: Job, seen: Snapshot, batch: Option<Batch>) {
    Desired(job, seen) == Ok(batch) && SameGraph(seen.batch, batch)
  }

  lemma ProceedMeans(job: Job, current: Snapshot)
    ensures CheckCurrent(job, current) == Ok(Proceed) ==>
              && SameLifecycle(job.snapshot.state, current.state)
              && (current == job.snapshot || (&& job.snapshot.batch.Some? && current.batch.Some?
                                              && Unrevised(job, job.snapshot.batch.value, current.batch.value)))
    ensures CheckCurrent(job, current).Ok? && CheckCurrent(job, current).value.Recognised? ==>
              AlreadyAsDesired(job, current, CheckCurrent(job, current).value.batch)
  {
    hide Unrevised, Desired, SameGraph, SourceIdentity, OutputsOk;
  }

  /** What stops a reindex on one observed snapshot: a check, the reconciliation, an empty graph to
      create, or a resource record that is not this row's. */
  predicate Stopped(job: Job, s: Snapshot, e: Error) {
    if CheckCurrent(job, s).Err? then CheckCurrent(job, s).error == e
    else if Desired(job, s).Err? then Desired(job, s).error == e
    else if Desired(job, s).value.None? then !s.state.Live() && e == Invalid
    else var resource := Desired(job, s).value.value.resource;
         resource.id != s.state.resourceId || !BindingKept(s.state, resource)
  }

  /** A graph to be written is always valid. */
  lemma DesiredValid(job: Job, s: Snapshot)
    ensures Desired(job, s).Ok? && Desired(job, s).value.Some? ==> Graph.Valid(Desired(job, s).value.value)
  {
    hide Graph.Valid, MergeTwice.GraphClosed, UpToDate, Reconcile, RebasedResource;
    if Desired(job, s).Ok? && Desired(job, s).value.Some? {
      ReconcileInvariant(s, RebasedIncoming(job, s), RebasedResource(job, s), job.owner, RemoveSet(job));
    }
  }

  /** The conditional write of one attempt: a graph, or its withdrawal. */
  method Commit(port: PublicationPort, current: Snapshot, batch: Option<Batch>) returns (r: Result<Outcome>)
    requires port.Valid() && (batch.Some? ==> Graph.Valid(batch.value)) && (batch.None? ==> current.state.Live())
    modifies port
    ensures port.Valid() && (ForeignOnly(old(port.log), port.log) || CallerLast(old(port.log), port.log))
    ensures port.conditionalWrites == old(port.conditionalWrites) + 1 && old(port.clock) <= port.clock
    ensures CallerLast(old(port.log), port.log) ==>
              && port.log[|port.log| - 1].after.batch == batch
              && port.log[|port.log| - 1].after.state.resourceId == current.state.resourceId
    ensures CallerLast(old(port.log), port.log) && old(port.Genuine(current)) ==>
              port.log[|port.log| - 1].before == current
    ensures old(port.Genuine(current)) ==> port.Genuine(current)
    ensures r.Ok? ==> (r.value.applied <==> CallerLast(old(port.log), port.log))
    ensures r.Err? && r.error != Catalog ==> ForeignOnly(old(port.log), port.log)
    ensures r.Err? ==> || port.Faulted(old(port.clock), port.clock)
                       || (batch.Some? && (batch.value.resource.id != current.state.resourceId
                                           || !BindingKept(current.state, batch.value.resource)))
  {
    hide PublicationPort.Valid, Observable, ForeignOnly, CallerLast, Graph.Valid, BindingKept;
    ghost var writing, since := port.log, port.clock;
    ghost var genuine := port.Genuine(current);
    if batch.None? {
      r := port.WithdrawIfCurrent(current.state.resourceId, current.state, false);
    } else {
      r := port.CompareAndPublish(batch.value, current.state, !current.state.Live());
    }
    Extended(writing, port.log);
    if genuine {
      StillObservable(writing, port.log, current);
    }
    if r.Err? && r.error == Catalog && port.schedule(since).fault != NoFault {
      assert port.Faulted(since, port.clock);
    }
  }

  /** What one pass of the loop leads to: an answer, or another pass over a fresh snapshot. */
  datatype ReindexProgress = Answered(answer: Result<ReindexResult>) | Rebased(next: Snapshot)

  /** The commit of a pass is this one, over the snapshot the pass worked from. */
  ghost predicate CommitOver(w: Write, current: Snapshot, batch: Option<Batch>) {
    w.before == current && w.after.batch == batch && w.after.state.resourceId == current.state.resourceId
  }

  /** The no-op branch of `publish_reindex`: the desired graph was seen, so it is confirmed by its state. */
  method ConfirmReindex(port: PublicationPort, current: Snapshot, batch: Option<Batch>, attempts: nat, mayRebase: bool)
    returns (a: ReindexProgress)
    requires port.Valid() && current.state.Live() && SameGraph(current.batch, batch)
    modifies port
    ensures port.Valid() && ForeignOnly(old(port.log), port.log) && old(port.clock) <= port.clock
    ensures port.conditionalWrites == old(port.conditionalWrites)
    ensures old(port.Genuine(current)) ==> port.Genuine(current)
    ensures a.Rebased? ==> mayRebase && port.Genuine(a.next) && a.next.state.resourceId == current.state.resourceId
    ensures a.Answered? && a.answer.Err? ==> a.answer.error == Catalog && port.Faulted(old(port.clock), port.clock)
    ensures a.Answered? && a.answer.Ok? ==>
              && a.answer.value.attempts == attempts
              && (if a.answer.value.status == Contended then !mayRebase
                  else && a.answer.value.batch == batch
                       && a.answer.value.status == (if batch.None? then AlreadyWithdrawn else AlreadyThere)
                       && (batch.None? <==> current.batch.None?)
                       && (batch.Some? ==> SameRecords(current.batch.value, batch.value)))
  {
    hide SameGraph, SnapshotOk, PublicationPort.Valid, Observable, ForeignOnly, SameRecords;
    ghost var before, since := port.log, port.clock;
    ghost var genuine := port.Genuine(current);
    var latest := port.ReadSnapshot(current.state.resourceId);
    Extended(before, port.log);
    if genuine {
      StillObservable(before, port.log, current);
    }
    if latest.Err? {
      assert port.schedule(since).fault != NoFault;
      return Answered(Err(latest.error));
    }
    if latest.value.state != current.state {
      if !mayRebase {
        return Answered(Ok(ReindexResult(Contended, attempts, None)));
      }
      return Rebased(latest.value);
    }
    SameGraphPresence(current.batch, batch);
    return Answered(Ok(ReindexResult(if batch.None? then AlreadyWithdrawn else AlreadyThere, attempts, batch)));
  }

  /** The conditional write of `publish_reindex` and, if another writer was first, the next read. */
  method SubmitReindex(port: PublicationPort, current: Snapshot, batch: Option<Batch>, attempts: nat, mayRebase: bool)
    returns (a: ReindexProgress)
    requires port.Valid() && (batch.Some? ==> Graph.Valid(batch.value)) && (batch.None? ==> current.state.Live())
    modifies port
    ensures port.Valid() && old(port.clock) <= port.clock && port.conditionalWrites == old(port.conditionalWrites) + 1
    ensures ForeignOnly(old(port.log), port.log) || CallerLast(old(port.log), port.log)
    ensures CallerLast(old(port.log), port.log) && old(port.Genuine(current)) ==>
              CommitOver(port.log[|port.log| - 1], current, batch)
    ensures CallerLast(old(port.log), port.log) ==> port.log[|port.log| - 1].after.batch == batch
    ensures old(port.Genuine(current)) ==> port.Genuine(current)
    ensures a.Rebased? ==> && mayRebase && port.Genuine(a.next) && a.next.state.resourceId == current.state.resourceId
                           && ForeignOnly(old(port.log), port.log)
    ensures a.Answered? && a.answer.Ok? ==>
              && a.answer.value.attempts == attempts + 1
              && (if CallerLast(old(port.log), port.log)
                  then && a.answer.value.batch == batch
                       && a.answer.value.status == (if batch.None? then WithdrawnNow else Reindexed)
                  else a.answer.value.status == Contended && !mayRebase)
    ensures a.Answered? && a.answer.Err? && a.answer.error != Catalog ==> ForeignOnly(old(port.log), port.log)
    ensures a.Answered? && a.answer.Err? ==>
              || port.Faulted(old(port.clock), port.clock)
              || (batch.Some? && (batch.value.resource.id != current.state.resourceId
                                  || !BindingKept(current.state, batch.value.resource)))
  {
    hide SnapshotOk, PublicationPort.Valid, Observable, ForeignOnly, CallerLast, Graph.Valid, BindingKept;
    ghost var before := port.log;
    ghost var genuine := port.Genuine(current);
    var outcome := Commit(port, current, batch);
    NoWrites(before);
    ForeignThen(before, before, port.log);
    if outcome.Err? {
      return Answered(Err(outcome.error));
    }
    if outcome.value.applied {
      return Answered(Ok(ReindexResult(if batch.None? then WithdrawnNow else Reindexed, attempts + 1, batch)));
    }
    if !mayRebase {
      return Answered(Ok(ReindexResult(Contended, attempts + 1, None)));
    }
    ghost var middle, since := port.log, port.clock;
    var reread := port.ReadSnapshot(current.state.resourceId);
    ForeignThen(before, middle, port.log);
    Extended(middle, port.log);
    if genuine {
      StillObservable(middle, port.log, current);
    }
    if reread.Err? {
      assert port.schedule(since).fault != NoFault;
      return Answered(Err(reread.error));
    }
    return Rebased(reread.value);
  }

  /** `publish_reindex`, against every schedule of other writers and faults. `seen` is the last snapshot
      the loop worked from. */
  method PublishReindex(port: PublicationPort, job: Job, publicationOwner: PublicationPort?, maxRetries: int,
                        allowNoop: bool)
    returns (r: Result<ReindexResult>, ghost seen: Snapshot, ghost iterations: nat)
    requires port.Valid()
    modifies port
    ensures port.Valid()
    // safety over the whole run
    ensures ForeignOnly(old(port.log), port.log) || CallerLast(old(port.log), port.log)
    ensures CallerLast(old(port.log), port.log) && old(port.Genuine(job.snapshot)) ==>
              Entitled(job, port.log[|port.log| - 1])
    // what each answer means
    ensures r.Ok? ==> (r.value.status in {Reindexed, WithdrawnNow} <==> CallerLast(old(port.log), port.log))
    ensures r.Ok? && r.value.status == Reindexed ==>
              r.value.batch.Some? && r.value.batch == port.log[|port.log| - 1].after.batch
    ensures r.Ok? && r.value.status == WithdrawnNow ==>
              r.value.batch.None? && port.log[|port.log| - 1].after.batch.None?
    ensures r.Ok? && r.value.status in {AlreadyThere, AlreadyWithdrawn} ==>
              && AlreadyAsDesired(job, seen, r.value.batch)
              && (old(port.Genuine(job.snapshot)) ==> port.Genuine(seen))
              && (r.value.status == AlreadyThere ==>
                    seen.batch.Some? && r.value.batch.Some? && SameRecords(seen.batch.value, r.value.batch.value))
              && (r.value.status == AlreadyWithdrawn ==> seen.batch.None? && seen.state.Live())
    ensures r.Err? && r.error != Catalog ==> ForeignOnly(old(port.log), port.log)
    ensures r.Ok? && r.value.status == Contended ==> iterations == maxRetries + 1
    // a run that may answer without writing never writes what is already there
    ensures CallerLast(old(port.log), port.log) && old(port.Genuine(job.snapshot)) && allowNoop ==>
              Worthwhile(port.log[|port.log| - 1])
    // why it refuses: the request, what it observed, or a fault of the store
    ensures r.Err? && 0 <= maxRetries <= 3 && (publicationOwner == null || publicationOwner == port) ==>
              Stopped(job, seen, r.error) || port.Faulted(old(port.clock), port.clock)
    // bounds, whatever the other writers do
    ensures r.Ok? ==> port.conditionalWrites == old(port.conditionalWrites) + r.value.attempts
    ensures (publicationOwner != null && publicationOwner != port) || !(0 <= maxRetries <= 3) ==> r == Err(Invalid)
    ensures 0 <= maxRetries <= 3 ==> && port.conditionalWrites <= old(port.conditionalWrites) + maxRetries + 1
                                     && iterations <= maxRetries + 1
  {
    hide CheckCurrent, Desired, SameLifecycle, SameGraph, SnapshotOk, PublicationPort.Valid, Observable, ForeignOnly,
         CallerLast, Graph.Valid, Unrevised, BindingKept, SameRecords, Worthwhile;
    ghost var start := port.log;
    NoWrites(start);
    iterations, seen := 0, job.snapshot;
    if (publicationOwner != null && publicationOwner != port) || !(0 <= maxRetries <= 3) {
      return Err(Invalid), seen, 0;
    }
    var current := job.snapshot;
    var attempts: nat, rebases: nat := 0, 0;
    ghost var genuine := port.Genuine(job.snapshot);
    while true
      invariant port.Valid() && ForeignOnly(start, port.log) && !CallerLast(start, port.log)
      invariant genuine ==> port.Genuine(current)
      invariant current.state.resourceId == job.snapshot.state.resourceId
      invariant attempts <= rebases <= maxRetries && iterations == rebases && old(port.clock) <= port.clock
      invariant port.conditionalWrites == old(port.conditionalWrites) + attempts
      decreases maxRetries - rebases
    {
      iterations := iterations + 1;
      seen := current;
      var verdict := CheckCurrent(job, current);
      ProceedMeans(job, current);
      if verdict.Err? {
        return Err(verdict.error), seen, iterations;
      }
      if verdict.value.Recognised? {
        RecognisedGraph(job, current);
        return Ok(ReindexResult(AlreadyThere, attempts, verdict.value.batch)), seen, iterations;
      }
      var batch := Desired(job, current);
      if batch.Err? {
        return Err(batch.error), seen, iterations;
      }
      ghost var middle := port.log;
      var step: ReindexProgress;
      if allowNoop && current.state.Live() && SameGraph(current.batch, batch.value) {
        step := ConfirmReindex(port, current, batch.value, attempts, rebases < maxRetries);
      } else {
        if batch.value.None? && !current.state.Live() {
          return Err(Invalid), seen, iterations;
        }
        DesiredValid(job, current);
        step := SubmitReindex(port, current, batch.value, attempts, rebases < maxRetries);
        attempts := attempts + 1;
        if allowNoop && genuine && CallerLast(middle, port.log) {
          Committed(middle, port.log);
          DifferentIsWorthwhile(port.log[|port.log| - 1]);
        }
      }
      ForeignThen(start, middle, port.log);
      if step.Answered? {
        return step.answer, seen, iterations;
      }
      rebases := rebases + 1;
      current := step.next;
    }
  }

  lemma SameGraphPresence(l: Option<Batch>, r: Option<Batch>)
    requires SameGraph(l, r)
    ensures l.None? <==> r.None?
    ensures l.Some? ==> SameRecords(l.value, r.value)
  {
    if l.Some? {
      SameRecordsMean(l.value, r.value);
    }
  }

  /** Two graphs with one resource record and the same representations, units, spaces, vectors and facets. */
  ghost predicate SameRecords(a: Batch, b: Batch) {
    && a.resource == b.resource
    && (forall x :: x in a.reps <==> x in b.reps) && (forall x :: x in a.units <==> x in b.units)
    && (forall x :: x in a.spaces <==> x in b.spaces) && (forall x :: x in a.vectors <==> x in b.vectors)
    && (forall x :: x in a.facets <==> x in b.facets)
  }

  lemma MembersMean<T(!new)>(a: seq<T>, b: seq<T>)
    ensures SameMembers(a, b) <==> forall x :: x in a <==> x in b
  {
    var s, t := set x | x in a, set x | x in b;
    if s == t {
      forall x ensures x in a <==> x in b {
        assert x in s <==> x in t;
      }
    }
  }

  lemma SameRecordsMean(a: Batch, b: Batch)
    ensures SameGraph(Some(a), Some(b)) <==> SameRecords(a, b)
  {
    hide SameMembers;
    MembersMean(a.reps, b.reps);
    MembersMean(a.units, b.units);
    MembersMean(a.spaces, b.spaces);
    MembersMean(a.vectors, b.vectors);
    MembersMean(a.facets, b.facets);
  }

  lemma UniqueCounts<T(!new), K>(s: seq<T>, key: T -> K, x: T)
    requires Unique(s, key)
    ensures multiset(s)[x] == if x in s then 1 else 0
  {
    if x in s {
      var i :| 0 <= i < |s| && s[i] == x;
      var rest := s[..i] + s[i + 1..];
      assert s == s[..i] + [x] + s[i + 1..];
      assert multiset(s) == multiset(s[..i]) + multiset{x} + multiset(s[i + 1..]);
      forall j | 0 <= j < |s| && j != i ensures s[j] != x {
        assert key(s[j]) != key(s[i]);
      }
    }
  }

  lemma SameCounts<T(!new), K>(a: seq<T>, b: seq<T>, key: T -> K)
    requires Unique(a, key) && Unique(b, key)
    ensures SameMembers(a, b) <==> multiset(a) == multiset(b)
  {
    hide Unique;
    MembersMean(a, b);
    forall x ensures multiset(a)[x] == (if x in a then 1 else 0) && multiset(b)[x] == if x in b then 1 else 0 {
      UniqueCounts(a, key, x);
      UniqueCounts(b, key, x);
    }
    if multiset(a) == multiset(b) {
      forall x ensures x in a <==> x in b {
        assert x in multiset(a) <==> x in multiset(b);
      }
    }
  }

  /** Two valid graphs are the same exactly if one is the other with its records in some other order. */
  lemma SameGraphMeans(a: Batch, b: Batch)
    requires Graph.Valid(a) && Graph.Valid(b)
    ensures SameGraph(Some(a), Some(b)) <==>
            && a.resource == b.resource && multiset(a.reps) == multiset(b.reps)
                && multiset(a.units) == multiset(b.units)
            && multiset(a.spaces) == multiset(b.spaces) && multiset(a.vectors) == multiset(b.vectors)
            && multiset(a.facets) == multiset(b.facets)
  {
    hide SameMembers, Unique, Owned, Resolved, Populated;
    SameCounts(a.reps, b.reps, RepId);
    SameCounts(a.units, b.units, UnitId);
    SameCounts(a.spaces, b.spaces, SpaceId);
    SameCounts(a.vectors, b.vectors, VectorKey);
    SameCounts(a.facets, b.facets, FacetKey);
  }

  /** A commit over a live row changed the graph. */
  ghost predicate Worthwhile(w: Write) {
    w.before.state.Live() && w.before.batch.Some? && w.after.batch.Some? ==>
      !SameRecords(w.before.batch.value, w.after.batch.value)
  }

  lemma DifferentIsWorthwhile(w: Write)
    requires w.before.state.Live() ==> !SameGraph(w.before.batch, w.after.batch)
    ensures Worthwhile(w)
  {
    hide SameGraph, SameRecords;
    if w.before.batch.Some? && w.after.batch.Some? {
      SameRecordsMean(w.before.batch.value, w.after.batch.value);
    }
  }

  lemma RecognisedGraph(job: Job, current: Snapshot)
    requires CheckCurrent(job, current).Ok? && CheckCurrent(job, current).value.Recognised?
    ensures current.batch.Some? && CheckCurrent(job, current).value.batch.Some?
    ensures SameRecords(current.batch.value, CheckCurrent(job, current).value.batch.value)
  {
    hide Unrevised, Desired, SameGraph, SourceIdentity, OutputsOk, SameLifecycle, SameRecords;
    SameGraphPresence(current.batch, CheckCurrent(job, current).value.batch);
  }

  /** Along every run, each graph a reindex commits is valid, dependency-closed and up to date. */
  lemma EntitledGraph(job: Job, w: Write)
    requires Entitled(job, w) && w.after.batch.Some?
    ensures Graph.Valid(w.after.batch.value) && MergeTwice.GraphClosed(w.after.batch.value)
            && UpToDate(w.after.batch.value) && AllBound(w.after.batch.value)
  {
    hide Graph.Valid, MergeTwice.GraphClosed, UpToDate, AllBound, Reconcile, Unrevised;
    ReconcileInvariant(w.before, RebasedIncoming(job, w.before), RebasedResource(job, w.before), job.owner,
        RemoveSet(job));
    UpToDateIsBound(w.after.batch.value, SourceRevision(RebasedResource(job, w.before)).value);
  }

  lemma UpToDateIsBound(b: Batch, generation: string)
    requires UpToDate(b) && Generation(b.resource) == Some(generation) && NonBlank(generation)
    ensures AllBound(b)
  {
    hide OutputsOk, OutputOf, IndependentOutput;
  }

  /** An entitled commit that did not replace the captured graph replaced one with the same source,
      whose targets are as captured or as wanted and whose declared inputs kept their revisions. */
  lemma EntitledMeans(job: Job, w: Write, s: Slot)
    requires Entitled(job, w) && job.snapshot.batch.Some? && w.before != job.snapshot
    ensures LifecycleOf(w.before.state) == LifecycleOf(job.snapshot.state) && w.before.batch.Some?
    ensures var original, now := job.snapshot.batch.value, w.before.batch.value;
            && SourceRevision(now.resource) == SourceRevision(original.resource) && SourceRevision(now.resource).Ok?
            && now.resource.namespace == original.resource.namespace
                && now.resource.locator == original.resource.locator
            && RawDigest(now.resource) == RawDigest(original.resource)
            && now.resource.kind == original.resource.kind && now.resource.mediaType == original.resource.mediaType
            && OutputsOk(original.reps) && OutputsOk(now.reps)
            && (job.incoming.Some? ==> OutputsOk(job.incoming.value.reps))
            && (s in Targets(job) ==> SlotProjection(now, s) in {SlotProjection(original, s), Wanted(job, s)})
            && (s in job.inputs ==>
                  && s in Table(original.reps) && s in Table(now.reps)
                  && Table(now.reps)[s].output.artifactRevision == Table(original.reps)[s].output.artifactRevision)
  {
    hide Desired, OutputsOk, RawDigest, SlotProjection, Table;
  }

  /** Rebased onto the graph it was prepared from, a job is unchanged. */
  lemma RebaseOnCaptured(job: Job, current: Snapshot)
    requires current.batch == job.snapshot.batch
    ensures RebasedResource(job, current) == job.resource
    ensures job.incoming.Some? && job.incoming.value.resource == job.resource ==>
              RebasedIncoming(job, current) == job.incoming
  {
    if current.batch.Some? {
      var metadata := RebasedResource(job, current).metadata;
      assert metadata.Keys == job.resource.metadata.Keys;
      assert metadata == job.resource.metadata;
    }
  }

  /** A rebased record conflicts with the stored one exactly on independent metadata that the job itself
      set or changed and that is now stored with another value: what it merely carried over never does. */
  lemma RebaseConflicts(job: Job, current: Snapshot)
    requires job.snapshot.batch.Some? && current.batch.Some?
    ensures var original, now := job.snapshot.batch.value, current.batch.value.resource.metadata;
            MergeMetadata(now, RebasedResource(job, current).metadata).Err? <==>
              exists k :: && k in job.resource.metadata && k !in SOURCE_KEYS && k in now
                          && now[k] != job.resource.metadata[k]
                          && !(k in original.resource.metadata
                              && original.resource.metadata[k] == job.resource.metadata[k])
  {
    var original, now := job.snapshot.batch.value, current.batch.value.resource.metadata;
    var rebased := RebasedResource(job, current).metadata;
    forall k | k in rebased && k !in SOURCE_KEYS && k in now && now[k] != rebased[k]
      ensures k in job.resource.metadata && now[k] != job.resource.metadata[k] && !CarriedOver(job, original, k)
    {
    }
    forall k | k in job.resource.metadata && k !in SOURCE_KEYS && k in now && now[k] != job.resource.metadata[k]
               && !CarriedOver(job, original, k)
      ensures k in rebased && rebased[k] != now[k]
    {
    }
  }
}
