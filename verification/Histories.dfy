/** Whole histories of the store: what the two publication protocols together keep. */
module Histories {
  import opened Sequences
  import opened Graph
  import opened Dependencies
  import opened Merging
  import opened MergeTwice
  import opened Port
  import opened Enrichment
  import opened Reconciling
  import opened ReconcileTheorems
  import opened ReconcileTwice
  import opened Reindexing
  import opened LostResponse

  /** A commit of one of the two protocols, or one that leaves no graph. */
  ghost predicate ByProtocol(w: Write) {
    || (exists p :: Justified(p, w))
    || (exists job :: Entitled(job, w))
    || w.after.batch.None?
  }

  /** All writers, the caller and the others, are workers of these protocols. */
  ghost predicate Cooperative(log: seq<Write>) {
    forall i :: 0 <= i < |log| ==> ByProtocol(log[i])
  }

  /** Then every graph that can ever be read is valid, dependency-closed and bound to its source, however
      enrichments, reindexes, withdrawals and deletions interleave. */
  lemma EveryReadableGraph(log: seq<Write>, s: Snapshot)
    requires Cooperative(log) && Observable(log, s) && s.batch.Some?
    ensures Graph.Valid(s.batch.value) && GraphClosed(s.batch.value) && AllBound(s.batch.value)
  {
    hide Justified, Entitled, Graph.Valid, GraphClosed, AllBound;
    var i :| 0 <= i < |log| && log[i].after == s;
    var w := log[i];
    assert ByProtocol(w);
    if p :| Justified(p, w) {
      JustifiedGraph(p, w);
    } else {
      var job :| Entitled(job, w);
      EntitledGraph(job, w);
    }
  }

  /** So in such a history a retried publication that finds its own effect never commits again. */
  lemma NeverPublishedTwice(log: seq<Write>, p: Prepared, earlier: Snapshot, w: Write)
    requires Cooperative(log) && Observable(log, earlier) && earlier.batch.Some? && Justified(p, w)
    requires Merge(earlier, Rebase(p.addition, earlier)).Ok?
    ensures w.before.batch != Some(Merge(earlier, Rebase(p.addition, earlier)).value.batch)
  {
    hide Justified, Graph.Valid, GraphClosed, AllBound, Merge, Cooperative, Observable;
    EveryReadableGraph(log, earlier);
    NoSecondWrite(p, w, earlier);
  }

  /** And repeating a reconciliation on its own result is decided by the digest and the flags alone. */
  lemma RepeatDecided(log: seq<Write>, current: Snapshot, job: Job, later: Snapshot)
    requires Cooperative(log) && Observable(log, current)
    requires SeesOwnResult(current, job.incoming, job.resource, job.owner, RemoveSet(job), later)
    ensures Reconcile(later, job.incoming, job.resource, job.owner, RemoveSet(job)).Ok? <==>
              DigestKept(current, job.resource) && FlagsOk(OrEmpty(job.incoming, job.resource))
  {
    hide Graph.Valid, GraphClosed, AllBound, Reconcile, Cooperative, Observable, RawDigest, FlagsOk, Condemned,
         OutputsOk, Table;
    if current.batch.Some? {
      EveryReadableGraph(log, current);
      var inc := OrEmpty(job.incoming, job.resource);
      if OutputsOk(inc.reps) && SourceRevision(job.resource).Ok? {
        NoOldSlots(current.batch.value, inc, job.resource, job.owner, RemoveSet(job));
      }
    }
    ReconcileAgain(current, job.incoming, job.resource, job.owner, RemoveSet(job), later);
  }

  // ------------------------------------------------------- two calls, one commit

  /** The last commit to a row, at or after a given one, left what the row holds. */
  lemma {:induction false} RowWritten(log: seq<Write>, id: string, i: nat) returns (m: nat)
    requires i < |log| && log[i].after.state.resourceId == id
    ensures i <= m < |log| && log[m].after == RowIn(Replay(log), id)
    decreases |log|
  {
    m := |log| - 1;
    if log[m].after.state.resourceId != id {
      m := RowWritten(log[..m], id, i);
    }
  }

  lemma {:induction false} PrefixChained(log: seq<Write>, n: nat)
    requires Chained(log) && n < |log|
    ensures log[n].before == RowIn(Replay(log[..n]), log[n].after.state.resourceId)
    decreases |log|
  {
    var front := log[..|log| - 1];
    if n < |log| - 1 {
      PrefixChained(front, n);
      assert front[..n] == log[..n];
    }
  }

  /** What an entitled commit replaced has the captured source revision; what it wrote has the job's. */
  lemma EntitledRevisions(job: Job, w: Write)
    requires Entitled(job, w) && job.snapshot.batch.Some? && w.before.batch.Some? && w.after.batch.Some?
    ensures SourceRevision(w.before.batch.value.resource) == SourceRevision(job.snapshot.batch.value.resource)
    ensures SourceRevision(w.after.batch.value.resource) == SourceRevision(job.resource)
  {
    hide Unrevised, SameLifecycle, SourceRevision, Reconcile, RawDigest, StoredOver, RebasedResource;
    SameSource(job, w);
    var resource := RebasedResource(job, w.before);
    ResultResource(w.before, RebasedIncoming(job, w.before), resource, job.owner, RemoveSet(job));
    RevisionStated(w.before, RebasedIncoming(job, w.before), resource, job.owner, RemoveSet(job));
    RebaseKeepsIdentity(job, w.before);
    IdentityRevision(resource);
    IdentityRevision(job.resource);
    RevisionSupplied(w.after.batch.value.resource, w.before.batch.value.resource, resource);
  }

  lemma RevisionSupplied(result: Resource, prior: Resource, supplied: Resource)
    requires StoredOver(result, prior, supplied) && SourceRevision(supplied).Ok?
    ensures SourceRevision(result) == SourceRevision(supplied)
  {
  }

  /** One job commits a new source revision at most once: between two such commits another writer must
      have put the captured revision back. */
  lemma NoSecondReindex(log: seq<Write>, job: Job, i: nat, j: nat) returns (m: nat)
    requires Chained(log) && i < j < |log| && Advanced(job, log[i]) && Entitled(job, log[j])
    ensures i < m < j && log[m].after == log[j].before && log[m].after.batch.Some?
    ensures SourceRevision(log[m].after.batch.value.resource) == SourceRevision(job.snapshot.batch.value.resource)
  {
    hide Desired, Unrevised, SameLifecycle, SourceRevision, Chained, Replay;
    PrefixChained(log, j);
    assert log[..j][i] == log[i];
    m := RowWritten(log[..j], job.snapshot.state.resourceId, i);
    EntitledRevisions(job, log[i]);
    SameSource(job, log[j]);
  }

  /** A reindex repeated by its caller, whatever the first call answered. */
  method Retry(port: PublicationPort, job: Job, maxRetries: int)
    returns (first: Result<ReindexResult>, second: Result<ReindexResult>, ghost middle: seq<Write>)
    requires port.Valid() && port.Genuine(job.snapshot)
    modifies port
    ensures port.Valid() && (ForeignOnly(old(port.log), middle) || CallerLast(old(port.log), middle))
    ensures ForeignOnly(middle, port.log) || CallerLast(middle, port.log)
    // a commit of the second call after a commit of the first, even one whose response was lost, means
    // that another writer restored the captured source revision in between
    ensures CallerLast(old(port.log), middle) && CallerLast(middle, port.log) && Advanced(job, middle[|middle| - 1]) ==>
              exists m :: && |middle| <= m < |port.log| - 1 && port.log[m].writer == Foreign
                          && port.log[m].after.batch.Some?
                          && SourceRevision(port.log[m].after.batch.value.resource)
                             == SourceRevision(job.snapshot.batch.value.resource)
  {
    hide Desired, Unrevised, SameLifecycle, SourceRevision, Chained, Replay, Observable, SnapshotOk, Graph.Valid,
         RawDigest;
    ghost var start := port.log;
    ghost var seen, n;
    first, seen, n := PublishReindex(port, job, null, maxRetries, true);
    middle := port.log;
    Extended(start, middle);
    StillObservable(start, middle, job.snapshot);
    second, seen, n := PublishReindex(port, job, null, maxRetries, true);
    if CallerLast(start, middle) && CallerLast(middle, port.log) && Advanced(job, middle[|middle| - 1]) {
      assert port.log[|middle| - 1] == middle[|middle| - 1];
      var m := NoSecondReindex(port.log, job, |middle| - 1, |port.log| - 1);
    }
  }

  lemma JustifiedRow(p: Prepared, w: Write)
    requires Justified(p, w)
    ensures w.before.state.resourceId == w.after.state.resourceId == p.captured.snapshot.state.resourceId
  {
    hide Merge, MergePlan, TargetsUnchanged, Source, Graph.Valid, OutputsOk, RawDigest, InputFresh;
  }

  /** One prepared enrichment commits at most once: between two of its commits, the first over a closed
      graph, another one changed the row. */
  lemma NoSecondPublication(log: seq<Write>, p: Prepared, i: nat, j: nat) returns (m: nat)
    requires Chained(log) && i < j < |log| && Justified(p, log[i]) && Justified(p, log[j])
    requires GraphClosed(log[i].before.batch.value)
    ensures && i < m < j && log[m].after == log[j].before
            && log[m].after.state.resourceId == p.captured.snapshot.state.resourceId
  {
    hide Merge, MergePlan, TargetsUnchanged, GraphClosed, Chained, Replay, Source, Fresh, Graph.Valid;
    JustifiedRow(p, log[i]);
    JustifiedRow(p, log[j]);
    PrefixChained(log, j);
    assert log[..j][i] == log[i];
    m := RowWritten(log[..j], p.captured.snapshot.state.resourceId, i);
    NoSecondWrite(p, log[j], log[i].before);
  }

  /** A publication repeated by its caller, whatever the first call answered. */
  method RetryPublication(port: PublicationPort, p: Prepared, maxRetries: int)
    returns (first: Result<Publication>, second: Result<Publication>, ghost middle: seq<Write>)
    requires port.Valid() && port.Genuine(p.captured.snapshot)
    modifies port
    ensures port.Valid() && (ForeignOnly(old(port.log), middle) || CallerLast(old(port.log), middle))
    ensures ForeignOnly(middle, port.log) || CallerLast(middle, port.log)
    // a commit of the second call after a commit of the first, even one whose response was lost, means that
    // another writer committed to the row in between, if the first replaced a closed graph
    ensures CallerLast(old(port.log), middle) && CallerLast(middle, port.log)
            && middle[|middle| - 1].before.batch.Some? && GraphClosed(middle[|middle| - 1].before.batch.value) ==>
              exists m :: |middle| <= m < |port.log| - 1 && port.log[m].writer == Foreign
                          && port.log[m].after.state.resourceId == p.captured.snapshot.state.resourceId
  {
    hide Justified, GraphClosed, Chained, Replay, Observable, SnapshotOk, Graph.Valid, Merge, Fresh, Settled, Blocked;
    ghost var start := port.log;
    ghost var seen, n;
    first, seen, n := Publish(port, p, maxRetries);
    middle := port.log;
    Extended(start, middle);
    StillObservable(start, middle, p.captured.snapshot);
    second, seen, n := Publish(port, p, maxRetries);
    if CallerLast(start, middle) && CallerLast(middle, port.log)
       && middle[|middle| - 1].before.batch.Some? && GraphClosed(middle[|middle| - 1].before.batch.value) {
      assert port.log[|middle| - 1] == middle[|middle| - 1];
      var m := NoSecondPublication(port.log, p, |middle| - 1, |port.log| - 1);
    }
  }
}
