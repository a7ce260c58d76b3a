/** The conditional-publication store as its callers see it: one row per resource, replaced only by
    compare-and-swap on an opaque state, while other writers act between any two calls. */
module Port {
  import opened Sequences
  import opened Graph

  datatype Writer = Caller | Foreign

  /** One committed change of one row. */
  datatype Write = Write(writer: Writer, before: Snapshot, after: Snapshot)

  /** What another process may do to any row. */
  datatype ForeignWrite = Replace(batch: Batch) | Withdraw(id: string) | Delete(id: string)

  /** A call can fail without effect, or fail to report a committed effect. */
  datatype Fault = NoFault | BeforeCommit | ResponseLost

  /** The environment between two calls. */
  datatype Tick = Tick(writes: seq<ForeignWrite>, fault: Fault)

  datatype Outcome = Outcome(applied: bool, state: State)

  /** Only other processes committed between two points of a run. */
  predicate ForeignOnly(earlier: seq<Write>, later: seq<Write>) {
    earlier <= later && forall i :: |earlier| <= i < |later| ==> later[i].writer == Foreign
  }

  /** The caller committed exactly once, and last. */
  predicate CallerLast(earlier: seq<Write>, later: seq<Write>) {
    && |earlier| < |later| && ForeignOnly(earlier, later[..|later| - 1])
    && later[|later| - 1].writer == Caller
  }

  lemma NoWrites(a: seq<Write>)
    ensures ForeignOnly(a, a) && !CallerLast(a, a)
  {
  }

  lemma Extended(a: seq<Write>, b: seq<Write>)
    requires ForeignOnly(a, b) || CallerLast(a, b)
    ensures a <= b
  {
  }

  lemma Committed(a: seq<Write>, b: seq<Write>)
    requires CallerLast(a, b)
    ensures b != []
  {
  }

  lemma ForeignThen(a: seq<Write>, b: seq<Write>, c: seq<Write>)
    requires ForeignOnly(a, b)
    ensures ForeignOnly(b, c) ==> ForeignOnly(a, c)
    ensures CallerLast(b, c) ==> CallerLast(a, c)
    ensures !(ForeignOnly(b, c) && CallerLast(b, c)) && !(ForeignOnly(a, c) && CallerLast(a, c))
  {
    if CallerLast(b, c) {
      assert ForeignOnly(a, c[..|c| - 1]);
    }
  }

  /** Snapshots that some read could have returned by this point of the history. */
  ghost predicate Observable(log: seq<Write>, s: Snapshot) {
    s == Snapshot(NeverCreated(s.state.resourceId), None) || exists i :: 0 <= i < |log| && log[i].after == s
  }

  lemma StillObservable(a: seq<Write>, b: seq<Write>, s: Snapshot)
    requires a <= b && Observable(a, s)
    ensures Observable(b, s)
  {
    if s != Snapshot(NeverCreated(s.state.resourceId), None) {
      var i :| 0 <= i < |a| && a[i].after == s;
      assert b[i].after == s;
    }
  }

  /** A live row keeps its lifecycle; any other begins one that no row has had before. */
  ghost predicate Continues(log: seq<Write>, before: State, after: State) {
    && after.Known?
    && (before.Live() ==> after.lifecycle == before.lifecycle)
    && (!before.Live() ==>
        forall i :: 0 <= i < |log| && log[i].after.state.Known? ==> log[i].after.state.lifecycle != after.lifecycle)
  }

  lemma ContinuesEarlier(a: seq<Write>, b: seq<Write>, before: State, after: State)
    requires a <= b && Continues(b, before, after)
    ensures Continues(a, before, after)
  {
    assert forall i :: 0 <= i < |a| ==> a[i] == b[i];
  }

  /** The row is where its resource record says. */
  predicate Bound(s: State, resource: Resource) {
    s.Known? && s.status == Published && s.namespace == resource.namespace && s.locator == resource.locator
  }

  predicate BindingKept(previous: State, resource: Resource) {
    previous.Live() ==> previous.namespace == resource.namespace && previous.locator == resource.locator
  }

  function RowIn(rows: map<string, Snapshot>, id: string): Snapshot {
    if id in rows then rows[id] else Snapshot(NeverCreated(id), None)
  }

  /** The rows a history of commits leads to. */
  ghost function Replay(log: seq<Write>): map<string, Snapshot> {
    if log == [] then map[]
    else var last := log[|log| - 1].after; Replay(log[..|log| - 1])[last.state.resourceId := last]
  }

  /** Every commit replaced the row the commits before it had left. */
  ghost predicate Chained(log: seq<Write>) {
    log == [] ||
    var w := log[|log| - 1];
    Chained(log[..|log| - 1]) && w.before == RowIn(Replay(log[..|log| - 1]), w.after.state.resourceId)
  }

  /** A row that differs between two points of a history was written in between. */
  lemma {:induction false} RowChanged(a: seq<Write>, b: seq<Write>, id: string) returns (i: nat)
    requires a <= b && RowIn(Replay(a), id) != RowIn(Replay(b), id)
    ensures |a| <= i < |b| && b[i].after.state.resourceId == id
    decreases |b|
  {
    if a == b {
      assert false;
    }
    i := |b| - 1;
    if b[i].after.state.resourceId != id {
      i := RowChanged(a, b[..i], id);
    }
  }

  /** Another process committed to a row between two points of a history. */
  ghost predicate ForeignWriteTo(a: seq<Write>, b: seq<Write>, id: string) {
    exists i :: |a| <= i < |b| && b[i].writer == Foreign && b[i].after.state.resourceId == id
  }

  class PublicationPort {
    const schedule: nat -> Tick
    var clock: nat
    var rows: map<string, Snapshot>
    var supply: nat
    ghost var log: seq<Write>
    ghost var conditionalWrites: nat

    constructor (schedule: nat -> Tick)
      ensures Valid() && log == [] && rows == map[] && conditionalWrites == 0
    {
      this.schedule := schedule;
      clock, rows, supply, log, conditionalWrites := 0, map[], 0, [], 0;
    }

    function Row(id: string): Snapshot
      reads this
    {
      RowIn(rows, id)
    }

    ghost predicate Genuine(s: Snapshot)
      reads this
    {
      Observable(log, s)
    }

    /** The log is the whole history of the rows, and tokens are never reused. */
    ghost predicate Valid()
      reads this
    {
      && rows == Replay(log) && Chained(log)
      && (forall id :: id in rows ==> rows[id].state.Known? && rows[id].state.resourceId == id
                                      && SnapshotOk(rows[id]) && Genuine(rows[id]))
      && (forall i :: 0 <= i < |log| ==> && log[i].after.state.Known? && log[i].after.state.token < supply
                                         && log[i].after.state.lifecycle < supply)
      && (forall i, j :: 0 <= i < j < |log| ==> log[i].after.state.token < log[j].after.state.token)
    }

    /** A state never recurs with a different graph. */
    lemma StateIdentifiesGraph(s: Snapshot, t: Snapshot)
      requires Valid() && Genuine(s) && Genuine(t) && s.state == t.state
      ensures s == t
    {
      if s.state.Known? {
        var i :| 0 <= i < |log| && log[i].after == s;
        var j :| 0 <= j < |log| && log[j].after == t;
        assert !(i < j) && !(j < i);
      }
    }

    /** A row changes only by a commit. */
    lemma RowsAreReplayed(id: string)
      requires Valid()
      ensures Row(id) == RowIn(Replay(log), id)
    {
    }

    /** Some call in this interval of calls met a fault. */
    ghost predicate Faulted(since: nat, until: nat)
    {
      exists t :: since <= t < until && schedule(t).fault != NoFault
    }

    /** `_put_state` with the graph: a live row keeps its lifecycle, any other starts a new one. */
    method Install(writer: Writer, id: string, status: Status, batch: Option<Batch>)
      requires Valid()
      requires batch.Some? <==> status == Published
      requires batch.Some? ==> batch.value.resource.id == id && BindingKept(Row(id).state, batch.value.resource)
      requires batch.None? ==> Row(id).state.Known?
      modifies this`rows, this`supply, this`log
      ensures Valid() && log == old(log) + [Write(writer, old(Row(id)), Row(id))]
      ensures Row(id).batch == batch && Row(id).state.Known? && Row(id).state.status == status
      ensures Row(id).state.resourceId == id
      ensures Continues(old(log), old(Row(id)).state, Row(id).state)
      ensures batch.Some? ==> Bound(Row(id).state, batch.value.resource)
      ensures batch.None? ==> && Row(id).state.namespace == old(Row(id)).state.namespace
                              && Row(id).state.locator == old(Row(id)).state.locator
      ensures rows == old(rows)[id := Row(id)]
    {
      var previous := Row(id).state;
      var lifecycle := if previous.Live() then previous.lifecycle else supply;
      var namespace, locator := if batch.Some? then batch.value.resource.namespace else previous.namespace,
                                if batch.Some? then batch.value.resource.locator else previous.locator;
      var next := Snapshot(Known(id, status, lifecycle, supply + 1, namespace, locator), batch);
      log := log + [Write(writer, Row(id), next)];
      assert log[..|log| - 1] == old(log);
      rows := rows[id := next];
      supply := supply + 2;
      assert log[|log| - 1].after == next;
      forall other | other in rows ensures Genuine(rows[other]) {
        if other != id {
          StillObservable(old(log), log, rows[other]);
        }
      }
    }

    /** Whatever other processes do before the next call takes effect. */
    method Interfere() returns (fault: Fault)
      requires Valid()
      modifies this`rows, this`supply, this`log, this`clock
      ensures Valid() && ForeignOnly(old(log), log) && fault == schedule(old(clock)).fault && clock == old(clock) + 1
    {
      hide Graph.Valid, Replay, Chained, SnapshotOk;
      var tick := schedule(clock);
      clock := clock + 1;
      fault := tick.fault;
      for i := 0 to |tick.writes|
        invariant Valid() && ForeignOnly(old(log), log) && clock == old(clock) + 1
      {
        match tick.writes[i]
        case Replace(batch) =>
          if Graph.Valid(batch) && BindingKept(Row(batch.resource.id).state, batch.resource) {
            Install(Foreign, batch.resource.id, Published, Some(batch));
          }
        case Withdraw(id) =>
          if Row(id).state.Live() {
            Install(Foreign, id, LiveWithoutProjections, None);
          }
        case Delete(id) =>
          if Row(id).state.Live() {
            Install(Foreign, id, Deleted, None);
          }
      }
    }

    /** `read_snapshot` */
    method ReadSnapshot(id: string) returns (r: Result<Snapshot>)
      requires Valid()
      modifies this`rows, this`supply, this`log, this`clock
      ensures Valid() && ForeignOnly(old(log), log)
      ensures r.Ok? ==> r.value == Row(id) && Genuine(r.value) && SnapshotOk(r.value) && r.value.state.resourceId == id
      ensures clock == old(clock) + 1
      ensures r.Err? ==> r.error == Catalog && schedule(old(clock)).fault != NoFault
    {
      var fault := Interfere();
      return if fault == NoFault then Ok(Row(id)) else Err(Catalog);
    }

    /** `compare_and_publish`: applies iff the stored state is the expected one. */
    method CompareAndPublish(batch: Batch, expected: State, create: bool) returns (r: Result<Outcome>)
      requires Valid()
      modifies this`rows, this`supply, this`log, this`clock, this`conditionalWrites
      ensures Valid() && (ForeignOnly(old(log), log) || CallerLast(old(log), log))
      ensures conditionalWrites == old(conditionalWrites) + 1
      ensures old(clock) <= clock && (r.Err? && r.error == Catalog ==> clock == old(clock) + 1)
      ensures CallerLast(old(log), log) ==>
                && var w := log[|log| - 1];
                && w.before.state == expected && w.after.batch == Some(batch)
                && w.after == Row(expected.resourceId) && expected.resourceId == batch.resource.id
                && w.after.state.resourceId == expected.resourceId
                && Bound(w.after.state, batch.resource) && Continues(old(log), expected, w.after.state)
      ensures forall s | Genuine(s) && s.state == expected && CallerLast(old(log), log) ::
                log[|log| - 1].before == s
      // it is refused exactly when the stored state is another one, or the request itself is invalid
      ensures r.Ok? ==>
                (r.value.applied <==> CallerLast(old(log), log)) && r.value.state == Row(expected.resourceId).state
      ensures r.Ok? && !r.value.applied ==> r.value.state != expected
      ensures r.Err? && r.error != Catalog <==>
                !Graph.Valid(batch) || expected.resourceId != batch.resource.id || create == expected.Live()
      ensures r.Err? && r.error != Catalog ==> ForeignOnly(old(log), log)
      ensures r.Err? && r.error == Catalog ==>
                schedule(old(clock)).fault != NoFault || !BindingKept(expected, batch.resource)
    {
      hide Graph.Valid, Replay, Chained, SnapshotOk, Bound, BindingKept, Continues;
      conditionalWrites := conditionalWrites + 1;
      if !Graph.Valid(batch) || expected.resourceId != batch.resource.id || create == expected.Live() {
        return Err(Invalid);
      }
      var fault := Interfere();
      var id := batch.resource.id;
      var previous := Row(id);
      if fault == BeforeCommit {
        return Err(Catalog);
      }
      if previous.state != expected {
        return Ok(Outcome(false, previous.state));
      }
      if !BindingKept(previous.state, batch.resource) {
        return Err(Catalog);
      }
      ghost var middle := log;
      Install(Caller, id, Published, Some(batch));
      assert log[..|log| - 1] == middle;
      ContinuesEarlier(old(log), middle, expected, Row(id).state);
      forall s | Genuine(s) && s.state == expected ensures s == previous {
        StateIdentifiesGraph(s, previous);
      }
      if fault == ResponseLost {
        return Err(Catalog);
      }
      return Ok(Outcome(true, Row(id).state));
    }

    /** `withdraw_if_current` */
    method WithdrawIfCurrent(id: string, expected: State, create: bool) returns (r: Result<Outcome>)
      requires Valid()
      modifies this`rows, this`supply, this`log, this`clock, this`conditionalWrites
      ensures Valid() && (ForeignOnly(old(log), log) || CallerLast(old(log), log))
      ensures conditionalWrites == old(conditionalWrites) + 1
      ensures old(clock) <= clock && (r.Err? && r.error == Catalog ==> clock == old(clock) + 1)
      ensures CallerLast(old(log), log) ==>
                && var w := log[|log| - 1];
                && w.before.state == expected && w.after.batch == None && expected.Live() && expected.resourceId == id
                && w.after == Row(id) && w.after.state.Known? && w.after.state.status == LiveWithoutProjections
                && w.after.state.lifecycle == expected.lifecycle && w.after.state.resourceId == id
                && w.after.state.namespace == expected.namespace && w.after.state.locator == expected.locator
      ensures forall s | Genuine(s) && s.state == expected && CallerLast(old(log), log) ::
                log[|log| - 1].before == s
      ensures r.Ok? ==> (r.value.applied <==> CallerLast(old(log), log)) && r.value.state == Row(id).state
      ensures r.Ok? && !r.value.applied ==> r.value.state != expected
      ensures r.Err? && r.error != Catalog <==> create || expected.resourceId != id || !expected.Live()
      ensures r.Err? && r.error != Catalog ==> ForeignOnly(old(log), log)
      ensures r.Err? && r.error == Catalog ==> schedule(old(clock)).fault != NoFault
    {
      hide Graph.Valid, Replay, Chained, SnapshotOk;
      conditionalWrites := conditionalWrites + 1;
      if create || expected.resourceId != id || !expected.Live() {
        return Err(Invalid);
      }
      var fault := Interfere();
      var previous := Row(id);
      if fault == BeforeCommit {
        return Err(Catalog);
      }
      if previous.state != expected {
        return Ok(Outcome(false, previous.state));
      }
      ghost var middle := log;
      Install(Caller, id, LiveWithoutProjections, None);
      assert log[..|log| - 1] == middle;
      forall s | Genuine(s) && s.state == expected ensures s == previous {
        StateIdentifiesGraph(s, previous);
      }
      if fault == ResponseLost {
        return Err(Catalog);
      }
      return Ok(Outcome(true, Row(id).state));
    }
  }
}
