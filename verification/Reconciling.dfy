/** Reconciliation of a complete producer base with the graph already published. */
module Reconciling {
  import opened Sequences
  import opened Graph
  import opened Dependencies
  import opened Merging
  import opened Enrichment

  // ------------------------------------------------------------------ union

  /** `_union` as its loop runs: known identities must agree, unknown ones are appended. */
  function Union<T(==), K(==)>(known: seq<T>, more: seq<T>, key: T -> K): Result<seq<T>>
    decreases |more|
  {
    if more == [] then Ok(known)
    else if key(more[0]) !in Keys(known, key) then Union(known + [more[0]], more[1..], key)
    else if more[0] in known then Union(known, more[1..], key)
    else Err(Invalid)
  }

  ghost predicate Consistent<T(!new), K>(known: seq<T>, more: seq<T>, key: T -> K) {
    forall x, y :: (x in known || x in more) && (y in known || y in more) && key(x) == key(y) ==> x == y
  }

  /** A union succeeds exactly when no identity has two values; it then holds precisely the members of
      both, each identity once, the known ones first and in place. */
  lemma {:induction false} UnionDecides<T(!new), K>(known: seq<T>, more: seq<T>, key: T -> K)
    requires Unique(known, key)
    ensures Union(known, more, key).Ok? <==> Consistent(known, more, key)
    ensures Union(known, more, key).Ok? ==>
              var u := Union(known, more, key).value;
              Unique(u, key) && known <= u && forall x :: x in u <==> x in known || x in more
    ensures Union(known, more, key).Err? ==> Union(known, more, key).error == Invalid
    decreases |more|
  {
    if more == [] {
      forall x, y | x in known && y in known && key(x) == key(y) ensures x == y {
        UniqueMember(known, key, x, y);
      }
    } else {
      var v, rest := more[0], more[1..];
      assert forall x :: x in more <==> x == v || x in rest;
      if key(v) !in Keys(known, key) {
        var longer := known + [v];
        forall i, j | 0 <= i < j < |longer| ensures key(longer[i]) != key(longer[j]) {
          assert longer[i] in known;
        }
        UnionDecides(longer, rest, key);
        assert forall x :: x in longer <==> x in known || x == v;
      } else if v in known {
        UnionDecides(known, rest, key);
      } else {
        var w :| w in known && key(w) == key(v);
      }
    }
  }

  /** Without a common identity the union is the concatenation. */
  lemma {:induction false} UnionDisjoint<T(!new), K>(known: seq<T>, more: seq<T>, key: T -> K)
    requires Unique(more, key) && forall x, y :: x in known && y in more ==> key(x) != key(y)
    ensures Union(known, more, key) == Ok(known + more)
    decreases |more|
  {
    if more == [] {
      assert known + more == known;
    } else {
      assert more[0] in more && key(more[0]) !in Keys(known, key);
      var longer, rest := known + [more[0]], more[1..];
      forall x, y | x in longer && y in rest ensures key(x) != key(y) {
        var j :| 0 <= j < |rest| && rest[j] == y;
        assert more[j + 1] == y && y in more && key(more[0]) != key(more[j + 1]);
      }
      UnionDisjoint(longer, rest, key);
      assert longer + rest == known + more;
    }
  }

  lemma NoUnion<T, K>(known: seq<T>, key: T -> K)
    ensures Union(known, [], key) == Ok(known)
  {
  }

  /** `_union` over a list and a lookup, as written. */
  method ComputeUnion<T(==), K(==)>(known: seq<T>, more: seq<T>, key: T -> K) returns (r: Result<seq<T>>)
    ensures r == Union(known, more, key)
  {
    var result := known;
    for i := 0 to |more|
      invariant Union(known, more, key) == Union(result, more[i..], key)
    {
      assert more[i..][1..] == more[i + 1..];
      if key(more[i]) in Keys(result, key) {
        if more[i] !in result {
          return Err(Invalid);
        }
      } else {
        result := result + [more[i]];
      }
    }
    return Ok(result);
  }

  // ------------------------------------------------------------------ prune

  function Generation(resource: Resource): Option<string> {
    if "source_revision" in resource.metadata && resource.metadata["source_revision"].JString?
    then Some(resource.metadata["source_revision"].text) else None
  }

  /** A derived output that declares another source revision and no independence. */
  predicate Outdated(r: Rep, generation: Option<string>)
    requires IndependentOutput(r).Ok?
  {
    Owns(r) && !IndependentOutput(r).value && Some(OutOf(r).sourceRevision) != generation
  }

  /** Slots whose output is outdated. */
  function OutdatedSlots(reps: seq<Rep>, generation: Option<string>): (s: set<Slot>)
    requires OutputsOk(reps) && forall r :: r in reps && Owns(r) ==> IndependentOutput(r).Ok?
    ensures s <= Table(reps).Keys
  {
    set s | s in Table(reps) && Outdated(Table(reps)[s].rep, generation)
  }

  /** A graph restricted to some of its representations. */
  function Restrict(b: Batch, ids: set<string>): Batch {
    var part := Select(b, ids);
    Batch(b.resource, part.reps, part.units, b.spaces, part.vectors, b.facets)
  }

  /** `prune_graph` */
  function Prune(b: Batch): Result<Option<Batch>> {
    var _ :- Outputs(b.reps);
    if exists r :: r in b.reps && Owns(r) && IndependentOutput(r).Err? then Err(Invalid)
    else
      var outdated := OutdatedSlots(b.reps, Generation(b.resource));
      var invalid :- InvalidDependencies(Just(Table(b.reps) - outdated), {});
      var result := Restrict(b, Keys(b.reps, RepId) - OwnerIds(Table(b.reps), outdated + invalid));
      if result.reps == [] then Ok(None)
      else if Valid(result) then Ok(Some(result)) else Err(Invalid)
  }

  // -------------------------------------------------------------- reconcile

  const SOURCE_KEYS: set<string> := {"source_revision", "source_revision_kind", "provenance", "ingestion", "derived",
                                     "source", "adapter", "byte_size"}

  /** The incoming graph, or an empty one when the producer supplies none. */
  function OrEmpty(incoming: Option<Batch>, resource: Resource): Batch {
    if incoming.Some? then incoming.value else Batch(resource, [], [], [], [], [])
  }

  /** Incoming outputs belong to the incoming generation; the first offender decides the error. */
  function CheckIncoming(reps: seq<Rep>, generation: string): Result<()> {
    if reps == [] then Ok(())
    else if !Owns(reps[0]) then CheckIncoming(reps[1..], generation)
    else
      var independent :- IndependentOutput(reps[0]);
      if !independent && OutOf(reps[0]).sourceRevision != generation then Err(Stale)
      else CheckIncoming(reps[1..], generation)
  }

  lemma {:induction false} CheckIncomingDecides(reps: seq<Rep>, generation: string)
    ensures CheckIncoming(reps, generation).Ok? <==>
            forall r :: r in reps && Owns(r) ==> IndependentOutput(r).Ok? && !Outdated(r, Some(generation))
  {
    if reps != [] {
      hide OutputOf;
      CheckIncomingDecides(reps[1..], generation);
      assert reps[0] in reps;
      assert forall r :: r in reps <==> r == reps[0] || r in reps[1..];
    }
  }

  /** Kinds the producer re-supplies. */
  function BaseKinds(incoming: seq<Rep>, owner: string): set<string> {
    set r | r in incoming && (r.provenance.NoBlock? || r.producerOwner == Some(owner)) :: r.kind
  }

  /** The producer's claim: who writes, what it supplies, what it removes. */
  datatype Claim = Claim(owner: string, slots: set<Slot>, kinds: set<string>, remove: set<Slot>, changed: bool)

  /** Whether an existing representation outlives a reconciliation. */
  function Preserved(r: Rep, claim: Claim): Result<bool> {
    var output :- OutputOf(r);
    if output.Some? && output.value.slot in claim.remove then Ok(false)
    else
      var independent :- IndependentOutput(r);
      if independent then Ok(true)
      else if claim.changed then Ok(false)
      else if output.Some? then Ok(output.value.slot !in claim.slots)
      else Ok(r.producerOwner != Some(claim.owner) && r.kind !in claim.kinds)
  }

  function PreservedIds(reps: seq<Rep>, claim: Claim): set<string> {
    set r | r in reps && Preserved(r, claim) == Ok(true) :: r.id
  }

  /** Independent metadata must not be contradicted; source metadata is replaced. */
  function MergeMetadata(stored: map<string, Json>, supplied: map<string, Json>): Result<map<string, Json>> {
    if exists k :: k in supplied && k !in SOURCE_KEYS && k in stored && stored[k] != supplied[k] then Err(Invalid)
    else Ok(stored + supplied)
  }

  /** The union of what is preserved with what comes in, before pruning; absent if nothing is left. */
  function Combine(prior: Batch, inc: Batch, resource: Resource, claim: Claim): Result<Option<Batch>> {
    if exists r :: r in prior.reps && Preserved(r, claim).Err? then Err(Invalid)
    else
      var part := Select(prior, PreservedIds(prior.reps, claim));
      var reps :- Union(part.reps, inc.reps, RepId);
      if reps == [] then Ok(None)
      else
        var metadata :- MergeMetadata(prior.resource.metadata, resource.metadata);
        var title := if resource.title.Some? then resource.title else prior.resource.title;
        var units :- Union(part.units, inc.units, UnitId);
        var spaces :- Union(UsedSpaces(prior, part.vectors), inc.spaces, SpaceId);
        var vectors :- Union(part.vectors, inc.vectors, VectorKey);
        var facets :- Union(prior.facets, inc.facets, FacetKey);
        Ok(Some(Batch(resource.(metadata := metadata, title := title), reps, units, spaces, vectors, facets)))
  }

  predicate SourceSame(a: Resource, b: Resource) {
    && RawDigest(a) == RawDigest(b) && a.namespace == b.namespace && a.locator == b.locator
    && a.kind == b.kind && a.mediaType == b.mediaType
  }

  /** Checks on the incoming graph, whatever is stored. */
  function AcceptIncoming(current: Snapshot, incoming: Batch, resource: Resource, generation: string): Result<()> {
    if !Valid(incoming) then Err(Invalid)
    else if incoming.resource != resource || resource.id != current.state.resourceId then Err(Invalid)
    else
      var _ :- Outputs(incoming.reps);
      CheckIncoming(incoming.reps, generation)
  }

  /** What remains to do when a graph is stored. */
  function ReconcileStored(prior: Batch, inc: Batch, resource: Resource, owner: string, remove: set<Slot>,
                           generation: string): Result<Option<Batch>>
    requires OutputsOk(inc.reps)
  {
    var stored :- SourceRevision(prior.resource);
    if stored == generation && !SourceSame(prior.resource, resource) then Err(Invalid)
    else
      var slots := Table(inc.reps).Keys;
      var combined :- Combine(prior, inc, resource,
                              Claim(owner, slots, BaseKinds(inc.reps, owner), remove, stored != generation));
      if combined.None? then Ok(None)
      else if !Valid(combined.value) then Err(Invalid)
      else
        var outputs :- Outputs(combined.value.reps);
        var _ :- InvalidDependencies(Just(outputs), slots);
        Prune(combined.value)
  }

  /** `reconcile` */
  function Reconcile(current: Snapshot, incoming: Option<Batch>, resource: Resource, owner: string,
                     remove: set<Slot>): Result<Option<Batch>>
  {
    var generation :- SourceRevision(resource);
    var _ :- if incoming.Some? then AcceptIncoming(current, incoming.value, resource, generation) else Ok(());
    if current.batch.None? then
      if incoming.None? then Ok(None)
      else
        var outputs :- Outputs(incoming.value.reps);
        var _ :- InvalidDependencies(Just(outputs), outputs.Keys);
        Prune(incoming.value)
    else
      var inc := OrEmpty(incoming, resource);
      var _ :- Outputs(inc.reps);
      ReconcileStored(current.batch.value, inc, resource, owner, remove, generation)
  }

  predicate SameMembers<T(==)>(a: seq<T>, b: seq<T>) {
    (set x | x in a) == (set x | x in b)
  }

  /** `_same_graph`: equality up to order, identities being unique within a graph. */
  predicate SameGraph(l: Option<Batch>, r: Option<Batch>) {
    if l.None? || r.None? then l.None? && r.None?
    else
      && l.value.resource == r.value.resource
      && SameMembers(l.value.reps, r.value.reps) && SameMembers(l.value.units, r.value.units)
      && SameMembers(l.value.spaces, r.value.spaces) && SameMembers(l.value.vectors, r.value.vectors)
      && SameMembers(l.value.facets, r.value.facets)
  }
}
