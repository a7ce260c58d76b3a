/** The neutral resource graph: records, structural validation and active output slots. */
module Graph {
  import opened Sequences
  import Unicode

  // ---------------------------------------------------------------- records

  datatype Slot = Slot(purpose: string, variant: string)

  datatype Dependency = Dependency(slot: Slot, revision: string)

  /** The app-owned `enrichment_v1` block of a representation. `Malformed` stands for a block whose
      JSON shape is wrong; `digest` is whichever body digest the block carries. */
  datatype Provenance =
    | NoBlock
    | Malformed
    | Block(slot: Slot, recipe: string, producer: string, sourceRevision: string, artifactRevision: string,
            dependencies: seq<Dependency>, sourceIndependent: bool,
            digest: Option<string>, fingerprint: Option<string>)

  /** The optional `source_independent` flag of a representation's own metadata. */
  datatype Flag = Unset | Flagged(value: bool) | NotBoolean

  datatype Locator = Locator(kind: string, payload: string)

  datatype Rep = Rep(id: string, resourceId: string, kind: string, modality: string, text: Option<string>,
                     language: Option<string>, producerFingerprint: Option<string>,
                     provenance: Provenance, independent: Flag, producerOwner: Option<string>,
                     otherMetadata: string)

  datatype Unit = Unit(id: string, resourceId: string, rep: string, kind: string, modality: string,
                       text: Option<string>, evidence: Locator, ordinal: nat, tokens: Option<nat>,
                       tokensKind: Option<string>, metadata: string)

  datatype Space = Space(id: string, dimensions: nat, metric: string, fingerprint: string)

  datatype Vector = Vector(unit: string, space: string, values: seq<real>)

  datatype Facet = Facet(resourceId: string, namespace: string, value: string, origin: string,
                         producerFingerprint: Option<string>, confidence: Option<real>)

  datatype Json = JString(text: string) | JObject(fields: map<string, Json>) | JOther(encoded: string)

  datatype Resource = Resource(id: string, kind: string, mediaType: string, namespace: string, locator: Locator,
                               contentHash: Option<string>, title: Option<string>, metadata: map<string, Json>)

  datatype Batch = Batch(resource: Resource, reps: seq<Rep>, units: seq<Unit>, spaces: seq<Space>,
                         vectors: seq<Vector>, facets: seq<Facet>)

  datatype Status = Published | LiveWithoutProjections | Deleted

  /** Lifecycle ids and state tokens are opaque identities; numbers stand for UUIDs. */
  datatype State =
    | NeverCreated(resourceId: string)
    | Known(resourceId: string, status: Status, lifecycle: nat, token: nat, namespace: string, locator: Locator)
  {
    predicate Live() { Known? && status != Deleted }
  }

  datatype Snapshot = Snapshot(state: State, batch: Option<Batch>)

  /** A snapshot carries a graph exactly when published, and it is that resource's graph. */
  predicate SnapshotOk(s: Snapshot) {
    && (s.batch.Some? <==> s.state.Known? && s.state.status == Published)
    && (s.batch.Some? ==> s.batch.value.resource.id == s.state.resourceId)
  }

  function RepId(r: Rep): string { r.id }
  function UnitId(u: Unit): string { u.id }
  function UnitRep(u: Unit): string { u.rep }
  function SpaceId(s: Space): string { s.id }
  function VectorUnit(v: Vector): string { v.unit }
  function VectorSpace(v: Vector): string { v.space }
  function VectorKey(v: Vector): (string, string) { (v.unit, v.space) }
  function FacetKey(f: Facet): (string, string, string, string, Option<string>) {
    (f.resourceId, f.namespace, f.value, f.origin, f.producerFingerprint)
  }

  // ------------------------------------------------------------- validation

  predicate NonBlank(s: string) { !Unicode.Blank(s) }

  predicate HasText(u: Unit) { u.text.Some? && NonBlank(u.text.value) }

  /** Uniqueness of every identity in the graph. */
  predicate Identified(b: Batch) {
    && Unique(b.reps, RepId) && Unique(b.units, UnitId) && Unique(b.spaces, SpaceId)
    && Unique(b.vectors, VectorKey) && Unique(b.facets, FacetKey)
  }

  predicate Owned(b: Batch) {
    && (forall r :: r in b.reps ==> r.resourceId == b.resource.id)
    && (forall u :: u in b.units ==> u.resourceId == b.resource.id)
    && (forall f :: f in b.facets ==> f.resourceId == b.resource.id)
  }

  /** Every reference resolves, and agrees with what it refers to. */
  predicate Resolved(b: Batch) {
    && (forall u :: u in b.units ==> exists r :: r in b.reps && r.id == u.rep && r.modality == u.modality)
    && (forall v :: v in b.vectors ==> exists u :: u in b.units && u.id == v.unit)
    && (forall v :: v in b.vectors ==> exists s :: s in b.spaces && s.id == v.space && |v.values| == s.dimensions)
  }

  /** No empty representation and no unit without text or vector. */
  predicate Populated(b: Batch) {
    && b.reps != [] && b.units != []
    && (forall r :: r in b.reps ==> exists u :: u in b.units && u.rep == r.id)
    && (forall u :: u in b.units ==> HasText(u) || exists v :: v in b.vectors && v.unit == u.id)
  }

  /** `validate_prepared_batch` */
  predicate Valid(b: Batch) {
    Identified(b) && Owned(b) && Resolved(b) && Populated(b)
  }

  // ----------------------------------------------------------- output slots

  datatype Output = Output(slot: Slot, sourceRevision: string, artifactRevision: string,
                           dependencies: seq<Dependency>, sourceIndependent: bool)

  datatype Owner = Owner(rep: Rep, output: Output)

  function DependencySlot(d: Dependency): Slot { d.slot }

  predicate BlockOk(p: Provenance)
    requires p.Block?
  {
    && NonBlank(p.slot.purpose) && NonBlank(p.slot.variant) && NonBlank(p.recipe) && NonBlank(p.producer)
    && NonBlank(p.sourceRevision) && NonBlank(p.artifactRevision)
    && (forall d :: d in p.dependencies ==>
          NonBlank(d.slot.purpose) && NonBlank(d.slot.variant) && NonBlank(d.revision) && d.slot != p.slot)
    && Unique(p.dependencies, DependencySlot)
    && (p.sourceIndependent ==> p.dependencies == [])
  }

  /** `_output`: the declared slot of a representation, absent for legacy ones. */
  function OutputOf(r: Rep): Result<Option<Output>> {
    match r.provenance
    case NoBlock => Ok(None)
    case Malformed => Err(Invalid)
    case Block(slot, _, _, source, artifact, dependencies, independent, _, _) =>
      if BlockOk(r.provenance) then Ok(Some(Output(slot, source, artifact, dependencies, independent)))
      else Err(Invalid)
  }

  /** `independent_output` */
  function IndependentOutput(r: Rep): Result<bool> {
    var output :- OutputOf(r);
    if r.independent.NotBoolean? then Err(Invalid)
    else
      var flagged := r.independent == Flagged(true);
      if flagged && output.Some? && output.value.dependencies != [] then Err(Invalid)
      else Ok(flagged || (output.Some? && output.value.sourceIndependent))
  }

  predicate Owns(r: Rep) { OutputOf(r).Ok? && OutputOf(r).value.Some? }

  function OutOf(r: Rep): Output
    requires Owns(r)
  {
    OutputOf(r).value.value
  }

  /** Every label has a visible character, dependencies name other slots and each at most once, and an output
      independent of the source depends on nothing. */
  ghost predicate WellDeclared(p: Provenance)
    requires p.Block?
  {
    && (forall text :: text in Labels(p) ==> exists i :: 0 <= i < |text| && !Unicode.IsSpace(text[i]))
    && (forall i, j :: 0 <= i < j < |p.dependencies| ==> p.dependencies[i].slot != p.dependencies[j].slot)
    && (forall i :: 0 <= i < |p.dependencies| ==> p.dependencies[i].slot != p.slot)
    && !(p.sourceIndependent && |p.dependencies| > 0)
  }

  lemma WellDeclaredMeans(p: Provenance)
    requires p.Block?
    ensures BlockOk(p) <==> WellDeclared(p)
  {
    hide Unicode.IsSpace, Unique;
    LabelsMean(p);
    DependenciesMean(p);
  }

  /** Which blocks declare an output, and what it says. */
  lemma OutputDecides(r: Rep)
    ensures Owns(r) <==> r.provenance.Block? && WellDeclared(r.provenance)
    ensures Owns(r) ==> && OutOf(r).slot == r.provenance.slot && OutOf(r).dependencies == r.provenance.dependencies
                        && OutOf(r).sourceRevision == r.provenance.sourceRevision
                        && OutOf(r).artifactRevision == r.provenance.artifactRevision
                        && OutOf(r).sourceIndependent == r.provenance.sourceIndependent
    ensures OutputOf(r).Ok? <==> r.provenance.NoBlock? || Owns(r)
  {
    hide BlockOk, WellDeclared;
    if r.provenance.Block? {
      WellDeclaredMeans(r.provenance);
    }
  }

  /** Every text an output block must not leave blank. */
  function Labels(p: Provenance): set<string>
    requires p.Block?
  {
    {p.slot.purpose, p.slot.variant, p.recipe, p.producer, p.sourceRevision, p.artifactRevision}
    + (set d | d in p.dependencies :: d.slot.purpose) + (set d | d in p.dependencies :: d.slot.variant)
    + set d | d in p.dependencies :: d.revision
  }

  lemma LabelsMean(p: Provenance)
    requires p.Block?
    ensures (forall text :: text in Labels(p) ==> NonBlank(text)) <==>
            && NonBlank(p.slot.purpose) && NonBlank(p.slot.variant) && NonBlank(p.recipe) && NonBlank(p.producer)
            && NonBlank(p.sourceRevision) && NonBlank(p.artifactRevision)
            && forall d :: d in p.dependencies ==>
              NonBlank(d.slot.purpose) && NonBlank(d.slot.variant) && NonBlank(d.revision)
  {
    hide NonBlank;
    if forall text :: text in Labels(p) ==> NonBlank(text) {
      forall d | d in p.dependencies
        ensures NonBlank(d.slot.purpose) && NonBlank(d.slot.variant) && NonBlank(d.revision)
      {
        assert d.slot.purpose in Labels(p) && d.slot.variant in Labels(p) && d.revision in Labels(p);
      }
    }
  }

  lemma DependenciesMean(p: Provenance)
    requires p.Block?
    ensures var deps := p.dependencies;
            && (Unique(deps, DependencySlot) <==> forall i, j :: 0 <= i < j < |deps| ==> deps[i].slot != deps[j].slot)
            && ((forall d :: d in deps ==> d.slot != p.slot) <==>
                forall i :: 0 <= i < |deps| ==> deps[i].slot != p.slot)
  {
    var deps := p.dependencies;
    if forall i, j :: 0 <= i < j < |deps| ==> deps[i].slot != deps[j].slot {
      assert Unique(deps, DependencySlot);
    }
    if Unique(deps, DependencySlot) {
      forall i, j | 0 <= i < j < |deps| ensures deps[i].slot != deps[j].slot {
        assert DependencySlot(deps[i]) != DependencySlot(deps[j]);
      }
    }
    if forall d :: d in deps ==> d.slot != p.slot {
      forall i | 0 <= i < |deps| ensures deps[i].slot != p.slot {
        assert deps[i] in deps;
      }
    }
  }

  /** In a valid graph a vector leads to exactly one unit, one representation of that unit's modality and one space of
      the vector's dimension, all of them records of one resource. */
  lemma VectorResolves(b: Batch, v: Vector) returns (u: Unit, r: Rep, s: Space)
    requires Valid(b) && v in b.vectors
    ensures forall w :: w in b.units && w.id == v.unit <==> w == u
    ensures forall q :: q in b.reps && q.id == u.rep <==> q == r
    ensures forall t :: t in b.spaces && t.id == v.space <==> t == s
    ensures r.modality == u.modality && |v.values| == s.dimensions && r.resourceId == u.resourceId == b.resource.id
  {
    hide Populated;
    u :| u in b.units && u.id == v.unit;
    r :| r in b.reps && r.id == u.rep && r.modality == u.modality;
    s :| s in b.spaces && s.id == v.space && |v.values| == s.dimensions;
    forall w | w in b.units && w.id == v.unit ensures w == u {
      UniqueMember(b.units, UnitId, w, u);
    }
    forall q | q in b.reps && q.id == u.rep ensures q == r {
      UniqueMember(b.reps, RepId, q, r);
    }
    forall t | t in b.spaces && t.id == v.space ensures t == s {
      UniqueMember(b.spaces, SpaceId, t, s);
    }
  }

  /** No malformed block, and no two owners of one slot. */
  predicate OutputsOk(reps: seq<Rep>) {
    && (forall r :: r in reps ==> OutputOf(r).Ok?)
    && (forall i, j :: 0 <= i < j < |reps| && Owns(reps[i]) && Owns(reps[j]) ==>
          OutOf(reps[i]).slot != OutOf(reps[j]).slot)
  }

  lemma OwnersDistinct(reps: seq<Rep>, r: Rep, q: Rep)
    requires OutputsOk(reps) && r in reps && q in reps && Owns(r) && Owns(q) && OutOf(r).slot == OutOf(q).slot
    ensures r == q
  {
    var i :| 0 <= i < |reps| && reps[i] == r;
    var j :| 0 <= j < |reps| && reps[j] == q;
    assert !(i < j) && !(j < i);
  }

  /** The slot table of a graph without conflicts. */
  function Table(reps: seq<Rep>): (m: map<Slot, Owner>)
    requires OutputsOk(reps)
    ensures forall s :: s in m ==>
              m[s].rep in reps && Owns(m[s].rep) && OutOf(m[s].rep) == m[s].output && m[s].output.slot == s
    ensures forall r :: r in reps && Owns(r) ==> OutOf(r).slot in m && m[OutOf(r).slot] == Owner(r, OutOf(r))
  {
    if reps == [] then map[]
    else
      var last := reps[|reps| - 1];
      var rest := reps[..|reps| - 1];
      var m := Table(rest);
      if Owns(last) then m[OutOf(last).slot := Owner(last, OutOf(last))] else m
  }

  /** `_outputs` */
  function Outputs(reps: seq<Rep>): Result<map<Slot, Owner>> {
    if OutputsOk(reps) then Ok(Table(reps)) else Err(Invalid)
  }

  /** The table is determined by which owners are present, not by their order. */
  lemma TableDetermined(reps: seq<Rep>, m: map<Slot, Owner>)
    requires OutputsOk(reps)
    requires forall s :: s in m ==>
               m[s].rep in reps && Owns(m[s].rep) && OutOf(m[s].rep) == m[s].output && m[s].output.slot == s
    requires forall r :: r in reps && Owns(r) ==> OutOf(r).slot in m
    ensures Table(reps) == m
  {
    var t := Table(reps);
    forall s | s in m ensures s in t && t[s] == m[s] {
    }
    forall s | s in t ensures s in m {
      assert OutOf(t[s].rep).slot in m;
    }
  }

  /** With unique identities, a graph has a slot table as soon as no slot has two different owners. */
  lemma OutputsFromUnique(reps: seq<Rep>)
    requires Unique(reps, RepId) && forall r :: r in reps ==> OutputOf(r).Ok?
    requires forall r, q :: r in reps && q in reps && Owns(r) && Owns(q) && OutOf(r).slot == OutOf(q).slot ==> r == q
    ensures OutputsOk(reps)
  {
    forall i, j | 0 <= i < j < |reps| && Owns(reps[i]) && Owns(reps[j])
      ensures OutOf(reps[i]).slot != OutOf(reps[j]).slot
    {
      assert RepId(reps[i]) != RepId(reps[j]);
    }
  }

  lemma OutputsPrefix(reps: seq<Rep>, n: nat)
    requires n <= |reps|
    ensures OutputsOk(reps) ==> OutputsOk(reps[..n])
  {
  }

  lemma OutputsSnoc(reps: seq<Rep>, n: nat)
    requires n < |reps| && OutputsOk(reps[..n])
    ensures OutputsOk(reps[..n + 1]) <==>
            OutputOf(reps[n]).Ok? && (Owns(reps[n]) ==> OutOf(reps[n]).slot !in Table(reps[..n]))
  {
    var front, last := reps[..n], reps[n];
    assert reps[..n + 1] == front + [last];
    if Owns(last) && OutOf(last).slot in Table(front) {
      var k :| 0 <= k < n && front[k] == Table(front)[OutOf(last).slot].rep;
      assert Owns((front + [last])[k]) && Owns((front + [last])[n]);
    }
  }

  /** `_outputs` as the loop that fills a dictionary and refuses a second owner. */
  method CollectOutputs(reps: seq<Rep>) returns (r: Result<map<Slot, Owner>>)
    ensures r == Outputs(reps)
  {
    var result: map<Slot, Owner> := map[];
    for i := 0 to |reps|
      invariant OutputsOk(reps[..i])
      invariant result == Table(reps[..i])
    {
      var rep := reps[i];
      var output := OutputOf(rep);
      OutputsSnoc(reps, i);
      if output.Err? || (output.value.Some? && output.value.value.slot in result) {
        OutputsPrefix(reps, i + 1);
        return Err(Invalid);
      }
      assert reps[..i + 1][..i] == reps[..i];
      if output.value.Some? {
        result := result[output.value.value.slot := Owner(rep, output.value.value)];
      }
    }
    assert reps[..|reps|] == reps;
    return Ok(result);
  }

  /** The dependency view of a slot table. */
  function Just(m: map<Slot, Owner>): (outputs: map<Slot, Output>)
    ensures outputs.Keys == m.Keys
  {
    map s | s in m :: m[s].output
  }
}
