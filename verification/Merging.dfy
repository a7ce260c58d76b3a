/** Dependency-aware merge of a prepared addition into a published graph. */
module Merging {
  import opened Sequences
  import opened Graph
  import opened Dependencies
  import Unicode

  // ------------------------------------------------------------ source state

  /** `_text(resource.metadata.get('source_revision'))` */
  function SourceRevision(resource: Resource): Result<string> {
    if "source_revision" in resource.metadata && resource.metadata["source_revision"].JString?
       && NonBlank(resource.metadata["source_revision"].text)
    then Ok(resource.metadata["source_revision"].text) else Err(Invalid)
  }

  /** The revision is a string of the metadata with a visible character. */
  lemma SourceRevisionMeans(resource: Resource, text: string)
    ensures SourceRevision(resource) == Ok(text) <==>
            && "source_revision" in resource.metadata && resource.metadata["source_revision"] == JString(text)
            && exists i :: 0 <= i < |text| && !Unicode.IsSpace(text[i])
  {
  }

  /** An output may outlive its source revision only if it declares independence of the source. */
  predicate SourceBound(r: Rep, source: string) {
    Owns(r) ==> OutOf(r).sourceRevision == source || IndependentOutput(r) == Ok(true)
  }

  /** Every output of a graph belongs to the graph's own source revision or is independent of it. */
  predicate AllBound(b: Batch) {
    SourceRevision(b.resource).Ok? && forall r :: r in b.reps ==> SourceBound(r, SourceRevision(b.resource).value)
  }

  function AnyForeign(reps: seq<Rep>, source: string): Result<bool> {
    if reps == [] then Ok(false)
    else if Owns(reps[0]) && OutOf(reps[0]).sourceRevision != source then
      var independent :- IndependentOutput(reps[0]);
      if independent then AnyForeign(reps[1..], source) else Ok(true)
    else AnyForeign(reps[1..], source)
  }

  lemma {:induction false} AnyForeignDecides(reps: seq<Rep>, source: string)
    ensures AnyForeign(reps, source) == Ok(false) <==> forall r :: r in reps ==> SourceBound(r, source)
  {
    if reps != [] {
      AnyForeignDecides(reps[1..], source);
      assert reps[0] in reps;
      assert forall r :: r in reps <==> r == reps[0] || r in reps[1..];
    }
  }

  /** `_source`: the revision of a live, valid, correctly bound graph without outputs of older sources. */
  function Source(s: Snapshot): (r: Result<string>)
    ensures r.Ok? ==> s.state.Live() && s.batch.Some? && Valid(s.batch.value) && OutputsOk(s.batch.value.reps)
  {
    if !s.state.Live() || s.batch.None? then Err(Stale)
    else if !Valid(s.batch.value) then Err(Invalid)
    else
      var resource := s.batch.value.resource;
      if resource.namespace != s.state.namespace || resource.locator != s.state.locator then Err(Stale)
      else
        var source :- SourceRevision(resource);
        var _ :- Outputs(s.batch.value.reps);
        var foreign :- AnyForeign(s.batch.value.reps, source);
        if foreign then Err(Stale) else Ok(source)
  }

  // ------------------------------------------------------ parts of a graph

  datatype Part = Part(reps: seq<Rep>, units: seq<Unit>, vectors: seq<Vector>)

  /** The representations named, with the units and vectors they own. */
  function Select(b: Batch, ids: set<string>): Part {
    var units := Keep(b.units, UnitRep, ids);
    Part(Keep(b.reps, RepId, ids), units, Keep(b.vectors, VectorUnit, Keys(units, UnitId)))
  }

  /** `_projection` */
  function Projection(b: Batch, id: string): Part { Select(b, {id}) }

  function Join(a: Part, b: Part): Part {
    Part(a.reps + b.reps, a.units + b.units, a.vectors + b.vectors)
  }

  /** Selecting representations of one half of a joined graph reads that half back. */
  lemma SelectJoined(m: Batch, l: Batch, p: set<string>, r: Batch, q: set<string>, x: set<string>)
    requires Part(m.reps, m.units, m.vectors) == Join(Select(l, p), Select(r, q))
    requires Unique(m.units, UnitId) && p !! q
    ensures x <= p ==> Select(m, x) == Select(l, x)
    ensures x <= q ==> Select(m, x) == Select(r, x)
  {
    var a, b := Select(l, p), Select(r, q);
    var ids := Keys(Keep(m.units, UnitRep, x), UnitId);
    KeepJoined(l.reps, p, r.reps, q, RepId, x);
    KeepJoined(l.units, p, r.units, q, UnitRep, x);
    KeepJoined(l.vectors, Keys(a.units, UnitId), r.vectors, Keys(b.units, UnitId), VectorUnit, ids);
    UniqueConcat(a.units, b.units, UnitId);
    KeepMembers(l.units, UnitRep, p);
    KeepMembers(l.units, UnitRep, x);
    KeepMembers(r.units, UnitRep, q);
    KeepMembers(r.units, UnitRep, x);
  }

  /** Selecting every representation of a graph whose references resolve gives the graph. */
  lemma SelectAll(b: Batch, ids: set<string>)
    requires Resolved(b) && Keys(b.reps, RepId) <= ids
    ensures Select(b, ids) == Part(b.reps, b.units, b.vectors)
  {
    KeepAll(b.reps, RepId, ids);
    forall u | u in b.units ensures UnitRep(u) in ids {
      var r :| r in b.reps && r.id == u.rep;
      assert RepId(r) in Keys(b.reps, RepId);
    }
    KeepAll(b.units, UnitRep, ids);
    forall v | v in b.vectors ensures VectorUnit(v) in Keys(b.units, UnitId) {
      var u :| u in b.units && u.id == v.unit;
      assert UnitId(u) in Keys(b.units, UnitId);
    }
    KeepAll(b.vectors, VectorUnit, Keys(b.units, UnitId));
  }

  // ------------------------------------------------------- input material

  datatype Shape = Shape(id: string, kind: string, modality: string, evidence: Locator, ordinal: nat,
                         tokens: Option<nat>, tokensKind: Option<string>, metadata: string)

  datatype Material = Material(artifactRevision: string, digest: Option<string>, fingerprint: Option<string>,
                               kind: string, modality: string, producerFingerprint: Option<string>,
                               language: Option<string>, shapes: seq<Shape>, vectors: seq<Vector>,
                               spaces: seq<Space>)

  function Shapes(units: seq<Unit>): seq<Shape> {
    seq(|units|, i requires 0 <= i < |units| =>
      Shape(units[i].id, units[i].kind, units[i].modality, units[i].evidence, units[i].ordinal,
            units[i].tokens, units[i].tokensKind, units[i].metadata))
  }

  /** The embedding spaces a set of vectors uses, in the graph's order. */
  function UsedSpaces(b: Batch, vectors: seq<Vector>): seq<Space> {
    Keep(b.spaces, SpaceId, Keys(vectors, VectorSpace))
  }

  function MaterialOf(rep: Rep, part: Part, spaces: seq<Space>): Material
    requires Owns(rep)
  {
    Material(rep.provenance.artifactRevision, rep.provenance.digest, rep.provenance.fingerprint,
             rep.kind, rep.modality, rep.producerFingerprint, rep.language,
             Shapes(part.units), part.vectors, spaces)
  }

  /** `_input_material`: what a consumer of this output was computed from, whatever its label says. */
  function InputMaterial(b: Batch, owner: Rep): Material
    requires Owns(owner)
  {
    var part := Projection(b, owner.id);
    MaterialOf(owner, part, UsedSpaces(b, part.vectors))
  }

  // ------------------------------------------------------------ the merge

  /** Slots whose projection the addition adds or alters. */
  function ChangedSlots(prior: Batch, addition: Batch): (changed: set<Slot>)
    requires OutputsOk(prior.reps) && OutputsOk(addition.reps)
    ensures changed <= Table(addition.reps).Keys
  {
    var before, incoming := Table(prior.reps), Table(addition.reps);
    set s | s in incoming &&
            (s !in before || Projection(addition, incoming[s].rep.id) != Projection(prior, before[s].rep.id))
  }

  /** Slots replaced by different material, even under an unchanged revision label. */
  function ChangedInputs(prior: Batch, addition: Batch): set<Slot>
    requires OutputsOk(prior.reps) && OutputsOk(addition.reps)
  {
    var before, incoming := Table(prior.reps), Table(addition.reps);
    set s | s in incoming && s in before &&
            InputMaterial(prior, before[s].rep) != InputMaterial(addition, incoming[s].rep)
  }

  function Combined(prior: Batch, addition: Batch): map<Slot, Owner>
    requires OutputsOk(prior.reps) && OutputsOk(addition.reps)
  {
    Table(prior.reps) + Table(addition.reps)
  }

  /** Retained slots that directly consume an input whose material changed. */
  function StaleConsumers(prior: Batch, addition: Batch): set<Slot>
    requires OutputsOk(prior.reps) && OutputsOk(addition.reps)
  {
    var active := Combined(prior, addition);
    set s | s in active && s !in Table(addition.reps) && Needs(active[s].output) * ChangedInputs(prior, addition) != {}
  }

  /** The slots from which survivors are drawn. */
  function Candidates(prior: Batch, addition: Batch): map<Slot, Output>
    requires OutputsOk(prior.reps) && OutputsOk(addition.reps)
  {
    Just(Combined(prior, addition) - StaleConsumers(prior, addition))
  }

  datatype Plan = Plan(changed: set<Slot>, invalid: set<Slot>)

  /** Everything `merge` decides before it assembles the new graph. */
  function MergePlan(current: Snapshot, addition: Batch): (r: Result<Plan>)
    ensures r.Ok? ==> && Source(current).Ok? && Valid(addition) && OutputsOk(addition.reps)
                      && addition.resource == current.batch.value.resource && addition.facets == []
  {
    var source :- Source(current);
    var prior := current.batch.value;
    if !Valid(addition) then Err(Invalid)
    else if addition.resource != prior.resource || addition.facets != [] then Err(Invalid)
    else
      var _ :- Outputs(addition.reps);
      PlanFor(prior, addition, source)
  }

  /** What changes and what becomes stale, once both graphs have their slots. */
  function PlanFor(prior: Batch, addition: Batch, source: string): Result<Plan>
    requires OutputsOk(prior.reps) && OutputsOk(addition.reps)
  {
    var incoming := Table(addition.reps);
    if exists r :: r in addition.reps && !Owns(r) then Err(Invalid)
    else if exists s :: s in incoming && incoming[s].output.sourceRevision != source then Err(Stale)
    else if !Acyclic(Pending(Just(Combined(prior, addition)))) then Err(Invalid)
    else
      var invalid :- InvalidDependencies(Candidates(prior, addition), incoming.Keys);
      Ok(Plan(ChangedSlots(prior, addition), StaleConsumers(prior, addition) + invalid))
  }

  /** Identities of the owners of some slots. */
  function OwnerIds(before: map<Slot, Owner>, leaving: set<Slot>): set<string> {
    set s | s in before && s in leaving :: before[s].rep.id
  }

  function KeptIds(prior: Batch, plan: Plan): set<string>
    requires OutputsOk(prior.reps)
  {
    Keys(prior.reps, RepId) - OwnerIds(Table(prior.reps), plan.changed + plan.invalid)
  }

  function NewIds(addition: Batch, plan: Plan): set<string>
    requires OutputsOk(addition.reps)
  {
    OwnerIds(Table(addition.reps), plan.changed)
  }

  /** Spaces are only ever added; a different definition under a known id is refused. */
  function MergeSpaces(prior: seq<Space>, more: seq<Space>): Result<seq<Space>> {
    if exists s, t :: s in prior && t in more && s.id == t.id && s != t then Err(Invalid)
    else Ok(prior + Drop(more, SpaceId, Keys(prior, SpaceId)))
  }

  datatype MergeResult = MergeResult(batch: Batch, added: seq<string>, replaced: seq<string>,
                                     preserved: seq<string>, invalidated: seq<string>)

  function Ids(reps: seq<Rep>): seq<string> {
    seq(|reps|, i requires 0 <= i < |reps| => reps[i].id)
  }

  function Assemble(prior: Batch, addition: Batch, plan: Plan, spaces: seq<Space>): (b: Batch)
    requires OutputsOk(prior.reps) && OutputsOk(addition.reps)
    ensures b.spaces == spaces && b.resource == prior.resource && b.facets == prior.facets
  {
    var part := Join(Select(prior, KeptIds(prior, plan)), Select(addition, NewIds(addition, plan)));
    Batch(prior.resource, part.reps, part.units, spaces, part.vectors, prior.facets)
  }

  /** The lists that report what happened to every representation. */
  function Report(prior: Batch, addition: Batch, plan: Plan, batch: Batch): (r: MergeResult)
    requires OutputsOk(prior.reps) && OutputsOk(addition.reps)
    ensures r.batch == batch
  {
    var before := Table(prior.reps);
    MergeResult(batch,
                Ids(Keep(addition.reps, RepId, OwnerIds(Table(addition.reps), plan.changed - before.Keys))),
                Ids(Keep(prior.reps, RepId, OwnerIds(before, plan.changed - plan.invalid))),
                Ids(Keep(prior.reps, RepId, KeptIds(prior, plan))),
                Ids(Keep(prior.reps, RepId, OwnerIds(before, plan.invalid))))
  }

  /** `merge` */
  function Merge(current: Snapshot, addition: Batch): (r: Result<MergeResult>)
    ensures r.Ok? ==> MergePlan(current, addition).Ok? && Valid(r.value.batch)
  {
    var plan :- MergePlan(current, addition);
    var prior := current.batch.value;
    var spaces :- MergeSpaces(prior.spaces, addition.spaces);
    var batch := Assemble(prior, addition, plan, spaces);
    if Valid(batch) then Ok(Report(prior, addition, plan, batch)) else Err(Invalid)
  }
}
