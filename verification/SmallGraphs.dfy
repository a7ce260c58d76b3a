/** Small graphs for concrete inputs: outputs and legacy representations with one text unit each. */
module SmallGraphs {
  import opened Sequences
  import opened Graph
  import opened Dependencies
  import opened Merging

  predicate UnitFor(u: Unit, r: Rep, resource: Resource) {
    u.rep == r.id && u.modality == r.modality && u.resourceId == r.resourceId == resource.id && Graph.HasText(u)
  }

  predicate UnitsFor(units: seq<Unit>, reps: seq<Rep>, resource: Resource) {
    |units| == |reps| && forall i :: 0 <= i < |reps| ==> UnitFor(units[i], reps[i], resource)
  }

  /** Spaces and vectors whose references resolve within the units. */
  predicate Attached(spaces: seq<Space>, vectors: seq<Vector>, units: seq<Unit>) {
    && Unique(spaces, SpaceId) && Unique(vectors, VectorKey)
    && (forall v :: v in vectors ==> exists u :: u in units && u.id == v.unit)
    && (forall v :: v in vectors ==> exists s :: s in spaces && s.id == v.space && |v.values| == s.dimensions)
  }

  /** Representations with one text unit each form a valid graph. */
  lemma SmallIsValid(resource: Resource, reps: seq<Rep>, units: seq<Unit>, spaces: seq<Space>, vectors: seq<Vector>)
    requires reps != [] && UnitsFor(units, reps, resource) && Unique(reps, RepId) && Unique(units, UnitId)
    requires Attached(spaces, vectors, units)
    ensures Graph.Valid(Batch(resource, reps, units, spaces, vectors, []))
  {
    hide Graph.HasText, Unique;
    var b := Batch(resource, reps, units, spaces, vectors, []);
    assert Identified(b) by {
      assert Unique(b.facets, FacetKey) by { NoKeys(b.facets); }
    }
    forall u | u in b.units ensures u.resourceId == resource.id && Graph.HasText(u)
                                    && exists r :: r in b.reps && r.id == u.rep && r.modality == u.modality {
      var i :| 0 <= i < |units| && units[i] == u;
      assert UnitFor(units[i], reps[i], resource) && reps[i] in b.reps;
    }
    forall r | r in b.reps ensures r.resourceId == resource.id && exists u :: u in b.units && u.rep == r.id {
      var i :| 0 <= i < |reps| && reps[i] == r;
      assert UnitFor(units[i], reps[i], resource) && units[i] in b.units;
    }
  }

  lemma NoKeys(facets: seq<Facet>)
    requires facets == []
    ensures Unique(facets, FacetKey)
  {
  }

  lemma NothingAttached(units: seq<Unit>)
    ensures Attached([], [], units)
  {
  }

  lemma OneUnit(u: Unit, r: Rep, resource: Resource)
    requires UnitFor(u, r, resource)
    ensures UnitsFor([u], [r], resource) && Unique([r], RepId) && Unique([u], UnitId)
  {
  }

  lemma Legacies(legacy: seq<Rep>)
    requires forall r :: r in legacy ==> r.provenance.NoBlock?
    ensures forall r :: r in legacy ==> OutputOf(r) == Ok(None) && !Owns(r)
  {
  }

  /** An output of a slot, bound to a source revision. */
  predicate OutputLike(r: Rep, slot: Slot, generation: string, needs: seq<Dependency>) {
    && Owns(r) && OutOf(r).slot == slot && OutOf(r).sourceRevision == generation
    && OutOf(r).dependencies == needs && IndependentOutput(r) == Ok(false)
  }

  /** Two slots, of which at most the second needs the first. */
  lemma NoCycle(g: Edges, a: Slot, b: Slot)
    requires g.Keys == {a, b} && a != b && g[a] == {} && g[b] <= {a}
    ensures !Cyclic(g)
  {
    forall p | |p| >= 2 && IsPath(g, p) ensures p[0] == b && p[|p| - 1] == a {
      assert p[1] in g[p[0]];
      var n := |p| - 2;
      assert p[n + 1] in g[p[n]];
    }
  }

  // ------------------------------------------------------------------- instances

  const PLACE: Locator := Locator("path", "a.md")
  const CAPTION: Slot := Slot("caption", "en")
  const SUMMARY: Slot := Slot("summary", "en")

  function ResourceWith(metadata: map<string, Json>): Resource {
    Resource("res", "document", "text/markdown", "notes", PLACE, None, None, metadata)
  }

  function OutputNamed(id: string, slot: Slot, generation: string, revision: string, needs: seq<Dependency>): Rep {
    Rep(id, "res", "text", "text", None, None, None,
        Block(slot, "recipe", "producer", generation, revision, needs, false, None, None), Unset, None, "")
  }

  function LegacyNamed(id: string, flag: Flag): Rep {
    Rep(id, "res", "text", "text", None, None, None, NoBlock, flag, None, "")
  }

  function UnitNamed(id: string, rep: string): Unit {
    Unit(id, "res", rep, "chunk", "text", Some("x"), PLACE, 0, None, None, "")
  }

  lemma Words()
    ensures NonBlank("x") && NonBlank("r0") && NonBlank("r1") && NonBlank("v1") && NonBlank("v2") && NonBlank("recipe")
            && NonBlank("producer") && NonBlank("caption") && NonBlank("summary") && NonBlank("en")
  {
    assert ("x")[0] == 'x' && ("r0")[0] == 'r' && ("r1")[0] == 'r' && ("v1")[0] == 'v' && ("v2")[0] == 'v';
    assert ("recipe")[0] == 'r' && ("producer")[0] == 'p' && ("caption")[0] == 'c' && ("summary")[0] == 's'
           && ("en")[0] == 'e';
  }

  lemma Named(id: string, slot: Slot, generation: string, revision: string, needs: seq<Dependency>)
    requires NonBlank(slot.purpose) && NonBlank(slot.variant) && NonBlank(revision) && NonBlank(generation)
             && |needs| <= 1
    requires forall d :: d in needs ==>
               NonBlank(d.slot.purpose) && NonBlank(d.slot.variant) && NonBlank(d.revision) && d.slot != slot
    ensures OutputLike(OutputNamed(id, slot, generation, revision, needs), slot, generation, needs)
    ensures OutOf(OutputNamed(id, slot, generation, revision, needs)).artifactRevision == revision
  {
    Words();
    hide NonBlank;
  }

  lemma UnitMatches(id: string, rep: string, r: Rep, resource: Resource)
    requires r.id == rep && r.resourceId == "res" == resource.id && r.modality == "text"
    ensures UnitFor(UnitNamed(id, rep), r, resource)
  {
    Words();
    hide NonBlank;
  }
}
