/** Immediate artifact dependencies between output slots: the cycle check and the
    propagation of staleness, with what each of them decides. */
module Dependencies {
  import opened Sequences
  import opened Graph

  // ---------------------------------------------------------------- cycles

  /** Slot to the slots it needs, restricted to slots of the graph. */
  type Edges = map<Slot, set<Slot>>

  predicate Inside(g: Edges) {
    forall s :: s in g ==> g[s] <= g.Keys
  }

  function Needs(o: Output): set<Slot> {
    set d | d in o.dependencies :: d.slot
  }

  function Pending(active: map<Slot, Output>): (g: Edges)
    ensures g.Keys == active.Keys && Inside(g)
  {
    map s | s in active :: Needs(active[s]) * active.Keys
  }

  ghost predicate IsPath(g: Edges, p: seq<Slot>) {
    && (forall i :: 0 <= i < |p| ==> p[i] in g)
    && (forall i :: 0 <= i < |p| - 1 ==> p[i + 1] in g[p[i]])
  }

  ghost predicate IsCycle(g: Edges, p: seq<Slot>) {
    IsPath(g, p) && |p| >= 2 && p[0] == p[|p| - 1]
  }

  ghost predicate Cyclic(g: Edges) {
    exists p :: IsCycle(g, p)
  }

  function Roots(g: Edges): set<Slot> {
    set s | s in g && g[s] == {}
  }

  function WithoutRoots(g: Edges): (rest: Edges)
    ensures rest.Keys == g.Keys - Roots(g)
    ensures Inside(g) ==> Inside(rest)
  {
    map s | s in g && s !in Roots(g) :: g[s] - Roots(g)
  }

  lemma PeelShrinks(g: Edges)
    requires Roots(g) != {}
    ensures |WithoutRoots(g).Keys| < |g.Keys|
  {
    assert |WithoutRoots(g).Keys| == |g.Keys| - |Roots(g)| by {
      assert Roots(g) <= g.Keys;
      assert g.Keys == WithoutRoots(g).Keys + Roots(g);
    }
  }

  /** A cycle survives removal of the roots, since none of its slots is one. */
  lemma CycleSurvivesPeel(g: Edges, p: seq<Slot>)
    requires IsCycle(g, p)
    ensures IsCycle(WithoutRoots(g), p)
  {
    forall i | 0 <= i < |p| ensures p[i] !in Roots(g) {
      if i == |p| - 1 {
        assert p[1] in g[p[0]];
      } else {
        assert p[i + 1] in g[p[i]];
      }
    }
  }

  lemma CycleOfPeel(g: Edges)
    requires Cyclic(WithoutRoots(g))
    ensures Cyclic(g)
  {
    var p :| IsCycle(WithoutRoots(g), p);
    assert IsCycle(g, p);
  }

  /** Without roots every walk can be continued, so some walk meets itself. */
  lemma {:induction false} RootlessIsCyclic(g: Edges, walk: seq<Slot>)
    requires Inside(g) && Roots(g) == {}
    requires walk != [] && IsPath(g, walk)
    ensures Cyclic(g)
    decreases g.Keys - (set s | s in walk)
  {
    var last := walk[|walk| - 1];
    assert last !in Roots(g);
    var next :| next in g[last];
    var longer := walk + [next];
    assert IsPath(g, longer);
    if next in walk {
      var i :| 0 <= i < |walk| && walk[i] == next;
      var loop := longer[i..];
      forall k | 0 <= k < |loop| - 1 ensures loop[k + 1] in g[loop[k]] {
        assert longer[i + k + 1] in g[longer[i + k]];
      }
      assert IsCycle(g, loop);
    } else {
      assert next in g.Keys - (set s | s in walk) && next !in g.Keys - (set s | s in longer);
      RootlessIsCyclic(g, longer);
    }
  }

  /** `_acyclic`, as the loop that keeps removing slots with no pending dependency. */
  method CheckAcyclic(active: map<Slot, Output>) returns (accepted: bool)
    ensures accepted <==> !Cyclic(Pending(active))
  {
    var pending := Pending(active);
    while pending != map[]
      invariant Inside(pending)
      invariant Cyclic(Pending(active)) <==> Cyclic(pending)
      decreases |pending.Keys|
    {
      var roots := Roots(pending);
      if roots == {} {
        var s :| s in pending;
        RootlessIsCyclic(pending, [s]);
        return false;
      }
      PeelShrinks(pending);
      if Cyclic(pending) {
        var p :| IsCycle(pending, p);
        CycleSurvivesPeel(pending, p);
      }
      if Cyclic(WithoutRoots(pending)) {
        CycleOfPeel(pending);
      }
      pending := WithoutRoots(pending);
    }
    return true;
  }

  /** The decision of `_acyclic` as a function, for use inside the merge. */
  function Acyclic(g: Edges): bool
    decreases |g.Keys|
  {
    if g == map[] then true
    else if Roots(g) == {} then false
    else PeelShrinks(g); Acyclic(WithoutRoots(g))
  }

  lemma {:induction false} AcyclicDecides(g: Edges)
    requires Inside(g)
    ensures Acyclic(g) <==> !Cyclic(g)
    decreases |g.Keys|
  {
    if g == map[] {
      assert !Cyclic(g);
    } else if Roots(g) == {} {
      var s :| s in g;
      RootlessIsCyclic(g, [s]);
    } else {
      PeelShrinks(g);
      AcyclicDecides(WithoutRoots(g));
      if Cyclic(g) {
        var p :| IsCycle(g, p);
        CycleSurvivesPeel(g, p);
      }
      if Cyclic(WithoutRoots(g)) {
        CycleOfPeel(g);
      }
    }
  }

  // ------------------------------------------------------------- staleness

  /** A dependency is met inside `within` when that slot is there at the declared revision. */
  predicate Met(active: map<Slot, Output>, within: set<Slot>, d: Dependency) {
    d.slot in within && d.slot in active && active[d.slot].artifactRevision == d.revision
  }

  /** Every slot of `within` has all its dependencies met inside `within`. */
  predicate Closed(active: map<Slot, Output>, within: set<Slot>) {
    && within <= active.Keys
    && forall s :: s in within ==> forall d :: d in active[s].dependencies ==> Met(active, within, d)
  }

  /** `survivors` is the greatest dependency-closed set of slots. */
  ghost predicate Greatest(active: map<Slot, Output>, survivors: set<Slot>) {
    Closed(active, survivors) && forall t :: Closed(active, t) ==> t <= survivors
  }

  /** One round: slots not yet invalid with a dependency that is invalid, absent or at another revision. */
  function Round(active: map<Slot, Output>, invalid: set<Slot>): set<Slot> {
    set s | s in active && s !in invalid &&
            exists d :: d in active[s].dependencies && !Met(active, active.Keys - invalid, d)
  }

  function Propagate(active: map<Slot, Output>, protected: set<Slot>, invalid: set<Slot>): Result<set<Slot>>
    decreases active.Keys - invalid
  {
    var stale := Round(active, invalid);
    if stale == {} then Ok(invalid)
    else if stale * protected != {} then Err(Stale)
    else Propagate(active, protected, invalid + stale)
  }

  /** `invalid_dependencies` */
  function InvalidDependencies(active: map<Slot, Output>, protected: set<Slot>): Result<set<Slot>> {
    if !Acyclic(Pending(active)) then Err(Invalid) else Propagate(active, protected, {})
  }

  /** A round only ever condemns slots that belong to no closed set. */
  lemma RoundIsForced(active: map<Slot, Output>, invalid: set<Slot>, t: set<Slot>)
    requires Closed(active, t) && t !! invalid
    ensures t !! Round(active, invalid)
  {
    forall s | s in t ensures s !in Round(active, invalid) {
      forall d | d in active[s].dependencies ensures Met(active, active.Keys - invalid, d) {
        assert Met(active, t, d);
      }
    }
  }

  lemma {:induction false} PropagateDecides(active: map<Slot, Output>, protected: set<Slot>, invalid: set<Slot>,
                                            survivors: set<Slot>)
    requires invalid <= active.Keys && Greatest(active, survivors) && survivors !! invalid && protected !! invalid
    ensures Propagate(active, protected, invalid) ==
            if protected * active.Keys <= survivors then Ok(active.Keys - survivors) else Err(Stale)
    decreases active.Keys - invalid
  {
    var stale := Round(active, invalid);
    RoundIsForced(active, invalid, survivors);
    if stale == {} {
      var rest := active.Keys - invalid;
      forall s, d | s in rest && d in active[s].dependencies ensures Met(active, rest, d) {
        assert s !in stale;
      }
      assert Closed(active, rest);
      assert rest == survivors;
      assert active.Keys - survivors == invalid;
    } else if stale * protected != {} {
      var s :| s in stale * protected;
      assert s in protected * active.Keys && s !in survivors;
    } else {
      forall s | s in protected ensures s !in stale {
        assert s in stale <==> s in stale * protected;
      }
      PropagateDecides(active, protected, invalid + stale, survivors);
    }
  }

  lemma {:induction false} GreatestFrom(active: map<Slot, Output>, invalid: set<Slot>) returns (survivors: set<Slot>)
    requires invalid <= active.Keys && forall t :: Closed(active, t) ==> t !! invalid
    ensures Greatest(active, survivors)
    decreases active.Keys - invalid
  {
    var stale := Round(active, invalid);
    survivors := active.Keys - invalid;
    if stale == {} {
      forall s, d | s in survivors && d in active[s].dependencies ensures Met(active, survivors, d) {
        assert s !in stale;
      }
      forall t | Closed(active, t) ensures t <= survivors {
      }
    } else {
      forall t | Closed(active, t) ensures t !! invalid + stale {
        RoundIsForced(active, invalid, t);
      }
      survivors := GreatestFrom(active, invalid + stale);
    }
  }

  /** What `invalid_dependencies` decides: it refuses cycles, refuses when a protected slot cannot be
      kept, and otherwise returns exactly the complement of the greatest closed set. */
  lemma InvalidDependenciesDecides(active: map<Slot, Output>, protected: set<Slot>) returns (survivors: set<Slot>)
    ensures Greatest(active, survivors)
    ensures InvalidDependencies(active, protected) ==
            if Cyclic(Pending(active)) then Err(Invalid)
            else if protected * active.Keys <= survivors then Ok(active.Keys - survivors)
            else Err(Stale)
  {
    survivors := GreatestFrom(active, {});
    PropagateDecides(active, protected, {}, survivors);
    AcyclicDecides(Pending(active));
  }

  /** `invalid_dependencies` as the loop that grows the invalid set. */
  method ComputeInvalidDependencies(active: map<Slot, Output>, protected: set<Slot>)
    returns (r: Result<set<Slot>>)
    ensures r == InvalidDependencies(active, protected)
  {
    AcyclicDecides(Pending(active));
    var accepted := CheckAcyclic(active);
    if !accepted {
      return Err(Invalid);
    }
    var invalid: set<Slot> := {};
    while true
      invariant Propagate(active, protected, {}) == Propagate(active, protected, invalid)
      decreases active.Keys - invalid
    {
      var stale := Round(active, invalid);
      if stale == {} {
        return Ok(invalid);
      }
      if stale * protected != {} {
        return Err(Stale);
      }
      invalid := invalid + stale;
    }
  }

  /** In a closed table nothing is ever invalid. */
  lemma ClosedHasNoInvalid(active: map<Slot, Output>, protected: set<Slot>)
    requires Closed(active, active.Keys)
    ensures Propagate(active, protected, {}) == Ok({})
  {
    RoundIsForced(active, {}, active.Keys);
    assert Round(active, {}) == {};
  }

  /** Dropping slots cannot create a cycle. */
  lemma AcyclicSubset(small: map<Slot, Output>, large: map<Slot, Output>)
    requires small.Keys <= large.Keys && (forall s :: s in small ==> small[s] == large[s])
    requires Acyclic(Pending(large))
    ensures Acyclic(Pending(small))
  {
    AcyclicDecides(Pending(small));
    AcyclicDecides(Pending(large));
    if Cyclic(Pending(small)) {
      var p :| IsCycle(Pending(small), p);
      assert IsCycle(Pending(large), p);
    }
  }

  // ----------------------------------------------------------- reachability

  /** Following dependencies from a slot one can come to one of the targets, at once or in steps. */
  ghost predicate Reaches(g: Edges, s: Slot, targets: set<Slot>) {
    exists p :: p != [] && IsPath(g, p) && p[0] == s && p[|p| - 1] in targets
  }

  /** A closed set is never left by following dependencies. */
  lemma {:induction false} PathStays(active: map<Slot, Output>, within: set<Slot>, p: seq<Slot>)
    requires Closed(active, within) && p != [] && IsPath(Pending(active), p) && p[0] in within
    ensures p[|p| - 1] in within
    decreases |p|
  {
    if |p| > 1 {
      assert p[1] in Pending(active)[p[0]];
      var d :| d in active[p[0]].dependencies && d.slot == p[1];
      assert Met(active, within, d);
      var rest := p[1..];
      forall i | 0 <= i < |rest| - 1 ensures rest[i + 1] in Pending(active)[rest[i]] {
        assert p[i + 2] in Pending(active)[p[i + 1]];
      }
      PathStays(active, within, rest);
    }
  }

  lemma StepReaches(g: Edges, s: Slot, t: Slot, targets: set<Slot>)
    requires s in g && t in g[s] && Reaches(g, t, targets)
    ensures Reaches(g, s, targets)
  {
    var p :| p != [] && IsPath(g, p) && p[0] == t && p[|p| - 1] in targets;
    var longer := [s] + p;
    assert IsPath(g, longer) && longer[0] == s && longer[|longer| - 1] in targets;
  }

  /** When slots are taken away, the closed slots that remain closed are exactly those from which none of
      the slots taken away can be reached. */
  lemma SurvivorsAvoid(active: map<Slot, Output>, gone: set<Slot>, all: set<Slot>, rest: set<Slot>)
    requires Greatest(active, all) && Greatest(active - gone, rest)
    ensures forall s :: s in rest <==> s in all && !Reaches(Pending(active), s, gone)
  {
    var g, small := Pending(active), active - gone;
    assert Closed(active, rest) by {
      forall s, d | s in rest && d in active[s].dependencies ensures Met(active, rest, d) {
        assert Met(small, rest, d);
      }
    }
    forall s | s in rest ensures !Reaches(g, s, gone) {
      forall p | p != [] && IsPath(g, p) && p[0] == s ensures p[|p| - 1] !in gone {
        PathStays(active, rest, p);
      }
    }
    var free := set s | s in all && !Reaches(g, s, gone);
    AvoidingIsClosed(active, gone, all, free);
  }

  lemma AvoidingIsClosed(active: map<Slot, Output>, gone: set<Slot>, all: set<Slot>, free: set<Slot>)
    requires Closed(active, all) && forall s :: s in free <==> s in all && !Reaches(Pending(active), s, gone)
    ensures Closed(active - gone, free)
  {
    var g := Pending(active);
    forall s | s in free ensures s in active - gone {
      assert IsPath(g, [s]);
    }
    forall s, d | s in free && d in active[s].dependencies ensures Met(active - gone, free, d) {
      assert Met(active, all, d);
      assert d.slot in Needs(active[s]);
      if Reaches(g, d.slot, gone) {
        StepReaches(g, s, d.slot, gone);
      }
    }
  }
}
