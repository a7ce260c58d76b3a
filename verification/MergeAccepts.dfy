/** Exactly which additions a merge accepts. */
module MergeAccepts {
  import opened Sequences
  import opened Graph
  import opened Dependencies
  import opened Merging
  import opened MergeTheorems
  import opened ReconcileTheorems

  /** A live, valid, correctly bound graph all of whose outputs belong to its source revision or are
      independent of it. */
  predicate Current(s: Snapshot) {
    && s.state.Live() && s.batch.Some? && Valid(s.batch.value)
    && s.batch.value.resource.namespace == s.state.namespace && s.batch.value.resource.locator == s.state.locator
    && SourceRevision(s.batch.value.resource).Ok? && OutputsOk(s.batch.value.reps) && AllBound(s.batch.value)
  }

  lemma SourceDecides(s: Snapshot)
    ensures Source(s).Ok? <==> Current(s)
    ensures Source(s).Ok? ==> Source(s) == SourceRevision(s.batch.value.resource)
  {
    hide Valid, OutputOf, OutputsOk, SourceRevision, SourceBound, AnyForeign, Table;
    if s.batch.Some? && SourceRevision(s.batch.value.resource).Ok? {
      AnyForeignDecides(s.batch.value.reps, SourceRevision(s.batch.value.resource).value);
    }
  }

  /** What the addition itself must satisfy. */
  predicate WellMade(prior: Batch, addition: Batch) {
    && Valid(addition) && addition.resource == prior.resource && addition.facets == [] && OutputsOk(addition.reps)
    && forall r :: r in addition.reps ==> Owns(r) && Ok(OutOf(r).sourceRevision) == SourceRevision(prior.resource)
  }

  /** Slots that stay: members of some closed choice. */
  ghost predicate Stays(prior: Batch, addition: Batch, s: Slot)
    requires OutputsOk(prior.reps) && OutputsOk(addition.reps)
  {
    exists w :: Closed(Choices(prior, addition), w) && s in w
  }

  /** A stored representation that the merge keeps as it is. */
  ghost predicate Kept(prior: Batch, addition: Batch, r: Rep)
    requires OutputsOk(prior.reps) && OutputsOk(addition.reps)
  {
    r in prior.reps && (Owns(r) ==>
        OutOf(r).slot !in ChangedSlots(prior, addition) && Stays(prior, addition, OutOf(r).slot))
  }

  /** An incoming representation that enters the graph. */
  predicate Enters(prior: Batch, addition: Batch, r: Rep)
    requires OutputsOk(prior.reps) && OutputsOk(addition.reps)
  {
    r in addition.reps && Owns(r) && OutOf(r).slot in ChangedSlots(prior, addition)
  }

  predicate Of(b: Batch, x: Rep, u: Unit) { u in b.units && u.rep == x.id }

  /** No identity of what enters is taken by what is kept. */
  ghost predicate NoClash(prior: Batch, addition: Batch)
    requires OutputsOk(prior.reps) && OutputsOk(addition.reps)
  {
    && (forall x, y :: Kept(prior, addition, x) && Enters(prior, addition, y) ==> x.id != y.id)
    && (forall x, y, u, w ::
          Kept(prior, addition, x) && Enters(prior, addition, y) && Of(prior, x, u) && Of(addition, y, w) ==>
            u.id != w.id)
  }

  predicate SpacesAgree(a: seq<Space>, b: seq<Space>) {
    forall s, t :: s in a && t in b && s.id == t.id ==> s == t
  }

  /** Everything a merge requires. */
  ghost predicate Acceptable(current: Snapshot, addition: Batch) {
    && Current(current)
    && var prior := current.batch.value;
    && WellMade(prior, addition) && SpacesAgree(prior.spaces, addition.spaces)
    && !Cyclic(Pending(Just(Table(prior.reps) + Table(addition.reps))))
    && (forall s :: s in Table(addition.reps) ==> Stays(prior, addition, s))
    && NoClash(prior, addition)
  }

  // ---------------------------------------------------------------- the joined graph

  lemma UniqueJoined<T(!new), K>(a: seq<T>, b: seq<T>, key: T -> K)
    requires Unique(a, key) && Unique(b, key)
    ensures Unique(a + b, key) <==> forall x, y :: x in a && y in b ==> key(x) != key(y)
  {
    var c := a + b;
    if Unique(c, key) {
      forall x, y | x in a && y in b ensures key(x) != key(y) {
        var i :| 0 <= i < |a| && a[i] == x;
        var j :| 0 <= j < |b| && b[j] == y;
        assert c[i] == x && c[|a| + j] == y;
        assert key(c[i]) != key(c[|a| + j]);
      }
    }
    if forall x, y :: x in a && y in b ==> key(x) != key(y) {
      forall i, j | 0 <= i < j < |c| ensures key(c[i]) != key(c[j]) {
        if j < |a| {
          assert key(a[i]) != key(a[j]);
        } else if |a| <= i {
          assert key(b[i - |a|]) != key(b[j - |a|]);
        } else {
          assert c[i] in a && c[j] in b;
        }
      }
    }
  }

  /** Two selections of valid graphs of one resource, side by side. */
  ghost predicate Joined(l: Batch, p: set<string>, r: Batch, q: set<string>, m: Batch) {
    && Valid(l) && Valid(r) && l.resource == r.resource && m.resource == l.resource && m.facets == l.facets
    && Part(m.reps, m.units, m.vectors) == Join(Select(l, p), Select(r, q))
    && Unique(m.spaces, SpaceId) && (forall s :: s in l.spaces || s in r.spaces ==> s in m.spaces)
  }

  lemma JoinedMembers(l: Batch, p: set<string>, r: Batch, q: set<string>, m: Batch)
    requires Joined(l, p, r, q, m)
    ensures forall x :: x in m.reps <==> (x in l.reps && x.id in p) || (x in r.reps && x.id in q)
    ensures forall u :: u in m.units <==> UnitFollows(l, p, u) || UnitFollows(r, q, u)
    ensures forall v :: v in m.vectors <==> VectorFollows(l, p, v) || VectorFollows(r, q, v)
  {
    hide Valid, Select, UnitFollows, VectorFollows, Unique, SpaceUsed;
    SelectMembers(l, p);
    SelectMembers(r, q);
  }

  ghost predicate Apart(l: Batch, p: set<string>, r: Batch, q: set<string>) {
    && (forall x, y :: x in l.reps && x.id in p && y in r.reps && y.id in q ==> x.id != y.id)
    && (forall u, w :: UnitFollows(l, p, u) && UnitFollows(r, q, w) ==> u.id != w.id)
  }

  lemma JoinedUnique(l: Batch, p: set<string>, r: Batch, q: set<string>, m: Batch)
    requires Joined(l, p, r, q, m)
    ensures Unique(m.reps, RepId) && Unique(m.units, UnitId) <==> Apart(l, p, r, q)
    ensures Apart(l, p, r, q) ==> Identified(m)
  {
    hide Owned, Resolved, Populated, Select, Unique, UnitFollows, VectorFollows, SpaceUsed;
    var a, b := Select(l, p), Select(r, q);
    SelectUnique(l, p);
    SelectUnique(r, q);
    SelectMembers(l, p);
    SelectMembers(r, q);
    UniqueJoined(a.reps, b.reps, RepId);
    UniqueJoined(a.units, b.units, UnitId);
    UniqueJoined(a.vectors, b.vectors, VectorKey);
    if Apart(l, p, r, q) {
      forall v, w | v in a.vectors && w in b.vectors ensures VectorKey(v) != VectorKey(w) {
        FollowsUnit(l, p, v);
        FollowsUnit(r, q, w);
      }
    }
  }

  lemma FollowsUnit(b: Batch, ids: set<string>, v: Vector)
    requires VectorFollows(b, ids, v)
    ensures exists u :: UnitFollows(b, ids, u) && u.id == v.unit
  {
    hide UnitFollows;
  }

  predicate Housed(m: Batch, u: Unit) { exists x :: x in m.reps && x.id == u.rep && x.modality == u.modality }

  predicate Searchable(m: Batch, u: Unit) { Graph.HasText(u) || exists v :: v in m.vectors && v.unit == u.id }

  predicate Placed(m: Batch, v: Vector) {
    && (exists u :: u in m.units && u.id == v.unit)
    && (exists s :: s in m.spaces && s.id == v.space && |v.values| == s.dimensions)
  }

  predicate Filled(m: Batch, x: Rep) { exists u :: u in m.units && u.rep == x.id }

  /** Validity of references, record by record. */
  lemma ResolvedMeans(m: Batch)
    ensures Resolved(m) <==>
              (forall u :: u in m.units ==> Housed(m, u)) && (forall v :: v in m.vectors ==> Placed(m, v))
  {
  }

  lemma PopulatedMeans(m: Batch)
    ensures Populated(m) <==>
            && m.reps != [] && m.units != []
            && (forall u :: u in m.units ==> Searchable(m, u)) && (forall x :: x in m.reps ==> Filled(m, x))
  {
    hide Graph.HasText;
  }

  /** Half of the joined graph resolves in it. */
  ghost predicate Includes(b: Batch, ids: set<string>, m: Batch) {
    && (forall s :: s in b.spaces ==> s in m.spaces)
    && (forall x :: x in b.reps && x.id in ids ==> x in m.reps)
    && (forall u :: UnitFollows(b, ids, u) ==> u in m.units)
    && (forall v :: VectorFollows(b, ids, v) ==> v in m.vectors)
  }

  lemma UnitStays(b: Batch, ids: set<string>, m: Batch, u: Unit)
    requires Housed(b, u) && Searchable(b, u) && Includes(b, ids, m) && UnitFollows(b, ids, u)
    ensures Housed(m, u) && Searchable(m, u)
  {
    hide Graph.HasText;
    var x :| x in b.reps && x.id == u.rep && x.modality == u.modality;
    assert x in m.reps;
    if !Graph.HasText(u) {
      var v :| v in b.vectors && v.unit == u.id;
      assert VectorFollows(b, ids, v);
    }
  }

  lemma VectorStays(b: Batch, ids: set<string>, m: Batch, v: Vector)
    requires Placed(b, v) && Includes(b, ids, m) && VectorFollows(b, ids, v)
    ensures Placed(m, v)
  {
    hide UnitFollows;
    FollowsUnit(b, ids, v);
    var s :| s in b.spaces && s.id == v.space && |v.values| == s.dimensions;
    assert s in m.spaces;
  }

  lemma RepStays(b: Batch, ids: set<string>, m: Batch, x: Rep)
    requires Filled(b, x) && Includes(b, ids, m) && x in b.reps && x.id in ids
    ensures Filled(m, x)
  {
    var u :| u in b.units && u.rep == x.id;
    assert UnitFollows(b, ids, u);
  }

  lemma FollowsFrom(b: Batch, ids: set<string>)
    ensures forall u :: UnitFollows(b, ids, u) ==> u in b.units
    ensures forall v :: VectorFollows(b, ids, v) ==> v in b.vectors
  {
  }

  lemma HalfResolves(b: Batch, ids: set<string>, m: Batch)
    requires Valid(b) && Includes(b, ids, m)
    ensures forall u :: UnitFollows(b, ids, u) ==> Housed(m, u) && Searchable(m, u)
    ensures forall v :: VectorFollows(b, ids, v) ==> Placed(m, v)
    ensures forall x :: x in b.reps && x.id in ids ==> Filled(m, x)
  {
    hide Resolved, Populated, Identified, Owned, Housed, Searchable, Placed, Filled, Includes, UnitFollows,
         VectorFollows;
    ResolvedMeans(b);
    PopulatedMeans(b);
    FollowsFrom(b, ids);
    forall u | UnitFollows(b, ids, u) ensures Housed(m, u) && Searchable(m, u) {
      UnitStays(b, ids, m, u);
    }
    forall v | VectorFollows(b, ids, v) ensures Placed(m, v) {
      VectorStays(b, ids, m, v);
    }
    forall x | x in b.reps && x.id in ids ensures Filled(m, x) {
      RepStays(b, ids, m, x);
    }
  }

  lemma JoinedValid(l: Batch, p: set<string>, r: Batch, q: set<string>, m: Batch)
    requires Joined(l, p, r, q, m) && m.reps != []
    ensures Valid(m) <==> Apart(l, p, r, q)
  {
    hide Identified, Select, UnitFollows, VectorFollows, Unique, Housed, Searchable, Placed, Filled, Resolved,
         Populated,
         Owned;
    JoinedUnique(l, p, r, q, m);
    JoinedMembers(l, p, r, q, m);
    if Valid(m) {
      IdentifiedMeans(m);
    }
    if Apart(l, p, r, q) {
      HalfResolves(l, p, m);
      HalfResolves(r, q, m);
      JoinedOwned(l, p, r, q, m);
      ResolvedMeans(m);
      PopulatedMeans(m);
      Inhabited(m);
    }
  }

  lemma Inhabited(m: Batch)
    requires m.reps != [] && forall x :: x in m.reps ==> Filled(m, x)
    ensures m.units != []
  {
    assert Filled(m, m.reps[0]);
  }

  lemma IdentifiedMeans(m: Batch)
    requires Valid(m)
    ensures Unique(m.reps, RepId) && Unique(m.units, UnitId)
  {
  }

  lemma JoinedOwned(l: Batch, p: set<string>, r: Batch, q: set<string>, m: Batch)
    requires Joined(l, p, r, q, m)
    ensures Owned(m)
  {
    hide Identified, Resolved, Populated, Unique, Select, VectorFollows;
    JoinedMembers(l, p, r, q, m);
  }

  // ---------------------------------------------------------------------- the merge

  lemma SpacesUnique(prior: seq<Space>, more: seq<Space>)
    requires MergeSpaces(prior, more).Ok? && Unique(prior, SpaceId) && Unique(more, SpaceId)
    ensures Unique(MergeSpaces(prior, more).value, SpaceId)
  {
    var extra := Drop(more, SpaceId, Keys(prior, SpaceId));
    KeepMembers(more, SpaceId, Keys(more, SpaceId) - Keys(prior, SpaceId));
    KeepUniqueBy(more, SpaceId, Keys(more, SpaceId) - Keys(prior, SpaceId), SpaceId);
    UniqueJoined(prior, extra, SpaceId);
    forall x, y | x in prior && y in extra ensures SpaceId(x) != SpaceId(y) {
      assert SpaceId(x) in Keys(prior, SpaceId);
    }
  }

  /** The slots of the addition belong to the source. */
  predicate FromSource(addition: Batch, source: string) {
    forall r :: r in addition.reps && Owns(r) ==> OutOf(r).sourceRevision == source
  }

  predicate AllOwn(addition: Batch) { forall r :: r in addition.reps ==> Owns(r) }

  /** How a merge that got so far is planned, given the slots that survive. */
  lemma PlanDecides(prior: Batch, addition: Batch, source: string) returns (survivors: set<Slot>)
    requires OutputsOk(prior.reps) && OutputsOk(addition.reps)
    ensures Greatest(Choices(prior, addition), survivors)
    ensures PlanFor(prior, addition, source) ==
            if !AllOwn(addition) then Err(Invalid)
            else if !FromSource(addition, source) then Err(Stale)
            else if Cyclic(Pending(Just(Table(prior.reps) + Table(addition.reps)))) then Err(Invalid)
            else if !(Table(addition.reps).Keys <= survivors) then Err(Stale)
            else Ok(Plan(ChangedSlots(prior, addition),
                         StaleConsumers(prior, addition) + (Choices(prior, addition).Keys - survivors)))
  {
    hide OutputOf, OutputsOk, Table, Acyclic, ChangedSlots, StaleConsumers, InvalidDependencies, Cyclic, Greatest,
         Choices,
         Candidates, Pending, Just;
    ChoicesAreCandidates(prior, addition);
    IncomingAreCandidates(prior, addition);
    AcyclicDecides(Pending(Just(Combined(prior, addition))));
    var incoming := Table(addition.reps);
    survivors := InvalidDependenciesDecides(Candidates(prior, addition), incoming.Keys);
    assert incoming.Keys * Candidates(prior, addition).Keys == incoming.Keys;
    SubsetAcyclic(prior, addition);
    OwnersByTable(addition.reps, source);
  }

  lemma OwnersByTable(reps: seq<Rep>, source: string)
    requires OutputsOk(reps)
    ensures (forall s :: s in Table(reps) ==> Table(reps)[s].output.sourceRevision == source) ==>
            (forall r :: r in reps && Owns(r) ==> OutOf(r).sourceRevision == source)
    ensures (forall r :: r in reps && Owns(r) ==> OutOf(r).sourceRevision == source) ==>
            (forall s :: s in Table(reps) ==> Table(reps)[s].output.sourceRevision == source)
  {
    hide OutputOf, OutputsOk, Table;
    if forall r :: r in reps && Owns(r) ==> OutOf(r).sourceRevision == source {
      forall s | s in Table(reps) ensures Table(reps)[s].output.sourceRevision == source {
        assert OutOf(Table(reps)[s].rep) == Table(reps)[s].output;
      }
    }
    if forall s :: s in Table(reps) ==> Table(reps)[s].output.sourceRevision == source {
      forall r | r in reps && Owns(r) ensures OutOf(r).sourceRevision == source {
        assert OutOf(r).slot in Table(reps);
      }
    }
  }

  lemma SubsetAcyclic(prior: Batch, addition: Batch)
    requires OutputsOk(prior.reps) && OutputsOk(addition.reps)
    ensures !Cyclic(Pending(Just(Combined(prior, addition)))) ==> !Cyclic(Pending(Candidates(prior, addition)))
  {
    hide OutputOf, OutputsOk, Table, Acyclic, StaleConsumers, Cyclic;
    AcyclicDecides(Pending(Just(Combined(prior, addition))));
    AcyclicDecides(Pending(Candidates(prior, addition)));
    if !Cyclic(Pending(Just(Combined(prior, addition)))) {
      AcyclicSubset(Candidates(prior, addition), Just(Combined(prior, addition)));
    }
  }

  /** Who is kept and who enters, in terms of the plan. */
  lemma KeptByPlan(prior: Batch, addition: Batch, plan: Plan, survivors: set<Slot>, x: Rep)
    requires OutputsOk(prior.reps) && OutputsOk(addition.reps) && Unique(prior.reps, RepId)
    requires Greatest(Choices(prior, addition), survivors)
    requires plan == Plan(ChangedSlots(prior, addition),
                          StaleConsumers(prior, addition) + (Choices(prior, addition).Keys - survivors))
    requires x in prior.reps
    ensures x.id in KeptIds(prior, plan) <==> Kept(prior, addition, x)
  {
    hide OutputOf, OutputsOk, Table, ChangedSlots, Closed, Unique;
    OwnerKept(prior.reps, plan.changed + plan.invalid, x);
    assert RepId(x) in Keys(prior.reps, RepId);
    if Owns(x) {
      var s := OutOf(x).slot;
      ChoicesAreCandidates(prior, addition);
      GreatestMeans(prior, addition, survivors, s);
      assert s in Table(prior.reps);
    }
  }

  lemma GreatestMeans(prior: Batch, addition: Batch, survivors: set<Slot>, s: Slot)
    requires OutputsOk(prior.reps) && OutputsOk(addition.reps) && Greatest(Choices(prior, addition), survivors)
    ensures s in survivors <==> Stays(prior, addition, s)
    ensures survivors <= Choices(prior, addition).Keys
  {
    hide OutputsOk, Table, Choices;
  }

  lemma EntersByPlan(prior: Batch, addition: Batch, x: Rep)
    requires OutputsOk(prior.reps) && OutputsOk(addition.reps) && Unique(addition.reps, RepId) && x in addition.reps
    ensures x.id in OwnerIds(Table(addition.reps), ChangedSlots(prior, addition)) <==> Enters(prior, addition, x)
  {
    hide OutputOf, OutputsOk, Table, ChangedSlots, Unique;
    OwnerKept(addition.reps, ChangedSlots(prior, addition), x);
  }

  lemma ApartMeans(prior: Batch, addition: Batch, plan: Plan, survivors: set<Slot>)
    requires OutputsOk(prior.reps) && OutputsOk(addition.reps) && Valid(prior) && Valid(addition)
    requires Greatest(Choices(prior, addition), survivors)
    requires plan == Plan(ChangedSlots(prior, addition),
                          StaleConsumers(prior, addition) + (Choices(prior, addition).Keys - survivors))
    ensures Apart(prior, KeptIds(prior, plan), addition, NewIds(addition, plan)) <==> NoClash(prior, addition)
  {
    hide OutputOf, OutputsOk, Table, ChangedSlots, Greatest, Owned, Populated, Kept, Enters, KeptIds, OwnerIds,
         StaleConsumers,
         Choices, Unique;
    forall x | x in prior.reps ensures x.id in KeptIds(prior, plan) <==> Kept(prior, addition, x) {
      KeptByPlan(prior, addition, plan, survivors, x);
    }
    forall x | x in addition.reps ensures x.id in NewIds(addition, plan) <==> Enters(prior, addition, x) {
      EntersByPlan(prior, addition, x);
    }
    KeptAreStored(prior, addition);
  }

  lemma KeptAreStored(prior: Batch, addition: Batch)
    requires OutputsOk(prior.reps) && OutputsOk(addition.reps)
    ensures forall x :: Kept(prior, addition, x) ==> x in prior.reps
    ensures forall x :: Enters(prior, addition, x) ==> x in addition.reps
  {
    hide OutputsOk, Table, ChangedSlots, Stays;
  }

  /** Something is always left: an incoming output enters or is there already. */
  lemma SomethingLeft(prior: Batch, addition: Batch, plan: Plan, survivors: set<Slot>, spaces: seq<Space>)
    requires OutputsOk(prior.reps) && OutputsOk(addition.reps) && Valid(prior) && Valid(addition)
    requires (forall r :: r in addition.reps ==> Owns(r)) && Table(addition.reps).Keys <= survivors
    requires Greatest(Choices(prior, addition), survivors)
    requires plan == Plan(ChangedSlots(prior, addition),
                          StaleConsumers(prior, addition) + (Choices(prior, addition).Keys - survivors))
    ensures Assemble(prior, addition, plan, spaces).reps != []
  {
    hide OutputOf, OutputsOk, Table, ChangedSlots, Greatest, Owned, Populated, Resolved, KeptIds, OwnerIds,
         StaleConsumers,
         Choices, Unique, Kept;
    var y := FirstOf(addition);
    var s := OutOf(y).slot;
    assert s in Table(addition.reps) && Table(addition.reps)[s] == Owner(y, OutOf(y));
    SelectMembers(prior, KeptIds(prior, plan));
    SelectMembers(addition, NewIds(addition, plan));
    EntersByPlan(prior, addition, y);
    if s !in ChangedSlots(prior, addition) {
      UnchangedOwner(prior, addition, s);
      KeptByPlan(prior, addition, plan, survivors, y);
      GreatestMeans(prior, addition, survivors, s);
      StaysKept(prior, addition, y);
    }
  }

  lemma StaysKept(prior: Batch, addition: Batch, y: Rep)
    requires OutputsOk(prior.reps) && OutputsOk(addition.reps) && y in prior.reps
    requires Owns(y) ==> OutOf(y).slot !in ChangedSlots(prior, addition) && Stays(prior, addition, OutOf(y).slot)
    ensures Kept(prior, addition, y)
  {
  }

  lemma FirstOf(b: Batch) returns (y: Rep)
    requires Valid(b)
    ensures y in b.reps
  {
    y := b.reps[0];
  }

  lemma MergedIsJoined(prior: Batch, addition: Batch, plan: Plan, spaces: seq<Space>)
    requires OutputsOk(prior.reps) && OutputsOk(addition.reps) && Valid(prior) && Valid(addition)
    requires addition.resource == prior.resource && MergeSpaces(prior.spaces, addition.spaces) == Ok(spaces)
    ensures Joined(prior, KeptIds(prior, plan), addition, NewIds(addition, plan),
            Assemble(prior, addition, plan, spaces))
  {
    hide OutputsOk, Table, Owned, Resolved, Populated, Select, MergeSpaces, Unique;
    SpacesUnique(prior.spaces, addition.spaces);
    SpacesMerged(prior.spaces, addition.spaces);
  }

  /** A merge succeeds exactly when its source is current, the addition is well made, no dependency cycle
      arises, every incoming slot finds its dependencies, no space is redefined and no identity is taken. */
  lemma MergeAccepts(current: Snapshot, addition: Batch)
    ensures Merge(current, addition).Ok? <==> Acceptable(current, addition)
  {
    hide OutputOf, OutputsOk, Table, ChangedSlots, Greatest, Valid, KeptIds, OwnerIds, StaleConsumers, Choices,
         Unique, Kept, Enters,
         Source, PlanFor, Assemble, Cyclic, Pending, Just, NoClash, SourceRevision, AllBound, Stays, Report, Joined,
             Apart;
    SourceDecides(current);
    if Current(current) && Valid(addition) && OutputsOk(addition.reps)
        && addition.resource == current.batch.value.resource {
      var prior := current.batch.value;
      var source := SourceRevision(prior.resource).value;
      var survivors := PlanDecides(prior, addition, source);
      OwnAndBelong(prior, addition, source);
      forall s ensures s in survivors <==> Stays(prior, addition, s) {
        GreatestMeans(prior, addition, survivors, s);
      }
      if PlanFor(prior, addition, source).Ok? && MergeSpaces(prior.spaces, addition.spaces).Ok? {
        var plan, spaces := PlanFor(prior, addition, source).value, MergeSpaces(prior.spaces, addition.spaces).value;
        MergedIsJoined(prior, addition, plan, spaces);
        SomethingLeft(prior, addition, plan, survivors, spaces);
        JoinedValid(prior, KeptIds(prior, plan), addition, NewIds(addition, plan),
            Assemble(prior, addition, plan, spaces));
        ApartMeans(prior, addition, plan, survivors);
      }
    }
  }

  lemma OwnAndBelong(prior: Batch, addition: Batch, source: string)
    requires SourceRevision(prior.resource) == Ok(source)
    ensures AllOwn(addition) && FromSource(addition, source) <==>
            forall r :: r in addition.reps ==> Owns(r) && Ok(OutOf(r).sourceRevision) == SourceRevision(prior.resource)
    ensures AllOwn(addition) ==>
            (FromSource(addition, source) <==>
             !exists r :: r in addition.reps && Ok(OutOf(r).sourceRevision) != SourceRevision(prior.resource))
  {
    hide OutputOf, SourceRevision;
  }

  /** An output of another source revision, or one whose dependencies are gone. */
  ghost predicate ComesLate(prior: Batch, addition: Batch)
    requires OutputsOk(prior.reps) && OutputsOk(addition.reps) && forall r :: r in addition.reps ==> Owns(r)
  {
    || (exists r :: r in addition.reps && Ok(OutOf(r).sourceRevision) != SourceRevision(prior.resource))
    || (&& !Cyclic(Pending(Just(Table(prior.reps) + Table(addition.reps))))
        && exists s :: s in Table(addition.reps) && !Stays(prior, addition, s))
  }

  /** Of two complete graphs of one resource, a merge is refused as stale exactly when an incoming output belongs to
      another source revision, or finds its dependencies gone though there is no cycle; anything else is invalid. */
  lemma MergeErrors(current: Snapshot, addition: Batch)
    requires Current(current) && Valid(addition) && addition.resource == current.batch.value.resource
    requires addition.facets == [] && OutputsOk(addition.reps) && forall r :: r in addition.reps ==> Owns(r)
    ensures Merge(current, addition) == Err(Stale) <==> ComesLate(current.batch.value, addition)
    ensures Merge(current, addition).Err? ==> Merge(current, addition).error in {Stale, Invalid}
  {
    hide OutputOf, OutputsOk, Table, ChangedSlots, Greatest, Valid, StaleConsumers, Choices, Source, PlanFor,
         Assemble, Cyclic, Pending, Just,
         SourceRevision, AllBound, Stays, Report, FromSource;
    SourceDecides(current);
    var prior := current.batch.value;
    var survivors := PlanDecides(prior, addition, SourceRevision(prior.resource).value);
    OwnAndBelong(prior, addition, SourceRevision(prior.resource).value);
    forall s ensures s in survivors <==> Stays(prior, addition, s) {
      GreatestMeans(prior, addition, survivors, s);
    }
  }
}
