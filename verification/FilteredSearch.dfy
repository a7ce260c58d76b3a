/** Textual similarity search: filtering before the candidate limit, by fetching ever longer prefixes. */
module FilteredSearch {
  import opened Sequences

  datatype Candidate = Candidate(unitId: string, basis: Option<string>, aggregation: Option<string>, score: real,
      rank: nat)

  const AGGREGATIONS: set<string> := {"direct_text_v1", "token_weighted_centroid_v1"}

  predicate Textual(candidate: Candidate, bases: set<string>) {
    && candidate.basis.Some? && candidate.basis.value in bases
    && candidate.aggregation.Some? && candidate.aggregation.value in AGGREGATIONS
  }

  function Select(candidates: seq<Candidate>, bases: set<string>): seq<Candidate> {
    if candidates == [] then []
    else
      var front := Select(candidates[..|candidates| - 1], bases);
      var last := candidates[|candidates| - 1];
      if Textual(last, bases) then front + [last] else front
  }

  function Take<T>(s: seq<T>, n: nat): seq<T> { if n < |s| then s[..n] else s }

  /** Ranks 1..k in order. */
  function Ranked(s: seq<Candidate>): seq<Candidate> {
    seq(|s|, i requires 0 <= i < |s| => s[i].(rank := i + 1))
  }

  /** The specification: filter the whole ranking first, then limit, then number. */
  function FilterThenLimit(ranking: seq<Candidate>, bases: set<string>, limit: nat): seq<Candidate> {
    Ranked(Take(Select(ranking, bases), limit))
  }

  /** What the filter selects from a prefix is a prefix of what it selects from everything. */
  lemma {:induction false} SelectPrefix(ranking: seq<Candidate>, n: nat, bases: set<string>)
    requires n <= |ranking|
    ensures Select(ranking[..n], bases) <= Select(ranking, bases)
    decreases |ranking|
  {
    if n == |ranking| {
      assert ranking[..n] == ranking;
    } else {
      var shorter := ranking[..|ranking| - 1];
      assert shorter[..n] == ranking[..n];
      SelectPrefix(shorter, n, bases);
    }
  }

  /** A candidate whose basis is one of those asked for and whose vector came of text. */
  predicate Wanted(c: Candidate, bases: set<string>) {
    && (exists b :: b in bases && c.basis == Some(b))
    && (c.aggregation == Some("direct_text_v1") || c.aggregation == Some("token_weighted_centroid_v1"))
  }

  /** The filter keeps exactly the wanted candidates, each as often as it occurs and in order: it reads the
      ranking off at increasing positions, and no other position holds a wanted one. */
  lemma {:induction false} SelectKeeps(ranking: seq<Candidate>, bases: set<string>) returns (at: seq<nat>)
    ensures |at| == |Select(ranking, bases)| && (forall j, k :: 0 <= j < k < |at| ==> at[j] < at[k])
    ensures forall k :: 0 <= k < |at| ==> at[k] < |ranking| && Select(ranking, bases)[k] == ranking[at[k]]
    ensures forall i :: 0 <= i < |ranking| ==> (i in at <==> Wanted(ranking[i], bases))
    decreases |ranking|
  {
    at := [];
    if ranking != [] {
      var n := |ranking| - 1;
      at := SelectKeeps(ranking[..n], bases);
      assert forall i :: 0 <= i < n ==> ranking[..n][i] == ranking[i];
      assert forall i :: i in at ==> i < n;
      assert Wanted(ranking[n], bases) <==> Textual(ranking[n], bases);
      if Textual(ranking[n], bases) {
        at := at + [n];
      }
    }
  }

  function UnitIds(s: seq<Candidate>): seq<string> {
    seq(|s|, i requires 0 <= i < |s| => s[i].unitId)
  }

  /** `search_vector`: over a backend that returns prefixes of one ranking, doubling the prefix until
      enough candidates pass gives the same answer as filtering the whole ranking first. */
  method SearchVector(ranking: seq<Candidate>, bases: set<string>, limit: nat) returns (result: seq<Candidate>)
    ensures result == FilterThenLimit(ranking, bases, limit)
    ensures |result| == if |Select(ranking, bases)| < limit then |Select(ranking, bases)| else limit
    ensures forall k :: 0 <= k < |result| ==> result[k] == Select(ranking, bases)[k].(rank := k + 1)
  {
    var fetchLimit := limit;
    var previous: Option<seq<string>> := None;
    var selected: seq<Candidate> := [];
    while true
      invariant limit <= fetchLimit && (limit > 0 ==> fetchLimit > 0)
      invariant previous.Some? ==> |previous.value| < fetchLimit <= 2 * |ranking|
      decreases 2 * |ranking| + 1 - fetchLimit
    {
      var raw := Take(ranking, fetchLimit);
      selected := Select(raw, bases);
      assert raw == ranking[..|raw|];
      SelectPrefix(ranking, |raw|, bases);
      if |selected| >= limit || |raw| < fetchLimit || Some(UnitIds(raw)) == previous {
        break;
      }
      previous := Some(UnitIds(raw));
      fetchLimit := fetchLimit * 2;
    }
    assert Take(selected, limit) == Take(Select(ranking, bases), limit) by {
      var raw := Take(ranking, fetchLimit);
      if |selected| < limit {
        assert |raw| == |UnitIds(raw)|;
        assert raw == ranking;
      }
    }
    result := Ranked(Take(selected, limit));
  }
}
