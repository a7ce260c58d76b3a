/** Order-preserving selection by key: every tuple comprehension of the graph code
    ("keep the units whose representation id is in this set") is one `Keep`. */
module Sequences {

  datatype Option<+T> = None | Some(value: T)

  /** The two exception families of the publication code, and a failing catalog. */
  datatype Error = Stale | Invalid | Catalog

  datatype Result<+T> = Ok(value: T) | Err(error: Error) {
    predicate IsFailure() { Err? }
    function PropagateFailure<U>(): Result<U> requires Err? { Err(error) }
    function Extract(): T requires Ok? { value }
  }

  function Keys<T(==), K>(s: seq<T>, key: T -> K): set<K> {
    set x | x in s :: key(x)
  }

  function Keep<T, K>(s: seq<T>, key: T -> K, ids: set<K>): seq<T> {
    if s == [] then []
    else if key(s[0]) in ids then [s[0]] + Keep(s[1..], key, ids)
    else Keep(s[1..], key, ids)
  }

  function Drop<T(==), K>(s: seq<T>, key: T -> K, ids: set<K>): seq<T> {
    Keep(s, key, Keys(s, key) - ids)
  }

  predicate Unique<T, K(==)>(s: seq<T>, key: T -> K) {
    forall i, j :: 0 <= i < j < |s| ==> key(s[i]) != key(s[j])
  }

  lemma {:induction false} KeepMember<T, K>(s: seq<T>, key: T -> K, ids: set<K>, x: T)
    ensures x in Keep(s, key, ids) <==> x in s && key(x) in ids
  {
    if s != [] {
      assert s == [s[0]] + s[1..];
      KeepMember(s[1..], key, ids, x);
    }
  }

  lemma KeepMembers<T(!new), K>(s: seq<T>, key: T -> K, ids: set<K>)
    ensures forall x :: x in Keep(s, key, ids) <==> x in s && key(x) in ids
  {
    forall x ensures x in Keep(s, key, ids) <==> x in s && key(x) in ids {
      KeepMember(s, key, ids, x);
    }
  }

  lemma {:induction false} KeepConcat<T, K>(a: seq<T>, b: seq<T>, key: T -> K, ids: set<K>)
    ensures Keep(a + b, key, ids) == Keep(a, key, ids) + Keep(b, key, ids)
  {
    if a == [] {
      assert a + b == b;
    } else {
      assert (a + b)[1..] == a[1..] + b;
      KeepConcat(a[1..], b, key, ids);
    }
  }

  /** Selection depends only on which of the keys present are wanted. */
  lemma {:induction false} KeepAgree<T, K>(s: seq<T>, key: T -> K, p: set<K>, q: set<K>)
    requires forall x :: x in s ==> (key(x) in p <==> key(x) in q)
    ensures Keep(s, key, p) == Keep(s, key, q)
  {
    if s != [] {
      KeepAgree(s[1..], key, p, q);
    }
  }

  lemma {:induction false} KeepAll<T, K>(s: seq<T>, key: T -> K, ids: set<K>)
    requires forall x :: x in s ==> key(x) in ids
    ensures Keep(s, key, ids) == s
  {
    if s != [] {
      KeepAll(s[1..], key, ids);
    }
  }

  lemma {:induction false} KeepNone<T, K>(s: seq<T>, key: T -> K, ids: set<K>)
    requires forall x :: x in s ==> key(x) !in ids
    ensures Keep(s, key, ids) == []
  {
    if s != [] {
      KeepNone(s[1..], key, ids);
    }
  }

  lemma {:induction false} KeepKeep<T, K>(s: seq<T>, key: T -> K, p: set<K>, q: set<K>)
    ensures Keep(Keep(s, key, p), key, q) == Keep(s, key, p * q)
  {
    if s != [] {
      KeepKeep(s[1..], key, p, q);
    }
  }

  /** Reading one half back out of two selections laid end to end. */
  lemma KeepJoined<T, K>(l: seq<T>, p: set<K>, r: seq<T>, q: set<K>, key: T -> K, x: set<K>)
    ensures x <= p && x !! q ==> Keep(Keep(l, key, p) + Keep(r, key, q), key, x) == Keep(l, key, x)
    ensures x <= q && x !! p ==> Keep(Keep(l, key, p) + Keep(r, key, q), key, x) == Keep(r, key, x)
  {
    KeepConcat(Keep(l, key, p), Keep(r, key, q), key, x);
    KeepKeep(l, key, p, x);
    KeepKeep(r, key, q, x);
    KeepNone(l, key, {});
    KeepNone(r, key, {});
    if x <= p && x !! q {
      assert p * x == x && q * x == {};
    }
    if x <= q && x !! p {
      assert q * x == x && p * x == {};
    }
  }

  lemma KeysKeep<T(!new), K>(s: seq<T>, key: T -> K, ids: set<K>)
    ensures Keys(Keep(s, key, ids), key) == Keys(s, key) * ids
  {
    KeepMembers(s, key, ids);
  }

  /** Selecting by one key keeps another one unique. */
  lemma {:induction false} KeepUniqueBy<T(!new), K, L>(s: seq<T>, key: T -> K, ids: set<K>, identity: T -> L)
    requires Unique(s, identity)
    ensures Unique(Keep(s, key, ids), identity)
  {
    if s != [] {
      KeepUniqueBy(s[1..], key, ids, identity);
      forall x | x in Keep(s[1..], key, ids) ensures identity(x) != identity(s[0]) {
        KeepMember(s[1..], key, ids, x);
        var i :| 1 <= i < |s| && s[i] == x;
      }
    }
  }

  /** Two halves with unique keys, sharing none, have unique keys together; and conversely. */
  lemma UniqueConcat<T, K>(a: seq<T>, b: seq<T>, key: T -> K)
    ensures Unique(a + b, key) <==>
            Unique(a, key) && Unique(b, key) && Keys(a, key) !! Keys(b, key)
  {
    if Unique(a + b, key) {
      forall i, j | 0 <= i < j < |a| ensures key(a[i]) != key(a[j]) {
        assert (a + b)[i] == a[i] && (a + b)[j] == a[j];
      }
      forall i, j | 0 <= i < j < |b| ensures key(b[i]) != key(b[j]) {
        assert (a + b)[|a| + i] == b[i] && (a + b)[|a| + j] == b[j];
      }
      forall x, y | x in a && y in b ensures key(x) != key(y) {
        var i :| 0 <= i < |a| && a[i] == x;
        var j :| 0 <= j < |b| && b[j] == y;
        assert (a + b)[i] == x && (a + b)[|a| + j] == y;
      }
    }
    if Unique(a, key) && Unique(b, key) && Keys(a, key) !! Keys(b, key) {
      forall i, j | 0 <= i < j < |a + b| ensures key((a + b)[i]) != key((a + b)[j]) {
        if i < |a| <= j {
          assert key(a[i]) in Keys(a, key) && key(b[j - |a|]) in Keys(b, key);
        }
      }
    }
  }

  lemma UniqueMember<T, K>(s: seq<T>, key: T -> K, x: T, y: T)
    requires Unique(s, key) && x in s && y in s && key(x) == key(y)
    ensures x == y
  {
    var i :| 0 <= i < |s| && s[i] == x;
    var j :| 0 <= j < |s| && s[j] == y;
    assert key(s[i]) == key(s[j]);
  }

  /** With unique keys a selection has one element per wanted key. */
  lemma {:induction false} KeepCount<T(!new), K>(s: seq<T>, key: T -> K, ids: set<K>)
    requires Unique(s, key) && ids <= Keys(s, key)
    ensures |Keep(s, key, ids)| == |ids|
  {
    if s == [] {
      assert ids == {};
    } else {
      var k := key(s[0]);
      var rest := ids - {k};
      assert rest <= Keys(s[1..], key) by {
        assert s == [s[0]] + s[1..];
      }
      KeepCount(s[1..], key, rest);
      forall x | x in s[1..] ensures key(x) in ids <==> key(x) in rest {
        assert key(x) != k;
      }
      KeepAgree(s[1..], key, ids, rest);
    }
  }
}
