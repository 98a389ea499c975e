/** Vocabulary shared by the models: optional values, outcomes of calls that may throw, and maps
    that remember insertion order (as a JavaScript `Map` does when it is iterated). */
module Collections {

  datatype Option<+T> = None | Some(value: T) {
    function GetOr(default: T): T {
      match this
      case Some(v) => v
      case None => default
    }
  }

  /** The outcome of a call that either returns or throws. */
  datatype Result<+T, +E> = Success(value: T) | Failure(error: E)

  // ---------------------------------------------------------------- insertion-ordered maps

  /** Entries of a map in insertion order. A key occurs at most once in every value that starts
      empty and is changed by `Put` and `Remove` alone. */
  type Entries<K, V> = seq<(K, V)>

  ghost function KeySet<K, V>(m: Entries<K, V>): set<K> {
    set e | e in m :: e.0
  }

  lemma KeySetCons<K, V>(e: (K, V), m: Entries<K, V>)
    ensures KeySet([e] + m) == {e.0} + KeySet(m)
    ensures KeySet<K, V>([]) == {}
  {
    assert forall x :: x in [e] + m <==> x == e || x in m;
  }

  predicate Distinct<K(==), V>(m: Entries<K, V>) {
    forall i, j :: 0 <= i < j < |m| ==> m[i].0 != m[j].0
  }

  function Get<K(==), V>(m: Entries<K, V>, k: K): (r: Option<V>)
    ensures r.None? <==> k !in KeySet(m)
    ensures r.Some? ==> (k, r.value) in m
  {
    if m == [] then None
    else if m[0].0 == k then Some(m[0].1)
    else
      assert m == [m[0]] + m[1..];
      Get(m[1..], k)
  }

  /** Overwrites in place, or appends: a `Map` keeps the position of a key that is set again. */
  function Put<K(==,!new), V(!new)>(m: Entries<K, V>, k: K, v: V): (r: Entries<K, V>)
    ensures KeySet(r) == KeySet(m) + {k}
    ensures k !in KeySet(m) ==> r == m + [(k, v)]
    ensures k in KeySet(m) ==> |r| == |m| && forall i :: 0 <= i < |m| ==> r[i].0 == m[i].0
  {
    if m == [] then
      KeySetCons((k, v), []);
      [(k, v)]
    else
      KeySetCons(m[0], m[1..]);
      assert m == [m[0]] + m[1..];
      if m[0].0 == k then
        KeySetCons((k, v), m[1..]);
        [(k, v)] + m[1..]
      else
        var rest := Put(m[1..], k, v);
        KeySetCons(m[0], rest);
        [m[0]] + rest
  }

  /** What setting a key does to the first entry. */
  lemma PutHead<K(!new), V(!new)>(m: Entries<K, V>, k: K, v: V)
    requires m != []
    ensures Put(m, k, v) == if m[0].0 == k then [(k, v)] + m[1..] else [m[0]] + Put(m[1..], k, v)
    ensures Put(m, k, v)[1..] == if m[0].0 == k then m[1..] else Put(m[1..], k, v)
    ensures Put(m, k, v)[0] == if m[0].0 == k then (k, v) else m[0]
  {
  }

  /** Setting a key leaves the other entries alone. */
  lemma {:induction false} PutOthers<K(!new), V(!new)>(m: Entries<K, V>, k: K, v: V)
    ensures |m| <= |Put(m, k, v)|
    ensures forall i :: 0 <= i < |m| && m[i].0 != k ==> Put(m, k, v)[i] == m[i]
  {
    if m != [] {
      PutHead(m, k, v);
      PutOthers(m[1..], k, v);
    }
  }

  function Values<K, V>(m: Entries<K, V>): (r: seq<V>)
    ensures |r| == |m|
  {
    seq(|m|, i requires 0 <= i < |m| => m[i].1)
  }

  lemma {:induction false} GetPut<K(!new), V(!new)>(m: Entries<K, V>, k: K, v: V, q: K)
    ensures Get(Put(m, k, v), q) == if q == k then Some(v) else Get(m, q)
  {
    if m != [] && m[0].0 != k {
      GetPut(m[1..], k, v, q);
    }
  }

  lemma {:induction false} GetAt<K, V>(m: Entries<K, V>, i: nat)
    requires Distinct(m) && i < |m|
    ensures Get(m, m[i].0) == Some(m[i].1)
  {
    if i > 0 {
      GetAt(m[1..], i - 1);
    }
  }

  lemma PutDistinct<K(!new), V(!new)>(m: Entries<K, V>, k: K, v: V)
    requires Distinct(m)
    ensures Distinct(Put(m, k, v))
  {
    if k !in KeySet(m) {
      forall i | 0 <= i < |m| ensures m[i].0 != k {
        assert m[i] in m;
      }
    }
  }

  /** Setting a key to the value it already has changes nothing. */
  lemma {:induction false} PutSame<K(!new), V(!new)>(m: Entries<K, V>, k: K, v: V)
    requires Get(m, k) == Some(v)
    ensures Put(m, k, v) == m
  {
    if m[0].0 == k {
      assert [(k, v)] + m[1..] == m;
    } else {
      PutSame(m[1..], k, v);
    }
  }

  /** Setting several keys, one after the other. */
  function PutAll<K(==,!new), V(!new)>(m: Entries<K, V>, es: Entries<K, V>): Entries<K, V> {
    if es == [] then m else Put(PutAll(m, es[..|es| - 1]), es[|es| - 1].0, es[|es| - 1].1)
  }

  lemma {:induction false} PutAllDistinct<K(!new), V(!new)>(m: Entries<K, V>, es: Entries<K, V>)
    requires Distinct(m)
    ensures Distinct(PutAll(m, es))
  {
    if es != [] {
      PutAllDistinct(m, es[..|es| - 1]);
      PutDistinct(PutAll(m, es[..|es| - 1]), es[|es| - 1].0, es[|es| - 1].1);
    }
  }

  /** Keys that are all new are appended in order. */
  lemma {:induction false} PutAllNew<K(!new), V(!new)>(m: Entries<K, V>, es: Entries<K, V>)
    requires Distinct(m + es)
    ensures PutAll(m, es) == m + es
  {
    if es != [] {
      var front, e := es[..|es| - 1], es[|es| - 1];
      assert m + es == (m + front) + [e];
      forall i | 0 <= i < |m + front| ensures (m + front)[i] == (m + es)[i] && (m + front)[i].0 != e.0 {
        assert (m + es)[|m + front|] == e;
      }
      PutAllNew(m, front);
    }
  }

  /** Setting keys to the values they have changes nothing. */
  lemma {:induction false} PutAllSame<K(!new), V(!new)>(m: Entries<K, V>, es: Entries<K, V>)
    requires forall i :: 0 <= i < |es| ==> Get(m, es[i].0) == Some(es[i].1)
    ensures PutAll(m, es) == m
  {
    if es != [] {
      PutAllSame(m, es[..|es| - 1]);
      PutSame(m, es[|es| - 1].0, es[|es| - 1].1);
    }
  }
}
