/** Sums over sequences, and what does not change when a sequence is rearranged. */
module Sums {

  function SumBy<T>(f: T -> int, s: seq<T>): int {
    if s == [] then 0 else SumBy(f, s[..|s| - 1]) + f(s[|s| - 1])
  }

  lemma {:induction false} SumConcat<T>(f: T -> int, a: seq<T>, b: seq<T>)
    ensures SumBy(f, a + b) == SumBy(f, a) + SumBy(f, b)
  {
    if b == [] {
      assert a + b == a;
    } else {
      SumConcat(f, a, b[..|b| - 1]);
      assert (a + b)[..|a + b| - 1] == a + b[..|b| - 1];
    }
  }

  lemma SumOne<T>(f: T -> int, x: T)
    ensures SumBy(f, [x]) == f(x)
  {
    assert [x][..0] == [];
  }

  lemma SumHead<T>(f: T -> int, s: seq<T>)
    requires s != []
    ensures SumBy(f, s) == f(s[0]) + SumBy(f, s[1..])
  {
    SumOne(f, s[0]);
    SumConcat(f, [s[0]], s[1..]);
    assert [s[0]] + s[1..] == s;
  }

  lemma {:induction false} SumEqual<T>(f: T -> int, g: T -> int, s: seq<T>)
    requires forall x :: x in s ==> f(x) == g(x)
    ensures SumBy(f, s) == SumBy(g, s)
  {
    if s != [] {
      assert s == s[..|s| - 1] + [s[|s| - 1]];
      SumEqual(f, g, s[..|s| - 1]);
    }
  }

  /** Sums do not depend on the order of what is summed. */
  lemma {:induction false} SumRearranged<T>(f: T -> int, s: seq<T>, t: seq<T>)
    requires multiset(s) == multiset(t)
    ensures SumBy(f, s) == SumBy(f, t)
    decreases |s|
  {
    if s == [] {
      assert |multiset(t)| == 0;
    } else {
      var front, x := s[..|s| - 1], s[|s| - 1];
      assert s == front + [x];
      assert x in multiset(t);
      var k :| 0 <= k < |t| && t[k] == x;
      TakeOut(t, k);
      SumTakeOut(f, t, k);
      assert multiset(front) == multiset(s) - multiset{x};
      SumRearranged(f, front, t[..k] + t[k + 1..]);
    }
  }

  lemma TakeOut<T>(t: seq<T>, k: nat)
    requires k < |t|
    ensures multiset(t[..k] + t[k + 1..]) == multiset(t) - multiset{t[k]}
  {
    assert t == t[..k] + ([t[k]] + t[k + 1..]);
  }

  lemma SumTakeOut<T>(f: T -> int, t: seq<T>, k: nat)
    requires k < |t|
    ensures SumBy(f, t) == SumBy(f, t[..k] + t[k + 1..]) + f(t[k])
  {
    var a, x, b := t[..k], [t[k]], t[k + 1..];
    assert t == a + (x + b);
    SumConcat(f, a, b);
    SumConcat(f, a, x + b);
    SumConcat(f, x, b);
    SumOne(f, t[k]);
  }

  lemma {:induction false} SumUpdate<T>(f: T -> int, s: seq<T>, i: nat, x: T)
    requires i < |s|
    ensures SumBy(f, s[i := x]) == SumBy(f, s) - f(s[i]) + f(x)
  {
    if i == |s| - 1 {
      assert s[i := x][..i] == s[..i];
    } else {
      SumUpdate(f, s[..|s| - 1], i, x);
      assert s[i := x][..|s| - 1] == s[..|s| - 1][i := x];
    }
  }

  lemma {:induction false} SumNonNegative<T>(f: T -> int, s: seq<T>)
    requires forall x :: x in s ==> f(x) >= 0
    ensures SumBy(f, s) >= 0
    ensures SumBy(f, s) == 0 <==> forall x :: x in s ==> f(x) == 0
  {
    if s != [] {
      assert s == s[..|s| - 1] + [s[|s| - 1]];
      SumNonNegative(f, s[..|s| - 1]);
    }
  }

  predicate NoRepeats<T(==)>(s: seq<T>) {
    forall i, j :: 0 <= i < j < |s| ==> s[i] != s[j]
  }

  lemma {:induction false} RepeatsCount<T>(s: seq<T>)
    ensures NoRepeats(s) <==> forall x :: x in s ==> multiset(s)[x] == 1
  {
    if s != [] {
      var front, l := s[..|s| - 1], s[|s| - 1];
      assert s == front + [l];
      RepeatsCount(front);
      if NoRepeats(s) {
        forall x | x in s ensures multiset(s)[x] == 1 {
        }
      } else if l in front {
        assert multiset(s)[l] >= 2;
      } else {
        var x :| x in front && multiset(front)[x] != 1;
        assert multiset(s)[x] >= 2;
      }
    }
  }

  /** Whether no two elements share a key does not depend on their order. */
  lemma KeysRearranged<T, K>(key: T -> K, s: seq<T>, t: seq<T>)
    requires multiset(s) == multiset(t)
    requires forall i, j :: 0 <= i < j < |s| ==> key(s[i]) != key(s[j])
    ensures forall i, j :: 0 <= i < j < |t| ==> key(t[i]) != key(t[j])
  {
    RepeatsCount(s);
    forall x ensures x in t <==> x in s {
      assert x in t <==> x in multiset(t);
      assert x in s <==> x in multiset(s);
    }
    RepeatsCount(t);
    forall i, j | 0 <= i < j < |t| ensures key(t[i]) != key(t[j]) {
      assert t[i] in s && t[j] in s;
    }
  }
}
