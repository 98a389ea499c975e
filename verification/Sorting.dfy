/** Stable sorting, as `Array.prototype.sort` does it, and the order of strings. */
module Sorting {

  ghost predicate TotalPreorder<T(!new)>(le: (T, T) -> bool) {
    && (forall x, y :: le(x, y) || le(y, x))
    && (forall x, y, z :: le(x, y) && le(y, z) ==> le(x, z))
  }

  ghost predicate Sorted<T>(le: (T, T) -> bool, s: seq<T>) {
    forall i, j :: 0 <= i < j < |s| ==> le(s[i], s[j])
  }

  /** No two different elements of `s` are tied. */
  ghost predicate Strict<T>(le: (T, T) -> bool, s: seq<T>) {
    forall x, y :: x in s && y in s && le(x, y) && le(y, x) ==> x == y
  }

  function Insert<T>(le: (T, T) -> bool, x: T, s: seq<T>): (r: seq<T>)
    ensures multiset(r) == multiset([x]) + multiset(s)
  {
    if s == [] || le(x, s[0]) then [x] + s
    else
      assert s == [s[0]] + s[1..];
      [s[0]] + Insert(le, x, s[1..])
  }

  /** Inserting from the back keeps tied elements in their original order. */
  function Sort<T>(le: (T, T) -> bool, s: seq<T>): (r: seq<T>)
    ensures multiset(r) == multiset(s)
  {
    if s == [] then []
    else
      assert s == [s[0]] + s[1..];
      Insert(le, s[0], Sort(le, s[1..]))
  }

  lemma {:induction false} InsertSorted<T(!new)>(le: (T, T) -> bool, x: T, s: seq<T>)
    requires TotalPreorder(le) && Sorted(le, s)
    ensures Sorted(le, Insert(le, x, s))
  {
    if s != [] && !le(x, s[0]) {
      InsertSorted(le, x, s[1..]);
      var rest := Insert(le, x, s[1..]);
      assert s == [s[0]] + s[1..];
      forall i | 0 <= i < |rest| ensures le(s[0], rest[i]) {
        assert rest[i] in multiset(rest);
      }
    }
  }

  lemma {:induction false} SortSorted<T(!new)>(le: (T, T) -> bool, s: seq<T>)
    requires TotalPreorder(le)
    ensures Sorted(le, Sort(le, s))
  {
    if s != [] {
      SortSorted(le, s[1..]);
      InsertSorted(le, s[0], Sort(le, s[1..]));
    }
  }

  lemma HeadIsLeast<T>(le: (T, T) -> bool, s: seq<T>, x: T)
    requires Sorted(le, s) && s != [] && x in s
    ensures x == s[0] || le(s[0], x)
  {
  }

  /** Sorted arrangements of the same elements start with the same one. */
  lemma SameHead<T>(le: (T, T) -> bool, s: seq<T>, t: seq<T>)
    requires Sorted(le, s) && Sorted(le, t) && Strict(le, s)
    requires multiset(s) == multiset(t) && s != [] && t != []
    ensures s[0] == t[0]
  {
    assert s[0] in multiset(t) && t[0] in multiset(s);
    HeadIsLeast(le, s, t[0]);
    HeadIsLeast(le, t, s[0]);
  }

  lemma SortedTail<T>(le: (T, T) -> bool, s: seq<T>)
    requires Sorted(le, s) && s != []
    ensures Sorted(le, s[1..]) && (Strict(le, s) ==> Strict(le, s[1..]))
  {
  }

  lemma TailMultiset<T>(s: seq<T>)
    requires s != []
    ensures multiset(s[1..]) == multiset(s) - multiset{s[0]}
  {
    assert s == [s[0]] + s[1..];
  }

  lemma SameLength<T>(s: seq<T>, t: seq<T>)
    requires multiset(s) == multiset(t)
    ensures |s| == |t|
  {
    assert |multiset(s)| == |multiset(t)|;
  }

  lemma SameParts<T>(s: seq<T>, t: seq<T>)
    requires s != [] && t != [] && s[0] == t[0] && s[1..] == t[1..]
    ensures s == t
  {
    assert s == [s[0]] + s[1..] && t == [t[0]] + t[1..];
  }

  /** A sorted arrangement without ties is the only one. */
  lemma {:induction false} SortedUnique<T>(le: (T, T) -> bool, s: seq<T>, t: seq<T>)
    requires Sorted(le, s) && Sorted(le, t) && Strict(le, s)
    requires multiset(s) == multiset(t)
    ensures s == t
  {
    hide Sorted, Strict;
    SameLength(s, t);
    if s != [] {
      SameHead(le, s, t);
      SortedTail(le, s);
      SortedTail(le, t);
      TailMultiset(s);
      TailMultiset(t);
      SortedUnique(le, s[1..], t[1..]);
      SameParts(s, t);
    }
  }

  /** The result of sorting depends on the elements only, not on the order they came in. */
  lemma SortIgnoresInputOrder<T(!new)>(le: (T, T) -> bool, s: seq<T>, t: seq<T>)
    requires TotalPreorder(le) && Strict(le, s)
    requires multiset(s) == multiset(t)
    ensures Sort(le, s) == Sort(le, t)
  {
    SortSorted(le, s);
    SortSorted(le, t);
    forall x | x in Sort(le, s) ensures x in s {
      assert x in multiset(Sort(le, s));
    }
    SortedUnique(le, Sort(le, s), Sort(le, t));
  }

  /** Sorting leaves alone what is sorted. */
  lemma {:induction false} SortOfSorted<T>(le: (T, T) -> bool, s: seq<T>)
    requires Sorted(le, s)
    ensures Sort(le, s) == s
  {
    if s != [] {
      SortedTail(le, s);
      SortOfSorted(le, s[1..]);
      assert s == [s[0]] + s[1..];
    }
  }

  lemma {:induction false} InsertBeforeLast<T>(le: (T, T) -> bool, x: T, s: seq<T>, last: T)
    requires le(x, last)
    ensures Insert(le, x, s + [last]) == Insert(le, x, s) + [last]
  {
    if s == [] {
      assert [] + [last] == [last] && [x] + [last] == [x] + [] + [last];
    } else if le(x, s[0]) {
      assert [x] + (s + [last]) == [x] + s + [last];
    } else {
      InsertBeforeLast(le, x, s[1..], last);
      assert (s + [last])[1..] == s[1..] + [last];
    }
  }

  /** An element that nothing comes after stays last. */
  lemma {:induction false} SortLast<T>(le: (T, T) -> bool, s: seq<T>, last: T)
    requires forall x :: x in s ==> le(x, last)
    ensures Sort(le, s + [last]) == Sort(le, s) + [last]
  {
    if s == [] {
      assert [] + [last] == [last] && [last][1..] == [];
    } else {
      assert s == [s[0]] + s[1..];
      SortLast(le, s[1..], last);
      assert (s + [last])[1..] == s[1..] + [last];
      InsertBeforeLast(le, s[0], Sort(le, s[1..]), last);
    }
  }

  // ---------------------------------------------------------------- strings

  /** Lexicographic order on code points. */
  predicate StringLe(a: string, b: string) {
    a == [] || (b != [] && (a[0] < b[0] || (a[0] == b[0] && StringLe(a[1..], b[1..]))))
  }

  lemma {:induction false} StringLeTotal(a: string, b: string)
    ensures StringLe(a, b) || StringLe(b, a)
    ensures StringLe(a, b) && StringLe(b, a) ==> a == b
  {
    if a != [] && b != [] {
      StringLeTotal(a[1..], b[1..]);
      assert a == [a[0]] + a[1..] && b == [b[0]] + b[1..];
    }
  }

  lemma {:induction false} StringLeTransitive(a: string, b: string, c: string)
    requires StringLe(a, b) && StringLe(b, c)
    ensures StringLe(a, c)
  {
    if a != [] && b != [] && c != [] && a[0] == b[0] == c[0] {
      StringLeTransitive(a[1..], b[1..], c[1..]);
    }
  }

  lemma StringOrder()
    ensures TotalPreorder(StringLe)
    ensures forall a, b :: StringLe(a, b) && StringLe(b, a) ==> a == b
  {
    forall a, b
      ensures StringLe(a, b) || StringLe(b, a)
      ensures StringLe(a, b) && StringLe(b, a) ==> a == b
    {
      StringLeTotal(a, b);
    }
    forall a, b, c | StringLe(a, b) && StringLe(b, c) ensures StringLe(a, c) {
      StringLeTransitive(a, b, c);
    }
  }
}
