/** `canonicalJsonStringify` (packages/audit/src/tamper-chain.ts): the text an audit hash is taken
    over. Two values have the same text exactly when they are the same value up to the order in
    which object keys were inserted, with four blind spots: a date prints as the string of its ISO
    form, the one-element array of `undefined` as the empty array, a number that is not finite as
    null, and zero without its sign. */
module CanonicalJson {
  import opened Collections
  import opened Digits
  import opened JsonNumbers
  import opened Sorting

  datatype Value =
    | Null
    | Undefined
    | Bool(b: bool)
    | Num(n: Number)
    | Str(s: string)
    | Date(iso: string)
    | Arr(items: seq<Value>)
    | Obj(fields: Entries<string, Value>)

  // ---------------------------------------------------------------- printing

  function HexDigit(d: nat): char
    requires d < 16
  {
    if d < 10 then '0' + d as char else 'a' + (d - 10) as char
  }

  /** How `JSON.stringify` writes one character of a string. */
  function EscapeChar(c: char): string {
    if c == '\"' then "\\\""
    else if c == '\\' then "\\\\"
    else if c == 8 as char then "\\b"
    else if c == 12 as char then "\\f"
    else if c == '\n' then "\\n"
    else if c == '\r' then "\\r"
    else if c == '\t' then "\\t"
    else if c < ' ' then "\\u00" + [HexDigit(c as int / 16), HexDigit(c as int % 16)]
    else [c]
  }

  function Escape(s: string): string {
    if s == [] then [] else EscapeChar(s[0]) + Escape(s[1..])
  }

  function Quote(s: string): string {
    "\"" + Escape(s) + "\""
  }

  function SortedKeys(fields: Entries<string, Value>): seq<string> {
    Sort(StringLe, seq(|fields|, i requires 0 <= i < |fields| => fields[i].0))
  }

  /** The keys of an object, each of which has a field. */
  lemma SortedKeysAreKeys(fields: Entries<string, Value>, k: string)
    ensures k in SortedKeys(fields) <==> k in KeySet(fields)
  {
    var ks := seq(|fields|, i requires 0 <= i < |fields| => fields[i].0);
    assert k in SortedKeys(fields) <==> k in multiset(SortedKeys(fields));
    assert k in multiset(ks) <==> k in ks;
    if k in KeySet(fields) {
      var e :| e in fields && e.0 == k;
      var i :| 0 <= i < |fields| && fields[i] == e;
      assert ks[i] == k;
    }
    if k in ks {
      var i :| 0 <= i < |ks| && ks[i] == k;
      assert fields[i] in fields;
    }
  }

  function Field(v: Value, k: string): (r: Value)
    requires v.Obj? && k in KeySet(v.fields)
    ensures r < v
    ensures Get(v.fields, k) == Some(r)
  {
    var r := Get(v.fields, k).value;
    assert (k, r) in v.fields;
    r
  }

  /** The text of a value; where the source yields `undefined` this is how a template renders it. */
  function Canonical(v: Value): string
    decreases v, 1, 0
  {
    match v
    case Null => "null"
    case Undefined => "undefined"
    case Bool(b) => if b then "true" else "false"
    case Num(n) => PrintNumber(n)
    case Str(s) => Quote(s)
    case Date(iso) => Quote(iso)
    case Arr(items) => "[" + Items(v, items) + "]"
    case Obj(fields) =>
      assert forall k :: k in SortedKeys(fields) ==> k in KeySet(fields) by {
        forall k | k in SortedKeys(fields) ensures k in KeySet(fields) { SortedKeysAreKeys(fields, k); }
      }
      "{" + Members(v, SortedKeys(fields)) + "}"
  }

  /** `join` writes an undefined element as nothing at all. */
  function Item(v: Value): string
    decreases v, 2, 0
  {
    if v.Undefined? then "" else Canonical(v)
  }

  ghost predicate Within(v: Value, items: seq<Value>) {
    forall i :: 0 <= i < |items| ==> items[i] < v
  }

  function Items(v: Value, items: seq<Value>): string
    requires Within(v, items)
    decreases v, 0, |items|
  {
    if items == [] then ""
    else if |items| == 1 then Item(items[0])
    else Item(items[0]) + "," + Items(v, items[1..])
  }

  function Member(v: Value, k: string): string
    requires v.Obj? && k in KeySet(v.fields)
    decreases v, 0, 0
  {
    Quote(k) + ":" + Canonical(Field(v, k))
  }

  function Members(v: Value, keys: seq<string>): string
    requires v.Obj? && forall k :: k in keys ==> k in KeySet(v.fields)
    decreases v, 0, |keys| + 1
  {
    if keys == [] then ""
    else if |keys| == 1 then Member(v, keys[0])
    else Member(v, keys[0]) + "," + Members(v, keys[1..])
  }

  // ---------------------------------------------------------------- sameness

  /** Values a JSON text can tell apart: no dates, no lone undefined in an array, finite numbers without
      a negative zero, and every object has distinct keys, as JavaScript objects do. */
  predicate Plain(v: Value) {
    match v
    case Num(n) => Legible(n)
    case Date(_) => false
    case Arr(items) => items != [Undefined] && forall i :: 0 <= i < |items| ==> Plain(items[i])
    case Obj(fields) => Distinct(fields) && forall i :: 0 <= i < |fields| ==> Plain(fields[i].1)
    case _ => true
  }

  /** Equality up to the order in which the keys of each object were inserted. */
  ghost predicate Same(v: Value, w: Value)
    decreases v
  {
    match v
    case Arr(items) =>
      w.Arr? && |items| == |w.items| && forall i :: 0 <= i < |items| ==> Same(items[i], w.items[i])
    case Obj(fields) =>
      && w.Obj?
      && KeySet(fields) == KeySet(w.fields)
      && forall k :: k in KeySet(fields) ==> Same(Field(v, k), Field(w, k))
    case _ => v == w
  }

  // ---------------------------------------------------------------- no text reads two ways

  lemma CancelPrefix(p: string, r: string, s: string)
    requires p + r == p + s
    ensures r == s
  {
    assert r == (p + r)[|p|..] && s == (p + s)[|p|..];
  }

  lemma Concat3(p: string, q: string, r: string)
    ensures p + q + r == p + (q + r)
  {
  }

  lemma Concat4(p: string, q: string, r: string, s: string)
    ensures p + q + r + s == p + (q + (r + s))
  {
  }

  lemma Concat5(p: string, q: string, r: string, s: string, t: string)
    ensures p + q + r + s + t == p + (q + (r + s + t))
  {
  }

  lemma EscapeCharPrefixFree(c: char, d: char, r: string, s: string)
    requires EscapeChar(c) + r == EscapeChar(d) + s
    ensures c == d && r == s
  {
    var a, b := EscapeChar(c), EscapeChar(d);
    var x := a + r;
    assert x[0] == a[0] && x[0] == (b + s)[0] == b[0];
    assert |a| > 1 && |b| > 1 ==> x[1] == a[1] && x[1] == (b + s)[1] == b[1];
    assert |a| > 5 && |b| > 5 ==>
        x[4] == a[4] && x[5] == a[5] && x[4] == (b + s)[4] == b[4] && x[5] == (b + s)[5] == b[5];
    assert c as int == c as int / 16 * 16 + c as int % 16;
    assert d as int == d as int / 16 * 16 + d as int % 16;
    CancelPrefix(a, r, s);
  }

  lemma EscapeHead(a: string, r: string)
    ensures (Escape(a) + "\"" + r)[0] == '\"' <==> a == []
  {
    if a != [] {
      Concat4(EscapeChar(a[0]), Escape(a[1..]), "\"", r);
    }
  }

  /** A string literal ends at its first unescaped quote. */
  lemma {:induction false} EscapeUnambiguous(a: string, b: string, r: string, s: string)
    requires Escape(a) + "\"" + r == Escape(b) + "\"" + s
    ensures a == b && r == s
  {
    EscapeHead(a, r);
    EscapeHead(b, s);
    if a == [] {
      assert Escape(a) + "\"" + r == "\"" + r && Escape(b) + "\"" + s == "\"" + s;
      CancelPrefix("\"", r, s);
    } else {
      Concat4(EscapeChar(a[0]), Escape(a[1..]), "\"", r);
      Concat4(EscapeChar(b[0]), Escape(b[1..]), "\"", s);
      Concat3(Escape(a[1..]), "\"", r);
      Concat3(Escape(b[1..]), "\"", s);
      EscapeCharPrefixFree(a[0], b[0], Escape(a[1..]) + "\"" + r, Escape(b[1..]) + "\"" + s);
      EscapeUnambiguous(a[1..], b[1..], r, s);
      assert a == [a[0]] + a[1..] && b == [b[0]] + b[1..];
    }
  }

  lemma QuoteUnambiguous(a: string, b: string, r: string, s: string)
    requires Quote(a) + r == Quote(b) + s
    ensures a == b && r == s
  {
    var u, w := Escape(a) + "\"" + r, Escape(b) + "\"" + s;
    assert "\"" + u == Quote(a) + r && "\"" + w == Quote(b) + s;
    CancelPrefix("\"", u, w);
    EscapeUnambiguous(a, b, r, s);
  }

  /** What may follow a value inside a larger text. */
  predicate Stop(r: string) {
    r == [] || r[0] == ',' || r[0] == ']' || r[0] == '}'
  }

  predicate LeadOf(v: Value, c: char) {
    match v
    case Null => c == 'n'
    case Undefined => c == 'u'
    case Bool(b) => c == if b then 't' else 'f'
    case Num(n) => if Legible(n) then IsDigit(c) || c == '-' else c == 'n' || c == '0'
    case Str(_) => c == '\"'
    case Date(_) => c == '\"'
    case Arr(_) => c == '['
    case Obj(_) => c == '{'
  }

  lemma Leads(v: Value)
    ensures Canonical(v) != [] && LeadOf(v, Canonical(v)[0])
  {
    if v.Num? && Legible(v.n) {
      Printed(v.n, "");
    }
  }

  /** Which kind of value a text starts with shows in its first character. */
  lemma SameLead(v: Value, w: Value, r: string, s: string)
    requires Canonical(v) + r == Canonical(w) + s
    ensures exists c :: LeadOf(v, c) && LeadOf(w, c)
  {
    Leads(v);
    Leads(w);
    assert (Canonical(v) + r)[0] == Canonical(v)[0];
    assert (Canonical(w) + s)[0] == Canonical(w)[0];
  }

  lemma {:induction false} Unambiguous(v: Value, w: Value, r: string, s: string)
    requires Plain(v) && Plain(w) && Stop(r) && Stop(s)
    requires Canonical(v) + r == Canonical(w) + s
    ensures Same(v, w) && r == s
    decreases v, 1, 1
  {
    SameLead(v, w, r, s);
    match v
    case Num(m) => PrintNumberInjective(m, w.n, r, s);
    case Str(a) => QuoteUnambiguous(a, w.s, r, s);
    case Arr(_) => ArrayUnambiguous(v, w, r, s);
    case Obj(_) => ObjectUnambiguous(v, w, r, s);
    case _ => CancelPrefix(Canonical(v), r, s);
  }

  lemma ItemHead(v: Value, r: string)
    requires r != [] && Stop(r)
    ensures Item(v) + r != [] && (Stop(Item(v) + r) <==> v.Undefined?)
  {
    Leads(v);
    assert v.Undefined? ==> Item(v) + r == r;
    assert !v.Undefined? ==> (Item(v) + r)[0] == Canonical(v)[0];
  }

  lemma {:induction false} ItemUnambiguous(v: Value, w: Value, r: string, s: string)
    requires Plain(v) && Plain(w) && Stop(r) && Stop(s) && r != [] && s != []
    requires Item(v) + r == Item(w) + s
    ensures Same(v, w) && r == s
    decreases v, 2, 0
  {
    ItemHead(v, r);
    ItemHead(w, s);
    if v.Undefined? {
      CancelPrefix("", r, s);
    } else {
      Unambiguous(v, w, r, s);
    }
  }

  /** What follows the first element in the text of an array, with what follows the array. */
  function AfterItem(v: Value, xs: seq<Value>, r: string): (t: string)
    requires xs != [] && Within(v, xs)
    ensures t != [] && Stop(t)
  {
    if |xs| == 1 then "]" + r else "," + (Items(v, xs[1..]) + "]" + r)
  }

  lemma ItemsText(v: Value, xs: seq<Value>, r: string)
    requires xs != [] && Within(v, xs)
    ensures Items(v, xs) + "]" + r == Item(xs[0]) + AfterItem(v, xs, r)
  {
    hide Item;
    if |xs| == 1 {
      Concat3(Item(xs[0]), "]", r);
    } else {
      var rest := Items(v, xs[1..]);
      assert Items(v, xs) == Item(xs[0]) + "," + rest;
      hide Items;
      Concat5(Item(xs[0]), ",", rest, "]", r);
    }
  }

  lemma AfterFirstItem(v: Value, xs: seq<Value>, r: string)
    requires xs != [] && Within(v, xs)
    ensures AfterItem(v, xs, r)[0] == if |xs| == 1 then ']' else ','
    ensures AfterItem(v, xs, r) == if |xs| == 1 then "]" + r else "," + (Items(v, xs[1..]) + "]" + r)
  {
  }

  lemma SameAfterItem(v: Value, xs: seq<Value>, w: Value, ys: seq<Value>, r: string, s: string)
    requires xs != [] && ys != [] && Within(v, xs) && Within(w, ys)
    requires AfterItem(v, xs, r) == AfterItem(w, ys, s)
    ensures |xs| == 1 <==> |ys| == 1
    ensures |xs| == 1 ==> r == s
    ensures |xs| > 1 ==> Items(v, xs[1..]) + "]" + r == Items(w, ys[1..]) + "]" + s
  {
    hide AfterItem, Items;
    AfterFirstItem(v, xs, r);
    AfterFirstItem(w, ys, s);
    if |xs| == 1 {
      CancelPrefix("]", r, s);
    } else {
      CancelPrefix(",", Items(v, xs[1..]) + "]" + r, Items(w, ys[1..]) + "]" + s);
    }
  }

  lemma {:induction false} ItemsUnambiguous(v: Value, xs: seq<Value>, w: Value, ys: seq<Value>, r: string, s: string)
    requires xs != [] && ys != [] && Within(v, xs) && Within(w, ys)
    requires forall i :: 0 <= i < |xs| ==> Plain(xs[i])
    requires forall i :: 0 <= i < |ys| ==> Plain(ys[i])
    requires Stop(r) && Stop(s)
    requires Items(v, xs) + "]" + r == Items(w, ys) + "]" + s
    ensures |xs| == |ys| && r == s
    ensures forall i :: 0 <= i < |xs| ==> Same(xs[i], ys[i])
    decreases v, 0, |xs|
  {
    hide AfterItem, Item, Items, Plain, Same;
    ItemsText(v, xs, r);
    ItemsText(w, ys, s);
    ItemUnambiguous(xs[0], ys[0], AfterItem(v, xs, r), AfterItem(w, ys, s));
    SameAfterItem(v, xs, w, ys, r, s);
    if |xs| > 1 {
      ItemsUnambiguous(v, xs[1..], w, ys[1..], r, s);
      forall i | 0 <= i < |xs| ensures Same(xs[i], ys[i]) {
        if i > 0 {
          assert xs[i] == xs[1..][i - 1] && ys[i] == ys[1..][i - 1];
        }
      }
    }
  }

  lemma ArrayText(v: Value, r: string)
    requires v.Arr?
    ensures Canonical(v) + r == "[" + (Items(v, v.items) + "]" + r)
  {
    var xs := v.items;
    assert Canonical(v) == "[" + Items(v, xs) + "]";
    hide Canonical, Items;
    assert "[" + Items(v, xs) + "]" + r == "[" + (Items(v, xs) + "]" + r);
  }

  lemma ArrayHead(v: Value, r: string)
    requires v.Arr? && v.items != [Undefined]
    ensures (Items(v, v.items) + "]" + r)[0] == ']' <==> v.items == []
  {
    var xs := v.items;
    if xs != [] {
      var t := AfterItem(v, xs, r);
      ItemsText(v, xs, r);
      Leads(xs[0]);
      assert xs[0].Undefined? ==> (Item(xs[0]) + t)[0] == t[0];
      assert !xs[0].Undefined? ==> (Item(xs[0]) + t)[0] == Canonical(xs[0])[0];
    }
  }

  lemma {:induction false} ArrayUnambiguous(v: Value, w: Value, r: string, s: string)
    requires v.Arr? && w.Arr? && Plain(v) && Plain(w) && Stop(r) && Stop(s)
    requires Canonical(v) + r == Canonical(w) + s
    ensures Same(v, w) && r == s
    decreases v, 1, 0
  {
    var x, y := Items(v, v.items) + "]" + r, Items(w, w.items) + "]" + s;
    ArrayText(v, r);
    ArrayText(w, s);
    CancelPrefix("[", x, y);
    ArrayHead(v, r);
    ArrayHead(w, s);
    if v.items == [] {
      assert x == "]" + r && y == "]" + s;
      CancelPrefix("]", r, s);
    } else {
      hide Items, Canonical;
      ItemsUnambiguous(v, v.items, w, w.items, r, s);
    }
  }

  lemma KeysHaveFields(v: Value)
    requires v.Obj?
    ensures forall k :: k in SortedKeys(v.fields) <==> k in KeySet(v.fields)
  {
    forall k ensures k in SortedKeys(v.fields) <==> k in KeySet(v.fields) { SortedKeysAreKeys(v.fields, k); }
  }

  lemma ObjectText(v: Value, r: string)
    requires v.Obj?
    ensures forall k :: k in SortedKeys(v.fields) <==> k in KeySet(v.fields)
    ensures Canonical(v) + r == "{" + (Members(v, SortedKeys(v.fields)) + "}" + r)
  {
    KeysHaveFields(v);
  }

  lemma {:induction false} ObjectUnambiguous(v: Value, w: Value, r: string, s: string)
    requires v.Obj? && w.Obj? && Plain(v) && Plain(w) && Stop(r) && Stop(s)
    requires Canonical(v) + r == Canonical(w) + s
    ensures Same(v, w) && r == s
    decreases v, 1, 0
  {
    ObjectText(v, r);
    ObjectText(w, s);
    var ks, ls := SortedKeys(v.fields), SortedKeys(w.fields);
    CancelPrefix("{", Members(v, ks) + "}" + r, Members(w, ls) + "}" + s);
    MembersUnambiguous(v, ks, w, ls, r, s);
  }

  /** What follows the first member in the text of an object, with what follows the object. */
  function AfterMember(v: Value, ks: seq<string>, r: string): (t: string)
    requires v.Obj? && ks != [] && forall k :: k in ks ==> k in KeySet(v.fields)
    ensures t != [] && Stop(t)
  {
    if |ks| == 1 then "}" + r else "," + (Members(v, ks[1..]) + "}" + r)
  }

  lemma MembersText(v: Value, ks: seq<string>, r: string)
    requires v.Obj? && ks != [] && forall k :: k in ks ==> k in KeySet(v.fields)
    ensures Members(v, ks) + "}" + r == Member(v, ks[0]) + AfterMember(v, ks, r)
  {
    hide Member;
    if |ks| == 1 {
      Concat3(Member(v, ks[0]), "}", r);
    } else {
      var rest := Members(v, ks[1..]);
      assert Members(v, ks) == Member(v, ks[0]) + "," + rest;
      hide Members;
      Concat5(Member(v, ks[0]), ",", rest, "}", r);
    }
  }

  lemma AfterFirstMember(v: Value, ks: seq<string>, r: string)
    requires v.Obj? && ks != [] && forall k :: k in ks ==> k in KeySet(v.fields)
    ensures AfterMember(v, ks, r)[0] == if |ks| == 1 then '}' else ','
    ensures AfterMember(v, ks, r) == if |ks| == 1 then "}" + r else "," + (Members(v, ks[1..]) + "}" + r)
  {
  }

  lemma SameAfterMember(v: Value, ks: seq<string>, w: Value, ls: seq<string>, r: string, s: string)
    requires v.Obj? && ks != [] && forall k :: k in ks ==> k in KeySet(v.fields)
    requires w.Obj? && ls != [] && forall k :: k in ls ==> k in KeySet(w.fields)
    requires AfterMember(v, ks, r) == AfterMember(w, ls, s)
    ensures |ks| == 1 <==> |ls| == 1
    ensures |ks| == 1 ==> r == s
    ensures |ks| > 1 ==> Members(v, ks[1..]) + "}" + r == Members(w, ls[1..]) + "}" + s
  {
    hide AfterMember, Members, KeySet;
    AfterFirstMember(v, ks, r);
    AfterFirstMember(w, ls, s);
    if |ks| == 1 {
      CancelPrefix("}", r, s);
    } else {
      CancelPrefix(",", Members(v, ks[1..]) + "}" + r, Members(w, ls[1..]) + "}" + s);
    }
  }

  lemma MembersHead(v: Value, ks: seq<string>, r: string)
    requires v.Obj? && forall k :: k in ks ==> k in KeySet(v.fields)
    ensures (Members(v, ks) + "}" + r)[0] == '}' <==> ks == []
  {
    if ks != [] {
      var t := AfterMember(v, ks, r);
      MembersText(v, ks, r);
      assert (Member(v, ks[0]) + t)[0] == '\"';
    }
  }

  lemma {:induction false} MemberUnambiguous(v: Value, k: string, w: Value, l: string, t: string, u: string)
    requires v.Obj? && w.Obj? && Plain(v) && Plain(w) && Stop(t) && Stop(u)
    requires k in KeySet(v.fields) && l in KeySet(w.fields)
    requires Member(v, k) + t == Member(w, l) + u
    ensures k == l && t == u && Same(Field(v, k), Field(w, l))
    decreases v, 0, 0
  {
    var a, b := Canonical(Field(v, k)), Canonical(Field(w, l));
    Concat4(Quote(k), ":", a, t);
    Concat4(Quote(l), ":", b, u);
    QuoteUnambiguous(k, l, ":" + (a + t), ":" + (b + u));
    CancelPrefix(":", a + t, b + u);
    FieldIsPlain(v, k);
    FieldIsPlain(w, l);
    Unambiguous(Field(v, k), Field(w, l), t, u);
  }

  lemma {:induction false} MembersUnambiguous(
    v: Value, ks: seq<string>, w: Value, ls: seq<string>, r: string, s: string)
    requires v.Obj? && w.Obj? && Plain(v) && Plain(w) && Stop(r) && Stop(s)
    requires forall k :: k in ks ==> k in KeySet(v.fields)
    requires forall k :: k in ls ==> k in KeySet(w.fields)
    requires Members(v, ks) + "}" + r == Members(w, ls) + "}" + s
    ensures ks == ls && r == s
    ensures forall k :: k in ks ==> Same(Field(v, k), Field(w, k))
    decreases v, 0, |ks| + 1
  {
    MembersHead(v, ks, r);
    MembersHead(w, ls, s);
    if ks == [] {
      assert Members(v, ks) + "}" + r == "}" + r && Members(w, ls) + "}" + s == "}" + s;
      CancelPrefix("}", r, s);
    } else {
      hide AfterMember, Member, Members, Plain, Same, KeySet, Field, Stop;
      var k, l := ks[0], ls[0];
      MembersText(v, ks, r);
      MembersText(w, ls, s);
      MemberUnambiguous(v, k, w, l, AfterMember(v, ks, r), AfterMember(w, ls, s));
      SameAfterMember(v, ks, w, ls, r, s);
      assert ks == [k] + ks[1..] && ls == [l] + ls[1..];
      if |ks| > 1 {
        MembersUnambiguous(v, ks[1..], w, ls[1..], r, s);
      }
    }
  }

  lemma FieldIsPlain(v: Value, k: string)
    requires v.Obj? && Plain(v) && k in KeySet(v.fields)
    ensures Plain(Field(v, k))
  {
    assert (k, Field(v, k)) in v.fields;
  }

  // ---------------------------------------------------------------- what the text commits to

  lemma DistinctKeysOnce(fields: Entries<string, Value>, k: string)
    requires Distinct(fields)
    ensures multiset(seq(|fields|, i requires 0 <= i < |fields| => fields[i].0))[k] ==
            if k in KeySet(fields) then 1 else 0
  {
    if fields != [] {
      var ks := seq(|fields|, i requires 0 <= i < |fields| => fields[i].0);
      var rest := fields[1..];
      DistinctKeysOnce(rest, k);
      assert ks == [fields[0].0] + seq(|rest|, i requires 0 <= i < |rest| => rest[i].0);
      assert fields == [fields[0]] + rest;
      assert forall e :: e in rest ==> e.0 != fields[0].0;
    }
  }

  /** Keys are printed in sorted order, however they were inserted. */
  lemma SameKeysSameOrder(a: Entries<string, Value>, b: Entries<string, Value>)
    requires Distinct(a) && Distinct(b) && KeySet(a) == KeySet(b)
    ensures SortedKeys(a) == SortedKeys(b)
  {
    var ks := seq(|a|, i requires 0 <= i < |a| => a[i].0);
    var ls := seq(|b|, i requires 0 <= i < |b| => b[i].0);
    forall k ensures multiset(ks)[k] == multiset(ls)[k] {
      DistinctKeysOnce(a, k);
      DistinctKeysOnce(b, k);
    }
    StringOrder();
    SortIgnoresInputOrder(StringLe, ks, ls);
  }

  lemma {:induction false} SameText(v: Value, w: Value)
    requires Plain(v) && Plain(w) && Same(v, w)
    ensures Canonical(v) == Canonical(w)
    decreases v, 1, 0
  {
    match v
    case Arr(items) => SameItemsText(v, items, w, w.items);
    case Obj(fields) =>
      SameKeysSameOrder(fields, w.fields);
      KeysHaveFields(v);
      KeysHaveFields(w);
      SameMembersText(v, w, SortedKeys(fields));
    case _ =>
  }

  lemma {:induction false} SameItemsText(v: Value, xs: seq<Value>, w: Value, ys: seq<Value>)
    requires Within(v, xs) && Within(w, ys) && |xs| == |ys|
    requires forall i :: 0 <= i < |xs| ==> Plain(xs[i]) && Plain(ys[i]) && Same(xs[i], ys[i])
    ensures Items(v, xs) == Items(w, ys)
    decreases v, 0, |xs|
  {
    if xs != [] {
      SameText(xs[0], ys[0]);
      SameItemsText(v, xs[1..], w, ys[1..]);
    }
  }

  lemma {:induction false} SameMembersText(v: Value, w: Value, ks: seq<string>)
    requires v.Obj? && w.Obj? && Plain(v) && Plain(w)
    requires forall k :: k in ks ==> k in KeySet(v.fields) && k in KeySet(w.fields) && Same(Field(v, k), Field(w, k))
    ensures Members(v, ks) == Members(w, ks)
    decreases v, 0, |ks|
  {
    if ks != [] {
      FieldIsPlain(v, ks[0]);
      FieldIsPlain(w, ks[0]);
      SameText(Field(v, ks[0]), Field(w, ks[0]));
      SameMembersText(v, w, ks[1..]);
    }
  }

  /** On plain values the text is an identity: equal texts are equal values up to key order, and
      key order never shows. */
  lemma CanonicalIsFaithful(v: Value, w: Value)
    requires Plain(v) && Plain(w)
    ensures Canonical(v) == Canonical(w) <==> Same(v, w)
  {
    if Canonical(v) == Canonical(w) {
      Unambiguous(v, w, "", "");
    }
    if Same(v, w) {
      SameText(v, w);
    }
  }

  // ---------------------------------------------------------------- the blind spots

  /** Every object in `v` has distinct keys, as every JavaScript object has. */
  predicate WellFormed(v: Value) {
    match v
    case Arr(items) => forall i :: 0 <= i < |items| ==> WellFormed(items[i])
    case Obj(fields) => Distinct(fields) && forall i :: 0 <= i < |fields| ==> WellFormed(fields[i].1)
    case _ => true
  }

  /** What is left of a value once a date is its ISO string, `[undefined]` is `[]`, a number that is not
      finite is null, and zero has no sign. */
  function Normal(v: Value): Value {
    match v
    case Date(iso) => Str(iso)
    case Num(n) => if n.NaN? || n.Infinity? then Null else if n.Zero? then Num(Zero(false)) else v
    case Arr(items) =>
      if items == [Undefined] then Arr([])
      else Arr(seq(|items|, i requires 0 <= i < |items| => Normal(items[i])))
    case Obj(fields) =>
      Obj(seq(|fields|, i requires 0 <= i < |fields| => (fields[i].0, Normal(fields[i].1))))
    case _ => v
  }

  lemma {:induction false} NormalIsPlain(v: Value)
    requires WellFormed(v)
    ensures Plain(Normal(v)) && (Normal(v).Undefined? <==> v.Undefined?)
  {
    match v
    case Arr(items) =>
      forall i | 0 <= i < |items| { NormalIsPlain(items[i]); }
      if items != [Undefined] && |items| == 1 {
        assert Normal(v).items[0] == Normal(items[0]);
      }
    case Obj(fields) =>
      forall i | 0 <= i < |fields| { NormalIsPlain(fields[i].1); }
    case _ =>
  }

  lemma NormalFields(v: Value)
    requires v.Obj? && Distinct(v.fields)
    ensures SortedKeys(Normal(v).fields) == SortedKeys(v.fields)
    ensures KeySet(Normal(v).fields) == KeySet(v.fields)
    ensures forall k :: k in KeySet(v.fields) ==> Field(Normal(v), k) == Normal(Field(v, k))
  {
    var fs, gs := v.fields, Normal(v).fields;
    assert seq(|fs|, i requires 0 <= i < |fs| => fs[i].0) == seq(|gs|, i requires 0 <= i < |gs| => gs[i].0);
    forall k ensures k in KeySet(gs) <==> k in KeySet(fs) {
      SortedKeysAreKeys(fs, k);
      SortedKeysAreKeys(gs, k);
    }
    forall k | k in KeySet(fs) ensures Field(Normal(v), k) == Normal(Field(v, k)) {
      assert (k, Field(v, k)) in fs;
      var i :| 0 <= i < |fs| && fs[i] == (k, Field(v, k));
      GetAt(gs, i);
    }
  }

  lemma {:induction false} NormalText(v: Value)
    requires WellFormed(v)
    ensures Canonical(Normal(v)) == Canonical(v)
    decreases v, 1, 0
  {
    match v
    case Arr(items) =>
      if items == [Undefined] {
        assert Items(v, items) == "";
      } else {
        NormalItemsText(v, items, Normal(v), Normal(v).items);
      }
    case Obj(fields) =>
      NormalFields(v);
      KeysHaveFields(v);
      KeysHaveFields(Normal(v));
      NormalMembersText(v, SortedKeys(fields));
    case _ =>
  }

  lemma {:induction false} NormalItemsText(v: Value, xs: seq<Value>, w: Value, ys: seq<Value>)
    requires Within(v, xs) && Within(w, ys) && |xs| == |ys|
    requires forall i :: 0 <= i < |xs| ==> WellFormed(xs[i]) && ys[i] == Normal(xs[i])
    ensures Items(v, xs) == Items(w, ys)
    decreases v, 0, |xs|
  {
    if xs != [] {
      NormalText(xs[0]);
      NormalIsPlain(xs[0]);
      NormalItemsText(v, xs[1..], w, ys[1..]);
    }
  }

  lemma {:induction false} NormalMembersText(v: Value, ks: seq<string>)
    requires v.Obj? && WellFormed(v)
    requires forall k :: k in ks ==> k in KeySet(v.fields) && k in KeySet(Normal(v).fields)
    requires forall k :: k in ks ==> Field(Normal(v), k) == Normal(Field(v, k))
    ensures Members(Normal(v), ks) == Members(v, ks)
    decreases v, 0, |ks|
  {
    if ks != [] {
      assert (ks[0], Field(v, ks[0])) in v.fields;
      NormalText(Field(v, ks[0]));
      NormalMembersText(v, ks[1..]);
    }
  }

  /** The exact reach of the text over all JavaScript data values of the model: equal texts mean
      equal values up to key order, once the blind spots are out of sight. */
  lemma CanonicalIdentifies(v: Value, w: Value)
    requires WellFormed(v) && WellFormed(w)
    ensures Canonical(v) == Canonical(w) <==> Same(Normal(v), Normal(w))
  {
    NormalText(v);
    NormalText(w);
    NormalIsPlain(v);
    NormalIsPlain(w);
    CanonicalIsFaithful(Normal(v), Normal(w));
  }

  lemma SameNormalField(v: Value, w: Value, k: string)
    requires v.Obj? && w.Obj? && Distinct(v.fields) && Distinct(w.fields)
    requires k in KeySet(v.fields) && k in KeySet(w.fields) && Same(Normal(v), Normal(w))
    ensures Same(Normal(Field(v, k)), Normal(Field(w, k)))
  {
    NormalFields(v);
    NormalFields(w);
  }

  lemma SameNormalObject(v: Value, w: Value)
    requires v.Obj? && w.Obj? && Distinct(v.fields) && Distinct(w.fields) && KeySet(v.fields) == KeySet(w.fields)
    requires forall k :: k in KeySet(v.fields) ==> Same(Normal(Field(v, k)), Normal(Field(w, k)))
    ensures Same(Normal(v), Normal(w))
  {
    NormalFields(v);
    NormalFields(w);
  }
}
