/** Allocation of a reservation across credit lots (packages/credits/src/lot-allocator.ts).
    Amounts are raw decimal values, whose addition, subtraction and comparison are exact. */
module CreditLots {
  import opened Collections
  import opened Sorting
  import opened Sums

  datatype LotType = Promotional | Trial | Subscription | Purchased | Refund | Manual

  datatype Lot = Lot(
    id: string, lotType: LotType, remaining: int, reserved: int, grantedAt: int, expiresAt: Option<int>)

  datatype Allocation = Allocation(creditLotId: string, amount: int)

  datatype Allocated = Allocated(allocations: seq<Allocation>, updatedLots: seq<Lot>, totalAllocated: int)

  datatype AllocationError = NegativeAmount | InsufficientCredits(required: int, shortfall: int)

  /** How the environment collates ids. */
  type Collation = (string, string) -> bool

  function Priority(t: LotType): nat {
    match t
    case Promotional => 0
    case Trial => 1
    case Subscription => 2
    case Purchased => 3
    case Refund => 4
    case Manual => 5
  }

  function Available(l: Lot): int {
    l.remaining - l.reserved
  }

  predicate Unexpired(l: Lot, now: int) {
    l.expiresAt.None? || l.expiresAt.value > now
  }

  predicate Eligible(l: Lot, now: int) {
    Available(l) > 0 && Unexpired(l, now)
  }

  /** Soonest expiry first and unexpiring lots last, then type, then age, then id. */
  predicate ConsumedBefore(collate: Collation, a: Lot, b: Lot) {
    if a.expiresAt.Some? != b.expiresAt.Some? then a.expiresAt.Some?
    else if a.expiresAt != b.expiresAt then a.expiresAt.value < b.expiresAt.value
    else if a.lotType != b.lotType then Priority(a.lotType) < Priority(b.lotType)
    else if a.grantedAt != b.grantedAt then a.grantedAt < b.grantedAt
    else collate(a.id, b.id)
  }

  function EligibleLots(lots: seq<Lot>, now: int): (r: seq<Lot>)
    ensures forall l :: l in r <==> l in lots && Eligible(l, now)
  {
    if lots == [] then []
    else
      assert lots == [lots[0]] + lots[1..];
      (if Eligible(lots[0], now) then [lots[0]] else []) + EligibleLots(lots[1..], now)
  }

  function ConsumptionOrder(collate: Collation, lots: seq<Lot>, now: int): seq<Lot> {
    Sort((a, b) => ConsumedBefore(collate, a, b), EligibleLots(lots, now))
  }

  predicate DistinctIds(lots: seq<Lot>) {
    forall i, j :: 0 <= i < j < |lots| ==> lots[i].id != lots[j].id
  }

  /** Ids that the collation tells apart. */
  ghost predicate Collates(collate: Collation) {
    TotalPreorder(collate) && forall a, b :: collate(a, b) && collate(b, a) ==> a == b
  }

  lemma OrderIsTotal(collate: Collation)
    requires TotalPreorder(collate)
    ensures TotalPreorder((a, b) => ConsumedBefore(collate, a, b))
  {
  }

  /** The order holds exactly the eligible lots, each as often as it was given, and no lot precedes
      one that should be consumed earlier. */
  lemma OrderIsSorted(collate: Collation, lots: seq<Lot>, now: int)
    requires TotalPreorder(collate)
    ensures multiset(ConsumptionOrder(collate, lots, now)) == multiset(EligibleLots(lots, now))
    ensures forall l :: l in ConsumptionOrder(collate, lots, now) <==> l in lots && Eligible(l, now)
    ensures var o := ConsumptionOrder(collate, lots, now);
            forall i, j :: 0 <= i < j < |o| ==> ConsumedBefore(collate, o[i], o[j])
  {
    var le := (a, b) => ConsumedBefore(collate, a, b);
    OrderIsTotal(collate);
    SortSorted(le, EligibleLots(lots, now));
    var o := ConsumptionOrder(collate, lots, now);
    forall l ensures l in o <==> l in EligibleLots(lots, now) {
      assert l in o <==> l in multiset(o);
      assert l in EligibleLots(lots, now) <==> l in multiset(EligibleLots(lots, now));
    }
    forall i, j | 0 <= i < j < |o| ensures ConsumedBefore(collate, o[i], o[j]) {
      assert le(o[i], o[j]);
    }
  }

  // ---------------------------------------------------------------- the allocation, as code does it

  predicate HasId(lots: seq<Lot>, id: string) {
    exists i :: 0 <= i < |lots| && lots[i].id == id
  }

  function Find(lots: seq<Lot>, id: string): (i: nat)
    requires HasId(lots, id)
    ensures i < |lots| && lots[i].id == id
  {
    if lots[|lots| - 1].id == id then |lots| - 1 else Find(lots[..|lots| - 1], id)
  }

  /** A map from ids to lots, as the values it would list: a repeated id replaces the lot before. */
  function Store(m: seq<Lot>, l: Lot): seq<Lot> {
    if HasId(m, l.id) then m[Find(m, l.id) := l] else m + [l]
  }

  function ById(lots: seq<Lot>): (r: seq<Lot>)
    ensures forall i :: 0 <= i < |lots| ==> HasId(r, lots[i].id)
  {
    if lots == [] then []
    else
      var l := lots[|lots| - 1];
      var m := ById(lots[..|lots| - 1]);
      var r := Store(m, l);
      assert forall i :: 0 <= i < |m| ==> r[i].id == m[i].id;
      assert r[if HasId(m, l.id) then Find(m, l.id) else |m|] == l;
      r
  }

  function Reserve(m: seq<Lot>, i: nat, amount: int): (r: seq<Lot>)
    requires i < |m|
    ensures |r| == |m| && forall j :: 0 <= j < |m| ==> r[j].id == m[j].id
  {
    m[i := m[i].(reserved := m[i].reserved + amount)]
  }

  datatype Drained = Drained(lots: seq<Lot>, allocations: seq<Allocation>, left: int)

  predicate AllStored(m: seq<Lot>, order: seq<Lot>) {
    forall i :: 0 <= i < |order| ==> HasId(m, order[i].id)
  }

  function Taken(available: int, need: int): int {
    if available < need then available else need
  }

  function Drain(m: seq<Lot>, order: seq<Lot>, need: int): Drained
    requires AllStored(m, order)
    decreases order
  {
    if order == [] then Drained(m, [], need)
    else
      var at := Find(m, order[0].id);
      if Available(m[at]) <= 0 then Drain(m, order[1..], need)
      else
        var amount := Taken(Available(m[at]), need);
        var after := Reserve(m, at, amount);
        StillStored(m, after, order[1..]);
        var a := [Allocation(m[at].id, amount)];
        if need == amount then Drained(after, a, 0) else After(a, Drain(after, order[1..], need - amount))
  }

  function After(taken: seq<Allocation>, d: Drained): Drained {
    d.(allocations := taken + d.allocations)
  }

  lemma StillStored(m: seq<Lot>, n: seq<Lot>, order: seq<Lot>)
    requires |n| == |m| && forall j :: 0 <= j < |m| ==> n[j].id == m[j].id
    requires AllStored(m, order)
    ensures AllStored(n, order)
  {
    forall i | 0 <= i < |order| ensures HasId(n, order[i].id) {
      var j :| 0 <= j < |m| && m[j].id == order[i].id;
      assert n[j].id == order[i].id;
    }
  }

  lemma AfterTwice(a: seq<Allocation>, b: seq<Allocation>, d: Drained)
    ensures After(a, After(b, d)) == After(a + b, d)
  {
    assert a + (b + d.allocations) == (a + b) + d.allocations;
  }

  function DrainFirst(m: seq<Lot>, order: seq<Lot>, need: int, at: nat, amount: int): Drained
    requires order != [] && at < |m| && AllStored(Reserve(m, at, amount), order[1..])
  {
    var after := Reserve(m, at, amount);
    var a := [Allocation(m[at].id, amount)];
    if need == amount then Drained(after, a, 0) else After(a, Drain(after, order[1..], need - amount))
  }

  lemma DrainStep(m: seq<Lot>, order: seq<Lot>, need: int)
    requires AllStored(m, order) && order != []
    ensures HasId(m, order[0].id) && AllStored(m, order[1..])
    ensures var at := Find(m, order[0].id);
            Available(m[at]) <= 0 ==> Drain(m, order, need) == Drain(m, order[1..], need)
    ensures var at := Find(m, order[0].id);
            var amount := Taken(Available(m[at]), need);
            && AllStored(Reserve(m, at, amount), order[1..])
            && (Available(m[at]) > 0 ==> Drain(m, order, need) == DrainFirst(m, order, need, at, amount))
  {
    var at := Find(m, order[0].id);
    StillStored(m, Reserve(m, at, Taken(Available(m[at]), need)), order[1..]);
  }

  /** The loop over the ordered lots. */
  method DrainLots(m: seq<Lot>, order: seq<Lot>, need: int) returns (d: Drained)
    requires AllStored(m, order)
    ensures d == Drain(m, order, need)
  {
    hide Drain, AllStored, HasId, Find, Reserve;
    var lotMap, allocations, left := m, [], need;
    assert order[0..] == order;
    assert forall x :: After([], x) == x;
    for i := 0 to |order|
      invariant AllStored(lotMap, order[i..])
      invariant After(allocations, Drain(lotMap, order[i..], left)) == Drain(m, order, need)
    {
      assert order[i..][0] == order[i] && order[i..][1..] == order[i + 1..];
      DrainStep(lotMap, order[i..], left);
      var at := Find(lotMap, order[i].id);
      var available := Available(lotMap[at]);
      if available > 0 {
        var amount := if available < left then available else left;
        var taken := [Allocation(lotMap[at].id, amount)];
        ghost var rest := order[i + 1..];
        lotMap := Reserve(lotMap, at, amount);
        AfterTwice(allocations, taken, Drain(lotMap, rest, left - amount));
        left := left - amount;
        allocations := allocations + taken;
        if left == 0 {
          return Drained(lotMap, allocations, left);
        }
      }
    }
    EmptyDrain(lotMap, left);
    assert order[|order|..] == [];
    d := Drained(lotMap, allocations, left);
  }

  lemma EmptyDrain(m: seq<Lot>, need: int)
    ensures AllStored(m, []) && Drain(m, [], need) == Drained(m, [], need)
  {
  }

  lemma OrderStored(collate: Collation, lots: seq<Lot>, now: int)
    requires TotalPreorder(collate)
    ensures AllStored(ById(lots), ConsumptionOrder(collate, lots, now))
  {
    OrderIsSorted(collate, lots, now);
    var o := ConsumptionOrder(collate, lots, now);
    forall i | 0 <= i < |o| ensures HasId(ById(lots), o[i].id) {
      assert o[i] in lots;
      var j :| 0 <= j < |lots| && lots[j] == o[i];
    }
  }

  function Allocate(collate: Collation, lots: seq<Lot>, required: int, now: int): Result<Allocated, AllocationError>
    requires TotalPreorder(collate)
  {
    if required < 0 then Failure(NegativeAmount)
    else if required == 0 then Success(Allocated([], lots, 0))
    else
      OrderStored(collate, lots, now);
      var d := Drain(ById(lots), ConsumptionOrder(collate, lots, now), required);
      if d.left > 0 then Failure(InsufficientCredits(required, d.left))
      else Success(Allocated(d.allocations, d.lots, required))
  }

  method AllocateCreditLots(collate: Collation, lots: seq<Lot>, required: int, now: int)
    returns (r: Result<Allocated, AllocationError>)
    requires TotalPreorder(collate)
    ensures r == Allocate(collate, lots, required, now)
  {
    if required < 0 {
      return Failure(NegativeAmount);
    }
    if required == 0 {
      return Success(Allocated([], lots, 0));
    }
    var lotMap: seq<Lot> := [];
    for i := 0 to |lots|
      invariant lotMap == ById(lots[..i])
    {
      assert lots[..i + 1][..i] == lots[..i];
      lotMap := Store(lotMap, lots[i]);
    }
    assert lots[..|lots|] == lots;
    OrderStored(collate, lots, now);
    var d := DrainLots(lotMap, ConsumptionOrder(collate, lots, now), required);
    if d.left > 0 {
      return Failure(InsufficientCredits(required, d.left));
    }
    return Success(Allocated(d.allocations, d.lots, required));
  }

  // ---------------------------------------------------------------- what is allocated

  function TotalAvailable(lots: seq<Lot>): int {
    SumBy(Available, lots)
  }

  function Amount(a: Allocation): int {
    a.amount
  }

  function Total(allocations: seq<Allocation>): int {
    SumBy(Amount, allocations)
  }

  /** What an allocation takes from one lot. */
  function TakenFrom(allocations: seq<Allocation>, id: string): int {
    SumBy((a: Allocation) => if a.creditLotId == id then a.amount else 0, allocations)
  }

  function Min(a: int, b: int): int {
    if a <= b then a else b
  }

  /** The lots of `order` are still as they were ordered, and each has something to give. */
  predicate Untouched(m: seq<Lot>, order: seq<Lot>) {
    && AllStored(m, order)
    && DistinctIds(order)
    && forall i :: 0 <= i < |order| ==> Available(order[i]) > 0 && m[Find(m, order[i].id)] == order[i]
  }

  /** Exactly the lots at the head of the order give something: all they have, save the last. */
  predicate TakenInOrder(order: seq<Lot>, need: int, allocations: seq<Allocation>) {
    && |allocations| <= |order|
    && (forall i :: 0 <= i < |allocations| ==>
          && allocations[i].creditLotId == order[i].id
          && TotalAvailable(order[..i]) < need
          && allocations[i].amount == Min(Available(order[i]), need - TotalAvailable(order[..i])))
    && (|allocations| < |order| ==> TotalAvailable(order[..|allocations|]) >= need)
  }

  predicate OnlyReserved(before: seq<Lot>, after: seq<Lot>, allocations: seq<Allocation>) {
    |after| == |before| &&
    forall j :: 0 <= j < |before| ==>
      after[j] == before[j].(reserved := before[j].reserved + TakenFrom(allocations, before[j].id))
  }

  lemma ReserveKeepsOthers(m: seq<Lot>, order: seq<Lot>, at: nat, amount: int)
    requires DistinctIds(m) && Untouched(m, order) && order != [] && at == Find(m, order[0].id)
    ensures var after := Reserve(m, at, amount); DistinctIds(after) && Untouched(after, order[1..])
  {
    var after, rest := Reserve(m, at, amount), order[1..];
    StillStored(m, after, order);
    forall i | 0 <= i < |rest| ensures HasId(after, rest[i].id) && after[Find(after, rest[i].id)] == rest[i] {
      assert rest[i] == order[i + 1];
      var j := Find(m, rest[i].id);
      assert j != at;
      assert after[j].id == rest[i].id;
    }
  }

  lemma ShiftTaken(order: seq<Lot>, need: int, rest: seq<Allocation>, a: Allocation)
    requires order != [] && a == Allocation(order[0].id, Min(Available(order[0]), need))
    requires 0 < Available(order[0]) && 0 < need
    requires TakenInOrder(order[1..], need - Available(order[0]), rest)
    requires need <= Available(order[0]) ==> rest == []
    ensures TakenInOrder(order, need, [a] + rest)
  {
    var all := [a] + rest;
    assert order[..0] == [];
    forall i | 0 <= i < |order|
      ensures TotalAvailable(order[..i + 1]) == Available(order[0]) + TotalAvailable(order[1..][..i])
    {
      SumHead(Available, order[..i + 1]);
      assert order[..i + 1][1..] == order[1..][..i];
    }
    forall i | 0 <= i < |all|
      ensures all[i].creditLotId == order[i].id && TotalAvailable(order[..i]) < need
      ensures all[i].amount == Min(Available(order[i]), need - TotalAvailable(order[..i]))
    {
      if i > 0 {
        assert all[i] == rest[i - 1] && order[i] == order[1..][i - 1];
        assert TotalAvailable(order[..(i - 1) + 1]) == Available(order[0]) + TotalAvailable(order[1..][..i - 1]);
      }
    }
    if |all| < |order| {
      assert TotalAvailable(order[..|rest| + 1]) == Available(order[0]) + TotalAvailable(order[1..][..|rest|]);
    }
  }

  lemma TakenHead(a: Allocation, rest: seq<Allocation>, id: string)
    ensures TakenFrom([a] + rest, id) == (if a.creditLotId == id then a.amount else 0) + TakenFrom(rest, id)
    ensures Total([a] + rest) == a.amount + Total(rest)
  {
    var f := (x: Allocation) => if x.creditLotId == id then x.amount else 0;
    SumConcat(f, [a], rest);
    SumOne(f, a);
    SumConcat(Amount, [a], rest);
    SumOne(Amount, a);
  }

  lemma OnlyReservedStep(m: seq<Lot>, at: nat, a: Allocation, lots: seq<Lot>, rest: seq<Allocation>)
    requires DistinctIds(m) && at < |m| && a.creditLotId == m[at].id
    requires OnlyReserved(Reserve(m, at, a.amount), lots, rest)
    ensures OnlyReserved(m, lots, [a] + rest)
  {
    hide TakenFrom;
    forall j | 0 <= j < |m|
      ensures lots[j] == m[j].(reserved := m[j].reserved + TakenFrom([a] + rest, m[j].id))
    {
      TakenHead(a, rest, m[j].id);
      assert (m[j].id == a.creditLotId) == (j == at);
    }
  }

  /** The loop drains the ordered lots one after the other until the need is met. */
  lemma {:induction false} DrainTakesInOrder(m: seq<Lot>, order: seq<Lot>, need: int)
    requires DistinctIds(m) && Untouched(m, order) && need > 0
    ensures var d := Drain(m, order, need);
            && TakenInOrder(order, need, d.allocations)
            && OnlyReserved(m, d.lots, d.allocations)
            && Total(d.allocations) == Min(need, TotalAvailable(order))
            && d.left == need - Total(d.allocations)
    decreases order
  {
    hide Drain, Reserve, OnlyReserved, TakenInOrder;
    if order == [] {
      EmptyDrain(m, need);
      NothingTaken(m, need);
    } else {
      var at := Find(m, order[0].id);
      var amount := Taken(Available(m[at]), need);
      var after, a := Reserve(m, at, amount), Allocation(m[at].id, amount);
      assert a == Allocation(order[0].id, Min(Available(order[0]), need)) && Available(order[0]) > 0;
      DrainStep(m, order, need);
      ReserveKeepsOthers(m, order, at, amount);
      hide Untouched, Find, DistinctIds, AllStored, HasId, Taken;
      SumHead(Available, order);
      SumNonNegative(Available, order[1..]);
      var rest := if need == amount then Drained(after, [], 0) else Drain(after, order[1..], need - amount);
      if need == amount {
        NothingTaken(after, 0);
        NothingNeeded(order[1..], need - Available(order[0]));
      } else {
        DrainTakesInOrder(after, order[1..], need - amount);
      }
      assert Drain(m, order, need) == Drained(rest.lots, [a] + rest.allocations, rest.left);
      TakenHead(a, rest.allocations, a.creditLotId);
      ShiftTaken(order, need, rest.allocations, a);
      OnlyReservedStep(m, at, a, rest.lots, rest.allocations);
    }
  }

  lemma NothingTaken(m: seq<Lot>, need: int)
    ensures OnlyReserved(m, m, []) && TakenInOrder([], need, []) && Total([]) == 0 && TotalAvailable([]) == 0
  {
  }

  lemma NothingNeeded(order: seq<Lot>, need: int)
    requires need <= 0
    ensures TakenInOrder(order, need, [])
  {
    assert order[..0] == [];
  }

  // ---------------------------------------------------------------- main results

  lemma {:induction false} DistinctById(lots: seq<Lot>)
    requires DistinctIds(lots)
    ensures ById(lots) == lots
  {
    hide Find;
    if lots != [] {
      var front, l := lots[..|lots| - 1], lots[|lots| - 1];
      DistinctById(front);
      assert !HasId(front, l.id);
      assert ById(lots) == Store(ById(front), l);
      assert lots == front + [l];
    }
  }

  lemma FoundInPlace(lots: seq<Lot>, l: Lot)
    requires DistinctIds(lots) && l in lots
    ensures HasId(lots, l.id) && lots[Find(lots, l.id)] == l
  {
    var i :| 0 <= i < |lots| && lots[i] == l;
  }

  lemma {:induction false} EligibleDistinct(lots: seq<Lot>, now: int)
    requires DistinctIds(lots)
    ensures DistinctIds(EligibleLots(lots, now))
  {
    if lots != [] {
      EligibleDistinct(lots[1..], now);
      var r := EligibleLots(lots[1..], now);
      forall i | 0 <= i < |r| ensures r[i].id != lots[0].id {
        assert r[i] in lots[1..];
      }
    }
  }

  lemma DistinctRearranged(s: seq<Lot>, t: seq<Lot>)
    requires DistinctIds(s) && multiset(s) == multiset(t)
    ensures DistinctIds(t)
  {
    KeysRearranged((l: Lot) => l.id, s, t);
  }

  lemma OrderUntouched(collate: Collation, lots: seq<Lot>, now: int)
    requires TotalPreorder(collate) && DistinctIds(lots)
    ensures Untouched(lots, ConsumptionOrder(collate, lots, now))
    ensures TotalAvailable(ConsumptionOrder(collate, lots, now)) == TotalAvailable(EligibleLots(lots, now))
  {
    hide ConsumptionOrder, ConsumedBefore, Find;
    var order := ConsumptionOrder(collate, lots, now);
    OrderIsSorted(collate, lots, now);
    EligibleDistinct(lots, now);
    DistinctRearranged(EligibleLots(lots, now), order);
    SumRearranged(Available, order, EligibleLots(lots, now));
    forall i | 0 <= i < |order|
      ensures HasId(lots, order[i].id) && lots[Find(lots, order[i].id)] == order[i] && Available(order[i]) > 0
    {
      assert order[i] in lots;
      FoundInPlace(lots, order[i]);
    }
  }

  /** Allocation fails exactly when the eligible lots together hold less than is required, by the
      shortfall reported. Otherwise it takes exactly what is required, in consumption order, no lot
      gives more than it has available, and nothing else about any lot changes. */
  lemma AllocationOutcome(collate: Collation, lots: seq<Lot>, required: int, now: int)
    requires TotalPreorder(collate) && DistinctIds(lots) && required > 0
    ensures var r := Allocate(collate, lots, required, now);
            var available := TotalAvailable(EligibleLots(lots, now));
            && (r.Failure? <==> available < required)
            && (r.Failure? ==> r.error == InsufficientCredits(required, required - available))
            && (r.Success? ==>
                  && TakenInOrder(ConsumptionOrder(collate, lots, now), required, r.value.allocations)
                  && Total(r.value.allocations) == r.value.totalAllocated == required
                  && OnlyReserved(lots, r.value.updatedLots, r.value.allocations)
                  && forall a :: a in r.value.allocations ==> a.amount > 0)
  {
    hide ConsumptionOrder, OnlyReserved, Drain, ById, Untouched, TakenInOrder, AllStored, EligibleLots;
    DistinctById(lots);
    OrderStored(collate, lots, now);
    OrderUntouched(collate, lots, now);
    var order := ConsumptionOrder(collate, lots, now);
    DrainTakesInOrder(lots, order, required);
    AmountsPositive(lots, order, required, Drain(lots, order, required).allocations);
  }

  lemma AmountsPositive(m: seq<Lot>, order: seq<Lot>, need: int, allocations: seq<Allocation>)
    requires Untouched(m, order) && TakenInOrder(order, need, allocations)
    ensures forall a :: a in allocations ==> a.amount > 0
  {
    forall a | a in allocations ensures a.amount > 0 {
      var i :| 0 <= i < |allocations| && allocations[i] == a;
      assert a.amount == Min(Available(order[i]), need - TotalAvailable(order[..i]));
    }
  }

  lemma NotTaken(allocations: seq<Allocation>, id: string)
    requires forall a :: a in allocations ==> a.creditLotId != id
    ensures TakenFrom(allocations, id) == 0
  {
    SumNonNegative((a: Allocation) => if a.creditLotId == id then a.amount else 0, allocations);
  }

  lemma TakenOnce(allocations: seq<Allocation>, k: nat)
    requires k < |allocations|
    requires forall i :: 0 <= i < |allocations| && i != k ==> allocations[i].creditLotId != allocations[k].creditLotId
    ensures TakenFrom(allocations, allocations[k].creditLotId) == allocations[k].amount
  {
    var id := allocations[k].creditLotId;
    SumTakeOut((a: Allocation) => if a.creditLotId == id then a.amount else 0, allocations, k);
    NotTaken(allocations[..k] + allocations[k + 1..], id);
  }

  /** Afterwards no lot is reserved beyond what it holds that was not so before, and lots that gave
      nothing are unchanged. */
  lemma NothingOverReserved(collate: Collation, lots: seq<Lot>, required: int, now: int, j: nat)
    requires TotalPreorder(collate) && DistinctIds(lots) && required > 0 && j < |lots|
    requires Allocate(collate, lots, required, now).Success?
    ensures var r := Allocate(collate, lots, required, now).value;
            && |r.updatedLots| == |lots|
            && (r.updatedLots[j] != lots[j] ==>
                  Eligible(lots[j], now) && 0 <= Available(r.updatedLots[j]) < Available(lots[j]))
  {
    hide Allocate, ConsumptionOrder, EligibleLots;
    AllocationOutcome(collate, lots, required, now);
    OrderUntouched(collate, lots, now);
    OrderIsSorted(collate, lots, now);
    var r := Allocate(collate, lots, required, now).value;
    var order := ConsumptionOrder(collate, lots, now);
    if i :| 0 <= i < |r.allocations| && r.allocations[i].creditLotId == lots[j].id {
      TakenOnce(r.allocations, i);
      FoundInPlace(lots, lots[j]);
      assert order[i] == lots[j];
      assert order[i] in order;
      assert r.allocations[i] in r.allocations;
    } else {
      NotTaken(r.allocations, lots[j].id);
    }
  }

  lemma {:induction false} PrefixTotal(order: seq<Lot>, need: int, allocations: seq<Allocation>, j: nat)
    requires TakenInOrder(order, need, allocations) && j <= |order| && need >= 0
    requires forall i :: 0 <= i < |order| ==> Available(order[i]) > 0
    ensures var k := Min(j, |allocations|);
            Total(allocations[..k]) == Min(need, TotalAvailable(order[..j]))
    ensures j > |allocations| ==> TotalAvailable(order[..j]) >= need
  {
    if j > 0 {
      PrefixTotal(order, need, allocations, j - 1);
      assert order[..j][..j - 1] == order[..j - 1];
      if j <= |allocations| {
        assert allocations[..j][..j - 1] == allocations[..j - 1];
        assert allocations[j - 1].creditLotId == order[j - 1].id;
      } else {
        assert allocations[..Min(j, |allocations|)] == allocations[..Min(j - 1, |allocations|)];
      }
    }
  }

  function Sum(f: seq<int>): int {
    if f == [] then 0 else Sum(f[..|f| - 1]) + f[|f| - 1]
  }

  /** Some way of taking `need` from the ordered lots. */
  predicate Feasible(order: seq<Lot>, need: int, f: seq<int>) {
    |f| == |order| && Sum(f) == need && forall i :: 0 <= i < |f| ==> 0 <= f[i] <= Available(order[i])
  }

  lemma {:induction false} PrefixBound(order: seq<Lot>, f: seq<int>, j: nat)
    requires j <= |f| == |order| && forall i :: 0 <= i < |f| ==> 0 <= f[i] <= Available(order[i])
    ensures Sum(f[..j]) <= TotalAvailable(order[..j]) && Sum(f[..j]) <= Sum(f)
    decreases |f| - j, j
  {
    if j > 0 {
      PrefixSum(order, f, j);
    }
    if j < |f| {
      PrefixBound(order, f, j + 1);
      assert f[..j + 1][..j] == f[..j];
    } else {
      assert f[..j] == f;
    }
  }

  lemma {:induction false} PrefixSum(order: seq<Lot>, f: seq<int>, j: nat)
    requires j <= |f| == |order| && forall i :: 0 <= i < |f| ==> 0 <= f[i] <= Available(order[i])
    ensures Sum(f[..j]) <= TotalAvailable(order[..j])
  {
    if j > 0 {
      PrefixSum(order, f, j - 1);
      assert f[..j][..j - 1] == f[..j - 1] && order[..j][..j - 1] == order[..j - 1];
    }
  }

  /** Every prefix of the consumption order gives as much as it can, or all that is required; no
      feasible way of taking the amount takes more from any prefix. */
  lemma PrefixesGiveMost(collate: Collation, lots: seq<Lot>, required: int, now: int, j: nat, f: seq<int>)
    requires TotalPreorder(collate) && DistinctIds(lots) && required > 0
    requires Allocate(collate, lots, required, now).Success?
    requires j <= |ConsumptionOrder(collate, lots, now)|
    ensures var order := ConsumptionOrder(collate, lots, now);
            var allocations := Allocate(collate, lots, required, now).value.allocations;
            var given := Total(allocations[..Min(j, |allocations|)]);
            && given == Min(required, TotalAvailable(order[..j]))
            && (Feasible(order, required, f) ==> Sum(f[..j]) <= given)
  {
    hide Allocate, ConsumptionOrder;
    AllocationOutcome(collate, lots, required, now);
    OrderUntouched(collate, lots, now);
    var order := ConsumptionOrder(collate, lots, now);
    PrefixTotal(order, required, Allocate(collate, lots, required, now).value.allocations, j);
    if Feasible(order, required, f) {
      PrefixBound(order, f, j);
    }
  }

  lemma OrderIsStrict(collate: Collation, lots: seq<Lot>, eligible: seq<Lot>)
    requires Collates(collate) && DistinctIds(lots) && forall l :: l in eligible ==> l in lots
    ensures Strict((a, b) => ConsumedBefore(collate, a, b), eligible)
  {
    forall a, b | a in eligible && b in eligible && ConsumedBefore(collate, a, b) && ConsumedBefore(collate, b, a)
      ensures a == b
    {
      assert a.id == b.id;
      FoundInPlace(lots, a);
      FoundInPlace(lots, b);
    }
  }

  lemma {:induction false} EligibleRearranged(s: seq<Lot>, t: seq<Lot>, now: int)
    requires multiset(s) == multiset(t)
    ensures multiset(EligibleLots(s, now)) == multiset(EligibleLots(t, now))
  {
    forall l ensures multiset(EligibleLots(s, now))[l] == multiset(EligibleLots(t, now))[l] {
      EligibleCount(s, now, l);
      EligibleCount(t, now, l);
    }
  }

  lemma {:induction false} EligibleCount(s: seq<Lot>, now: int, l: Lot)
    ensures multiset(EligibleLots(s, now))[l] == if Eligible(l, now) then multiset(s)[l] else 0
  {
    if s != [] {
      EligibleCount(s[1..], now, l);
      assert s == [s[0]] + s[1..];
    }
  }

  lemma SameOrder(collate: Collation, s: seq<Lot>, t: seq<Lot>, now: int)
    requires Collates(collate) && DistinctIds(s) && multiset(s) == multiset(t)
    ensures ConsumptionOrder(collate, s, now) == ConsumptionOrder(collate, t, now)
    ensures TotalAvailable(EligibleLots(s, now)) == TotalAvailable(EligibleLots(t, now))
  {
    hide ConsumedBefore;
    EligibleRearranged(s, t, now);
    OrderIsTotal(collate);
    OrderIsStrict(collate, s, EligibleLots(s, now));
    SortIgnoresInputOrder((a, b) => ConsumedBefore(collate, a, b), EligibleLots(s, now), EligibleLots(t, now));
    SumRearranged(Available, EligibleLots(s, now), EligibleLots(t, now));
  }

  /** The order in which lots are read does not matter: what is taken from which lot is the same. */
  lemma InputOrderIsIrrelevant(collate: Collation, s: seq<Lot>, t: seq<Lot>, required: int, now: int)
    requires Collates(collate) && DistinctIds(s) && multiset(s) == multiset(t)
    ensures var a, b := Allocate(collate, s, required, now), Allocate(collate, t, required, now);
            && a.Failure? == b.Failure?
            && (a.Failure? ==> a.error == b.error)
            && (a.Success? ==> a.value.allocations == b.value.allocations)
  {
    hide ConsumedBefore, ConsumptionOrder, DistinctIds, EligibleLots, TakenInOrder, OnlyReserved, Drain, ById;
    DistinctRearranged(s, t);
    SameOrder(collate, s, t, now);
    if required > 0 {
      hide Allocate;
      AllocationOutcome(collate, s, required, now);
      AllocationOutcome(collate, t, required, now);
      var a, b := Allocate(collate, s, required, now), Allocate(collate, t, required, now);
      if a.Success? {
        TakenInOrderUnique(ConsumptionOrder(collate, s, now), required, a.value.allocations, b.value.allocations);
      }
    }
  }

  lemma GivenWhileNeeded(order: seq<Lot>, need: int, a: seq<Allocation>)
    requires TakenInOrder(order, need, a)
    ensures forall i :: 0 <= i < |order| && i < |a| ==> TotalAvailable(order[..i]) < need
  {
    forall i | 0 <= i < |order| && i < |a| ensures TotalAvailable(order[..i]) < need {
      assert a[i].creditLotId == order[i].id;
    }
  }

  lemma TakenInOrderUnique(order: seq<Lot>, need: int, a: seq<Allocation>, b: seq<Allocation>)
    requires TakenInOrder(order, need, a) && TakenInOrder(order, need, b)
    ensures a == b
  {
    GivenWhileNeeded(order, need, a);
    GivenWhileNeeded(order, need, b);
    assert |a| == |b|;
  }
}
