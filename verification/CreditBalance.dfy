/** Wallet balances computed from lots and from the ledger (packages/credits/src/balance-projector.ts). */
module CreditBalance {
  import opened Collections
  import opened Sorting
  import opened Sums
  import opened CreditLots

  datatype EntryType =
    | CreditGrant | CreditPurchaseFuture | AdjustmentCredit | RefundEntry
    | Reservation | ReservationRelease | UsageSettlement
    | AdjustmentDebit | Expiration

  datatype Entry = Entry(sequence: int, entryType: EntryType, amount: int, createdAt: int)

  datatype Balance = Balance(total: int, reserved: int, available: int)

  datatype Discrepancy = TotalMismatch | ReservedMismatch | AvailableMismatch

  function Clamp(n: int): int {
    if n < 0 then 0 else n
  }

  // ---------------------------------------------------------------- from lots

  function CountedRemaining(now: int): Lot -> int {
    (l: Lot) => if Unexpired(l, now) then l.remaining else 0
  }

  function CountedReserved(now: int): Lot -> int {
    (l: Lot) => if Unexpired(l, now) then l.reserved else 0
  }

  function LotBalance(lots: seq<Lot>, now: int): Balance {
    var total := SumBy(CountedRemaining(now), lots);
    var reserved := SumBy(CountedReserved(now), lots);
    Balance(total, reserved, Clamp(total - reserved))
  }

  method CalculateBalanceFromLots(lots: seq<Lot>, now: int) returns (b: Balance)
    ensures b == LotBalance(lots, now)
  {
    var total, reserved := 0, 0;
    for i := 0 to |lots|
      invariant total == SumBy(CountedRemaining(now), lots[..i])
      invariant reserved == SumBy(CountedReserved(now), lots[..i])
    {
      assert lots[..i + 1][..i] == lots[..i];
      if lots[i].expiresAt.None? || lots[i].expiresAt.value > now {
        total := total + lots[i].remaining;
        reserved := reserved + lots[i].reserved;
      }
    }
    assert lots[..|lots|] == lots;
    var available := total - reserved;
    b := Balance(total, reserved, if available < 0 then 0 else available);
  }

  // ---------------------------------------------------------------- from the ledger

  /** What an entry adds to the total, ... */
  function ToTotal(e: Entry): int {
    match e.entryType
    case CreditGrant | CreditPurchaseFuture | AdjustmentCredit | RefundEntry => e.amount
    case UsageSettlement | AdjustmentDebit | Expiration => -e.amount
    case _ => 0
  }

  /** ... to what is reserved, ... */
  function ToReserved(e: Entry): int {
    match e.entryType
    case Reservation => e.amount
    case ReservationRelease | UsageSettlement => -e.amount
    case _ => 0
  }

  /** ... and to what is available. */
  function ToAvailable(e: Entry): int {
    match e.entryType
    case CreditGrant | CreditPurchaseFuture | AdjustmentCredit | RefundEntry | ReservationRelease => e.amount
    case Reservation | AdjustmentDebit | Expiration => -e.amount
    case UsageSettlement => 0
  }

  predicate EarlierEntry(a: Entry, b: Entry) {
    a.sequence < b.sequence || (a.sequence == b.sequence && a.createdAt <= b.createdAt)
  }

  function LedgerBalance(entries: seq<Entry>): Balance {
    Balance(SumBy(ToTotal, entries), Clamp(SumBy(ToReserved, entries)), Clamp(SumBy(ToAvailable, entries)))
  }

  lemma NothingMoved()
    ensures SumBy(ToTotal, []) == SumBy(ToReserved, []) == SumBy(ToAvailable, []) == 0
  {
  }

  lemma MovedBy(entries: seq<Entry>, e: Entry)
    ensures SumBy(ToTotal, entries + [e]) == SumBy(ToTotal, entries) + ToTotal(e)
    ensures SumBy(ToReserved, entries + [e]) == SumBy(ToReserved, entries) + ToReserved(e)
    ensures SumBy(ToAvailable, entries + [e]) == SumBy(ToAvailable, entries) + ToAvailable(e)
  {
    assert (entries + [e])[..|entries|] == entries;
    hide ToTotal, ToReserved, ToAvailable;
  }

  /** The fold over the sorted entries. It reports the amounts before they are clamped as well. */
  method CalculateBalanceFromLedger(entries: seq<Entry>) returns (b: Balance, version: nat, ghost unclamped: Balance)
    ensures b == LedgerBalance(entries) && version == |entries|
    ensures unclamped.total == unclamped.available + unclamped.reserved
    ensures b == Balance(unclamped.total, Clamp(unclamped.reserved), Clamp(unclamped.available))
  {
    var sorted := Sort(EarlierEntry, entries);
    var total, reserved, available := 0, 0, 0;
    NothingMoved();
    hide SumBy;
    for i := 0 to |sorted|
      invariant total == SumBy(ToTotal, sorted[..i])
      invariant reserved == SumBy(ToReserved, sorted[..i])
      invariant available == SumBy(ToAvailable, sorted[..i])
      invariant total == available + reserved
    {
      assert sorted[..i + 1] == sorted[..i] + [sorted[i]];
      MovedBy(sorted[..i], sorted[i]);
      var entry := sorted[i];
      match entry.entryType {
        case CreditGrant | CreditPurchaseFuture | AdjustmentCredit | RefundEntry =>
          total := total + entry.amount;
          available := available + entry.amount;
        case Reservation =>
          available := available - entry.amount;
          reserved := reserved + entry.amount;
        case ReservationRelease =>
          reserved := reserved - entry.amount;
          available := available + entry.amount;
        case UsageSettlement =>
          reserved := reserved - entry.amount;
          total := total - entry.amount;
        case AdjustmentDebit | Expiration =>
          available := available - entry.amount;
          total := total - entry.amount;
      }
    }
    assert sorted[..|sorted|] == sorted;
    assert |multiset(sorted)| == |multiset(entries)|;
    SumRearranged(ToTotal, sorted, entries);
    SumRearranged(ToReserved, sorted, entries);
    SumRearranged(ToAvailable, sorted, entries);
    unclamped := Balance(total, reserved, available);
    b := Balance(total, if reserved < 0 then 0 else reserved, if available < 0 then 0 else available);
    version := |sorted|;
  }

  /** The ledger balance does not depend on the order, or the sequence numbers, of its entries. */
  lemma LedgerIgnoresOrder(s: seq<Entry>, t: seq<Entry>)
    requires multiset(s) == multiset(t)
    ensures LedgerBalance(s) == LedgerBalance(t)
  {
    SumRearranged(ToTotal, s, t);
    SumRearranged(ToReserved, s, t);
    SumRearranged(ToAvailable, s, t);
  }

  /** Every entry moves as much into the total as into available and reserved together. */
  lemma {:induction false} LedgerConserves(entries: seq<Entry>)
    ensures SumBy(ToTotal, entries) == SumBy(ToAvailable, entries) + SumBy(ToReserved, entries)
  {
    if entries != [] {
      LedgerConserves(entries[..|entries| - 1]);
    }
  }

  // ---------------------------------------------------------------- comparing the two

  method VerifyBalanceIntegrity(materialized: Balance, calculated: Balance)
    returns (matches: bool, discrepancies: seq<Discrepancy>)
    ensures matches <==> materialized == calculated
    ensures TotalMismatch in discrepancies <==> materialized.total != calculated.total
    ensures ReservedMismatch in discrepancies <==> materialized.reserved != calculated.reserved
    ensures AvailableMismatch in discrepancies <==> materialized.available != calculated.available
  {
    discrepancies := [];
    if materialized.total != calculated.total {
      discrepancies := discrepancies + [TotalMismatch];
    }
    if materialized.reserved != calculated.reserved {
      discrepancies := discrepancies + [ReservedMismatch];
    }
    if materialized.available != calculated.available {
      discrepancies := discrepancies + [AvailableMismatch];
    }
    matches := |discrepancies| == 0;
  }

  // ---------------------------------------------------------------- a wallet over a run

  datatype Wallet = Wallet(lots: seq<Lot>, ledger: seq<Entry>)

  /** Credit is granted as a new lot, or reserved from the lots there are; each is recorded. */
  datatype Event =
    | Grant(id: string, lotType: LotType, amount: int, expiresAt: Option<int>)
    | Reserve(required: int)

  predicate HasLot(w: Wallet, id: string) {
    exists i :: 0 <= i < |w.lots| && w.lots[i].id == id
  }

  /** Lot ids are new, and grants are not negative. */
  predicate Acceptable(w: Wallet, e: Event) {
    e.Grant? ==> !HasLot(w, e.id) && e.amount >= 0
  }

  function Step(collate: Collation, w: Wallet, e: Event, now: int): Wallet
    requires TotalPreorder(collate)
  {
    match e
    case Grant(id, lotType, amount, expiresAt) =>
      Wallet(w.lots + [Lot(id, lotType, amount, 0, now, expiresAt)],
             w.ledger + [Entry(|w.ledger|, CreditGrant, amount, now)])
    case Reserve(required) =>
      var r := Allocate(collate, w.lots, required, now);
      if r.Failure? then w
      else Wallet(r.value.updatedLots, w.ledger + [Entry(|w.ledger|, Reservation, required, now)])
  }

  predicate AcceptableRun(collate: Collation, events: seq<(Event, int)>)
    requires TotalPreorder(collate)
    decreases events, 1
  {
    events == [] ||
    (AcceptableRun(collate, events[..|events| - 1])
     && Acceptable(Run(collate, events[..|events| - 1]), events[|events| - 1].0))
  }

  function Run(collate: Collation, events: seq<(Event, int)>): Wallet
    requires TotalPreorder(collate)
    decreases events, 0
  {
    if events == [] then Wallet([], [])
    else
      var (e, now) := events[|events| - 1];
      Step(collate, Run(collate, events[..|events| - 1]), e, now)
  }

  function Remaining(l: Lot): int {
    l.remaining
  }

  function Reserved(l: Lot): int {
    l.reserved
  }

  /** Lots are within their bounds, and the ledger records what they hold, expired or not. */
  ghost predicate Balanced(w: Wallet) {
    && DistinctIds(w.lots)
    && (forall i :: 0 <= i < |w.lots| ==> 0 <= w.lots[i].reserved <= w.lots[i].remaining)
    && SumBy(ToTotal, w.ledger) == SumBy(Remaining, w.lots)
    && SumBy(ToReserved, w.ledger) == SumBy(Reserved, w.lots)
  }

  lemma {:induction false} ReservingAdds(before: seq<Lot>, after: seq<Lot>, allocations: seq<Allocation>)
    requires OnlyReserved(before, after, allocations)
    ensures SumBy(Remaining, after) == SumBy(Remaining, before)
    ensures SumBy(Reserved, after)
         == SumBy(Reserved, before) + SumBy((l: Lot) => TakenFrom(allocations, l.id), before)
  {
    if before != [] {
      ReservingAdds(before[..|before| - 1], after[..|after| - 1], allocations);
    }
  }

  lemma {:induction false} NothingFromNothing(lots: seq<Lot>)
    ensures SumBy((l: Lot) => TakenFrom([], l.id), lots) == 0
  {
    if lots != [] {
      NothingFromNothing(lots[..|lots| - 1]);
    }
  }

  function FromLots(a: seq<Allocation>): Lot -> int {
    (l: Lot) => TakenFrom(a, l.id)
  }

  /** One allocation is taken from exactly one lot. */
  lemma {:induction false} OneTaken(lots: seq<Lot>, front: seq<Allocation>, a: Allocation)
    requires DistinctIds(lots)
    ensures SumBy(FromLots(front + [a]), lots)
         == SumBy(FromLots(front), lots) + if HasId(lots, a.creditLotId) then a.amount else 0
  {
    if lots != [] {
      var rest, l := lots[..|lots| - 1], lots[|lots| - 1];
      OneTaken(rest, front, a);
      assert (front + [a])[..|front|] == front;
      if l.id == a.creditLotId {
        assert !HasId(rest, l.id);
      } else if HasId(lots, a.creditLotId) {
        assert HasId(rest, a.creditLotId);
      }
    }
  }

  lemma {:induction false} TakenIsTotal(lots: seq<Lot>, allocations: seq<Allocation>)
    requires DistinctIds(lots)
    requires forall i :: 0 <= i < |allocations| ==> HasId(lots, allocations[i].creditLotId)
    ensures SumBy(FromLots(allocations), lots) == Total(allocations)
  {
    if allocations == [] {
      NothingFromNothing(lots);
      SumEqual(FromLots([]), (l: Lot) => TakenFrom([], l.id), lots);
    } else {
      var front, a := allocations[..|allocations| - 1], allocations[|allocations| - 1];
      assert allocations == front + [a];
      TakenIsTotal(lots, front);
      OneTaken(lots, front, a);
    }
  }

  lemma AllocationsKnown(collate: Collation, lots: seq<Lot>, required: int, now: int)
    requires TotalPreorder(collate) && DistinctIds(lots) && required > 0
    requires Allocate(collate, lots, required, now).Success?
    ensures var r := Allocate(collate, lots, required, now).value;
            forall i :: 0 <= i < |r.allocations| ==> HasId(lots, r.allocations[i].creditLotId)
  {
    hide Allocate, ConsumptionOrder, OnlyReserved, HasId, Find;
    var r := Allocate(collate, lots, required, now).value;
    AllocationOutcome(collate, lots, required, now);
    OrderIsSorted(collate, lots, now);
    var order := ConsumptionOrder(collate, lots, now);
    forall i | 0 <= i < |r.allocations| ensures HasId(lots, r.allocations[i].creditLotId) {
      assert order[i] in order;
      FoundInPlace(lots, order[i]);
    }
  }

  lemma ReserveStep(collate: Collation, w: Wallet, required: int, now: int)
    requires TotalPreorder(collate) && Balanced(w) && required > 0
    requires Allocate(collate, w.lots, required, now).Success?
    ensures Balanced(Step(collate, w, Reserve(required), now))
  {
    hide Allocate, ConsumptionOrder, TakenFrom, TakenInOrder, SumBy, EligibleLots, HasId;
    var r := Allocate(collate, w.lots, required, now).value;
    AllocationOutcome(collate, w.lots, required, now);
    AllocationsKnown(collate, w.lots, required, now);
    TakenIsTotal(w.lots, r.allocations);
    ReservingAdds(w.lots, r.updatedLots, r.allocations);
    SumEqual(FromLots(r.allocations), (l: Lot) => TakenFrom(r.allocations, l.id), w.lots);
    forall i | 0 <= i < |w.lots| ensures 0 <= r.updatedLots[i].reserved <= r.updatedLots[i].remaining {
      NothingOverReserved(collate, w.lots, required, now, i);
    }
    var e := Entry(|w.ledger|, Reservation, required, now);
    SumAppend(ToTotal, w.ledger, e);
    SumAppend(ToReserved, w.ledger, e);
  }

  lemma SumAppend<T>(f: T -> int, s: seq<T>, x: T)
    ensures SumBy(f, s + [x]) == SumBy(f, s) + f(x)
  {
    SumConcat(f, s, [x]);
    SumOne(f, x);
  }

  lemma StepBalanced(collate: Collation, w: Wallet, e: Event, now: int)
    requires TotalPreorder(collate) && Balanced(w) && Acceptable(w, e)
    ensures Balanced(Step(collate, w, e, now))
  {
    match e
    case Grant(id, lotType, amount, expiresAt) =>
      var n := Step(collate, w, e, now);
      assert n.lots[..|w.lots|] == w.lots && n.ledger[..|w.ledger|] == w.ledger;
    case Reserve(required) =>
      if Allocate(collate, w.lots, required, now).Success? {
        if required > 0 {
          ReserveStep(collate, w, required, now);
        } else {
          var n := Step(collate, w, e, now);
          assert n.ledger[..|w.ledger|] == w.ledger;
        }
      }
  }

  lemma {:induction false} RunBalanced(collate: Collation, events: seq<(Event, int)>)
    requires TotalPreorder(collate) && AcceptableRun(collate, events)
    ensures Balanced(Run(collate, events))
  {
    hide Step, Balanced, Acceptable;
    if events == [] {
      EmptyBalanced();
    } else {
      RunBalanced(collate, events[..|events| - 1]);
      var (e, now) := events[|events| - 1];
      StepBalanced(collate, Run(collate, events[..|events| - 1]), e, now);
    }
  }

  lemma EmptyBalanced()
    ensures Balanced(Wallet([], []))
  {
  }

  /** An expired lot that still holds something. */
  predicate Lapsed(w: Wallet, now: int) {
    exists i :: 0 <= i < |w.lots| && !Unexpired(w.lots[i], now) && w.lots[i].remaining > 0
  }

  lemma {:induction false} SplitByExpiry(lots: seq<Lot>, now: int)
    ensures SumBy(Remaining, lots)
         == SumBy(CountedRemaining(now), lots)
            + SumBy((l: Lot) => if Unexpired(l, now) then 0 else l.remaining, lots)
    ensures SumBy(Reserved, lots)
         == SumBy(CountedReserved(now), lots)
            + SumBy((l: Lot) => if Unexpired(l, now) then 0 else l.reserved, lots)
  {
    if lots != [] {
      SplitByExpiry(lots[..|lots| - 1], now);
    }
  }

  lemma {:induction false} ReservedWithin(lots: seq<Lot>, now: int)
    requires forall i :: 0 <= i < |lots| ==> 0 <= lots[i].reserved <= lots[i].remaining
    ensures 0 <= SumBy(CountedReserved(now), lots) <= SumBy(CountedRemaining(now), lots)
    ensures 0 <= SumBy(Reserved, lots) <= SumBy(Remaining, lots)
  {
    if lots != [] {
      ReservedWithin(lots[..|lots| - 1], now);
    }
  }

  /** After any run of grants and reservations, at whatever times, the ledger balance and the lot
      balance agree at a time exactly if no lot that has expired by then still holds anything: the
      lot balance leaves such lots out, and the ledger does not know of them. */
  lemma IntegrityHoldsUnlessLapsed(collate: Collation, events: seq<(Event, int)>, now: int)
    requires TotalPreorder(collate) && AcceptableRun(collate, events)
    ensures var w := Run(collate, events);
            LedgerBalance(w.ledger) == LotBalance(w.lots, now) <==> !Lapsed(w, now)
  {
    hide Run;
    RunBalanced(collate, events);
    var w := Run(collate, events);
    LedgerConserves(w.ledger);
    ReservedWithin(w.lots, now);
    SplitByExpiry(w.lots, now);
    var lapsed := (l: Lot) => if Unexpired(l, now) then 0 else l.remaining;
    var held := (l: Lot) => if Unexpired(l, now) then 0 else l.reserved;
    forall l | l in w.lots ensures 0 <= held(l) <= lapsed(l) {
      var i :| 0 <= i < |w.lots| && w.lots[i] == l;
    }
    SumNonNegative(lapsed, w.lots);
    SumNonNegative(held, w.lots);
    if Lapsed(w, now) {
      var i :| 0 <= i < |w.lots| && !Unexpired(w.lots[i], now) && w.lots[i].remaining > 0;
      assert w.lots[i] in w.lots && lapsed(w.lots[i]) > 0;
    } else {
      forall l | l in w.lots ensures lapsed(l) == 0 && held(l) == 0 {
        var i :| 0 <= i < |w.lots| && w.lots[i] == l;
      }
    }
  }

  /** The shortest such run: a grant, looked at after it has expired. */
  lemma LapsedGrant(collate: Collation, amount: nat, expiresAt: int, now: int)
    requires TotalPreorder(collate) && amount > 0 && now > expiresAt
    ensures var events := [(Grant("lot", Promotional, amount, Some(expiresAt)), 0)];
            && AcceptableRun(collate, events)
            && LedgerBalance(Run(collate, events).ledger).total == amount
            && LotBalance(Run(collate, events).lots, now).total == 0
  {
    var events := [(Grant("lot", Promotional, amount, Some(expiresAt)), 0)];
    assert events[..0] == [];
    assert Run(collate, []) == Wallet([], []);
    var w := Run(collate, events);
    assert w == Step(collate, Wallet([], []), events[0].0, 0);
    assert w.ledger == [Entry(0, CreditGrant, amount, 0)];
    assert w.lots == [Lot("lot", Promotional, amount, 0, 0, Some(expiresAt))];
    SumOne(ToTotal, w.ledger[0]);
    SumOne(CountedRemaining(now), w.lots[0]);
  }
}
