/** Idempotent execution over a shared store (packages/idempotency/src/index.ts).

    Any number of calls run concurrently. Every `await` of a call is one atomic step, and the steps
    of different calls interleave in any order. A store operation may also throw, without having
    been applied or after it was. */
module Idempotency {
  import opened Collections

  datatype Key = Key(tenantScope: string, endpoint: string, key: string)

  datatype Input = Input(key: Key, fingerprint: string)

  datatype Status = Processing | Completed | Failed

  /** A response of `None` is one that is undefined. */
  datatype Record<V> = Record(fingerprint: string, status: Status, response: Option<V>)

  type Records<V> = map<Key, Record<V>>

  datatype Fault = NoFault | NotApplied | Applied

  datatype Outcome<V> = Returned(value: Option<V>, replayed: bool) | Conflict | InProgress | Threw

  /** Where a call stands: what it is waiting for, or how it ended. */
  datatype Pc<V> =
    | Finding(tries: nat)
    | Claiming(tries: nat)
    | Executing
    | Completing(value: Option<V>)
    | Failing
    | Done(outcome: Outcome<V>)

  datatype Action<V> =
    | Find(fault: Fault)
    | Claim(fault: Fault)
    | Settle(result: Result<Option<V>, string>)
    | Complete(fault: Fault)
    | Fail(fault: Fault)

  predicate Enabled<V>(pc: Pc<V>, a: Action<V>) {
    match a
    case Find(_) => pc.Finding?
    case Claim(_) => pc.Claiming?
    case Settle(_) => pc.Executing?
    case Complete(_) => pc.Completing?
    case Fail(_) => pc.Failing?
  }

  /** What a call is told about a record that exists. */
  function Verdict<V>(r: Record<V>, fingerprint: string): Outcome<V> {
    if r.fingerprint != fingerprint then Conflict
    else if r.status.Completed? && r.response.Some? then Returned(r.response, true)
    else InProgress
  }

  function Claimed<V>(input: Input): Record<V> {
    Record(input.fingerprint, Processing, None)
  }

  /** One step of one call, on the store. */
  function Act<V>(input: Input, pc: Pc<V>, s: Records<V>, a: Action<V>): (Pc<V>, Records<V>)
    requires Enabled(pc, a)
  {
    match a
    case Find(f) =>
      if f != NoFault then (Done(Threw), s)
      else if input.key in s then (Done(Verdict(s[input.key], input.fingerprint)), s)
      else (Claiming(pc.tries), s)
    case Claim(f) =>
      var claimed := if input.key in s then s else s[input.key := Claimed(input)];
      if f == NotApplied then (Done(Threw), s)
      else if f == Applied then (Done(Threw), claimed)
      else if input.key in s then (Finding(pc.tries + 1), s)
      else (Executing, claimed)
    case Settle(r) =>
      (if r.Success? then Completing(r.value) else Failing, s)
    case Complete(f) =>
      var completed := s[input.key := Record(input.fingerprint, Completed, pc.value)];
      if f == NoFault then (Done(Returned(pc.value, false)), completed)
      else (Failing, if f == Applied then completed else s)
    case Fail(f) =>
      (Done(Threw), if f == NotApplied then s else s[input.key := Record(input.fingerprint, Failed, None)])
  }

  // ---------------------------------------------------------------- all calls together

  datatype Entry<V> = Started(caller: nat) | Settled(caller: nat, result: Result<Option<V>, string>)

  /** The calls, the store, and history: whose claim created each record, and what was executed. */
  datatype World<V> = World(
    pcs: seq<Pc<V>>, store: Records<V>, owner: map<Key, nat>, log: seq<Entry<V>>)

  type Event<V> = (nat, Action<V>)

  function Initial<V>(inputs: seq<Input>): World<V> {
    World(seq(|inputs|, _ => Finding(0)), map[], map[], [])
  }

  predicate CanStep<V>(inputs: seq<Input>, w: World<V>, e: Event<V>) {
    |w.pcs| == |inputs| && e.0 < |inputs| && Enabled(w.pcs[e.0], e.1)
  }

  function Step<V>(inputs: seq<Input>, w: World<V>, e: Event<V>): World<V>
    requires CanStep(inputs, w, e)
  {
    var (i, a) := e;
    var (pc, s) := Act(inputs[i], w.pcs[i], w.store, a);
    var k := inputs[i].key;
    World(w.pcs[i := pc], s,
          if k in s && k !in w.store then w.owner[k := i] else w.owner,
          w.log + (if pc.Executing? then [Started(i)] else if a.Settle? then [Settled(i, a.result)] else []))
  }

  /** Every event of the schedule is enabled when its turn comes. */
  predicate Schedule<V>(inputs: seq<Input>, events: seq<Event<V>>)
    decreases events, 0
  {
    events == [] ||
    (Schedule(inputs, events[..|events| - 1])
     && CanStep(inputs, Run(inputs, events[..|events| - 1]), events[|events| - 1]))
  }

  function Run<V>(inputs: seq<Input>, events: seq<Event<V>>): World<V>
    requires Schedule(inputs, events)
    decreases events, 1
  {
    if events == [] then Initial(inputs)
    else Step(inputs, Run(inputs, events[..|events| - 1]), events[|events| - 1])
  }

  // ---------------------------------------------------------------- the invariant

  /** The call `j` owns the record under the key of call `i`, with the same fingerprint. */
  predicate Shares(inputs: seq<Input>, i: nat, j: nat) {
    i < |inputs| && j < |inputs| && inputs[i] == inputs[j]
  }

  /** What is known of a call from where it stands. */
  ghost predicate CallOk<V>(inputs: seq<Input>, w: World<V>, i: nat)
    requires i < |inputs| == |w.pcs|
  {
    var k := inputs[i].key;
    match w.pcs[i]
    case Finding(n) => n <= 1 && (n == 1 ==> k in w.store) && Started(i) !in w.log
    case Claiming(n) => n == 0 && Started(i) !in w.log
    case Executing => k in w.owner && w.owner[k] == i
    case Completing(v) => k in w.owner && w.owner[k] == i && Settled(i, Success(v)) in w.log
    case Failing => k in w.owner && w.owner[k] == i
    case Done(o) =>
      && (o.Returned? && o.replayed ==>
            o.value.Some? && exists j: nat :: Shares(inputs, i, j) && Settled(j, Success(o.value)) in w.log)
      && (o.Returned? && !o.replayed ==> Settled(i, Success(o.value)) in w.log)
      && (o.Conflict? ==> k in w.store && w.store[k].fingerprint != inputs[i].fingerprint)
  }

  /** What is known of a record. */
  ghost predicate RecordOk<V>(inputs: seq<Input>, w: World<V>, k: Key)
    requires k in w.store && k in w.owner
  {
    && w.owner[k] < |inputs|
    && inputs[w.owner[k]] == Input(k, w.store[k].fingerprint)
    && (w.store[k].status.Completed? ==> Settled(w.owner[k], Success(w.store[k].response)) in w.log)
  }

  ghost predicate StartsOk<V>(inputs: seq<Input>, w: World<V>) {
    && (forall p :: 0 <= p < |w.log| && w.log[p].Started? ==>
          var i := w.log[p].caller; i < |inputs| && inputs[i].key in w.owner && w.owner[inputs[i].key] == i)
    && (forall p, q :: 0 <= p < q < |w.log| && w.log[p].Started? && w.log[q].Started? ==> w.log[p] != w.log[q])
  }

  ghost predicate Invariant<V>(inputs: seq<Input>, w: World<V>) {
    && |w.pcs| == |inputs|
    && w.store.Keys == w.owner.Keys
    && (forall k :: k in w.store ==> RecordOk(inputs, w, k))
    && (forall i: nat :: i < |inputs| ==> CallOk(inputs, w, i))
    && StartsOk(inputs, w)
  }

  lemma InitialInvariant<V>(inputs: seq<Input>)
    ensures Invariant(inputs, Initial<V>(inputs))
  {
  }

  /** A call's step leaves what is known of every other call true. */
  lemma OtherCallOk<V>(inputs: seq<Input>, w: World<V>, e: Event<V>, i: nat)
    requires CanStep(inputs, w, e) && Invariant(inputs, w) && i < |inputs| && i != e.0
    ensures |Step(inputs, w, e).pcs| == |inputs| && CallOk(inputs, Step(inputs, w, e), i)
  {
    var n := Step(inputs, w, e);
    assert CallOk(inputs, w, i) && CallOk(inputs, w, e.0);
    assert n.pcs[i] == w.pcs[i];
    assert forall x :: x in w.log ==> x in n.log;
    assert Started(i) in n.log ==> Started(i) in w.log;
    if inputs[i].key in w.store {
      assert RecordOk(inputs, w, inputs[i].key);
    }
  }

  lemma OwnCallOk<V>(inputs: seq<Input>, w: World<V>, e: Event<V>)
    requires CanStep(inputs, w, e) && Invariant(inputs, w)
    ensures |Step(inputs, w, e).pcs| == |inputs| && CallOk(inputs, Step(inputs, w, e), e.0)
  {
    var n := Step(inputs, w, e);
    var (i, a) := e;
    var k := inputs[i].key;
    assert CallOk(inputs, w, i);
    if k in w.store {
      assert RecordOk(inputs, w, k);
      assert Shares(inputs, i, w.owner[k]) <==> w.store[k].fingerprint == inputs[i].fingerprint;
    }
    if a.Settle? {
      assert n.log[|w.log|] == Settled(i, a.result);
    }
  }

  lemma StepRecordOk<V>(inputs: seq<Input>, w: World<V>, e: Event<V>, k: Key)
    requires CanStep(inputs, w, e) && Invariant(inputs, w) && k in Step(inputs, w, e).store
    ensures k in Step(inputs, w, e).owner && RecordOk(inputs, Step(inputs, w, e), k)
  {
    var n := Step(inputs, w, e);
    assert CallOk(inputs, w, e.0);
    assert forall x :: x in w.log ==> x in n.log;
    if k in w.store {
      assert RecordOk(inputs, w, k);
    }
  }

  lemma StepStartsOk<V>(inputs: seq<Input>, w: World<V>, e: Event<V>)
    requires CanStep(inputs, w, e) && Invariant(inputs, w)
    ensures StartsOk(inputs, Step(inputs, w, e))
  {
    var n := Step(inputs, w, e);
    assert CallOk(inputs, w, e.0);
    forall p | 0 <= p < |n.log| && n.log[p].Started?
      ensures var i := n.log[p].caller; i < |inputs| && inputs[i].key in n.owner && n.owner[inputs[i].key] == i
    {
      if p < |w.log| {
        assert n.log[p] == w.log[p];
      }
    }
    forall p, q | 0 <= p < q < |n.log| && n.log[p].Started? && n.log[q].Started? ensures n.log[p] != n.log[q] {
      assert n.log[p] == w.log[p];
      if q < |w.log| {
        assert n.log[q] == w.log[q];
      }
    }
  }

  lemma StepInvariant<V>(inputs: seq<Input>, w: World<V>, e: Event<V>)
    requires CanStep(inputs, w, e) && Invariant(inputs, w)
    ensures Invariant(inputs, Step(inputs, w, e))
  {
    hide CallOk, RecordOk, StartsOk;
    var n := Step(inputs, w, e);
    forall k | k in n.store ensures k in n.owner && RecordOk(inputs, n, k) {
      StepRecordOk(inputs, w, e, k);
    }
    forall i: nat | i < |inputs| ensures |n.pcs| == |inputs| && CallOk(inputs, n, i) {
      if i == e.0 {
        OwnCallOk(inputs, w, e);
      } else {
        OtherCallOk(inputs, w, e, i);
      }
    }
    StepStartsOk(inputs, w, e);
    StoreGrows(inputs, w, e);
  }

  lemma StoreGrows<V>(inputs: seq<Input>, w: World<V>, e: Event<V>)
    requires CanStep(inputs, w, e) && Invariant(inputs, w)
    ensures Step(inputs, w, e).store.Keys == Step(inputs, w, e).owner.Keys
    ensures w.store.Keys <= Step(inputs, w, e).store.Keys
    ensures forall k :: k in w.owner ==> Step(inputs, w, e).owner[k] == w.owner[k]
  {
    assert CallOk(inputs, w, e.0);
  }

  lemma {:induction false} RunInvariant<V>(inputs: seq<Input>, events: seq<Event<V>>)
    requires Schedule(inputs, events)
    ensures Invariant(inputs, Run(inputs, events))
  {
    hide Invariant, CanStep, Step;
    if events == [] {
      InitialInvariant<V>(inputs);
    } else {
      RunInvariant(inputs, events[..|events| - 1]);
      StepInvariant(inputs, Run(inputs, events[..|events| - 1]), events[|events| - 1]);
    }
  }

  // ---------------------------------------------------------------- safety

  /** In every interleaving, whatever store operations throw, the work behind a key is started at
      most once: no two starts share a key. */
  lemma AtMostOneStart<V>(inputs: seq<Input>, events: seq<Event<V>>, p: nat, q: nat)
    requires Schedule(inputs, events)
    ensures var log := Run(inputs, events).log;
            p < q < |log| && log[p].Started? && log[q].Started? ==>
              log[p].caller < |inputs| && log[q].caller < |inputs|
              && inputs[log[p].caller].key != inputs[log[q].caller].key
  {
    RunInvariant(inputs, events);
  }

  /** Every replayed value was returned by an execution under the same key and fingerprint. */
  lemma ReplaysAreGenuine<V>(inputs: seq<Input>, events: seq<Event<V>>, i: nat, v: Option<V>)
    requires Schedule(inputs, events) && i < |inputs|
    requires |Run(inputs, events).pcs| == |inputs| && Run(inputs, events).pcs[i] == Done(Returned(v, true))
    ensures v.Some?
    ensures exists j: nat :: Shares(inputs, i, j) && Settled(j, Success(v)) in Run(inputs, events).log
  {
    RunInvariant(inputs, events);
    assert CallOk(inputs, Run(inputs, events), i);
  }

  /** A call that is refused as conflicting met a record of another fingerprint. */
  lemma ConflictsAreGenuine<V>(inputs: seq<Input>, events: seq<Event<V>>, i: nat)
    requires Schedule(inputs, events) && i < |inputs|
    requires |Run(inputs, events).pcs| == |inputs| && Run(inputs, events).pcs[i] == Done(Conflict)
    ensures exists j: nat :: j < |inputs| && inputs[j].key == inputs[i].key
                             && inputs[j].fingerprint != inputs[i].fingerprint
  {
    RunInvariant(inputs, events);
    var w := Run(inputs, events);
    assert CallOk(inputs, w, i);
    assert RecordOk(inputs, w, inputs[i].key);
  }

  // ---------------------------------------------------------------- termination

  /** How many steps a call can still take. */
  function Left<V>(pc: Pc<V>): nat {
    match pc
    case Finding(n) => if n == 0 then 5 else 1
    case Claiming(_) => 4
    case Executing => 3
    case Completing(_) => 2
    case Failing => 1
    case Done(_) => 0
  }

  function AllLeft<V>(pcs: seq<Pc<V>>): nat {
    if pcs == [] then 0 else Left(pcs[0]) + AllLeft(pcs[1..])
  }

  lemma {:induction false} AllLeftUpdate<V>(pcs: seq<Pc<V>>, i: nat, pc: Pc<V>)
    requires i < |pcs|
    ensures AllLeft(pcs[i := pc]) == AllLeft(pcs) - Left(pcs[i]) + Left(pc)
  {
    if i == 0 {
      assert pcs[i := pc][1..] == pcs[1..];
    } else {
      AllLeftUpdate(pcs[1..], i - 1, pc);
      assert pcs[i := pc][1..] == pcs[1..][i - 1 := pc];
    }
  }

  lemma {:induction false} AllLeftInitially<V>(n: nat)
    ensures AllLeft(seq(n, _ => Pc<V>.Finding(0))) == 5 * n
  {
    if n > 0 {
      AllLeftInitially<V>(n - 1);
      assert seq(n, _ => Pc<V>.Finding(0))[1..] == seq(n - 1, _ => Pc<V>.Finding(0));
    }
  }

  /** No call retries more than once, and no call ever takes more than five steps: every schedule
      comes to an end. */
  lemma {:induction false} SchedulesEnd<V>(inputs: seq<Input>, events: seq<Event<V>>)
    requires Schedule(inputs, events)
    ensures |events| + AllLeft(Run(inputs, events).pcs) <= 5 * |inputs|
    ensures forall i :: 0 <= i < |Run(inputs, events).pcs| ==>
              var pc := Run(inputs, events).pcs[i];
              (pc.Finding? ==> pc.tries <= 1) && (pc.Claiming? ==> pc.tries == 0)
  {
    hide CallOk, RecordOk, StartsOk, Act;
    RunInvariant(inputs, events);
    var w := Run(inputs, events);
    forall i | 0 <= i < |w.pcs| ensures (w.pcs[i].Finding? ==> w.pcs[i].tries <= 1)
                                        && (w.pcs[i].Claiming? ==> w.pcs[i].tries == 0) {
      TriesBounded(inputs, w, i);
    }
    if events == [] {
      AllLeftInitially<V>(|inputs|);
    } else {
      var front, e := events[..|events| - 1], events[|events| - 1];
      SchedulesEnd(inputs, front);
      RunInvariant(inputs, front);
      var before := Run(inputs, front);
      var pc := Act(inputs[e.0], before.pcs[e.0], before.store, e.1).0;
      StepUsesUp(inputs, before, e);
      AllLeftUpdate(before.pcs, e.0, pc);
    }
  }

  lemma TriesBounded<V>(inputs: seq<Input>, w: World<V>, i: nat)
    requires Invariant(inputs, w) && i < |inputs|
    ensures w.pcs[i].Finding? ==> w.pcs[i].tries <= 1
    ensures w.pcs[i].Claiming? ==> w.pcs[i].tries == 0
  {
    assert CallOk(inputs, w, i);
  }

  lemma StepUsesUp<V>(inputs: seq<Input>, w: World<V>, e: Event<V>)
    requires CanStep(inputs, w, e) && Invariant(inputs, w)
    ensures Left(Act(inputs[e.0], w.pcs[e.0], w.store, e.1).0) < Left(w.pcs[e.0])
  {
    assert CallOk(inputs, w, e.0);
  }

  /** A schedule can always go on until every call has ended. */
  lemma Progress<V>(inputs: seq<Input>, w: World<V>, i: nat)
    requires |w.pcs| == |inputs| && i < |inputs|
    ensures w.pcs[i].Done? <==> !exists a :: CanStep(inputs, w, (i, a))
  {
    var a: Action<V> :=
      match w.pcs[i]
      case Finding(_) => Find(NoFault)
      case Claiming(_) => Claim(NoFault)
      case Executing => Settle(Failure(""))
      case Completing(_) => Complete(NoFault)
      case _ => Fail(NoFault);
    assert !w.pcs[i].Done? ==> CanStep(inputs, w, (i, a));
  }

  // ---------------------------------------------------------------- exactly one start

  predicate Faulty<V>(a: Action<V>) {
    !a.Settle? && a.fault != NoFault
  }

  predicate FaultFree<V>(events: seq<Event<V>>) {
    forall i :: 0 <= i < |events| ==> !Faulty(events[i].1)
  }

  /** Every record has an execution behind it, and every call that got past its first look has a
      record. */
  ghost predicate Backed<V>(inputs: seq<Input>, w: World<V>) {
    && (forall k :: k in w.owner ==> Started(w.owner[k]) in w.log)
    && (forall i: nat :: i < |w.pcs| == |inputs| && w.pcs[i].Done? ==> inputs[i].key in w.owner)
  }

  lemma {:induction false} FaultFreeBacked<V>(inputs: seq<Input>, events: seq<Event<V>>)
    requires Schedule(inputs, events) && FaultFree(events)
    ensures Backed(inputs, Run(inputs, events))
  {
    hide CallOk, RecordOk, StartsOk;
    if events != [] {
      var front, e := events[..|events| - 1], events[|events| - 1];
      FaultFreeBacked(inputs, front);
      RunInvariant(inputs, front);
      BackedStep(inputs, Run(inputs, front), e);
    }
  }

  lemma BackedStep<V>(inputs: seq<Input>, w: World<V>, e: Event<V>)
    requires CanStep(inputs, w, e) && Invariant(inputs, w) && Backed(inputs, w) && !Faulty(e.1)
    ensures Backed(inputs, Step(inputs, w, e))
  {
    var n := Step(inputs, w, e);
    assert CallOk(inputs, w, e.0);
    StoreGrows(inputs, w, e);
    forall k | k in n.owner ensures Started(n.owner[k]) in n.log {
      if k !in w.owner {
        assert n.log[|w.log|] == Started(e.0);
      }
    }
  }

  /** As long as the store does not throw, a key whose calls are being answered has been started,
      exactly once. */
  lemma ExactlyOneStart<V>(inputs: seq<Input>, events: seq<Event<V>>, i: nat)
    requires Schedule(inputs, events) && FaultFree(events) && i < |inputs|
    requires |Run(inputs, events).pcs| == |inputs| && Run(inputs, events).pcs[i].Done?
    ensures var log := Run(inputs, events).log;
            exists p: nat :: p < |log| && log[p].Started? && log[p].caller < |inputs|
              && inputs[log[p].caller].key == inputs[i].key
              && forall q: nat :: q < |log| && log[q].Started? && q != p ==>
                   log[q].caller < |inputs| && inputs[log[q].caller].key != inputs[i].key
  {
    hide CallOk, Run, Schedule, RecordOk, StartsOk;
    RunInvariant(inputs, events);
    FaultFreeBacked(inputs, events);
    var w := Run(inputs, events);
    var k := inputs[i].key;
    assert RecordOk(inputs, w, k);
    var p :| 0 <= p < |w.log| && w.log[p] == Started(w.owner[k]);
    OwnerOk(inputs, w, k);
    forall q: nat | q < |w.log| && w.log[q].Started? && q != p
      ensures w.log[q].caller < |inputs| && inputs[w.log[q].caller].key != k
    {
      OneStart(inputs, w, k, p, q);
    }
  }

  lemma OwnerOk<V>(inputs: seq<Input>, w: World<V>, k: Key)
    requires k in w.store && k in w.owner && RecordOk(inputs, w, k)
    ensures w.owner[k] < |inputs| && inputs[w.owner[k]].key == k
  {
  }

  lemma OneStart<V>(inputs: seq<Input>, w: World<V>, k: Key, p: nat, q: nat)
    requires StartsOk(inputs, w) && k in w.owner && p < |w.log| && q < |w.log| && p != q
    requires w.log[p] == Started(w.owner[k]) && w.log[q].Started?
    ensures w.log[q].caller < |inputs| && inputs[w.log[q].caller].key != k
  {
  }

  // ---------------------------------------------------------------- what is final

  /** The call that owns the record has ended. */
  predicate Final<V>(w: World<V>, k: Key) {
    k in w.store && k in w.owner && w.owner[k] < |w.pcs| && w.pcs[w.owner[k]].Done?
  }

  lemma FinalStep<V>(inputs: seq<Input>, w: World<V>, e: Event<V>, k: Key)
    requires CanStep(inputs, w, e) && Invariant(inputs, w) && Final(w, k)
    ensures Final(Step(inputs, w, e), k) && Step(inputs, w, e).store[k] == w.store[k]
  {
    assert CallOk(inputs, w, e.0);
    StoreGrows(inputs, w, e);
  }

  /** Once the owner of a record has ended, however it ended, the record stays as it is. */
  lemma {:induction false} VerdictsAreFinal<V>(
    inputs: seq<Input>, before: seq<Event<V>>, after: seq<Event<V>>, k: Key)
    requires Schedule(inputs, before) && Schedule(inputs, before + after)
    requires Final(Run(inputs, before), k)
    ensures Final(Run(inputs, before + after), k)
    ensures Run(inputs, before + after).store[k] == Run(inputs, before).store[k]
  {
    hide CanStep, Step, Invariant, Final;
    if after == [] {
      assert before + after == before;
    } else {
      var front := after[..|after| - 1];
      assert (before + after)[..|before + after| - 1] == before + front;
      VerdictsAreFinal(inputs, before, front, k);
      RunInvariant(inputs, before + front);
      FinalStep(inputs, Run(inputs, before + front), after[|after| - 1], k);
    }
  }

  /** A call has not ended, or it threw, or it was told what the record says. */
  ghost predicate Told<V>(pc: Pc<V>, r: Record<V>, fingerprint: string) {
    match pc
    case Finding(_) => true
    case Claiming(_) => true
    case Done(o) =>
      && (o.Returned? ==>
            o.replayed && o.value.Some? && r.status.Completed? && o.value == r.response && r.fingerprint == fingerprint)
      && (o.Conflict? ==> r.fingerprint != fingerprint)
      && (o.InProgress? ==> r.fingerprint == fingerprint && (!r.status.Completed? || r.response.None?))
    case _ => false
  }

  lemma WaitingIsTold<V>(inputs: seq<Input>, w: World<V>, i: nat)
    requires Invariant(inputs, w) && i < |inputs| && Final(w, inputs[i].key) && !w.pcs[i].Done?
    ensures Told(w.pcs[i], w.store[inputs[i].key], inputs[i].fingerprint)
  {
    assert CallOk(inputs, w, i);
  }

  lemma ToldStep<V>(inputs: seq<Input>, w: World<V>, e: Event<V>, i: nat)
    requires CanStep(inputs, w, e) && Invariant(inputs, w) && i < |inputs|
    requires Final(w, inputs[i].key) && Told(w.pcs[i], w.store[inputs[i].key], inputs[i].fingerprint)
    ensures Told(Step(inputs, w, e).pcs[i], w.store[inputs[i].key], inputs[i].fingerprint)
  {
  }

  /** Every call that has not ended when the owner of its record has is told, if it does not throw, what
      the record said then: the response, if it holds one for the call's fingerprint. So after a
      failure, or a response that is undefined, no call under the key ever gets a value. */
  lemma {:induction false} LateCallsAreTold<V>(
    inputs: seq<Input>, before: seq<Event<V>>, after: seq<Event<V>>, i: nat)
    requires Schedule(inputs, before) && Schedule(inputs, before + after) && i < |inputs|
    requires var w := Run(inputs, before);
             |w.pcs| == |inputs| && Final(w, inputs[i].key) && !w.pcs[i].Done?
    ensures |Run(inputs, before + after).pcs| == |inputs|
    ensures Told(Run(inputs, before + after).pcs[i], Run(inputs, before).store[inputs[i].key], inputs[i].fingerprint)
  {
    hide CanStep, Step, Invariant, Final, Told;
    RunInvariant(inputs, before);
    if after == [] {
      assert before + after == before;
      WaitingIsTold(inputs, Run(inputs, before), i);
    } else {
      var front := after[..|after| - 1];
      assert (before + after)[..|before + after| - 1] == before + front;
      LateCallsAreTold(inputs, before, front, i);
      VerdictsAreFinal(inputs, before, front, inputs[i].key);
      RunInvariant(inputs, before + front);
      ToldStep(inputs, Run(inputs, before + front), after[|after| - 1], i);
      StepCalls(inputs, Run(inputs, before + front), after[|after| - 1]);
    }
  }

  lemma StepCalls<V>(inputs: seq<Input>, w: World<V>, e: Event<V>)
    requires CanStep(inputs, w, e)
    ensures |Step(inputs, w, e).pcs| == |inputs|
  {
  }

  lemma Snoc<V>(inputs: seq<Input>, events: seq<Event<V>>, e: Event<V>)
    requires Schedule(inputs, events) && CanStep(inputs, Run(inputs, events), e)
    ensures Schedule(inputs, events + [e])
    ensures Run(inputs, events + [e]) == Step(inputs, Run(inputs, events), e)
  {
    assert (events + [e])[..|events|] == events;
  }

  lemma Empty<V>(inputs: seq<Input>)
    ensures Schedule<V>(inputs, []) && Run<V>(inputs, []) == Initial(inputs)
  {
  }

  /** A claim that is applied but reported as failed leaves a key that nobody ever works on. */
  lemma LostClaimBlocks<V>(input: Input)
    ensures var inputs := [input, input];
            var events: seq<Event<V>> := [(0, Find(NoFault)), (0, Claim(Applied)), (1, Find(NoFault))];
            Schedule(inputs, events)
            && Run(inputs, events).pcs == [Done(Threw), Done(InProgress)] && Run(inputs, events).log == []
            && Final(Run(inputs, events), input.key)
  {
    var inputs := [input, input];
    var e0: seq<Event<V>> := [(0, Find(NoFault))];
    var e1 := e0 + [(0, Claim(Applied))];
    Empty<V>(inputs);
    hide Schedule, Run;
    assert Initial<V>(inputs).pcs == [Finding(0), Finding(0)];
    Snoc(inputs, [], e0[0]);
    assert Run(inputs, e0).pcs == [Claiming(0), Finding(0)];
    Snoc(inputs, e0, e1[1]);
    assert Run(inputs, e1).pcs == [Done(Threw), Finding(0)];
    Snoc(inputs, e1, (1, Find(NoFault)));
    assert e1 + [(1, Find(NoFault))] == [(0, Find(NoFault)), (0, Claim(Applied)), (1, Find(NoFault))];
  }

  /** A completion that is applied but reported as failed is overwritten: work that succeeded is
      reported as thrown to its caller and as in progress to everybody else. */
  lemma LostCompletionIsOverwritten<V>(input: Input, v: V)
    ensures var events: seq<Event<V>> := [(0, Find(NoFault)), (0, Claim(NoFault)), (0, Settle(Success(Some(v)))),
                                          (0, Complete(Applied)), (0, Fail(NoFault))];
            Schedule([input], events)
            && Run([input], events).pcs == [Done(Threw)]
            && Run([input], events).store == map[input.key := Record(input.fingerprint, Failed, None)]
  {
    var inputs := [input];
    var e0: seq<Event<V>> := [(0, Find(NoFault))];
    var e1 := e0 + [(0, Claim(NoFault))];
    var e2 := e1 + [(0, Settle(Success(Some(v))))];
    var e3 := e2 + [(0, Complete(Applied))];
    Empty<V>(inputs);
    hide Schedule, Run;
    assert Initial<V>(inputs).pcs == [Finding(0)];
    Snoc(inputs, [], e0[0]);
    assert Run(inputs, e0).pcs == [Claiming(0)];
    Snoc(inputs, e0, e1[1]);
    assert Run(inputs, e1).pcs == [Executing];
    Snoc(inputs, e1, e2[2]);
    assert Run(inputs, e2).pcs == [Completing(Some(v))];
    Snoc(inputs, e2, e3[3]);
    assert Run(inputs, e3).pcs == [Failing];
    Snoc(inputs, e3, (0, Fail(NoFault)));
    assert e3 + [(0, Fail(NoFault))] == [(0, Find(NoFault)), (0, Claim(NoFault)), (0, Settle(Success(Some(v)))),
                                         (0, Complete(Applied)), (0, Fail(NoFault))];
  }

  // ---------------------------------------------------------------- one call, as an object

  /** A store whose claim inserts only if nothing is there. */
  class IdempotencyStore<V> {
    var records: Records<V>

    constructor ()
      ensures records == map[]
    {
      records := map[];
    }

    method Find(key: Key) returns (r: Option<Record<V>>)
      ensures r == if key in records then Some(records[key]) else None
    {
      r := if key in records then Some(records[key]) else None;
    }

    method Claim(key: Key, record: Record<V>) returns (won: bool)
      modifies this
      ensures won <==> key !in old(records)
      ensures records == if won then old(records)[key := record] else old(records)
    {
      won := key !in records;
      if won {
        records := records[key := record];
      }
    }

    method Complete(key: Key, record: Record<V>)
      modifies this
      ensures records == old(records)[key := record]
    {
      records := records[key := record];
    }
  }

  /** One call between its awaits: each method runs it from the store's answer, or from the end of
      the work, to its next await. */
  class Call<V> {
    const store: IdempotencyStore<V>
    const input: Input
    var pc: Pc<V>

    constructor (store: IdempotencyStore<V>, input: Input)
      ensures this.store == store && this.input == input && pc == Finding(0)
    {
      this.store := store;
      this.input := input;
      pc := Finding(0);
    }

    method Find(fault: Fault)
      requires pc.Finding?
      modifies this`pc
      ensures (pc, store.records) == Act(input, old(pc), old(store.records), Action.Find(fault))
    {
      if fault != NoFault {
        pc := Done(Threw);
        return;
      }
      var existing := store.Find(input.key);
      if existing.Some? {
        if existing.value.fingerprint != input.fingerprint {
          pc := Done(Conflict);
        } else if existing.value.status == Completed && existing.value.response.Some? {
          pc := Done(Returned(existing.value.response, true));
        } else {
          pc := Done(InProgress);
        }
        return;
      }
      pc := Claiming(pc.tries);
    }

    method Claim(fault: Fault)
      requires pc.Claiming?
      modifies this`pc, store
      ensures (pc, store.records) == Act(input, old(pc), old(store.records), Action.Claim(fault))
    {
      if fault == NotApplied {
        pc := Done(Threw);
        return;
      }
      var won := store.Claim(input.key, Record(input.fingerprint, Processing, None));
      if fault == Applied {
        pc := Done(Threw);
      } else if !won {
        pc := Finding(pc.tries + 1);
      } else {
        pc := Executing;
      }
    }

    method Settle(result: Result<Option<V>, string>)
      requires pc.Executing?
      modifies this`pc
      ensures (pc, store.records) == Act(input, old(pc), old(store.records), Action.Settle(result))
    {
      pc := if result.Success? then Completing(result.value) else Failing;
    }

    method Complete(fault: Fault)
      requires pc.Completing?
      modifies this`pc, store
      ensures (pc, store.records) == Act(input, old(pc), old(store.records), Action.Complete(fault))
    {
      if fault != NotApplied {
        store.Complete(input.key, Record(input.fingerprint, Completed, pc.value));
      }
      pc := if fault == NoFault then Done(Returned(pc.value, false)) else Failing;
    }

    method Fail(fault: Fault)
      requires pc.Failing?
      modifies this`pc, store
      ensures (pc, store.records) == Act(input, old(pc), old(store.records), Action.Fail(fault))
    {
      if fault != NotApplied {
        store.Complete(input.key, Record(input.fingerprint, Failed, None));
      }
      pc := Done(Threw);
    }
  }
}
