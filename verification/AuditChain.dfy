/** The audit hash chain (packages/audit/src/tamper-chain.ts). The hash itself is a parameter;
    what is proved of the chain rests on it having no collisions, stated as `Injective`. */
module AuditChain {
  import opened Collections
  import opened CanonicalJson
  import opened JsonNumbers

  const GENESIS_HASH: string := "0000000000000000000000000000000000000000000000000000000000000000"

  /** The hashed fields of an audit event, and the hash stored with it. */
  datatype Event = Event(
    id: string, sequence: int, chainScope: string, organizationId: Option<string>,
    workspaceId: Option<string>, actorType: string, actorId: string, action: string,
    resourceType: string, resourceId: Option<string>, sourceService: string, privileged: bool,
    jitSessionId: Option<string>, breakGlass: Option<bool>, outcome: string, metadata: Value,
    occurredAt: string, previousHash: Option<string>, eventHash: Option<string>)

  ghost predicate Injective(hash: string -> string) {
    forall x, y :: hash(x) == hash(y) ==> x == y
  }

  /** Where a key stands in the canonical record: no two keys share both length and first letter. */
  function Position(length: nat, initial: char): int {
    match length
    case 2 => 0
    case 6 => 7
    case 7 => if initial == 'a' then 6 else 14
    case 8 => if initial == 's' then 1 else 15
    case 9 => 5
    case 10 =>
      if initial == 'c' then 2 else if initial == 'r' then 9 else if initial == 'p' then 11
      else if initial == 'b' then 13 else 16
    case 11 => 4
    case 12 => if initial == 'r' then 8 else if initial == 'j' then 12 else 17
    case 13 => 10
    case _ => 3
  }

  /** The keys of the canonical record, in the order in which the source lists them. */
  function Key(i: nat): (k: string)
    requires i < 18
    ensures k != [] && Position(|k|, k[0]) == i
  {
    if i == 0 then "id"
    else if i == 1 then "sequence"
    else if i == 2 then "chainScope"
    else if i == 3 then "organizationId"
    else if i == 4 then "workspaceId"
    else if i == 5 then "actorType"
    else if i == 6 then "actorId"
    else if i == 7 then "action"
    else if i == 8 then "resourceType"
    else if i == 9 then "resourceId"
    else if i == 10 then "sourceService"
    else if i == 11 then "privileged"
    else if i == 12 then "jitSessionId"
    else if i == 13 then "breakGlass"
    else if i == 14 then "outcome"
    else if i == 15 then "metadata"
    else if i == 16 then "occurredAt"
    else "previousHash"
  }

  function OrNull(o: Option<string>): Value {
    if o.Some? then Str(o.value) else Null
  }

  /** The value hashed under `Key(i)`. */
  function Hashed(e: Event, i: nat): Value
    requires i < 18
  {
    match i
    case 0 => Str(e.id)
    case 1 => Num(OfInt(e.sequence))
    case 2 => Str(e.chainScope)
    case 3 => OrNull(e.organizationId)
    case 4 => OrNull(e.workspaceId)
    case 5 => Str(e.actorType)
    case 6 => Str(e.actorId)
    case 7 => Str(e.action)
    case 8 => Str(e.resourceType)
    case 9 => OrNull(e.resourceId)
    case 10 => Str(e.sourceService)
    case 11 => Bool(e.privileged)
    case 12 => OrNull(e.jitSessionId)
    case 13 => Bool(e.breakGlass.GetOr(false))
    case 14 => Str(e.outcome)
    case 15 => e.metadata
    case 16 => Str(e.occurredAt)
    case _ => Str(e.previousHash.GetOr(GENESIS_HASH))
  }

  function CanonicalData(e: Event): Value {
    Obj(seq(18, i requires 0 <= i < 18 => (Key(i), Hashed(e, i))))
  }

  function EventHash(hash: string -> string, e: Event): string {
    hash(Canonical(CanonicalData(e)))
  }

  // ---------------------------------------------------------------- verification

  datatype Verdict =
    | Valid
    | Discontinuity(sequence: int)
    | BrokenLink(sequence: int, expected: string, actual: string)
    | Tampered(sequence: int, computed: string, stored: Option<string>)

  /** One event in its place: the next sequence number, the right link, its own hash. */
  predicate Sound(hash: string -> string, e: Event, prev: string, seqNo: int) {
    && e.sequence == seqNo
    && e.previousHash.GetOr(GENESIS_HASH) == prev
    && e.eventHash == Some(EventHash(hash, e))
  }

  function Link(start: string, events: seq<Event>, i: nat): string
    requires i <= |events|
  {
    if i == 0 then start else events[i - 1].eventHash.GetOr("")
  }

  predicate SoundAt(hash: string -> string, events: seq<Event>, start: string, i: nat)
    requires i < |events|
  {
    Sound(hash, events[i], Link(start, events, i), events[0].sequence + i)
  }

  /** Every event sits in its place. */
  ghost predicate Accepted(hash: string -> string, events: seq<Event>, start: string) {
    forall i :: 0 <= i < |events| ==> SoundAt(hash, events, start, i)
  }

  /** Event `i` is the first that is out of place. */
  ghost predicate FirstUnsound(hash: string -> string, events: seq<Event>, start: string, i: nat)
    requires i < |events|
  {
    !SoundAt(hash, events, start, i) && forall k :: 0 <= k < i ==> SoundAt(hash, events, start, k)
  }

  method VerifyAuditChain(hash: string -> string, events: seq<Event>, start: string) returns (v: Verdict)
    ensures v.Valid? <==> Accepted(hash, events, start)
    ensures !v.Valid? ==>
              exists i: nat :: i < |events| && FirstUnsound(hash, events, start, i) && events[i].sequence == v.sequence
    ensures v.Tampered? ==> v.stored != Some(v.computed)
    ensures v.BrokenLink? ==> v.expected != v.actual
  {
    hide EventHash;
    if |events| == 0 {
      return Valid;
    }
    var currentPreviousHash := start;
    var expectedSeq := events[0].sequence;
    for i := 0 to |events|
      invariant currentPreviousHash == Link(start, events, i)
      invariant expectedSeq == events[0].sequence + i
      invariant forall k :: 0 <= k < i ==> SoundAt(hash, events, start, k)
    {
      var event := events[i];
      if event.sequence != expectedSeq {
        assert FirstUnsound(hash, events, start, i);
        return Discontinuity(event.sequence);
      }
      var eventPrevHash := event.previousHash.GetOr(GENESIS_HASH);
      if eventPrevHash != currentPreviousHash {
        assert FirstUnsound(hash, events, start, i);
        return BrokenLink(event.sequence, currentPreviousHash, eventPrevHash);
      }
      var computedHash := EventHash(hash, event);
      if event.eventHash != Some(computedHash) {
        assert FirstUnsound(hash, events, start, i);
        return Tampered(event.sequence, computedHash, event.eventHash);
      }
      currentPreviousHash := computedHash;
      expectedSeq := expectedSeq + 1;
    }
    return Valid;
  }

  // ---------------------------------------------------------------- what a hash commits to

  /** Agreement on everything that is hashed, with the source's defaults applied. */
  ghost predicate Agree(e: Event, f: Event) {
    && e.id == f.id && e.sequence == f.sequence && e.chainScope == f.chainScope
    && e.organizationId == f.organizationId && e.workspaceId == f.workspaceId
    && e.actorType == f.actorType && e.actorId == f.actorId && e.action == f.action
    && e.resourceType == f.resourceType && e.resourceId == f.resourceId
    && e.sourceService == f.sourceService && e.privileged == f.privileged
    && e.jitSessionId == f.jitSessionId && e.breakGlass.GetOr(false) == f.breakGlass.GetOr(false)
    && e.outcome == f.outcome && Same(Normal(e.metadata), Normal(f.metadata))
    && e.occurredAt == f.occurredAt
    && e.previousHash.GetOr(GENESIS_HASH) == f.previousHash.GetOr(GENESIS_HASH)
  }

  lemma DataFields(e: Event)
    ensures CanonicalData(e).Obj? && Distinct(CanonicalData(e).fields)
    ensures KeySet(CanonicalData(e).fields) == set i | 0 <= i < 18 :: Key(i)
    ensures forall i :: 0 <= i < 18 ==> Get(CanonicalData(e).fields, Key(i)) == Some(Hashed(e, i))
  {
    var fs := CanonicalData(e).fields;
    hide Hashed, Key;
    forall i, j | 0 <= i < j < 18 ensures fs[i].0 != fs[j].0 {
      assert Key(i) != Key(j);
    }
    forall i | 0 <= i < 18 ensures fs[i] in fs && Get(fs, Key(i)) == Some(Hashed(e, i)) {
      GetAt(fs, i);
    }
  }

  lemma DataWellFormed(e: Event)
    requires WellFormed(e.metadata)
    ensures WellFormed(CanonicalData(e))
  {
    DataFields(e);
    var fs := CanonicalData(e).fields;
    hide Key, OfInt;
    forall i | 0 <= i < 18 ensures WellFormed(fs[i].1) {
      assert fs[i].1 == Hashed(e, i);
      HashedWellFormed(e, i);
    }
    hide Hashed, Distinct;
  }

  lemma HashedWellFormed(e: Event, i: nat)
    requires i < 18 && WellFormed(e.metadata)
    ensures WellFormed(Hashed(e, i))
  {
    hide OfInt;
  }

  /** Fields of two canonical records that look the same are the same, position by position. */
  lemma SameData(e: Event, f: Event, i: nat)
    requires i < 18
    requires Same(Normal(CanonicalData(e)), Normal(CanonicalData(f)))
    ensures Same(Normal(Hashed(e, i)), Normal(Hashed(f, i)))
  {
    hide *;
    DataFields(e);
    DataFields(f);
    SameNormalField(CanonicalData(e), CanonicalData(f), Key(i));
  }

  /** Without collisions, an event's hash commits to everything that is hashed and to nothing else. */
  lemma HashCommits(hash: string -> string, e: Event, f: Event)
    requires Injective(hash) && WellFormed(e.metadata) && WellFormed(f.metadata)
    ensures EventHash(hash, e) == EventHash(hash, f) <==> Agree(e, f)
  {
    DataWellFormed(e);
    DataWellFormed(f);
    var v, w := CanonicalData(e), CanonicalData(f);
    CanonicalIdentifies(v, w);
    if Canonical(v) == Canonical(w) {
      forall i | 0 <= i < 18 ensures Same(Normal(Hashed(e, i)), Normal(Hashed(f, i))) { SameData(e, f, i); }
      FieldsAgree(e, f);
    }
    if Agree(e, f) {
      AgreeingData(e, f);
    }
  }

  lemma FieldsAgree(e: Event, f: Event)
    requires forall i :: 0 <= i < 18 ==> Same(Normal(Hashed(e, i)), Normal(Hashed(f, i)))
    ensures Agree(e, f)
  {
    hide Same, Normal;
    forall i {:trigger Hashed(e, i)} | 0 <= i < 18 && i != 15 ensures Hashed(e, i) == Hashed(f, i) {
      assert Same(Normal(Hashed(e, i)), Normal(Hashed(f, i)));
      HashedLeaf(e, i);
      HashedLeaf(f, i);
      SameLeaf(Hashed(e, i), Hashed(f, i));
    }
    assert Hashed(e, 15) == e.metadata && Same(Normal(Hashed(e, 15)), Normal(Hashed(f, 15)));
    AgreeFields(e, f);
  }

  lemma AgreeFields(e: Event, f: Event)
    requires forall i {:trigger Hashed(e, i)} :: 0 <= i < 18 && i != 15 ==> Hashed(e, i) == Hashed(f, i)
    requires Same(Normal(e.metadata), Normal(f.metadata))
    ensures Agree(e, f)
  {
    hide Same, Normal, OfInt;
    FirstFields(e, f);
    OtherFields(e, f);
    OfIntInjective(e.sequence, f.sequence);
  }

  lemma FirstFields(e: Event, f: Event)
    requires forall i {:trigger Hashed(e, i)} :: 0 <= i < 18 && i != 15 ==> Hashed(e, i) == Hashed(f, i)
    ensures e.id == f.id && OfInt(e.sequence) == OfInt(f.sequence) && e.chainScope == f.chainScope
    ensures e.organizationId == f.organizationId && e.workspaceId == f.workspaceId
    ensures e.actorType == f.actorType && e.actorId == f.actorId && e.action == f.action
    ensures e.resourceType == f.resourceType
  {
    hide OfInt;
    var _ := (Hashed(e, 0), Hashed(e, 1), Hashed(e, 2), Hashed(e, 3), Hashed(e, 4));
    var _ := (Hashed(e, 5), Hashed(e, 6), Hashed(e, 7), Hashed(e, 8));
  }

  lemma OtherFields(e: Event, f: Event)
    requires forall i {:trigger Hashed(e, i)} :: 0 <= i < 18 && i != 15 ==> Hashed(e, i) == Hashed(f, i)
    ensures e.resourceId == f.resourceId && e.sourceService == f.sourceService && e.privileged == f.privileged
    ensures e.jitSessionId == f.jitSessionId && e.breakGlass.GetOr(false) == f.breakGlass.GetOr(false)
    ensures e.outcome == f.outcome && e.occurredAt == f.occurredAt
    ensures e.previousHash.GetOr(GENESIS_HASH) == f.previousHash.GetOr(GENESIS_HASH)
  {
    hide OfInt;
    var _ := (Hashed(e, 9), Hashed(e, 10), Hashed(e, 11), Hashed(e, 12));
    var _ := (Hashed(e, 13), Hashed(e, 14), Hashed(e, 16), Hashed(e, 17));
  }

  predicate IsLeaf(v: Value) {
    v.Null? || v.Bool? || v.Str? || (v.Num? && Legible(v.n))
  }

  lemma SameLeaf(v: Value, w: Value)
    requires IsLeaf(v) && IsLeaf(w)
    ensures Same(Normal(v), Normal(w)) <==> v == w
  {
  }

  lemma HashedLeaf(e: Event, i: nat)
    requires i < 18 && i != 15
    ensures IsLeaf(Hashed(e, i))
  {
    hide OfInt;
  }

  lemma AgreeingFields(e: Event, f: Event)
    requires Agree(e, f)
    ensures forall i {:trigger Hashed(e, i)} {:trigger Hashed(f, i)} :: 0 <= i < 18 ==>
              Same(Normal(Hashed(e, i)), Normal(Hashed(f, i)))
  {
    hide Same, Normal;
    forall i | 0 <= i < 18 ensures Same(Normal(Hashed(e, i)), Normal(Hashed(f, i))) {
      if i != 15 {
        assert Hashed(e, i) == Hashed(f, i);
        HashedLeaf(e, i);
        SameLeaf(Hashed(e, i), Hashed(f, i));
      }
    }
  }

  lemma AgreeingData(e: Event, f: Event)
    requires Agree(e, f)
    ensures Same(Normal(CanonicalData(e)), Normal(CanonicalData(f)))
  {
    hide *;
    AgreeingFields(e, f);
    DataFields(e);
    DataFields(f);
    SameNormalObject(CanonicalData(e), CanonicalData(f));
  }

  lemma LinksAt(hash: string -> string, events: seq<Event>, start: string, i: nat)
    requires Accepted(hash, events, start) && i < |events|
    ensures events[i].previousHash.GetOr(GENESIS_HASH) == Link(start, events, i)
    ensures events[i].eventHash == Some(EventHash(hash, events[i]))
  {
    hide EventHash;
    assert SoundAt(hash, events, start, i);
  }

  lemma AgreeLink(e: Event, f: Event)
    requires Agree(e, f)
    ensures e.previousHash.GetOr(GENESIS_HASH) == f.previousHash.GetOr(GENESIS_HASH)
  {
  }

  /** Events that two accepted chains have in common are common back to the start: if the hashes at
      `i` and `j` are the same, then so are the hashed fields of every pair at equal distance before. */
  lemma {:induction false} AgreeBackwards(
    hash: string -> string, a: seq<Event>, b: seq<Event>, start: string, i: nat, j: nat, n: nat)
    requires Injective(hash) && Accepted(hash, a, start) && Accepted(hash, b, start)
    requires forall e :: e in a + b ==> WellFormed(e.metadata)
    requires i < |a| && j < |b| && n <= i && n <= j
    requires a[i].eventHash == b[j].eventHash
    ensures Agree(a[i - n], b[j - n]) && a[i - n].eventHash == b[j - n].eventHash
  {
    hide EventHash, Accepted, Agree, WellFormed;
    if n > 0 {
      AgreeBackwards(hash, a, b, start, i, j, n - 1);
      LinksAt(hash, a, start, i - n + 1);
      LinksAt(hash, b, start, j - n + 1);
      AgreeLink(a[i - n + 1], b[j - n + 1]);
    }
    LinksAt(hash, a, start, i - n);
    LinksAt(hash, b, start, j - n);
    assert a[i - n] in a + b && b[j - n] in a + b;
    HashCommits(hash, a[i - n], b[j - n]);
  }

  /** Two histories of equal length, accepted from the same start and ending in the same hash, agree
      on every hashed field of every event. */
  lemma ChainCommits(hash: string -> string, a: seq<Event>, b: seq<Event>, start: string)
    requires Injective(hash) && Accepted(hash, a, start) && Accepted(hash, b, start)
    requires forall e :: e in a + b ==> WellFormed(e.metadata)
    requires |a| == |b| > 0 && a[|a| - 1].eventHash == b[|b| - 1].eventHash
    ensures forall i :: 0 <= i < |a| ==> Agree(a[i], b[i])
  {
    forall i | 0 <= i < |a| ensures Agree(a[i], b[i]) {
      AgreeBackwards(hash, a, b, start, |a| - 1, |b| - 1, |a| - 1 - i);
    }
  }

  /** When no event hashes to the start value, equal final hashes alone force equal lengths, so the
      final hash commits to the whole history. */
  lemma FinalHashCommits(hash: string -> string, a: seq<Event>, b: seq<Event>, start: string)
    requires Injective(hash) && Accepted(hash, a, start) && Accepted(hash, b, start)
    requires forall e :: e in a + b ==> WellFormed(e.metadata)
    requires forall e :: e in a + b ==> EventHash(hash, e) != start
    requires |a| > 0 && |b| > 0 && a[|a| - 1].eventHash == b[|b| - 1].eventHash
    ensures |a| == |b| && forall i :: 0 <= i < |a| ==> Agree(a[i], b[i])
  {
    if |a| < |b| {
      NoLongerHistory(hash, a, b, start);
    } else if |b| < |a| {
      assert forall e :: e in b + a ==> e in a + b;
      NoLongerHistory(hash, b, a, start);
    } else {
      ChainCommits(hash, a, b, start);
    }
  }

  lemma NoLongerHistory(hash: string -> string, a: seq<Event>, b: seq<Event>, start: string)
    requires Injective(hash) && Accepted(hash, a, start) && Accepted(hash, b, start)
    requires forall e :: e in a + b ==> WellFormed(e.metadata)
    requires forall e :: e in a + b ==> EventHash(hash, e) != start
    requires 0 < |a| < |b|
    ensures a[|a| - 1].eventHash != b[|b| - 1].eventHash
  {
    hide EventHash, Accepted, WellFormed, Agree;
    var d := |b| - |a|;
    assert b[d - 1] in a + b;
    if a[|a| - 1].eventHash == b[|b| - 1].eventHash {
      AgreeBackwards(hash, a, b, start, |a| - 1, |b| - 1, |a| - 1);
      LinksAt(hash, a, start, 0);
      LinksAt(hash, b, start, d);
      LinksAt(hash, b, start, d - 1);
      AgreeLink(a[0], b[d]);
      assert false;
    }
  }
}
