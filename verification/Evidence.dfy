/** The evidence ledger: a bounded store of observations, one monotonic stream
    per key, with an index of the newest sequence of every stream. */
module Evidence {
  import opened Identity
  import Ordering

  datatype EvidenceKind =
    | AdmissionWasClosed | ObligationEvacuated | ObligationReleased | FlowQuiesced | PathAvailable
    | PathLost | CapacityAvailable | ResourceRemoved | ResourceRestored
  {
    function Rank(): nat {
      match this
      case AdmissionWasClosed => 0
      case ObligationEvacuated => 1
      case ObligationReleased => 2
      case FlowQuiesced => 3
      case PathAvailable => 4
      case PathLost => 5
      case CapacityAvailable => 6
      case ResourceRemoved => 7
      case ResourceRestored => 8
    }
  }

  /** Identity of one stream. */
  datatype EvidenceKey =
    EvidenceKey(kind: EvidenceKind, drain: DrainId, obligation: ObligationId, resource: ResourceId)

  /** Storage key of one record: sequences are only unique within a stream. */
  datatype RecordKey = RecordKey(key: EvidenceKey, number: EvidenceSeq)

  datatype Observation = Observation(
    number: EvidenceSeq, key: EvidenceKey, generation: Generation, epoch: nat, producer: nat,
    authority: AuthorityId, observedAt: Time, expiresAt: Time, healthy: bool, quantity: nat,
    attested: bool)

  /** The live line the ledger checks against. */
  datatype EvidenceFence = EvidenceFence(incarnation: nat, epoch: nat, now: Time, skew: int)

  datatype Ledger = Ledger(
    records: map<RecordKey, Observation>, latest: map<EvidenceKey, EvidenceSeq>,
    maxRecords: nat, globalHighWater: EvidenceSeq)

  datatype Refusal = FutureObservation | StaleEpoch | StaleIncarnation | DuplicateIdentity | AtCapacity

  datatype RecordOutcome = Recorded(ledger: Ledger, observation: Observation) | Refused(why: Refusal)

  const EMPTY: Ledger := Ledger(map[], map[], 200000, 0)

  // ---- Record order -----------------------------------------------------------

  predicate KeyLess(a: EvidenceKey, b: EvidenceKey) {
    if a.kind != b.kind then a.kind.Rank() < b.kind.Rank()
    else if a.drain != b.drain then a.drain < b.drain
    else if a.obligation != b.obligation then a.obligation < b.obligation
    else Ordering.StringLess(a.resource, b.resource)
  }

  predicate RecordLess(a: RecordKey, b: RecordKey) {
    KeyLess(a.key, b.key) || (!KeyLess(b.key, a.key) && a.number < b.number)
  }

  lemma RecordLessTotal(a: RecordKey, b: RecordKey)
    ensures a != b ==> RecordLess(a, b) || RecordLess(b, a)
    ensures !(RecordLess(a, b) && RecordLess(b, a))
    ensures !KeyLess(a.key, b.key) && !KeyLess(b.key, a.key) ==> a.key == b.key
  {
    Ordering.StringLessTotal(a.key.resource, b.key.resource);
  }

  lemma RecordLessTransitive(a: RecordKey, b: RecordKey, c: RecordKey)
    requires RecordLess(a, b) && RecordLess(b, c)
    ensures RecordLess(a, c)
  {
    RecordLessTotal(a, b);
    RecordLessTotal(b, c);
    RecordLessTotal(a, c);
    if Ordering.StringLess(a.key.resource, b.key.resource) && Ordering.StringLess(b.key.resource, c.key.resource) {
      Ordering.StringLessTransitive(a.key.resource, b.key.resource, c.key.resource);
    }
  }

  /** The first element of a record set in iteration order. */
  predicate IsFirst(s: set<RecordKey>, x: RecordKey) {
    x in s && forall y | y in s :: y == x || RecordLess(x, y)
  }

  lemma {:induction false} FirstExists(s: set<RecordKey>)
    requires s != {}
    ensures exists x :: IsFirst(s, x)
    decreases |s|
  {
    var a :| a in s;
    var rest := s - {a};
    assert s == rest + {a};
    if rest == {} {
      assert IsFirst(s, a);
    } else {
      FirstExists(rest);
      var m :| IsFirst(rest, m);
      RecordLessTotal(a, m);
      if RecordLess(a, m) {
        forall y | y in s ensures y == a || RecordLess(a, y) {
          if y in rest && y != m {
            RecordLessTransitive(a, m, y);
          }
        }
        assert IsFirst(s, a);
      } else {
        assert IsFirst(s, m);
      }
    }
  }

  lemma FirstUnique(s: set<RecordKey>, x: RecordKey, y: RecordKey)
    requires IsFirst(s, x) && IsFirst(s, y)
    ensures x == y
  {
    RecordLessTotal(x, y);
  }

  function First(s: set<RecordKey>): RecordKey
    requires s != {}
  {
    FirstExists(s);
    assert forall x, y | IsFirst(s, x) && IsFirst(s, y) :: x == y by {
      forall x, y | IsFirst(s, x) && IsFirst(s, y) ensures x == y {
        FirstUnique(s, x, y);
      }
    }
    var x :| x in s && IsFirst(s, x);
    x
  }

  /** The record map as its iteration visits it: by stream, then by sequence. */
  function Order(s: set<RecordKey>): seq<RecordKey>
    decreases |s|
  {
    if s == {} then [] else [First(s)] + Order(s - {First(s)})
  }

  lemma {:induction false} OrderFacts(s: set<RecordKey>)
    ensures |Order(s)| == |s|
    ensures forall k :: k in Order(s) <==> k in s
    ensures forall i, j :: 0 <= i < j < |Order(s)| ==> RecordLess(Order(s)[i], Order(s)[j])
    decreases |s|
  {
    if s != {} {
      var rest := Order(s - {First(s)});
      OrderFacts(s - {First(s)});
      assert Order(s) == [First(s)] + rest;
      forall j | 1 <= j < |Order(s)| ensures RecordLess(Order(s)[0], Order(s)[j]) {
        assert rest[j - 1] in rest;
      }
    }
  }

  // ---- Specification of the operations ------------------------------------------

  /** A record that a newer one on its own stream has superseded. */
  predicate Superseded(l: Ledger, k: RecordKey) {
    k.key in l.latest && l.latest[k.key] != k.number
  }

  function StreamRecords(l: Ledger, key: EvidenceKey): set<RecordKey> {
    set k | k in l.records.Keys && k.key == key
  }

  function SupersededRecords(l: Ledger): set<RecordKey> {
    set k | k in l.records.Keys && Superseded(l, k)
  }

  /** The record given up for an incoming one on stream `incoming`: the first
      of that stream in map order, else the first superseded record. */
  function Victim(l: Ledger, incoming: EvidenceKey): Option<RecordKey> {
    if StreamRecords(l, incoming) != {} then Some(First(StreamRecords(l, incoming)))
    else if SupersededRecords(l) != {} then Some(First(SupersededRecords(l)))
    else None
  }

  /** The victim is the oldest record of the incoming stream when it has one,
      otherwise a superseded record; there is none exactly when every stored
      record is the current one of another stream. */
  lemma VictimFacts(l: Ledger, incoming: EvidenceKey)
    ensures var v := Victim(l, incoming);
            && (v.Some? ==> v.value in l.records)
            && (v.Some? && v.value.key != incoming ==> Superseded(l, v.value))
            && (v.Some? && v.value.key == incoming ==>
                  forall k :: k in l.records && k.key == incoming ==> v.value.number <= k.number)
            && (v.None? <==> forall k :: k in l.records ==> k.key != incoming && !Superseded(l, k))
  {
    if StreamRecords(l, incoming) != {} {
      var v := First(StreamRecords(l, incoming));
      assert IsFirst(StreamRecords(l, incoming), v);
      forall k | k in l.records && k.key == incoming ensures v.number <= k.number {
        assert k in StreamRecords(l, incoming);
        RecordLessTotal(v, k);
      }
    } else if SupersededRecords(l) != {} {
      var v := First(SupersededRecords(l));
      assert IsFirst(SupersededRecords(l), v);
    }
    forall k | k in l.records
      ensures k.key == incoming ==> k in StreamRecords(l, incoming)
      ensures Superseded(l, k) ==> k in SupersededRecords(l)
    {
    }
  }

  function Screen(l: Ledger, draft: Observation, fence: EvidenceFence, requireLive: bool): Option<Refusal> {
    if draft.observedAt > SaturatingAdd(fence.now, fence.skew) then Some(FutureObservation)
    else if draft.epoch != fence.epoch then Some(StaleEpoch)
    else if requireLive && draft.producer != fence.incarnation then Some(StaleIncarnation)
    else if draft.key in l.latest && draft.number <= l.latest[draft.key] then Some(DuplicateIdentity)
    else None
  }

  /** Drops the retired record, if any, and stores the new one. */
  function Store(l: Ledger, retired: Option<RecordKey>, o: Observation): Ledger {
    var kept := if retired.Some? then l.records - {retired.value} else l.records;
    l.(records := kept[RecordKey(o.key, o.number) := o],
       latest := l.latest[o.key := o.number],
       globalHighWater := if l.globalHighWater < o.number then o.number else l.globalHighWater)
  }

  /** `EvidenceLedger::record`. */
  function Record(l: Ledger, draft: Observation, fence: EvidenceFence, requireLive: bool): RecordOutcome {
    var screened := Screen(l, draft, fence, requireLive);
    var full := |l.records| >= l.maxRecords;
    var victim := Victim(l, draft.key);
    var rk := RecordKey(draft.key, draft.number);
    if screened.Some? then Refused(screened.value)
    else if full && victim.None? then Refused(AtCapacity)
    else if rk in l.records && !(full && victim.value == rk) then Refused(DuplicateIdentity)
    else
      var stored := draft.(attested := true);
      Recorded(Store(l, if full then victim else None, stored), stored)
  }

  function QuarantineAll(l: Ledger): Ledger {
    l.(records := map k | k in l.records :: l.records[k].(attested := false))
  }

  /** `EvidenceLedger::attest`: only a record of the live epoch and incarnation. */
  function Attest(l: Ledger, key: EvidenceKey, number: EvidenceSeq, fence: EvidenceFence): Option<Ledger> {
    var rk := RecordKey(key, number);
    if rk !in l.records then None
    else if l.records[rk].epoch != fence.epoch then None
    else if l.records[rk].producer != fence.incarnation then None
    else Some(l.(records := l.records[rk := l.records[rk].(attested := true)]))
  }

  function Find(l: Ledger, key: EvidenceKey, number: EvidenceSeq): Option<Observation> {
    var rk := RecordKey(key, number);
    if rk in l.records then Some(l.records[rk]) else None
  }

  function Latest(l: Ledger, key: EvidenceKey): Option<Observation> {
    if key in l.latest then Find(l, key, l.latest[key]) else None
  }

  predicate IsFresh(o: Observation, fence: EvidenceFence, freshness: int) {
    && o.attested
    && o.epoch == fence.epoch
    && o.observedAt <= SaturatingAdd(fence.now, fence.skew)
    && freshness > 0
    && fence.now <= SaturatingAdd(o.observedAt, freshness)
  }

  function Fresh(l: Ledger, key: EvidenceKey, fence: EvidenceFence, freshness: int): Option<Observation> {
    var candidate := Latest(l, key);
    if candidate.Some? && IsFresh(candidate.value, fence, freshness) then candidate else None
  }

  function HighWater(l: Ledger, key: EvidenceKey): EvidenceSeq {
    if key in l.latest then l.latest[key] else 0
  }

  // ---- Index agreement ------------------------------------------------------------

  /** The index and the records agree: every record is filed under its own
      identity at or below its stream's index entry, and the record the index
      points at is stored. */
  ghost predicate Consistent(l: Ledger) {
    && (forall k :: k in l.records ==> Filed(l, k))
    && (forall k :: k in l.latest ==> Indexed(l, k))
  }

  predicate Filed(l: Ledger, k: RecordKey)
    requires k in l.records
  {
    && l.records[k].key == k.key && l.records[k].number == k.number
    && k.key in l.latest && k.number <= l.latest[k.key]
  }

  predicate Indexed(l: Ledger, key: EvidenceKey)
    requires key in l.latest
  {
    RecordKey(key, l.latest[key]) in l.records && l.latest[key] <= l.globalHighWater
  }

  predicate Retirable(l: Ledger, k: RecordKey, incoming: EvidenceKey) {
    k in l.records && (k.key == incoming || Superseded(l, k))
  }

  lemma StoreKeepsIndex(l: Ledger, retired: Option<RecordKey>, o: Observation)
    requires Consistent(l)
    requires retired.Some? ==> Retirable(l, retired.value, o.key)
    requires o.key in l.latest ==> o.number > l.latest[o.key]
    ensures Consistent(Store(l, retired, o))
  {
    var l' := Store(l, retired, o);
    forall k | k in l'.records ensures Filed(l', k) {
      if k != RecordKey(o.key, o.number) {
        assert Filed(l, k);
      }
    }
    forall k | k in l'.latest ensures Indexed(l', k) {
      if k != o.key {
        assert Indexed(l, k);
      }
    }
  }

  lemma StoreSize(l: Ledger, retired: Option<RecordKey>, o: Observation)
    requires retired.Some? ==> retired.value in l.records
    ensures |Store(l, retired, o).records| <= |l.records| + (if retired.Some? then 0 else 1)
  {
    var l' := Store(l, retired, o);
    var kept := if retired.Some? then l.records - {retired.value} else l.records;
    if retired.Some? {
      assert kept.Keys == l.records.Keys - {retired.value};
    }
    assert l'.records.Keys == kept.Keys + {RecordKey(o.key, o.number)};
  }

  /** Accepting a record keeps the index exact, moves only its own stream
      forward, and never grows the store past its bound. */
  lemma RecordKeepsIndex(l: Ledger, draft: Observation, fence: EvidenceFence, requireLive: bool)
    requires Consistent(l)
    requires Record(l, draft, fence, requireLive).Recorded?
    ensures Consistent(Record(l, draft, fence, requireLive).ledger)
    ensures Record(l, draft, fence, requireLive).ledger.latest == l.latest[draft.key := draft.number]
    ensures |Record(l, draft, fence, requireLive).ledger.records|
            <= (if |l.records| < l.maxRecords then l.maxRecords else |l.records|)
    ensures draft.key in l.latest ==> draft.number > l.latest[draft.key]
  {
    VictimFacts(l, draft.key);
    var retired := if |l.records| >= l.maxRecords then Victim(l, draft.key) else None;
    StoreKeepsIndex(l, retired, draft.(attested := true));
    StoreSize(l, retired, draft.(attested := true));
  }

  /** With a consistent ledger the capacity refusal is the only one left once a
      draft has passed the screen, and it happens exactly when the store is full
      and holds nothing but current records of other streams. */
  lemma RecordRefusal(l: Ledger, draft: Observation, fence: EvidenceFence, requireLive: bool)
    requires Consistent(l)
    requires Screen(l, draft, fence, requireLive).None?
    ensures Record(l, draft, fence, requireLive).Refused? <==>
              |l.records| >= l.maxRecords && forall k :: k in l.records ==> !Retirable(l, k, draft.key)
    ensures Record(l, draft, fence, requireLive).Refused? ==>
              Record(l, draft, fence, requireLive).why == AtCapacity
  {
    VictimFacts(l, draft.key);
    var rk := RecordKey(draft.key, draft.number);
    assert rk !in l.records;
  }

  /** An observation is taken exactly when it is not from beyond the skew, of the live
      epoch and, if asked, of the live incarnation, newer than everything of its stream,
      and the store has room or something it can give up. */
  lemma RecordIff(l: Ledger, draft: Observation, fence: EvidenceFence, requireLive: bool)
    requires Consistent(l)
    ensures Record(l, draft, fence, requireLive).Recorded? <==>
              && draft.observedAt <= SaturatingAdd(fence.now, fence.skew)
              && draft.epoch == fence.epoch && (requireLive ==> draft.producer == fence.incarnation)
              && (forall k :: k in l.records && k.key == draft.key ==> k.number < draft.number)
              && (|l.records| < l.maxRecords || exists k :: Retirable(l, k, draft.key))
  {
    if draft.key in l.latest {
      assert Indexed(l, draft.key);
    }
    assert (draft.key in l.latest && draft.number <= l.latest[draft.key]) <==>
           exists k :: k in l.records && k.key == draft.key && draft.number <= k.number by {
      forall k | k in l.records && k.key == draft.key ensures k.key in l.latest && k.number <= l.latest[k.key] {
        assert Filed(l, k);
      }
      if draft.key in l.latest {
        assert RecordKey(draft.key, l.latest[draft.key]) in l.records;
      }
    }
    if Screen(l, draft, fence, requireLive).None? {
      RecordRefusal(l, draft, fence, requireLive);
    }
  }

  /** The record that gives way to one of the stream: the oldest of that stream, or,
      when the stream has none, a superseded one. */
  ghost predicate GivesWay(l: Ledger, v: RecordKey, incoming: EvidenceKey) {
    && v in l.records
    && if exists k :: k in l.records && k.key == incoming
       then v.key == incoming && forall k :: k in l.records && k.key == incoming ==> v.number <= k.number
       else Superseded(l, v)
  }

  /** What is taken is stored as drafted, attested, as the newest of its stream; of the
      rest nothing changes, except that a full store gives up one record. */
  lemma RecordStores(l: Ledger, draft: Observation, fence: EvidenceFence, requireLive: bool)
    requires Consistent(l) && Record(l, draft, fence, requireLive).Recorded?
    ensures var l', rk := Record(l, draft, fence, requireLive).ledger, RecordKey(draft.key, draft.number);
            && rk in l'.records && l'.records[rk] == draft.(attested := true)
            && Record(l, draft, fence, requireLive).observation == draft.(attested := true)
            && (forall k :: k in l'.records && k != rk ==> k in l.records && l'.records[k] == l.records[k])
            && l'.latest == l.latest[draft.key := draft.number] && l'.maxRecords == l.maxRecords
            && l'.globalHighWater == (if l.globalHighWater < draft.number then draft.number else l.globalHighWater)
            && if |l.records| < l.maxRecords then l.records.Keys <= l'.records.Keys
               else exists v :: GivesWay(l, v, draft.key) && l'.records.Keys == l.records.Keys - {v} + {rk}
  {
    VictimFacts(l, draft.key);
    if |l.records| >= l.maxRecords {
      var v := Victim(l, draft.key).value;
      VictimGivesWay(l, draft.key);
      var kept := l.records - {v};
      assert kept.Keys == l.records.Keys - {v};
      assert Record(l, draft, fence, requireLive).ledger.records.Keys
          == l.records.Keys - {v} + {RecordKey(draft.key, draft.number)};
    }
  }

  lemma VictimGivesWay(l: Ledger, incoming: EvidenceKey)
    requires Victim(l, incoming).Some?
    ensures GivesWay(l, Victim(l, incoming).value, incoming)
  {
    VictimFacts(l, incoming);
    if k :| k in l.records && k.key == incoming {
      assert k in StreamRecords(l, incoming);
    } else {
      assert StreamRecords(l, incoming) == {};
    }
  }

  /** A stored record of the live line is attested on request, and nothing else changes. */
  lemma AttestIff(l: Ledger, key: EvidenceKey, number: EvidenceSeq, fence: EvidenceFence)
    ensures var rk := RecordKey(key, number);
            && (Attest(l, key, number, fence).Some? <==>
                  && rk in l.records && l.records[rk].epoch == fence.epoch
                  && l.records[rk].producer == fence.incarnation)
            && (Attest(l, key, number, fence).Some? ==>
                  Attest(l, key, number, fence).value
                  == l.(records := l.records[rk := l.records[rk].(attested := true)]))
  {
  }

  lemma AttestKeepsIndex(l: Ledger, key: EvidenceKey, number: EvidenceSeq, fence: EvidenceFence)
    requires Consistent(l)
    requires Attest(l, key, number, fence).Some?
    ensures Consistent(Attest(l, key, number, fence).value)
    ensures Attest(l, key, number, fence).value.latest == l.latest
    ensures Attest(l, key, number, fence).value.records.Keys == l.records.Keys
  {
  }

  lemma QuarantineKeepsIndex(l: Ledger)
    requires Consistent(l)
    ensures Consistent(QuarantineAll(l))
    ensures QuarantineAll(l).records.Keys == l.records.Keys
    ensures forall k :: k in QuarantineAll(l).records ==> !QuarantineAll(l).records[k].attested
  {
  }

  // ---- Whole histories --------------------------------------------------------------

  datatype LedgerOp =
    | RecordOp(draft: Observation, fence: EvidenceFence, requireLive: bool)
    | AttestOp(key: EvidenceKey, number: EvidenceSeq, attestFence: EvidenceFence)
    | QuarantineOp
    | SetMaxOp(max: nat)

  function ApplyOp(l: Ledger, op: LedgerOp): Ledger {
    match op
    case RecordOp(draft, fence, live) =>
      var r := Record(l, draft, fence, live);
      if r.Recorded? then r.ledger else l
    case AttestOp(key, s, fence) =>
      var r := Attest(l, key, s, fence);
      if r.Some? then r.value else l
    case QuarantineOp => QuarantineAll(l)
    case SetMaxOp(max) => l.(maxRecords := max)
  }

  function ApplyAll(ops: seq<LedgerOp>): Ledger {
    if ops == [] then EMPTY else ApplyOp(ApplyAll(ops[..|ops| - 1]), ops[|ops| - 1])
  }

  /** The sequences a history accepted on one stream, oldest first. */
  function Accepted(ops: seq<LedgerOp>, key: EvidenceKey): seq<EvidenceSeq> {
    if ops == [] then []
    else
      var before := ops[..|ops| - 1];
      var last := ops[|ops| - 1];
      if last.RecordOp? && last.draft.key == key
         && Record(ApplyAll(before), last.draft, last.fence, last.requireLive).Recorded?
      then Accepted(before, key) + [last.draft.number]
      else Accepted(before, key)
  }

  /** Largest record bound a history ever configured. */
  function LargestMax(ops: seq<LedgerOp>): nat {
    if ops == [] then EMPTY.maxRecords
    else
      var m := LargestMax(ops[..|ops| - 1]);
      var last := ops[|ops| - 1];
      if last.SetMaxOp? && last.max > m then last.max else m
  }

  lemma ApplyKeepsIndex(l: Ledger, op: LedgerOp)
    requires Consistent(l)
    ensures Consistent(ApplyOp(l, op))
    ensures |ApplyOp(l, op).records| <= (if |l.records| < l.maxRecords then l.maxRecords else |l.records|)
  {
    match op
    case RecordOp(draft, fence, live) =>
      if Record(l, draft, fence, live).Recorded? {
        RecordKeepsIndex(l, draft, fence, live);
      }
    case AttestOp(k, s, fence) =>
      if Attest(l, k, s, fence).Some? {
        AttestKeepsIndex(l, k, s, fence);
      }
    case QuarantineOp =>
      QuarantineKeepsIndex(l);
      assert |QuarantineAll(l).records.Keys| == |l.records.Keys|;
    case SetMaxOp(max) =>
      assert forall k :: k in l.records ==> Filed(l, k);
      assert forall k :: k in l.latest ==> Indexed(l, k);
  }

  lemma {:induction false} HistoryConsistent(ops: seq<LedgerOp>)
    ensures Consistent(ApplyAll(ops))
    ensures ApplyAll(ops).maxRecords <= LargestMax(ops)
    ensures |ApplyAll(ops).records| <= LargestMax(ops)
  {
    if ops != [] {
      HistoryConsistent(ops[..|ops| - 1]);
      ApplyKeepsIndex(ApplyAll(ops[..|ops| - 1]), ops[|ops| - 1]);
    }
  }

  /** `a` is what a stream accepted and `l` indexes its last element. */
  ghost predicate IndexedBy(l: Ledger, key: EvidenceKey, a: seq<EvidenceSeq>) {
    && (forall i, j :: 0 <= i < j < |a| ==> a[i] < a[j])
    && (key in l.latest <==> a != [])
    && (a != [] ==> l.latest[key] == a[|a| - 1])
  }

  lemma ApplyMovesIndex(l: Ledger, op: LedgerOp, key: EvidenceKey, a: seq<EvidenceSeq>)
    requires Consistent(l)
    requires IndexedBy(l, key, a)
    ensures op.RecordOp? && op.draft.key == key && Record(l, op.draft, op.fence, op.requireLive).Recorded?
            ==> IndexedBy(ApplyOp(l, op), key, a + [op.draft.number])
    ensures !(op.RecordOp? && op.draft.key == key && Record(l, op.draft, op.fence, op.requireLive).Recorded?)
            ==> IndexedBy(ApplyOp(l, op), key, a)
  {
    if op.RecordOp? && Record(l, op.draft, op.fence, op.requireLive).Recorded? {
      RecordKeepsIndex(l, op.draft, op.fence, op.requireLive);
      IndexMoves(l, ApplyOp(l, op), op.draft.key, op.draft.number, key, a);
    }
  }

  lemma IndexMoves(l: Ledger, l': Ledger, moved: EvidenceKey, number: EvidenceSeq, key: EvidenceKey,
                   a: seq<EvidenceSeq>)
    requires IndexedBy(l, key, a) && l'.latest == l.latest[moved := number]
    requires moved in l.latest ==> number > l.latest[moved]
    ensures IndexedBy(l', key, if moved == key then a + [number] else a)
  {
  }

  lemma {:induction false} HistoryIndexed(ops: seq<LedgerOp>, key: EvidenceKey)
    ensures IndexedBy(ApplyAll(ops), key, Accepted(ops, key))
  {
    if ops != [] {
      var before := ops[..|ops| - 1];
      HistoryIndexed(before, key);
      HistoryConsistent(before);
      ApplyMovesIndex(ApplyAll(before), ops[|ops| - 1], key, Accepted(before, key));
    }
  }

  /** Index refinement over every history of operations: a stream is indexed
      exactly when something was accepted on it, its index is the last and
      largest sequence ever accepted there, and that record is still stored. */
  lemma IndexIsLargestAccepted(ops: seq<LedgerOp>, key: EvidenceKey)
    ensures key in ApplyAll(ops).latest <==> Accepted(ops, key) != []
    ensures forall i, j :: 0 <= i < j < |Accepted(ops, key)| ==> Accepted(ops, key)[i] < Accepted(ops, key)[j]
    ensures key in ApplyAll(ops).latest ==>
              && ApplyAll(ops).latest[key] == Accepted(ops, key)[|Accepted(ops, key)| - 1]
              && RecordKey(key, ApplyAll(ops).latest[key]) in ApplyAll(ops).records
  {
    HistoryIndexed(ops, key);
    HistoryConsistent(ops);
    if key in ApplyAll(ops).latest {
      assert Indexed(ApplyAll(ops), key);
    }
  }

  // ---- Save and load ----------------------------------------------------------------

  function Listed(l: Ledger, order: seq<RecordKey>): seq<Observation>
    requires forall i :: 0 <= i < |order| ==> order[i] in l.records
  {
    seq(|order|, i requires 0 <= i < |order| => l.records[order[i]])
  }

  /** What `to_json` writes: the records in map order. */
  function Save(l: Ledger): seq<Observation> {
    OrderFacts(l.records.Keys);
    assert forall i :: 0 <= i < |Order(l.records.Keys)| ==> Order(l.records.Keys)[i] in Order(l.records.Keys);
    Listed(l, Order(l.records.Keys))
  }

  datatype LoadState = LoadState(
    records: map<RecordKey, Observation>, latest: map<EvidenceKey, EvidenceSeq>, high: EvidenceSeq)

  /** One entry of `load_from_json`: quarantined, and refused when its sequence
      is zero or does not advance its stream. */
  function LoadEntry(s: LoadState, o: Observation): Option<LoadState> {
    if o.number == 0 then None
    else if o.key in s.latest && o.number <= s.latest[o.key] then None
    else if RecordKey(o.key, o.number) in s.records then None
    else Some(LoadState(
           s.records[RecordKey(o.key, o.number) := o.(attested := false)],
           s.latest[o.key := o.number],
           if s.high < o.number then o.number else s.high))
  }

  function LoadAll(items: seq<Observation>): Option<LoadState> {
    if items == [] then Some(LoadState(map[], map[], 0))
    else
      var before := LoadAll(items[..|items| - 1]);
      if before.None? then None else LoadEntry(before.value, items[|items| - 1])
  }

  function Load(items: seq<Observation>, declared: EvidenceSeq, maxRecords: nat): Option<Ledger> {
    if |items| > maxRecords then None
    else
      var loaded := LoadAll(items);
      if loaded.None? || declared < loaded.value.high then None
      else Some(Ledger(loaded.value.records, loaded.value.latest, maxRecords, declared))
  }

  /** Within each stream the listed sequences grow, and none is zero. */
  ghost predicate Loadable(items: seq<Observation>) {
    && (forall i :: 0 <= i < |items| ==> items[i].number != 0)
    && (forall i, j :: 0 <= i < j < |items| && items[i].key == items[j].key ==> items[i].number < items[j].number)
  }

  function KeyOf(o: Observation): RecordKey {
    RecordKey(o.key, o.number)
  }

  ghost predicate Lists(items: seq<Observation>, k: RecordKey) {
    exists i :: 0 <= i < |items| && KeyOf(items[i]) == k
  }

  /** Each item is stored once, quarantined, and nothing else is. */
  ghost predicate HoldsRecords(items: seq<Observation>, records: map<RecordKey, Observation>) {
    && (forall i :: 0 <= i < |items| ==>
          KeyOf(items[i]) in records && records[KeyOf(items[i])] == items[i].(attested := false))
    && (forall k :: k in records ==> Lists(items, k))
  }

  /** The index holds the largest sequence of every stream listed. */
  ghost predicate HoldsLatest(items: seq<Observation>, latest: map<EvidenceKey, EvidenceSeq>) {
    && (forall i :: 0 <= i < |items| ==> items[i].key in latest && items[i].number <= latest[items[i].key])
    && (forall key :: key in latest ==> Lists(items, RecordKey(key, latest[key])))
  }

  ghost predicate HoldsHigh(items: seq<Observation>, high: EvidenceSeq) {
    && (forall i :: 0 <= i < |items| ==> items[i].number <= high)
    && (high == 0 || exists i :: 0 <= i < |items| && items[i].number == high)
  }

  ghost predicate Holds(items: seq<Observation>, s: LoadState) {
    HoldsRecords(items, s.records) && HoldsLatest(items, s.latest) && HoldsHigh(items, s.high)
  }

  lemma {:induction false} LoadAllIff(items: seq<Observation>)
    ensures LoadAll(items).Some? <==> Loadable(items)
    ensures LoadAll(items).Some? ==> Holds(items, LoadAll(items).value)
    decreases |items|
  {
    if items != [] {
      var n := |items| - 1;
      LoadAllIff(items[..n]);
      LoadsNext(items, items[..n], items[n], LoadAll(items[..n]));
    }
  }

  lemma LoadsNext(items: seq<Observation>, first: seq<Observation>, last: Observation, before: Option<LoadState>)
    requires items != [] && first == items[..|items| - 1] && last == items[|items| - 1]
    requires (before.Some? <==> Loadable(first)) && (before.Some? ==> Holds(first, before.value))
    ensures before.Some? && LoadEntry(before.value, last).Some? <==> Loadable(items)
    ensures before.Some? && LoadEntry(before.value, last).Some? ==> Holds(items, LoadEntry(before.value, last).value)
  {
    LoadableNext(items, first);
    if before.Some? {
      EntryIff(first, last, before.value);
      if LoadEntry(before.value, last).Some? {
        HoldsNext(items, first, before.value);
      }
    }
  }

  /** The last item is newer than everything of its stream. */
  ghost predicate Grows(first: seq<Observation>, last: Observation) {
    last.number != 0 && forall i :: 0 <= i < |first| && first[i].key == last.key ==> first[i].number < last.number
  }

  lemma LoadableNext(items: seq<Observation>, first: seq<Observation>)
    requires items != [] && first == items[..|items| - 1]
    ensures Loadable(items) <==> Loadable(first) && Grows(first, items[|items| - 1])
  {
    var n := |items| - 1;
    if Loadable(first) && Grows(first, items[n]) {
      forall i, j | 0 <= i < j < |items| && items[i].key == items[j].key ensures items[i].number < items[j].number {
        assert items[i] == first[i];
        assert j < n ==> items[j] == first[j];
      }
      forall i | 0 <= i < |items| ensures items[i].number != 0 {
        assert i < n ==> items[i] == first[i];
      }
    }
  }

  lemma EntryIff(first: seq<Observation>, last: Observation, s: LoadState)
    requires HoldsRecords(first, s.records) && HoldsLatest(first, s.latest)
    ensures LoadEntry(s, last).Some? <==> Grows(first, last)
  {
    NewestIff(first, last, s.latest);
    if KeyOf(last) in s.records {
      assert Lists(first, KeyOf(last));
      var i :| 0 <= i < |first| && KeyOf(first[i]) == KeyOf(last);
      assert first[i].number <= s.latest[last.key];
    }
  }

  lemma NewestIff(first: seq<Observation>, last: Observation, latest: map<EvidenceKey, EvidenceSeq>)
    requires HoldsLatest(first, latest)
    ensures (last.key in latest ==> latest[last.key] < last.number) <==>
            (forall i :: 0 <= i < |first| && first[i].key == last.key ==> first[i].number < last.number)
  {
    if last.key in latest {
      assert Lists(first, RecordKey(last.key, latest[last.key]));
      var i :| 0 <= i < |first| && KeyOf(first[i]) == RecordKey(last.key, latest[last.key]);
      assert first[i].key == last.key;
    }
  }

  lemma HoldsNext(items: seq<Observation>, first: seq<Observation>, s: LoadState)
    requires items != [] && first == items[..|items| - 1] && Holds(first, s)
    requires LoadEntry(s, items[|items| - 1]).Some? && Grows(first, items[|items| - 1])
    ensures Holds(items, LoadEntry(s, items[|items| - 1]).value)
  {
    var last := items[|items| - 1];
    assert items == first + [last];
    RecordsNext(items, first, last, s.records);
    LatestNext(items, first, last, s.latest);
    HighNext(items, first, last, s.high);
  }

  lemma RecordsNext(items: seq<Observation>, first: seq<Observation>, last: Observation,
                    records: map<RecordKey, Observation>)
    requires items == first + [last] && HoldsRecords(first, records) && KeyOf(last) !in records
    ensures HoldsRecords(items, records[KeyOf(last) := last.(attested := false)])
  {
    forall k | k in records ensures Lists(items, k) {
      assert Lists(first, k);
      var i :| 0 <= i < |first| && KeyOf(first[i]) == k;
      assert items[i] == first[i];
    }
    assert items[|first|] == last;
  }

  lemma LatestNext(items: seq<Observation>, first: seq<Observation>, last: Observation,
                   latest: map<EvidenceKey, EvidenceSeq>)
    requires items == first + [last] && HoldsLatest(first, latest)
    requires last.key in latest ==> latest[last.key] < last.number
    ensures HoldsLatest(items, latest[last.key := last.number])
  {
    var latest' := latest[last.key := last.number];
    forall key | key in latest' ensures Lists(items, RecordKey(key, latest'[key])) {
      if key == last.key {
        assert items[|first|] == last;
      } else {
        assert Lists(first, RecordKey(key, latest[key]));
        var i :| 0 <= i < |first| && KeyOf(first[i]) == RecordKey(key, latest[key]);
        assert items[i] == first[i];
      }
    }
  }

  lemma HighNext(items: seq<Observation>, first: seq<Observation>, last: Observation, high: EvidenceSeq)
    requires items == first + [last] && HoldsHigh(first, high)
    ensures HoldsHigh(items, if high < last.number then last.number else high)
  {
    if high != 0 {
      var i :| 0 <= i < |first| && first[i].number == high;
      assert items[i] == first[i];
    }
    assert items[|first|] == last;
  }

  /** A ledger is loaded exactly when it fits, no sequence is zero, every stream is
      listed in growing order, and the declared high-water mark is not below them. */
  lemma LoadIff(items: seq<Observation>, declared: EvidenceSeq, maxRecords: nat)
    ensures Load(items, declared, maxRecords).Some? <==>
              && |items| <= maxRecords && Loadable(items)
              && forall i :: 0 <= i < |items| ==> items[i].number <= declared
    ensures Load(items, declared, maxRecords).Some? ==>
              var l := Load(items, declared, maxRecords).value;
              && HoldsRecords(items, l.records) && HoldsLatest(items, l.latest)
              && l.globalHighWater == declared && l.maxRecords == maxRecords
  {
    LoadAllIff(items);
    if LoadAll(items).Some? {
      HighIff(items, LoadAll(items).value.high, declared);
    }
  }

  lemma HighIff(items: seq<Observation>, high: EvidenceSeq, declared: EvidenceSeq)
    requires HoldsHigh(items, high)
    ensures high <= declared <==> forall i :: 0 <= i < |items| ==> items[i].number <= declared
  {
    if high != 0 {
      var i :| 0 <= i < |items| && items[i].number == high;
    }
  }

  /** The load state after the first n records in map order. */
  ghost predicate LoadedPrefix(l: Ledger, order: seq<RecordKey>, n: nat, s: LoadState)
    requires n <= |order|
  {
    && (forall k :: k in s.records ==> Reloaded(l, order, n, s, k))
    && (forall i :: 0 <= i < n ==> Covered(s, order[i]))
    && (forall key :: key in s.latest ==> Pointed(s, key))
    && s.high <= l.globalHighWater
  }

  ghost predicate Reloaded(l: Ledger, order: seq<RecordKey>, n: nat, s: LoadState, k: RecordKey)
    requires n <= |order| && k in s.records
  {
    && k in l.records && s.records[k] == l.records[k].(attested := false)
    && exists i :: 0 <= i < n && order[i] == k
  }

  ghost predicate Covered(s: LoadState, k: RecordKey) {
    k in s.records && k.key in s.latest && k.number <= s.latest[k.key]
  }

  ghost predicate Pointed(s: LoadState, key: EvidenceKey)
    requires key in s.latest
  {
    RecordKey(key, s.latest[key]) in s.records
  }

  ghost predicate Increasing(order: seq<RecordKey>) {
    forall i, j :: 0 <= i < j < |order| ==> RecordLess(order[i], order[j])
  }

  /** The next record in map order advances its stream, so the loader takes it. */
  lemma LoadAccepts(l: Ledger, order: seq<RecordKey>, n: nat, s: LoadState)
    requires Consistent(l) && 0 < n <= |order| && Increasing(order)
    requires order[n - 1] in l.records && order[n - 1].number != 0
    requires LoadedPrefix(l, order, n - 1, s)
    ensures LoadEntry(s, l.records[order[n - 1]]).Some?
  {
    var k := order[n - 1];
    assert Filed(l, k);
    if k in s.records {
      assert Reloaded(l, order, n - 1, s, k);
      var i :| 0 <= i < n - 1 && order[i] == k;
      RecordLessTotal(order[i], k);
    }
    if k.key in s.latest {
      var top := RecordKey(k.key, s.latest[k.key]);
      assert Pointed(s, k.key);
      assert Reloaded(l, order, n - 1, s, top);
      var i :| 0 <= i < n - 1 && order[i] == top;
      RecordLessTotal(order[i], k);
    }
  }

  lemma LoadStep(l: Ledger, order: seq<RecordKey>, n: nat, s: LoadState)
    requires Consistent(l) && 0 < n <= |order|
    requires order[n - 1] in l.records
    requires LoadedPrefix(l, order, n - 1, s)
    requires LoadEntry(s, l.records[order[n - 1]]).Some?
    ensures LoadedPrefix(l, order, n, LoadEntry(s, l.records[order[n - 1]]).value)
  {
    var k := order[n - 1];
    var s' := LoadEntry(s, l.records[k]).value;
    assert Filed(l, k);
    assert Indexed(l, k.key);
    forall q | q in s'.records ensures Reloaded(l, order, n, s', q) {
      if q == k {
        assert order[n - 1] == q;
      } else {
        assert Reloaded(l, order, n - 1, s, q);
      }
    }
    forall i | 0 <= i < n ensures Covered(s', order[i]) {
      if i < n - 1 {
        assert Covered(s, order[i]);
      }
    }
    forall key | key in s'.latest ensures Pointed(s', key) {
      if key != k.key {
        assert Pointed(s, key);
      }
    }
  }

  lemma LoadSnoc(items: seq<Observation>, n: nat)
    requires 0 < n <= |items|
    ensures LoadAll(items[..n])
         == if LoadAll(items[..n - 1]).None? then None else LoadEntry(LoadAll(items[..n - 1]).value, items[n - 1])
  {
    assert items[..n][..n - 1] == items[..n - 1];
  }

  ghost predicate LoadedUpTo(l: Ledger, order: seq<RecordKey>, n: nat, loaded: Option<LoadState>)
    requires n <= |order|
  {
    loaded.Some? && LoadedPrefix(l, order, n, loaded.value)
  }

  lemma LoadNext(l: Ledger, order: seq<RecordKey>, n: nat, s: LoadState)
    requires Consistent(l) && Increasing(order) && 0 < n <= |order|
    requires order[n - 1] in l.records && order[n - 1].number != 0 && LoadedPrefix(l, order, n - 1, s)
    ensures LoadedUpTo(l, order, n, LoadEntry(s, l.records[order[n - 1]]))
  {
    LoadAccepts(l, order, n, s);
    LoadStep(l, order, n, s);
  }

  lemma {:induction false} LoadPrefix(l: Ledger, order: seq<RecordKey>, n: nat)
    requires Consistent(l) && Increasing(order) && n <= |order|
    requires forall i :: 0 <= i < |order| ==> order[i] in l.records && order[i].number != 0
    ensures LoadedUpTo(l, order, n, LoadAll(Listed(l, order)[..n]))
  {
    if n > 0 {
      LoadPrefix(l, order, n - 1);
      LoadSnoc(Listed(l, order), n);
      LoadNext(l, order, n, LoadAll(Listed(l, order)[..n - 1]).value);
    }
  }

  lemma LoadedRecords(l: Ledger, order: seq<RecordKey>, s: LoadState)
    requires forall k :: k in order <==> k in l.records
    requires LoadedPrefix(l, order, |order|, s)
    ensures s.records == QuarantineAll(l).records
  {
    forall k | k in l.records ensures k in s.records && s.records[k] == l.records[k].(attested := false) {
      var i :| 0 <= i < |order| && order[i] == k;
      assert Covered(s, order[i]);
      assert Reloaded(l, order, |order|, s, k);
    }
    forall k | k in s.records ensures k in l.records {
      assert Reloaded(l, order, |order|, s, k);
    }
  }

  lemma LoadedIndex(l: Ledger, order: seq<RecordKey>, s: LoadState)
    requires Consistent(l)
    requires forall k :: k in order <==> k in l.records
    requires LoadedPrefix(l, order, |order|, s)
    ensures s.latest == l.latest
  {
    forall key | key in l.latest ensures key in s.latest && s.latest[key] >= l.latest[key] {
      assert Indexed(l, key);
      var top := RecordKey(key, l.latest[key]);
      var i :| 0 <= i < |order| && order[i] == top;
      assert Covered(s, order[i]);
    }
    forall key | key in s.latest ensures key in l.latest && s.latest[key] <= l.latest[key] {
      assert Pointed(s, key);
      assert Reloaded(l, order, |order|, s, RecordKey(key, s.latest[key]));
      assert Filed(l, RecordKey(key, s.latest[key]));
    }
  }

  lemma ListedLoad(l: Ledger, order: seq<RecordKey>)
    requires Consistent(l) && Increasing(order)
    requires forall k :: k in order <==> k in l.records
    requires forall i :: 0 <= i < |order| ==> order[i] in l.records
    ensures LoadAll(Listed(l, order)).Some? <==> forall k :: k in l.records ==> k.number != 0
    ensures LoadAll(Listed(l, order)).Some? ==>
              && LoadAll(Listed(l, order)).value.records == QuarantineAll(l).records
              && LoadAll(Listed(l, order)).value.latest == l.latest
              && LoadAll(Listed(l, order)).value.high <= l.globalHighWater
  {
    var saved := Listed(l, order);
    assert saved[..|saved|] == saved;
    if forall k :: k in l.records ==> k.number != 0 {
      LoadPrefix(l, order, |order|);
      LoadedRecords(l, order, LoadAll(saved).value);
      LoadedIndex(l, order, LoadAll(saved).value);
    } else {
      var k :| k in l.records && k.number == 0;
      var i :| 0 <= i < |order| && order[i] == k;
      assert Filed(l, k);
      LoadStopsAtZero(saved, i);
    }
  }

  /** Save followed by load gives back the same index and the same records, all
      quarantined. It succeeds exactly when no record carries the reserved
      sequence zero and the store fits the configured bound. */
  lemma SaveLoad(l: Ledger, maxRecords: nat)
    requires Consistent(l)
    ensures Load(Save(l), l.globalHighWater, maxRecords).Some? <==>
              (forall k :: k in l.records ==> k.number != 0) && |l.records| <= maxRecords
    ensures Load(Save(l), l.globalHighWater, maxRecords).Some? ==>
              Load(Save(l), l.globalHighWater, maxRecords).value == QuarantineAll(l).(maxRecords := maxRecords)
  {
    OrderFacts(l.records.Keys);
    ListedLoad(l, Order(l.records.Keys));
  }

  lemma {:induction false} LoadStopsAtZero(items: seq<Observation>, i: nat)
    requires i < |items| && items[i].number == 0
    ensures LoadAll(items).None?
  {
    if i < |items| - 1 {
      LoadStopsAtZero(items[..|items| - 1], i);
    }
  }

  /** A replay refused before a restart is refused after it. */
  lemma ReplayStaysRefused(l: Ledger, draft: Observation, fence: EvidenceFence, live: bool,
                           fence': EvidenceFence, live': bool, maxRecords: nat)
    requires Consistent(l)
    requires draft.key in l.latest && draft.number <= l.latest[draft.key]
    requires Load(Save(l), l.globalHighWater, maxRecords).Some?
    ensures Record(l, draft, fence, live).Refused?
    ensures Record(Load(Save(l), l.globalHighWater, maxRecords).value, draft, fence', live').Refused?
  {
    SaveLoad(l, maxRecords);
  }

  /** `record` accepts sequence zero, and a ledger holding one cannot be
      reloaded: the reload rule is not implied by the record rule. */
  lemma ZeroSequenceIsAcceptedButNotReloadable()
    ensures exists draft: Observation, fence: EvidenceFence ::
              && draft.number == 0
              && Record(EMPTY, draft, fence, true).Recorded?
              && Load(Save(Record(EMPTY, draft, fence, true).ledger),
                      Record(EMPTY, draft, fence, true).ledger.globalHighWater, EMPTY.maxRecords).None?
  {
    var key := EvidenceKey(PathAvailable, 0, 0, "r");
    var draft := Observation(0, key, 0, 1, 1, 0, 0, 0, true, 0, false);
    var fence := EvidenceFence(1, 1, 0, 0);
    var l' := Record(EMPTY, draft, fence, true).ledger;
    RecordKeepsIndex(EMPTY, draft, fence, true);
    SaveLoad(l', EMPTY.maxRecords);
    assert RecordKey(key, 0) in l'.records;
  }
}
