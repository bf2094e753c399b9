/** The evidence ledger as an object: the bounded record map, its index, and the
    scans and loops that keep them. */
module EvidenceObject {
  import opened Identity
  import opened Evidence

  /** A record before every match of an ordered list is the first match. */
  lemma FirstMatch(order: seq<RecordKey>, all: set<RecordKey>, matches: set<RecordKey>, i: nat)
    requires order == Order(all) && i < |order| && matches <= all && order[i] in matches
    requires forall k :: 0 <= k < i ==> order[k] !in matches
    ensures matches != {} && First(matches) == order[i]
  {
    OrderFacts(all);
    forall y | y in matches ensures y == order[i] || RecordLess(order[i], y) {
      assert y in order;
      var j :| 0 <= j < |order| && order[j] == y;
    }
    assert IsFirst(matches, order[i]);
    FirstUnique(matches, order[i], First(matches));
  }

  lemma NoMatch(order: seq<RecordKey>, all: set<RecordKey>, matches: set<RecordKey>)
    requires order == Order(all) && matches <= all
    requires forall k :: 0 <= k < |order| ==> order[k] !in matches
    ensures matches == {}
  {
    OrderFacts(all);
    assert forall y :: y in all ==> y in order;
    assert forall y :: y in order ==> y !in matches;
  }

  class EvidenceLedger {
    var records: map<RecordKey, Observation>
    var latest: map<EvidenceKey, EvidenceSeq>
    var maxRecords: nat
    var globalHighWater: EvidenceSeq

    function View(): Ledger
      reads this
    {
      Ledger(records, latest, maxRecords, globalHighWater)
    }

    constructor ()
      ensures View() == EMPTY
    {
      records := map[];
      latest := map[];
      maxRecords := 200000;
      globalHighWater := 0;
    }

    /** The first record in map order that belongs to the set, if any. */
    method Scan(order: seq<RecordKey>, ghost matches: set<RecordKey>, incoming: Option<EvidenceKey>)
      returns (found: Option<RecordKey>)
      requires order == Order(records.Keys)
      requires matches == if incoming.Some? then StreamRecords(View(), incoming.value) else SupersededRecords(View())
      ensures found.None? <==> matches == {}
      ensures found.Some? ==> found.value == First(matches)
    {
      OrderFacts(records.Keys);
      found := None;
      var i := 0;
      while i < |order|
        invariant 0 <= i <= |order|
        invariant forall k :: 0 <= k < i ==> order[k] !in matches
      {
        assert order[i] in order;
        var hit := if incoming.Some? then order[i].key == incoming.value else Superseded(View(), order[i]);
        if hit {
          FirstMatch(order, records.Keys, matches, i);
          found := Some(order[i]);
          return;
        }
        i := i + 1;
      }
      NoMatch(order, records.Keys, matches);
    }

    /** Gives up one record for an incoming one: the oldest of its stream, else the
        first superseded record of any stream. */
    method RetireOneFor(incoming: EvidenceKey) returns (ok: bool)
      modifies this`records
      ensures ok == Victim(old(View()), incoming).Some?
      ensures records == if ok then old(records) - {Victim(old(View()), incoming).value} else old(records)
    {
      var order := Order(records.Keys);
      var victim := Scan(order, StreamRecords(View(), incoming), Some(incoming));
      if victim.None? {
        victim := Scan(order, SupersededRecords(View()), None);
      }
      ok := victim.Some?;
      if ok {
        records := records - {victim.value};
      }
    }

    /** Stores a draft unless it is screened out or the ledger cannot make room. */
    method Accept(draft: Observation, fence: EvidenceFence, requireLive: bool) returns (outcome: RecordOutcome)
      requires Consistent(View())
      modifies this`records, this`latest, this`globalHighWater
      ensures outcome == Record(old(View()), draft, fence, requireLive)
      ensures View() == if outcome.Recorded? then outcome.ledger else old(View())
      ensures Consistent(View())
    {
      ghost var before := View();
      if Record(before, draft, fence, requireLive).Recorded? {
        RecordKeepsIndex(before, draft, fence, requireLive);
      }
      var screened := Screen(View(), draft, fence, requireLive);
      if screened.Some? {
        return Refused(screened.value);
      }
      NewIdentity(before, draft);
      if |records| >= maxRecords {
        var ok := RetireOneFor(draft.key);
        if !ok {
          return Refused(AtCapacity);
        }
      }
      var stored := draft.(attested := true);
      records := records[RecordKey(draft.key, draft.number) := stored];
      latest := latest[draft.key := draft.number];
      if globalHighWater < draft.number {
        globalHighWater := draft.number;
      }
      outcome := Recorded(View(), stored);
    }

    method Quarantine()
      modifies this`records
      ensures View() == QuarantineAll(old(View()))
    {
      var todo := records.Keys;
      while todo != {}
        invariant todo <= records.Keys == old(records).Keys
        invariant forall k :: k in records ==>
                    records[k] == if k in todo then old(records)[k] else old(records)[k].(attested := false)
        decreases |todo|
      {
        var k :| k in todo;
        records := records[k := records[k].(attested := false)];
        todo := todo - {k};
      }
      assert records == QuarantineAll(old(View())).records;
    }

    method AttestRecord(key: EvidenceKey, number: EvidenceSeq, fence: EvidenceFence) returns (ok: bool)
      modifies this`records
      ensures ok == Attest(old(View()), key, number, fence).Some?
      ensures View() == if ok then Attest(old(View()), key, number, fence).value else old(View())
    {
      var k := RecordKey(key, number);
      ok := k in records && records[k].epoch == fence.epoch && records[k].producer == fence.incarnation;
      if ok {
        records := records[k := records[k].(attested := true)];
      }
    }

    /** Loads a saved list entry by entry; a refused entry leaves the ledger alone. */
    method LoadFrom(items: seq<Observation>, declared: EvidenceSeq) returns (ok: bool)
      modifies this`records, this`latest, this`globalHighWater
      ensures ok == Load(items, declared, maxRecords).Some?
      ensures View() == if ok then Load(items, declared, maxRecords).value else old(View())
    {
      if |items| > maxRecords {
        return false;
      }
      var s := LoadState(map[], map[], 0);
      var i := 0;
      while i < |items|
        invariant 0 <= i <= |items|
        invariant LoadAll(items[..i]) == Some(s)
      {
        var next := LoadEntry(s, items[i]);
        assert items[..i + 1][..i] == items[..i];
        if next.None? {
          LoadStops(items, i + 1);
          return false;
        }
        s := next.value;
        i := i + 1;
      }
      assert items[..i] == items;
      if declared < s.high {
        return false;
      }
      records, latest, globalHighWater := s.records, s.latest, declared;
      ok := true;
    }
  }

  /** In a consistent ledger an advancing draft has a new identity. */
  lemma NewIdentity(l: Ledger, draft: Observation)
    requires Consistent(l) && (draft.key in l.latest ==> draft.number > l.latest[draft.key])
    ensures RecordKey(draft.key, draft.number) !in l.records
  {
    assert forall k :: k in l.records ==> Filed(l, k);
    assert forall k :: k in l.records && k.key == draft.key ==> k.number < draft.number;
  }

  /** A refused entry refuses the whole list. */
  lemma {:induction false} LoadStops(items: seq<Observation>, n: nat)
    requires n <= |items| && LoadAll(items[..n]).None?
    ensures LoadAll(items).None?
    decreases |items| - n
  {
    if n == |items| {
      assert items[..n] == items;
    } else {
      assert items[..n + 1][..n] == items[..n];
      LoadStops(items, n + 1);
    }
  }
}
