/** The remaining operations keep the invariant, and what every event may do to
    the drains. */
module EngineOperations {
  import opened Identity
  import opened Lifecycle
  import opened Engine
  import opened EngineInvariant
  import opened EngineSteps
  import Ob = Obligations
  import Ad = Admission

  lemma InvIsReady(e: State, d: DrainId)
    requires Inv(e) && Roomy(e) && d in e.drains
    ensures Ready(e, d)
  {
    assert RecordOk(e.fence, e.drainHighWater, d, e.drains[d]);
  }

  /** What any operation on drain d may do: its record moves along the lifecycle
      and agrees with the fence; only its target's fence entry may move, and not
      once the drain is restored. */
  ghost predicate DrainEffect(e: State, e': State, d: DrainId) {
    && OnlyDrain(e, e', d)
    && RecordOk(e'.fence, e'.drainHighWater, d, e'.drains[d])
    && Motion(e.drains[d], e'.drains[d])
    && SameSetup(e.(exceptions := e'.exceptions), e')
    && (IsDone(e.drains[d]) ==> IsDone(e'.drains[d]) && e'.fence == e.fence)
  }

  lemma EffectIsDrainEffect(e: State, e': State, d: DrainId)
    requires StepEffect(e, e', d)
    requires IsDone(e.drains[d]) ==> e' == e
    ensures DrainEffect(e, e', d)
  {
  }

  lemma StepDrainMoves(e: State, d: DrainId, now: Time, digest: nat)
    requires Inv(e) && Roomy(e) && d in e.drains && digest != 0
    ensures DrainEffect(e, StepDrain(e, d, now, digest), d)
  {
    InvIsReady(e, d);
    StepDrainEffect(e, d, now, digest);
    if IsDone(e.drains[d]) {
      SettledStays(e, d, now, digest);
    }
    EffectIsDrainEffect(e, StepDrain(e, d, now, digest), d);
  }

  // ---- Cancel, restore, resume, grant -----------------------------------------------

  lemma CancelledRecord(f: Ad.Fence, hw: DrainId, d: DrainId, r: DrainRecord, now: Time)
    requires RecordOk(f, hw, d, r) && !IsSettled(r.state)
    ensures var moved := Transition(r, Cancelled, now);
            moved.Some? && RecordOk(f, hw, d, moved.value) && Motion(r, moved.value) && moved.value.state == Cancelled
  {
  }

  lemma CancelEffect(e: State, d: DrainId, authority: AuthorityId, now: Time)
    requires Inv(e) && Roomy(e) && d in e.drains
    ensures StepEffect(e, Cancel(e, d, authority, now).state, d)
    ensures IsDone(e.drains[d]) ==> Cancel(e, d, authority, now).state == e
  {
    InvIsReady(e, d);
    StayEffect(e, d);
    if !IsSettled(e.drains[d].state) {
      CancelledRecord(e.fence, e.drainHighWater, d, e.drains[d], now);
      PutEffect(e, d, Transition(e.drains[d], Cancelled, now).value);
    }
  }

  /** What the fence part of a restoration must leave. */
  ghost predicate ReopensFor(f: Ad.Fence, r: DrainRecord, d: DrainId, result: Ad.FenceResult) {
    && FenceStep(f, result.fence, r.target, d)
    && |result.fence| <= Ad.MAX_FENCED_TARGETS
    && (result.generation.None? ==> result.fence == f)
    && (result.generation.Some? ==>
          Reopened(result.fence, r) && result.fence[r.target].generation == result.generation.value)
  }

  lemma ReopenOwned(f: Ad.Fence, r: DrainRecord, d: DrainId)
    requires Owns(f, r) && r.id == d && d != 0 && |f| <= Ad.MAX_FENCED_TARGETS
    requires Ad.GenerationOf(f, r.target) + 2 <= U64_MAX
    ensures ReopensFor(f, r, d, Ad.Reopen(f, r.target, d))
  {
    assert Ad.Reopen(f, r.target, d).fence.Keys == f.Keys;
  }

  /** Reopening what was just closed for the purpose. */
  lemma ReopenClosed(f: Ad.Fence, closed: Ad.Fence, r: DrainRecord, d: DrainId, g: Generation)
    requires FenceStep(f, closed, r.target, d) && |closed| <= Ad.MAX_FENCED_TARGETS && d != 0
    requires r.target in closed && closed[r.target] == Ad.FenceEntry(true, g, d)
    requires r.generation < g < U64_MAX && g > Ad.GenerationOf(f, r.target)
    ensures ReopensFor(f, r, d, Ad.Reopen(closed, r.target, d))
  {
    assert Ad.Reopen(closed, r.target, d).fence.Keys == closed.Keys;
  }

  lemma ReopenForced(e: State, d: DrainId, closed: Ad.FenceResult)
    requires Ready(e, d) && closed == Ad.Close(e.fence, e.drains[d].target, d)
    requires e.drains[d].generation == 0
    ensures closed.generation.None? ==> ReopensFor(e.fence, e.drains[d], d, closed)
    ensures closed.generation.Some? ==>
              ReopensFor(e.fence, e.drains[d], d, Ad.Reopen(closed.fence, e.drains[d].target, d))
  {
    if closed.generation.None? {
      RefusedClose(e, d);
    } else {
      CloseFence(e.fence, e.drains[d].target, d);
      ReopenClosed(e.fence, closed.fence, e.drains[d], d, closed.generation.value);
    }
  }

  /** Below exhaustion the fence part of a restoration succeeds unless the table
      is full, and leaves the target open above the drain's generation. */
  lemma ReopenForEffect(e: State, d: DrainId)
    requires Inv(e) && Roomy(e) && d in e.drains
    requires e.drains[d].state == Drained || (e.drains[d].state == Cancelled && !IsDone(e.drains[d]))
    ensures ReopensFor(e.fence, e.drains[d], d, ReopenFor(e, d))
  {
    InvIsReady(e, d);
    var r := e.drains[d];
    if Ad.IsClosed(e.fence, r.target) {
      assert Owns(e.fence, r);
      ReopenOwned(e.fence, r, d);
    } else if Ad.GenerationOf(e.fence, r.target) <= r.generation {
      assert r.generation == 0;
      ReopenForced(e, d, Ad.Close(e.fence, r.target, d));
    }
  }

  lemma RestoringRecord(f: Ad.Fence, hw: DrainId, d: DrainId, r: DrainRecord, f': Ad.Fence, g: Generation, now: Time)
    requires RecordOk(f, hw, d, r)
    requires r.state == Drained || (r.state == Cancelled && !IsDone(r))
    requires Reopened(f', r) && f'[r.target].generation == g
    ensures var moved := Transition(r, Restoring, now);
            && moved.Some? && RecordOk(f', hw, d, moved.value.(restoreGeneration := g))
            && Motion(r, moved.value.(restoreGeneration := g))
  {
  }

  lemma EnterRestoringEffect(e: State, d: DrainId, reopened: Ad.FenceResult, now: Time)
    requires Ready(e, d)
    requires e.drains[d].state == Drained || (e.drains[d].state == Cancelled && !IsDone(e.drains[d]))
    requires ReopensFor(e.fence, e.drains[d], d, reopened)
    ensures StepEffect(e, EnterRestoring(e, d, reopened, now).state, d)
    ensures EnterRestoring(e, d, reopened, now).ok == reopened.generation.Some?
  {
    var e' := EnterRestoring(e, d, reopened, now).state;
    if reopened.generation.Some? {
      RestoringRecord(e.fence, e.drainHighWater, d, e.drains[d], reopened.fence, reopened.generation.value, now);
      assert e'.drains == e.drains[d := e'.drains[d]];
      SameObligationsBind(e, e');
    } else {
      assert e.(fence := e.fence) == e;
      StayEffect(e, d);
    }
  }

  lemma RestoreEffect(e: State, d: DrainId, authority: AuthorityId, now: Time)
    requires Inv(e) && Roomy(e) && d in e.drains
    ensures StepEffect(e, Restore(e, d, authority, now).state, d)
    ensures IsDone(e.drains[d]) ==> Restore(e, d, authority, now).state == e
  {
    InvIsReady(e, d);
    StayEffect(e, d);
    var r := e.drains[d];
    if r.state == Drained || (r.state == Cancelled && !IsDone(r)) {
      ReopenForEffect(e, d);
      EnterRestoringEffect(e, d, ReopenFor(e, d), now);
    }
  }

  lemma ResumeOpEffect(e: State, d: DrainId, authority: AuthorityId, now: Time)
    requires Inv(e) && Roomy(e) && d in e.drains
    ensures StepEffect(e, Resume(e, d, authority, now).state, d)
    ensures IsDone(e.drains[d]) ==> Resume(e, d, authority, now).state == e
  {
    InvIsReady(e, d);
    StayEffect(e, d);
    if e.drains[d].state == Blocked {
      JudgedEffect(e, d, StateBlockers(e, e.drains[d], Phase(e.drains[d]), now), now);
    }
  }

  /** A grant touches the retry counter and the grant list only. */
  ghost predicate GrantEffect(e: State, e': State, d: DrainId) {
    && OnlyDrain(e, e', d) && e' == e.(drains := e'.drains, exceptions := e'.exceptions)
    && RecordOk(e'.fence, e'.drainHighWater, d, e'.drains[d])
    && e'.drains[d] == e.drains[d].(evacuationRequests := e'.drains[d].evacuationRequests)
  }

  lemma WithGrantEffect(e: State, d: DrainId, grant: Grant)
    requires Ready(e, d)
    ensures GrantEffect(e, WithGrant(e, d, grant), d)
  {
    SameObligationsBind(e, WithGrant(e, d, grant));
  }

  lemma ExceptionsOnly(e: State, d: DrainId, exceptions: map<DrainId, seq<Grant>>)
    requires Ready(e, d)
    ensures GrantEffect(e, e.(exceptions := exceptions), d)
  {
    assert e.drains == e.drains[d := e.drains[d]];
    SameObligationsBind(e, e.(exceptions := exceptions));
  }

  lemma GrantOpEffect(e: State, d: DrainId, o: ObligationId, extension: int, authority: AuthorityId, now: Time)
    requires Inv(e) && Roomy(e) && d in e.drains
    ensures GrantEffect(e, GrantException(e, d, o, extension, authority, now).state, d)
  {
    InvIsReady(e, d);
    WithGrantEffect(e, d, Grant(o, extension));
    ExceptionsOnly(e, d, e.exceptions[d := GrantsOf(e, d)]);
    ExceptionsOnly(e, d, e.exceptions);
  }

  // ---- Requests --------------------------------------------------------------------------

  lemma TargetLessTotal(a: Target, b: Target)
    ensures a != b ==> TargetLess(a, b) || TargetLess(b, a)
    ensures !(TargetLess(a, b) && TargetLess(b, a))
    ensures TargetLess(a, b) ==> a != b
  {
    Ordering.StringLessTotal(a.domain, b.domain);
    Ordering.StringLessTotal(a.id, b.id);
  }

  lemma TargetLessTransitive(a: Target, b: Target, c: Target)
    requires TargetLess(a, b) && TargetLess(b, c)
    ensures TargetLess(a, c)
  {
    Ordering.StringLessTotal(a.domain, b.domain);
    Ordering.StringLessTotal(a.domain, c.domain);
    if Ordering.StringLess(a.domain, b.domain) && Ordering.StringLess(b.domain, c.domain) {
      Ordering.StringLessTransitive(a.domain, b.domain, c.domain);
    }
    if Ordering.StringLess(a.id, b.id) && Ordering.StringLess(b.id, c.id) {
      Ordering.StringLessTransitive(a.id, b.id, c.id);
    }
  }

  ghost predicate Ordered(ts: seq<Target>) {
    forall i, j :: 0 <= i < j < |ts| ==> TargetLess(ts[i], ts[j])
  }

  lemma {:induction false} InsertTargetFacts(ts: seq<Target>, t: Target)
    requires Ordered(ts)
    ensures forall x :: x in InsertTarget(ts, t) <==> x in ts || x == t
    ensures Ordered(InsertTarget(ts, t))
  {
    if ts != [] && ts[0] != t {
      TargetLessTotal(t, ts[0]);
      assert forall x :: x in ts <==> x == ts[0] || x in ts[1..];
      if TargetLess(t, ts[0]) {
        forall j | 0 < j < |ts| ensures TargetLess(t, ts[j]) {
          TargetLessTransitive(t, ts[0], ts[j]);
        }
      } else {
        var rest := InsertTarget(ts[1..], t);
        InsertTargetFacts(ts[1..], t);
        forall j | 0 <= j < |rest| ensures TargetLess(ts[0], rest[j]) {
          assert rest[j] in rest;
          if rest[j] != t {
            var i :| 0 <= i < |ts[1..]| && ts[1..][i] == rest[j];
            assert ts[i + 1] == rest[j];
          }
        }
      }
    }
  }

  /** The canonical list: the same targets, strictly increasing, so the order of
      execution does not depend on how the request listed them. */
  lemma {:induction false} NormalizeFacts(ts: seq<Target>)
    ensures Ordered(Normalize(ts))
    ensures forall x :: x in Normalize(ts) <==> x in ts
  {
    if ts != [] {
      NormalizeFacts(ts[1..]);
      InsertTargetFacts(Normalize(ts[1..]), ts[0]);
      assert forall x :: x in ts <==> x == ts[0] || x in ts[1..];
    }
  }

  /** Two strictly increasing lists of the same targets are the same list. */
  lemma {:induction false} OrderedUnique(a: seq<Target>, b: seq<Target>)
    requires Ordered(a) && Ordered(b)
    requires forall x :: x in a <==> x in b
    ensures a == b
  {
    if b != [] {
      HeadMember(b);
    }
    if a != [] {
      HeadMember(a);
      HeadsAgree(a, b);
      forall x ensures x in a[1..] <==> x in b[1..] {
        TailMember(a, x);
        TailMember(b, x);
      }
      OrderedUnique(a[1..], b[1..]);
      assert a == [a[0]] + a[1..] && b == [b[0]] + b[1..];
    }
  }

  lemma HeadMember(a: seq<Target>)
    requires a != []
    ensures a[0] in a
  {
  }

  lemma HeadsAgree(a: seq<Target>, b: seq<Target>)
    requires Ordered(a) && Ordered(b) && a != [] && b != []
    requires a[0] in b && b[0] in a
    ensures a[0] == b[0]
  {
    if a[0] != b[0] {
      TargetLessTotal(a[0], b[0]);
    }
  }

  lemma TailMember(a: seq<Target>, x: Target)
    requires Ordered(a) && a != []
    ensures x in a[1..] <==> x in a && x != a[0]
  {
    if x in a[1..] {
      var i :| 0 <= i < |a[1..]| && a[1..][i] == x;
      assert a[i + 1] == x && TargetLess(a[0], a[i + 1]);
      TargetLessTotal(a[0], x);
    }
  }

  lemma NormalizeAgrees(ts: seq<Target>, us: seq<Target>)
    requires forall x :: x in ts <==> x in us
    ensures Normalize(ts) == Normalize(us)
  {
    NormalizeFacts(ts);
    NormalizeFacts(us);
    OrderedUnique(Normalize(ts), Normalize(us));
  }

  /** Listing the same targets in another order, or repeated, changes neither the
      decision nor the records made, as long as the list is not too long. */
  lemma RequestOrderIrrelevant(e: State, ts: seq<Target>, us: seq<Target>, authority: AuthorityId, nonce: nat,
                               now: Time)
    requires forall x :: x in ts <==> x in us
    requires |ts| <= e.policy.maxTargets && |us| <= e.policy.maxTargets
    ensures RequestSet(e, ts, authority, nonce, now) == RequestSet(e, us, authority, nonce, now)
  {
    NormalizeAgrees(ts, us);
    assert WellFormedRequest(e, ts, authority, now) ==> forall i :: 0 <= i < |us| ==> us[i] in ts;
    assert WellFormedRequest(e, us, authority, now) ==> forall i :: 0 <= i < |ts| ==> ts[i] in us;
    assert ts == [] <==> us == [] by {
      assert ts != [] ==> ts[0] in us;
      assert us != [] ==> us[0] in ts;
    }
  }

  /** A nonce binds its target set: presenting it again changes nothing, and is
      answered with the original set exactly when the targets are the same and the
      request still passes the checks made before the nonce is looked at. */
  lemma RequestReplay(e: State, ts: seq<Target>, authority: AuthorityId, nonce: nat, now: Time,
                      us: seq<Target>, authority': AuthorityId, now': Time)
    requires nonce != 0 && nonce !in e.nonces && RequestSet(e, ts, authority, nonce, now).ok
    ensures var e' := RequestSet(e, ts, authority, nonce, now).state;
            RequestSet(e', us, authority', nonce, now')
            == Outcome(e', WellFormedRequest(e', us, authority', now') && forall x :: x in us <==> x in ts)
  {
    if forall x :: x in us <==> x in ts {
      NormalizeAgrees(us, ts);
    } else {
      NormalizeFacts(us);
      NormalizeFacts(ts);
      assert Normalize(us) != Normalize(ts);
    }
  }

  /** A record as a request creates it: numbered by its place in the list. */
  predicate IsNew(e: State, ts: seq<Target>, authority: AuthorityId, now: Time, d: DrainId, r: DrainRecord) {
    && e.drainHighWater < d <= e.drainHighWater + |ts|
    && r == NewRecord(d, e.setHighWater + 1, ts[d - e.drainHighWater - 1], authority, now)
  }

  lemma {:induction false} NewDrainsFacts(e: State, ts: seq<Target>, authority: AuthorityId, now: Time)
    ensures forall d :: d in NewDrains(e, ts, authority, now) <==>
              e.drainHighWater < d <= e.drainHighWater + |ts|
    ensures forall d :: d in NewDrains(e, ts, authority, now) ==>
              IsNew(e, ts, authority, now, d, NewDrains(e, ts, authority, now)[d])
  {
    if ts != [] {
      var rest := NewDrains(e, ts[..|ts| - 1], authority, now);
      NewDrainsFacts(e, ts[..|ts| - 1], authority, now);
      forall d | d in NewDrains(e, ts, authority, now)
        ensures IsNew(e, ts, authority, now, d, NewDrains(e, ts, authority, now)[d])
      {
        assert d in rest ==> IsNew(e, ts[..|ts| - 1], authority, now, d, rest[d]);
      }
    }
  }

  /** A closed fence is held for a drain that is not restored. */
  lemma ClosedHasOwner(e: State, t: Target)
    requires Inv(e) && Ad.IsClosed(e.fence, t)
    ensures var d := e.fence[t].drain;
            d in e.drains && e.drains[d].target == t && !IsDone(e.drains[d])
  {
    assert EntryOk(e.drains, t, e.fence[t]);
    var d := e.fence[t].drain;
    assert RecordOk(e.fence, e.drainHighWater, d, e.drains[d]);
  }

  /** A target nobody owns is not fenced. */
  lemma FreeIsOpen(e: State, t: Target)
    requires Inv(e) && Free(e, t)
    ensures !Ad.IsClosed(e.fence, t)
  {
    if Ad.IsClosed(e.fence, t) {
      ClosedHasOwner(e, t);
    }
  }

  ghost predicate Unowned(e: State, ts: seq<Target>) {
    forall i :: 0 <= i < |ts| ==> Free(e, ts[i])
  }

  lemma NewRecordOk(e: State, ts: seq<Target>, authority: AuthorityId, now: Time, d: DrainId, r: DrainRecord)
    requires Inv(e) && Unowned(e, ts) && IsNew(e, ts, authority, now, d, r)
    ensures RecordOk(e.fence, e.drainHighWater + |ts|, d, r)
  {
    FreeIsOpen(e, ts[d - e.drainHighWater - 1]);
  }

  lemma NewCompatible(e: State, ts: seq<Target>, authority: AuthorityId, now: Time,
                      x: DrainId, a: DrainRecord, y: DrainId, b: DrainRecord)
    requires Ordered(ts) && x < y
    requires IsNew(e, ts, authority, now, x, a) && IsNew(e, ts, authority, now, y, b)
    ensures a.target != b.target
  {
    TargetLessTotal(a.target, b.target);
  }

  /** The records of a state after `more` were added beside the old ones. */
  ghost predicate Added(e: State, more: map<DrainId, DrainRecord>, ts: seq<Target>, authority: AuthorityId, now: Time) {
    && (forall d :: d in more <==> e.drainHighWater < d <= e.drainHighWater + |ts|)
    && (forall d :: d in more ==> IsNew(e, ts, authority, now, d, more[d]))
  }

  lemma AddedRecords(e: State, e': State, more: map<DrainId, DrainRecord>, ts: seq<Target>, authority: AuthorityId,
                     now: Time)
    requires Inv(e) && Unowned(e, ts) && Added(e, more, ts, authority, now)
    requires e'.fence == e.fence && e'.drains == e.drains + more && e'.drainHighWater == e.drainHighWater + |ts|
    ensures RecordsOk(e')
  {
    forall d | d in e'.drains ensures RecordOk(e.fence, e'.drainHighWater, d, e'.drains[d]) {
      if d in more {
        NewRecordOk(e, ts, authority, now, d, more[d]);
      } else {
        assert RecordOk(e.fence, e.drainHighWater, d, e.drains[d]);
      }
    }
  }

  lemma AddedOwners(e: State, e': State, more: map<DrainId, DrainRecord>, ts: seq<Target>, authority: AuthorityId,
                    now: Time)
    requires SingleOwner(e) && Unowned(e, ts) && Ordered(ts) && Added(e, more, ts, authority, now)
    requires e'.drains == e.drains + more
    ensures SingleOwner(e')
  {
    forall x, y | x in e'.drains && y in e'.drains && x != y ensures Compatible(e'.drains[x], e'.drains[y]) {
      if x in more && y in more {
        if x < y {
          NewCompatible(e, ts, authority, now, x, more[x], y, more[y]);
        } else {
          NewCompatible(e, ts, authority, now, y, more[y], x, more[x]);
        }
      } else if x in more || y in more {
        var added := if x in more then x else y;
        assert IsNew(e, ts, authority, now, added, more[added]);
        assert Free(e, ts[added - e.drainHighWater - 1]);
      } else {
        assert Compatible(e.drains[x], e.drains[y]);
      }
    }
  }

  lemma AddedEnrolls(e: State, e': State, more: map<DrainId, DrainRecord>, ts: seq<Target>, authority: AuthorityId,
                     now: Time)
    requires SetsOk(e) && AllEnrolled(e) && Added(e, more, ts, authority, now)
    requires e'.drains == e.drains + more && e'.setHighWater == e.setHighWater + 1
    requires e'.sets == e.sets[e.setHighWater + 1 := DrainSet(ts, NewMembers(e, |ts|))]
    ensures SetsOk(e') && AllEnrolled(e')
  {
    forall d | d in e'.drains ensures Enrolled(e'.sets, d, e'.drains[d]) {
      if d in more {
        NewEnrolled(e, e'.sets, ts, authority, now, d, more[d]);
      } else {
        assert Enrolled(e.sets, d, e.drains[d]);
      }
    }
  }

  lemma NewEnrolled(e: State, sets: map<DrainSetId, DrainSet>, ts: seq<Target>, authority: AuthorityId, now: Time,
                    d: DrainId, r: DrainRecord)
    requires IsNew(e, ts, authority, now, d, r)
    requires e.setHighWater + 1 in sets && sets[e.setHighWater + 1] == DrainSet(ts, NewMembers(e, |ts|))
    ensures Enrolled(sets, d, r)
  {
    assert NewMembers(e, |ts|)[d - e.drainHighWater - 1] == d;
  }

  lemma AddedEntries(e: State, e': State, more: map<DrainId, DrainRecord>, ts: seq<Target>, authority: AuthorityId,
                     now: Time)
    requires EntriesOk(e) && RecordsOk(e) && Added(e, more, ts, authority, now)
    requires e'.fence == e.fence && e'.drains == e.drains + more
    ensures EntriesOk(e')
  {
    forall t | t in e'.fence ensures EntryOk(e'.drains, t, e'.fence[t]) {
      assert EntryOk(e.drains, t, e.fence[t]);
      if e.fence[t].closed {
        assert RecordOk(e.fence, e.drainHighWater, e.fence[t].drain, e.drains[e.fence[t].drain]);
      }
    }
  }

  lemma WithSetKeepsInv(e: State, ts: seq<Target>, authority: AuthorityId, nonce: nat, now: Time)
    requires Inv(e) && Unowned(e, ts) && Ordered(ts)
    ensures Inv(WithSet(e, ts, authority, nonce, now))
  {
    var e' := WithSet(e, ts, authority, nonce, now);
    var more := NewDrains(e, ts, authority, now);
    assert Added(e, more, ts, authority, now) by {
      NewDrainsFacts(e, ts, authority, now);
    }
    AddedRecords(e, e', more, ts, authority, now);
    AddedOwners(e, e', more, ts, authority, now);
    AddedEnrolls(e, e', more, ts, authority, now);
    AddedEntries(e, e', more, ts, authority, now);
  }

  lemma RequestKeepsInv(e: State, targets: seq<Target>, authority: AuthorityId, nonce: nat, now: Time)
    requires Inv(e)
    ensures Inv(RequestSet(e, targets, authority, nonce, now).state)
  {
    var ts := Normalize(targets);
    if Grantable(e, ts) {
      NormalizeFacts(targets);
      WithSetKeepsInv(e, ts, authority, nonce, now);
    }
  }

  // ---- Obligations, and everything that leaves drains and fence alone ------------------

  lemma AdmitKeepsInv(e: State, draft: Ob.Obligation, presented: Generation, authority: AuthorityId, now: Time)
    requires Inv(e)
    ensures Inv(Admit(e, draft, presented, authority, now).state)
  {
    var e' := Admit(e, draft, presented, authority, now).state;
    if Admissible(e, draft, presented, authority, now) {
      var o := e.obligationHighWater + 1;
      forall t | t in e'.obligations[o].dependencies ensures BindingOk(e.fence, e'.obligations[o], t) {
        Ad.AdmissibleIff(e.fence, t, presented);
      }
      forall x | x in e'.obligations ensures BindingsOk(e'.fence, e'.obligations[x]) {
        assert x != o ==> BindingsOk(e.fence, e.obligations[x]);
      }
      SameDrainsKeepInv(e, e');
    }
  }

  lemma SameDrainsKeepInv(e: State, e': State)
    requires Inv(e) && AllBound(e')
    requires e'.drains == e.drains && e'.fence == e.fence && e'.sets == e.sets
    requires e'.drainHighWater == e.drainHighWater && e'.setHighWater == e.setHighWater
    ensures Inv(e')
  {
  }

  lemma ReportKeepsInv(e: State, report: Report, now: Time)
    requires Inv(e)
    ensures Inv(ReportObligation(e, report, now).state)
  {
    var e' := ReportObligation(e, report, now).state;
    forall x | x in e'.obligations ensures BindingsOk(e'.fence, e'.obligations[x]) {
      assert BindingsOk(e.fence, e.obligations[x]);
      assert Ob.Evolves(e.obligations[x], e'.obligations[x]);
      forall t | t in e'.obligations[x].dependencies ensures BindingOk(e.fence, e'.obligations[x], t) {
        assert BindingOk(e.fence, e.obligations[x], t);
      }
    }
    SameDrainsKeepInv(e, e');
  }

  // ---- Recovery --------------------------------------------------------------------------

  lemma RecoveredRecord(f: Ad.Fence, hw: DrainId, d: DrainId, r: DrainRecord, now: Time)
    requires RecordOk(f, hw, d, r)
    ensures RecordOk(f, hw, d, RecoverRecord(r, now))
    ensures Phase(RecoverRecord(r, now)) == Phase(r)
    ensures RecoverRecord(r, now) == r.(state := RecoverRecord(r, now).state,
                                        stateSince := RecoverRecord(r, now).stateSince,
              blockedFrom := RecoverRecord(r, now).blockedFrom, blockers := RecoverRecord(r, now).blockers)
    ensures RecoverRecord(r, now).state == r.state || RecoverRecord(r, now).state == Blocked
  {
  }

  lemma RecoverKeepsRecords(e: State, now: Time)
    requires RecordsOk(e)
    ensures RecordsOk(Recover(e, now))
  {
    var e' := Recover(e, now);
    forall d | d in e'.drains ensures RecordOk(e'.fence, e'.drainHighWater, d, e'.drains[d]) {
      assert RecordOk(e.fence, e.drainHighWater, d, e.drains[d]);
      RecoveredRecord(e.fence, e.drainHighWater, d, e.drains[d], now);
    }
  }

  lemma RecoverKeepsEntries(e: State, now: Time)
    requires EntriesOk(e) && AllEnrolled(e)
    ensures EntriesOk(Recover(e, now)) && AllEnrolled(Recover(e, now))
  {
    var e' := Recover(e, now);
    forall t | t in e'.fence ensures EntryOk(e'.drains, t, e'.fence[t]) {
      assert EntryOk(e.drains, t, e.fence[t]);
    }
    forall d | d in e'.drains ensures Enrolled(e'.sets, d, e'.drains[d]) {
      assert Enrolled(e.sets, d, e.drains[d]);
    }
  }

  lemma RecoverKeepsOwner(e: State, now: Time)
    requires SingleOwner(e)
    ensures SingleOwner(Recover(e, now))
  {
    var e' := Recover(e, now);
    forall x, y | x in e'.drains && y in e'.drains && x != y ensures Compatible(e'.drains[x], e'.drains[y]) {
      assert Compatible(e.drains[x], e.drains[y]);
    }
  }

  /** A restart keeps the invariant: every drain holds the position it had. */
  lemma RecoverKeepsInv(e: State, now: Time)
    requires Inv(e)
    ensures Inv(Recover(e, now))
  {
    RecoverKeepsRecords(e, now);
    RecoverKeepsEntries(e, now);
    RecoverKeepsOwner(e, now);
  }

  // ---- Every event --------------------------------------------------------------------------

  lemma GrantMoves(e: State, d: DrainId, o: ObligationId, extension: int, authority: AuthorityId, now: Time)
    requires Inv(e) && Roomy(e) && d in e.drains
    ensures DrainEffect(e, GrantException(e, d, o, extension, authority, now).state, d)
  {
    GrantOpEffect(e, d, o, extension, authority, now);
    GrantIsDrainEffect(e, GrantException(e, d, o, extension, authority, now).state, d);
  }

  lemma GrantIsDrainEffect(e: State, e': State, d: DrainId)
    requires GrantEffect(e, e', d)
    ensures DrainEffect(e, e', d)
  {
  }

  /** Every operation on a drain has the common effect. */
  lemma ApplyDrainEffect(e: State, d: DrainId, op: DrainOp, now: Time)
    requires Inv(e) && Roomy(e) && d in e.drains
    ensures DrainEffect(e, ApplyDrain(e, d, op, now), d)
  {
    var e' := ApplyDrain(e, d, op, now);
    match op
    case CancelOp(authority) => CancelEffect(e, d, authority, now); EffectIsDrainEffect(e, e', d);
    case RestoreOp(authority) => RestoreEffect(e, d, authority, now); EffectIsDrainEffect(e, e', d);
    case ResumeOp(authority) => ResumeOpEffect(e, d, authority, now); EffectIsDrainEffect(e, e', d);
    case GrantOp(o, extension, authority) => GrantMoves(e, d, o, extension, authority, now);
    case StepOp(digest) =>
      if digest != 0 {
        StepDrainMoves(e, d, now, digest);
      } else {
        InvIsReady(e, d);
        StayEffect(e, d);
        EffectIsDrainEffect(e, e, d);
      }
  }

  // ---- Positions ---------------------------------------------------------------------------

  lemma CancelPhase(e: State, d: DrainId, authority: AuthorityId, now: Time)
    requires d in e.drains
    ensures var e' := Cancel(e, d, authority, now).state;
            d in e'.drains && (Phase(e'.drains[d]) == Phase(e.drains[d]) || Phase(e'.drains[d]) == Cancelled)
  {
  }

  lemma RestorePhase(e: State, d: DrainId, authority: AuthorityId, now: Time)
    requires d in e.drains
    ensures var e' := Restore(e, d, authority, now).state;
            d in e'.drains && (Phase(e'.drains[d]) == Phase(e.drains[d]) || Phase(e'.drains[d]) == Restoring)
  {
  }

  lemma ResumePhase(e: State, d: DrainId, authority: AuthorityId, now: Time)
    requires Ready(e, d)
    ensures var e' := Resume(e, d, authority, now).state;
            d in e'.drains && Phase(e'.drains[d]) == Phase(e.drains[d])
  {
    if e.drains[d].state == Blocked {
      JudgedEffect(e, d, StateBlockers(e, e.drains[d], Phase(e.drains[d]), now), now);
    }
  }

  lemma GrantPhase(e: State, d: DrainId, o: ObligationId, extension: int, authority: AuthorityId, now: Time)
    requires d in e.drains
    ensures var e' := GrantException(e, d, o, extension, authority, now).state;
            d in e'.drains && Phase(e'.drains[d]) == Phase(e.drains[d])
  {
  }

  /** Only the step takes a drain forward. */
  lemma OnlyStepAdvances(e: State, d: DrainId, op: DrainOp, now: Time)
    requires Ready(e, d) && !op.StepOp?
    ensures var e' := ApplyDrain(e, d, op, now);
            d in e'.drains && Phase(e'.drains[d]) in {Phase(e.drains[d]), Cancelled, Restoring}
  {
    match op
    case CancelOp(authority) => CancelPhase(e, d, authority, now);
    case RestoreOp(authority) => RestorePhase(e, d, authority, now);
    case ResumeOp(authority) => ResumePhase(e, d, authority, now);
    case GrantOp(o, extension, authority) => GrantPhase(e, d, o, extension, authority, now);
  }

  lemma DrainEffectKeepsInv(e: State, e': State, d: DrainId)
    requires Inv(e) && DrainEffect(e, e', d)
    ensures Inv(e')
  {
    OneDrainKeepsInv(e, e', d);
  }

  /** What a setup operation leaves alone. */
  predicate SameCore(e: State, e': State) {
    && e'.obligations == e.obligations && e'.obligationHighWater == e.obligationHighWater
    && e'.fence == e.fence && e'.drains == e.drains && e'.sets == e.sets && e'.exceptions == e.exceptions
    && e'.nonces == e.nonces && e'.drainHighWater == e.drainHighWater && e'.setHighWater == e.setHighWater
  }

  lemma SetupEffect(e: State, op: SetupOp, now: Time)
    ensures SameCore(e, ApplySetup(e, op, now))
  {
  }

  /** The invariant survives every operation of the engine. */
  lemma ApplyKeepsInv(e: State, v: Event)
    requires Inv(e) && Roomy(e)
    ensures Inv(Apply(e, v))
  {
    match v
    case AdmitEvent(draft, presented, authority, now) => AdmitKeepsInv(e, draft, presented, authority, now);
    case ReportEvent(report, now) => ReportKeepsInv(e, report, now);
    case RequestEvent(ts, authority, nonce, now) => RequestKeepsInv(e, ts, authority, nonce, now);
    case DrainEvent(d, op, now) =>
      if d in e.drains {
        ApplyDrainEffect(e, d, op, now);
        DrainEffectKeepsInv(e, ApplyDrain(e, d, op, now), d);
      }
    case SetupEvent(op, now) =>
      SetupEffect(e, op, now);
      SameDrainsKeepInv(e, ApplySetup(e, op, now));
  }
}
