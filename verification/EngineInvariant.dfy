/** What every operation of the engine keeps: the correspondence between drain
    records, the admission fence and the obligations bound to a target. */
module EngineInvariant {
  import opened Identity
  import opened Lifecycle
  import opened Engine
  import Ob = Obligations
  import Ad = Admission

  /** The fence of the target is closed by this drain, at its generation. */
  predicate Owns(f: Ad.Fence, r: DrainRecord) {
    && Ad.IsClosed(f, r.target) && f[r.target].drain == r.id
    && f[r.target].generation == r.generation && r.generation > 0
  }

  /** The fence of the target is open, above the drain's generation. */
  predicate Reopened(f: Ad.Fence, r: DrainRecord) {
    r.target in f && !f[r.target].closed && f[r.target].generation > r.generation
  }

  /** Restored: the generation moved on and the drain holds nothing. */
  predicate Released(f: Ad.Fence, r: DrainRecord) {
    && r.target in f && f[r.target].generation > r.generation
    && !(f[r.target].closed && f[r.target].drain == r.id)
  }

  /** What the fence looks like from one drain, by lifecycle position. */
  predicate FenceAgrees(f: Ad.Fence, r: DrainRecord) {
    match Phase(r)
    case Requested => r.generation == 0 && !Ad.IsClosed(f, r.target)
    case Validating => r.generation == 0 && !Ad.IsClosed(f, r.target)
    case AdmissionClosed => Owns(f, r)
    case Evacuating => Owns(f, r)
    case Quiescing => Owns(f, r)
    case Verifying => Owns(f, r)
    case Drained => Owns(f, r)
    case Restoring => Reopened(f, r) && r.restoreGeneration == f[r.target].generation
    case Cancelled =>
      if r.restoredAt != 0 then Released(f, r)
      else Owns(f, r) || Reopened(f, r) || (r.generation == 0 && !Ad.IsClosed(f, r.target))
    case Failed => false
    case Blocked => false
  }

  predicate RecordOk(f: Ad.Fence, highWater: DrainId, d: DrainId, r: DrainRecord) {
    && r.id == d && 0 < d <= highWater
    && (r.state == Blocked <==> r.blockedFrom.Some?)
    && (r.state == Blocked ==> IsTransient(r.blockedFrom.value))
    && (r.restoredAt != 0 ==> r.state == Cancelled)
    && (r.state == Drained ==> r.remainingAtCompletion == 0 && r.completionDigest != 0)
    && FenceAgrees(f, r)
  }

  /** A closed entry names a known drain of that very target. */
  predicate EntryOk(drains: map<DrainId, DrainRecord>, t: Target, entry: Ad.FenceEntry) {
    && entry.generation > 0
    && (entry.closed ==> entry.drain in drains && drains[entry.drain].target == t)
  }

  /** Bound under a generation that was current and open at the time. */
  predicate BindingOk(f: Ad.Fence, o: Ob.Obligation, t: Target) {
    && o.admissionGeneration <= Ad.GenerationOf(f, t)
    && (Ad.IsClosed(f, t) ==> o.admissionGeneration < Ad.GenerationOf(f, t))
  }

  ghost predicate BindingsOk(f: Ad.Fence, o: Ob.Obligation) {
    forall t :: t in o.dependencies ==> BindingOk(f, o, t)
  }

  predicate Increasing(members: seq<DrainId>) {
    forall i, j :: 0 <= i < j < |members| ==> members[i] < members[j]
  }

  ghost predicate RecordsOk(e: State) {
    forall d :: d in e.drains ==> RecordOk(e.fence, e.drainHighWater, d, e.drains[d])
  }

  ghost predicate EntriesOk(e: State) {
    forall t :: t in e.fence ==> EntryOk(e.drains, t, e.fence[t])
  }

  predicate Compatible(a: DrainRecord, b: DrainRecord) {
    a.target == b.target ==> IsDone(a) || IsDone(b)
  }

  /** At most one drain of a target is not cancelled-and-restored. */
  ghost predicate SingleOwner(e: State) {
    forall x, y :: x in e.drains && y in e.drains && x != y ==> Compatible(e.drains[x], e.drains[y])
  }

  ghost predicate AllBound(e: State) {
    forall o :: o in e.obligations ==> BindingsOk(e.fence, e.obligations[o])
  }

  ghost predicate SetsOk(e: State) {
    forall s :: s in e.sets ==> s <= e.setHighWater && Increasing(e.sets[s].members)
  }

  predicate Enrolled(sets: map<DrainSetId, DrainSet>, d: DrainId, r: DrainRecord) {
    r.set_ in sets && d in sets[r.set_].members
  }

  ghost predicate AllEnrolled(e: State) {
    forall d :: d in e.drains ==> Enrolled(e.sets, d, e.drains[d])
  }

  ghost predicate Inv(e: State) {
    && RecordsOk(e) && EntriesOk(e) && SingleOwner(e) && AllBound(e) && SetsOk(e) && AllEnrolled(e)
    && |e.fence| <= Ad.MAX_FENCED_TARGETS
  }

  /** No target is about to exhaust its generation space. */
  ghost predicate Roomy(e: State) {
    forall t :: t in e.fence ==> e.fence[t].generation + 2 <= U64_MAX
  }

  // ---- One drain at a time -------------------------------------------------------------

  /** The fence changed at most at one target, and there only upwards, closed
      only in the name of drain d. */
  ghost predicate FenceStep(f: Ad.Fence, f': Ad.Fence, t: Target, d: DrainId) {
    && (forall x :: x != t ==> (x in f' <==> x in f))
    && (forall x :: x != t && x in f ==> f'[x] == f[x])
    && (t in f ==> t in f')
    && (t in f' ==> (t in f && f'[t] == f[t])
                    || (f'[t].generation > Ad.GenerationOf(f, t) && (f'[t].closed ==> f'[t].drain == d)))
  }

  /** A drain operation leaves an obligation alone or retires it. */
  predicate Settles(o: Ob.Obligation, o': Ob.Obligation) {
    Ob.Evolves(o, o') && (o'.state == o.state || o'.state == Ob.Retired)
  }

  ghost predicate SameBindings(e: State, e': State) {
    && e'.obligations.Keys == e.obligations.Keys
    && forall o :: o in e.obligations ==> Settles(e.obligations[o], e'.obligations[o])
  }

  /** Only drain d and its target's fence entry moved. */
  ghost predicate OnlyDrain(e: State, e': State, d: DrainId) {
    && d in e.drains && d in e'.drains
    && e'.drains == e.drains[d := e'.drains[d]]
    && e'.drains[d].target == e.drains[d].target && e'.drains[d].set_ == e.drains[d].set_
    && FenceStep(e.fence, e'.fence, e.drains[d].target, d)
    && SameBindings(e, e')
    && e'.sets == e.sets && e'.setHighWater == e.setHighWater && e'.drainHighWater == e.drainHighWater
    && |e'.fence| <= Ad.MAX_FENCED_TARGETS
  }

  lemma FenceStepKeepsRecord(f: Ad.Fence, f': Ad.Fence, t: Target, d: DrainId, hw: DrainId, x: DrainId, r: DrainRecord)
    requires FenceStep(f, f', t, d) && RecordOk(f, hw, x, r) && x != d
    requires r.target == t ==> IsDone(r)
    ensures RecordOk(f', hw, x, r)
  {
  }

  lemma FenceStepKeepsBinding(f: Ad.Fence, f': Ad.Fence, t: Target, d: DrainId, o: Ob.Obligation)
    requires FenceStep(f, f', t, d) && BindingsOk(f, o)
    ensures BindingsOk(f', o)
  {
    forall x | x in o.dependencies ensures BindingOk(f', o, x) {
      assert BindingOk(f, o, x);
    }
  }

  lemma OneDrainKeepsRecords(e: State, e': State, d: DrainId)
    requires RecordsOk(e) && SingleOwner(e) && OnlyDrain(e, e', d)
    requires !IsDone(e.drains[d]) || e'.fence == e.fence
    requires RecordOk(e'.fence, e'.drainHighWater, d, e'.drains[d])
    ensures RecordsOk(e')
  {
    forall x | x in e'.drains ensures RecordOk(e'.fence, e'.drainHighWater, x, e'.drains[x]) {
      if x != d {
        assert Compatible(e.drains[x], e.drains[d]);
        assert RecordOk(e.fence, e.drainHighWater, x, e.drains[x]);
        if e'.fence != e.fence {
          FenceStepKeepsRecord(e.fence, e'.fence, e.drains[d].target, d, e.drainHighWater, x, e.drains[x]);
        }
      }
    }
  }

  lemma OneDrainKeepsEntries(e: State, e': State, d: DrainId)
    requires EntriesOk(e) && OnlyDrain(e, e', d)
    ensures EntriesOk(e')
  {
    forall x | x in e'.fence ensures EntryOk(e'.drains, x, e'.fence[x]) {
      assert x in e.fence ==> EntryOk(e.drains, x, e.fence[x]);
    }
  }

  lemma OneDrainKeepsOwner(e: State, e': State, d: DrainId)
    requires SingleOwner(e) && AllEnrolled(e) && OnlyDrain(e, e', d)
    requires IsDone(e.drains[d]) ==> IsDone(e'.drains[d])
    ensures SingleOwner(e') && AllEnrolled(e')
  {
    forall x, y | x in e'.drains && y in e'.drains && x != y ensures Compatible(e'.drains[x], e'.drains[y]) {
      assert Compatible(e.drains[x], e.drains[y]);
    }
    forall x | x in e'.drains ensures Enrolled(e'.sets, x, e'.drains[x]) {
      assert Enrolled(e.sets, x, e.drains[x]);
    }
  }

  lemma OneDrainKeepsBound(e: State, e': State, d: DrainId)
    requires AllBound(e) && OnlyDrain(e, e', d)
    ensures AllBound(e')
  {
    forall o | o in e'.obligations ensures BindingsOk(e'.fence, e'.obligations[o]) {
      assert BindingsOk(e.fence, e.obligations[o]);
      FenceStepKeepsBinding(e.fence, e'.fence, e.drains[d].target, d, e.obligations[o]);
      assert Settles(e.obligations[o], e'.obligations[o]);
      EvolvedStaysOk(e'.fence, e.obligations[o], e'.obligations[o]);
    }
  }

  lemma EvolvedStaysOk(f: Ad.Fence, o: Ob.Obligation, o': Ob.Obligation)
    requires BindingsOk(f, o) && Ob.Evolves(o, o')
    ensures BindingsOk(f, o')
  {
    forall t | t in o'.dependencies ensures BindingOk(f, o', t) {
      assert BindingOk(f, o, t);
    }
  }

  /** A step of one unrestored drain keeps the invariant when its own new record
      agrees with the new fence. */
  lemma OneDrainKeepsInv(e: State, e': State, d: DrainId)
    requires Inv(e) && OnlyDrain(e, e', d)
    requires !IsDone(e.drains[d]) || e'.fence == e.fence
    requires IsDone(e.drains[d]) ==> IsDone(e'.drains[d])
    requires RecordOk(e'.fence, e'.drainHighWater, d, e'.drains[d])
    ensures Inv(e')
  {
    OneDrainKeepsRecords(e, e', d);
    OneDrainKeepsEntries(e, e', d);
    OneDrainKeepsOwner(e, e', d);
    OneDrainKeepsBound(e, e', d);
  }
}
