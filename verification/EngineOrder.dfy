/** Ordered admission: within a failure domain drains close admission in the
    order of their numbers, never more at once than policy allows, and no wait
    among them forms a cycle. */
module EngineOrder {
  import opened Identity
  import opened Lifecycle
  import opened Engine
  import opened EngineInvariant
  import opened EngineSteps
  import opened EngineOperations
  import opened EngineGuards
  import opened EngineRuns
  import Ad = Admission

  // ---- Which events close admission ----------------------------------------------------

  predicate Closing(r: DrainRecord, r': DrainRecord) {
    Phase(r) == Validating && Phase(r') == AdmissionClosed
  }

  ghost predicate OthersStay(e: State, e': State, d: DrainId) {
    e'.drains.Keys == e.drains.Keys && forall x :: x in e.drains && x != d ==> e'.drains[x] == e.drains[x]
  }

  /** Drains progress, and a drain that closes admission does so alone, first in
      its domain and within the limit. */
  ghost predicate Disciplined(e: State, e': State) {
    && DrainsProgress(e, e')
    && forall d :: d in e.drains && Closing(e.drains[d], e'.drains[d]) ==>
         MayClose(e, e.drains[d]) && OthersStay(e, e', d)
  }

  lemma QuietDisciplined(e: State, e': State)
    requires DrainsProgress(e, e')
    requires forall d :: d in e.drains ==> Phase(e'.drains[d]) == Phase(e.drains[d])
    ensures Disciplined(e, e')
  {
  }

  lemma DrainOpCloses(e: State, e': State, d: DrainId, op: DrainOp, now: Time)
    requires Inv(e) && Roomy(e) && d in e.drains
    requires e' == ApplyDrain(e, d, op, now) && d in e'.drains
    requires Closing(e.drains[d], e'.drains[d])
    ensures MayClose(e, e.drains[d])
  {
    InvIsReady(e, d);
    if !op.StepOp? {
      OnlyStepAdvances(e, d, op, now);
    } else if op.digest != 0 {
      ClosureGuard(e, e', d, now, op.digest);
    }
  }

  lemma EffectDisciplined(e: State, e': State, d: DrainId)
    requires DrainEffect(e, e', d)
    requires Closing(e.drains[d], e'.drains[d]) ==> MayClose(e, e.drains[d])
    ensures Disciplined(e, e')
  {
    DrainProgress(e, e', d);
    forall x | x in e.drains && Closing(e.drains[x], e'.drains[x])
      ensures MayClose(e, e.drains[x]) && OthersStay(e, e', x)
    {
      assert x == d;
    }
  }

  lemma DrainDisciplined(e: State, d: DrainId, op: DrainOp, now: Time)
    requires Inv(e) && Roomy(e) && d in e.drains
    ensures Disciplined(e, ApplyDrain(e, d, op, now))
  {
    var e' := ApplyDrain(e, d, op, now);
    ApplyDrainEffect(e, d, op, now);
    if Closing(e.drains[d], e'.drains[d]) {
      DrainOpCloses(e, e', d, op, now);
    }
    EffectDisciplined(e, e', d);
  }

  lemma AddsDisciplined(e: State, e': State)
    requires OnlyAdds(e, e')
    ensures Disciplined(e, e')
  {
    AddsProgress(e, e');
    QuietDisciplined(e, e');
  }

  lemma OthersDisciplined(e: State, v: Event, e': State)
    requires Inv(e) && Roomy(e) && e' == Apply(e, v) && e'.drains == e.drains
    ensures Disciplined(e, e')
  {
    ApplyDrainsProgress(e, v);
    QuietDisciplined(e, e');
  }

  lemma ApplyDisciplined(e: State, v: Event)
    requires Inv(e) && Roomy(e)
    ensures Disciplined(e, Apply(e, v))
  {
    match v
    case RequestEvent(ts, authority, nonce, now) =>
      RequestOnlyAdds(e, ts, authority, nonce, now);
      AddsDisciplined(e, RequestSet(e, ts, authority, nonce, now).state);
    case DrainEvent(d, op, now) =>
      if d in e.drains {
        DrainDisciplined(e, d, op, now);
      } else {
        OthersDisciplined(e, v, Apply(e, v));
      }
    case _ =>
      OthersDisciplined(e, v, Apply(e, v));
  }

  lemma RecoverDisciplined(e: State, now: Time)
    requires Inv(e)
    ensures Disciplined(e, Recover(e, now))
  {
    RecoverProgress(e, now);
    forall d | d in e.drains ensures Phase(Recover(e, now).drains[d]) == Phase(e.drains[d]) {
      RecoveredRecord(e.fence, e.drainHighWater, d, e.drains[d], now);
    }
    QuietDisciplined(e, Recover(e, now));
  }

  lemma RunDisciplined(p: Policy, run: seq<RunEvent>, states: seq<State>, i: nat)
    requires IsRun(p, run, states) && 0 < i < |states|
    ensures Source(run, i) < i
    ensures Inv(states[Source(run, i)]) && Inv(states[i]) && Disciplined(states[Source(run, i)], states[i])
  {
    SourceBefore(p, run, states, i);
    var e := states[Source(run, i)];
    RunKeepsInv(p, run, states, Source(run, i));
    RunKeepsInv(p, run, states, i);
    if run[i - 1].Do? {
      ApplyDisciplined(e, run[i - 1].event);
    } else {
      RecoverDisciplined(e, run[i - 1].now);
    }
  }

  // ---- Order of admission -------------------------------------------------------------------

  /** When the later drain of a domain has closed admission, the earlier one no
      longer waits. */
  predicate InOrder(early: DrainRecord, late: DrainRecord) {
    early.target.domain == late.target.domain && late.generation != 0 ==> !IsWaiting(early)
  }

  ghost predicate AdmissionOrdered(e: State) {
    forall i, j :: i in e.drains && j in e.drains && i < j ==> InOrder(e.drains[i], e.drains[j])
  }

  lemma WaitingIsPhase(f: Ad.Fence, hw: DrainId, d: DrainId, r: DrainRecord)
    requires RecordOk(f, hw, d, r)
    ensures IsWaiting(r) <==> Phase(r) == Requested || Phase(r) == Validating
    ensures HoldsFence(r) <==> IsHolding(Phase(r))
  {
  }

  lemma PairStaysOrdered(e: State, e': State, i: DrainId, j: DrainId)
    requires Inv(e) && Inv(e') && AdmissionOrdered(e) && Disciplined(e, e')
    requires i in e.drains && j in e.drains && i < j
    ensures InOrder(e'.drains[i], e'.drains[j])
  {
    var r := e.drains[i];
    var r' := e'.drains[i];
    assert InOrder(r, e.drains[j]);
    assert Motion(r, r') && Motion(e.drains[j], e'.drains[j]);
    WaitingIsPhase(e.fence, e.drainHighWater, i, r);
    WaitingIsPhase(e'.fence, e'.drainHighWater, i, r');
    if r.target.domain == e.drains[j].target.domain && Closing(e.drains[j], e'.drains[j]) {
      assert MayClose(e, e.drains[j]);
      assert e.drains[j].id == j by {
        assert RecordOk(e.fence, e.drainHighWater, j, e.drains[j]);
      }
      assert i !in OthersWaiting(e, e.drains[j]);
    }
  }

  lemma StepKeepsOrder(e: State, e': State)
    requires Inv(e) && Inv(e') && AdmissionOrdered(e) && Disciplined(e, e')
    ensures AdmissionOrdered(e')
  {
    forall i, j | i in e'.drains && j in e'.drains && i < j ensures InOrder(e'.drains[i], e'.drains[j]) {
      if j !in e.drains {
        assert Fresh(e.drainHighWater, j, e'.drains[j]);
      } else {
        assert RecordOk(e.fence, e.drainHighWater, j, e.drains[j]);
        assert i !in e.drains ==> Fresh(e.drainHighWater, i, e'.drains[i]);
        PairStaysOrdered(e, e', i, j);
      }
    }
  }

  /** In every state of every run, a drain that has closed admission has no
      smaller-numbered drain of its domain still waiting. */
  lemma {:induction false} RunAdmitsInOrder(p: Policy, run: seq<RunEvent>, states: seq<State>, i: nat)
    requires IsRun(p, run, states) && i < |states|
    ensures AdmissionOrdered(states[i])
    decreases i
  {
    if i > 0 {
      RunDisciplined(p, run, states, i);
      RunAdmitsInOrder(p, run, states, Source(run, i));
      StepKeepsOrder(states[Source(run, i)], states[i]);
    }
  }

  // ---- The failure-domain limit ----------------------------------------------------------------

  function Holding(e: State, domain: DomainId): set<DrainId> {
    set d | d in e.drains && e.drains[d].target.domain == domain && HoldsFence(e.drains[d])
  }

  ghost predicate WithinLimit(e: State, limit: nat) {
    forall domain :: |Holding(e, domain)| <= limit
  }

  lemma SubsetCard<T>(a: set<T>, b: set<T>)
    requires a <= b
    ensures |a| <= |b|
  {
    assert b == a + (b - a);
  }

  lemma HoldersOnlyByClosing(e: State, e': State, d: DrainId)
    requires RecordsOk(e) && RecordsOk(e') && Disciplined(e, e')
    requires d in e'.drains && HoldsFence(e'.drains[d])
    ensures d in e.drains && (HoldsFence(e.drains[d]) || Closing(e.drains[d], e'.drains[d]))
    ensures e.drains[d].target == e'.drains[d].target
  {
    assert d !in e.drains ==> Fresh(e.drainHighWater, d, e'.drains[d]);
    assert Motion(e.drains[d], e'.drains[d]);
    WaitingIsPhase(e.fence, e.drainHighWater, d, e.drains[d]);
    WaitingIsPhase(e'.fence, e'.drainHighWater, d, e'.drains[d]);
  }

  lemma ClosingOwnDomain(e: State, e': State, d: DrainId)
    requires d in e.drains && e.drains[d].id == d && OthersStay(e, e', d) && Motion(e.drains[d], e'.drains[d])
    requires |OthersHolding(e, e.drains[d])| < e.policy.maxPerDomain
    ensures |Holding(e', e.drains[d].target.domain)| <= e.policy.maxPerDomain
  {
    var others := OthersHolding(e, e.drains[d]);
    assert Holding(e', e.drains[d].target.domain) <= others + {d};
    SubsetCard(Holding(e', e.drains[d].target.domain), others + {d});
  }

  lemma ClosingOtherDomain(e: State, e': State, d: DrainId, domain: DomainId)
    requires d in e.drains && OthersStay(e, e', d) && Motion(e.drains[d], e'.drains[d])
    requires e.drains[d].target.domain != domain
    ensures |Holding(e', domain)| <= |Holding(e, domain)|
  {
    assert Holding(e', domain) <= Holding(e, domain);
    SubsetCard(Holding(e', domain), Holding(e, domain));
  }

  lemma ClosingStaysWithin(e: State, e': State, d: DrainId, domain: DomainId)
    requires RecordsOk(e) && Disciplined(e, e')
    requires |Holding(e, domain)| <= e.policy.maxPerDomain
    requires d in e.drains && Closing(e.drains[d], e'.drains[d])
    ensures |Holding(e', domain)| <= e.policy.maxPerDomain
  {
    assert RecordOk(e.fence, e.drainHighWater, d, e.drains[d]);
    assert MayClose(e, e.drains[d]) && OthersStay(e, e', d);
    assert Motion(e.drains[d], e'.drains[d]);
    if e.drains[d].target.domain == domain {
      ClosingOwnDomain(e, e', d);
    } else {
      ClosingOtherDomain(e, e', d, domain);
    }
  }

  lemma StepStaysWithin(e: State, e': State)
    requires Inv(e) && Inv(e') && Disciplined(e, e') && WithinLimit(e, e.policy.maxPerDomain)
    ensures WithinLimit(e', e.policy.maxPerDomain)
  {
    forall domain ensures |Holding(e', domain)| <= e.policy.maxPerDomain {
      assert |Holding(e, domain)| <= e.policy.maxPerDomain;
      if d :| d in e.drains && Closing(e.drains[d], e'.drains[d]) {
        ClosingStaysWithin(e, e', d, domain);
      } else {
        forall d | d in Holding(e', domain) ensures d in Holding(e, domain) {
          HoldersOnlyByClosing(e, e', d);
        }
        SubsetCard(Holding(e', domain), Holding(e, domain));
      }
    }
  }

  /** The run never installs a policy with another domain limit. */
  ghost predicate LimitFixed(p: Policy, run: seq<RunEvent>) {
    forall i :: 0 <= i < |run| ==> KeepsLimit(p, run[i])
  }

  predicate KeepsLimit(p: Policy, v: RunEvent) {
    v.Do? && v.event.SetupEvent? && v.event.setup.PolicyOp? ==>
      v.event.setup.policy.maxPerDomain == p.maxPerDomain
  }

  lemma ApplyPolicy(e: State, v: Event)
    requires Inv(e) && Roomy(e)
    ensures Apply(e, v).policy
         == if v.SetupEvent? && v.setup.PolicyOp? then v.setup.policy else e.policy
  {
    if v.DrainEvent? && v.drain in e.drains {
      ApplyDrainEffect(e, v.drain, v.call, v.now);
    }
  }

  /** Under a fixed limit, in every state of every run, restarts included, no
      failure domain has more drains past admission closure than policy allows. */
  lemma {:induction false} RunStaysWithinLimit(p: Policy, run: seq<RunEvent>, states: seq<State>, i: nat)
    requires IsRun(p, run, states) && LimitFixed(p, run) && i < |states|
    ensures WithinLimit(states[i], p.maxPerDomain) && states[i].policy.maxPerDomain == p.maxPerDomain
    decreases i
  {
    if i > 0 {
      RunDisciplined(p, run, states, i);
      RunPolicy(p, run, states, i);
      assert KeepsLimit(p, run[i - 1]);
      RunStaysWithinLimit(p, run, states, Source(run, i));
      StepStaysWithin(states[Source(run, i)], states[i]);
    }
  }

  lemma RunPolicy(p: Policy, run: seq<RunEvent>, states: seq<State>, i: nat)
    requires IsRun(p, run, states) && 0 < i < |states|
    ensures Source(run, i) < i
    ensures var v := run[i - 1];
            states[i].policy == if v.Do? && v.event.SetupEvent? && v.event.setup.PolicyOp? then v.event.setup.policy
                                else states[Source(run, i)].policy
  {
    SourceBefore(p, run, states, i);
    RunKeepsInv(p, run, states, Source(run, i));
    if run[i - 1].Do? {
      ApplyPolicy(states[i - 1], run[i - 1].event);
    }
  }
}
