/** What a step must have found before it moves: the guards of admission closure,
    of removal and of completion. */
module EngineGuards {
  import opened Identity
  import opened Lifecycle
  import opened Engine
  import opened EngineSteps
  import Ad = Admission
  import To = Topology

  // ---- Frames -----------------------------------------------------------------------

  lemma MoveFrame(e: State, d: DrainId, next: DrainState, now: Time)
    requires d in e.drains
    ensures Move(e, d, next, now) == e.(drains := Move(e, d, next, now).drains)
    ensures d in Move(e, d, next, now).drains
    ensures var r := e.drains[d];
            var r' := Move(e, d, next, now).drains[d];
            && r' == r.(state := r'.state, stateSince := r'.stateSince, blockedFrom := r'.blockedFrom,
                        blockers := r'.blockers, admissionClosedAt := r'.admissionClosedAt)
            && (r'.blockers == r.blockers || r'.blockers == {})
            && (r'.state == r.state || r'.state == next)
  {
    if Transition(e.drains[d], next, now).Some? {
      TransitionFrame(e.drains[d], next, now);
    }
  }

  lemma TransitionFrame(r: DrainRecord, next: DrainState, now: Time)
    requires Transition(r, next, now).Some?
    ensures var r' := Transition(r, next, now).value;
            && r' == r.(state := r'.state, stateSince := r'.stateSince, blockedFrom := r'.blockedFrom,
                        blockers := r'.blockers, admissionClosedAt := r'.admissionClosedAt)
            && (r'.blockers == r.blockers || r'.blockers == {})
            && r'.state == next
  {
  }

  lemma BlockFrame(e: State, d: DrainId, blockers: set<Blocker>, now: Time)
    requires d in e.drains
    ensures EnterBlocked(e, d, blockers, now) == e.(drains := EnterBlocked(e, d, blockers, now).drains)
    ensures d in EnterBlocked(e, d, blockers, now).drains
    ensures var r := e.drains[d];
            var r' := EnterBlocked(e, d, blockers, now).drains[d];
            && r' == r.(state := r'.state, stateSince := r'.stateSince, blockedFrom := r'.blockedFrom,
                        blockers := blockers, admissionClosedAt := r'.admissionClosedAt)
            && (r'.state == r.state || r'.state == Blocked)
  {
    MoveFrame(Put(e, d, e.drains[d].(blockers := blockers)), d, Blocked, now);
  }

  // ---- Fabric and fence ---------------------------------------------------------------

  /** The fabric is as it was, or the target left service after the validator
      found nothing against it. */
  predicate FabricMove(e: State, fabric: To.Fabric, id: ResourceId) {
    fabric == e.fabric
    || (To.Serves(e.fabric, id) && To.Validate(e.fabric, {id}, e.policy.headroom) == To.Fine
        && fabric == To.SetStatus(e.fabric, id, To.Unavailable))
  }

  /** What the branches of a step have in common: the fence stays unless the
      branch closes admission, none of them cancels, and only the evacuating one
      counts a round. */
  predicate Branch(e: State, e': State, d: DrainId, closes: bool)
    requires d in e.drains
  {
    && FabricMove(e, e'.fabric, e.drains[d].target.id)
    && (!closes ==> e'.fence == e.fence)
    && d in e'.drains && e'.drains[d].state != Cancelled
    && (Phase(e.drains[d]) != Evacuating ==> SameCount(e, e', d))
  }

  predicate SameCount(e: State, e': State, d: DrainId) {
    d in e.drains && d in e'.drains && e'.drains[d].evacuationRequests == e.drains[d].evacuationRequests
  }

  lemma RemoveBranch(e: State, d: DrainId, now: Time)
    requires d in e.drains && e.drains[d].state == Quiescing
    ensures Branch(e, Remove(e, d, now), d, false)
  {
    var id := e.drains[d].target.id;
    var blockers := RemovalBlockers(e, e.drains[d]);
    if blockers != {} {
      BlockFrame(e, d, blockers, now);
    } else {
      FinishFrame(TakenOut(e, id), d, now);
    }
  }

  lemma FinishFrame(e: State, d: DrainId, now: Time)
    requires d in e.drains && e.drains[d].state == Quiescing
    ensures var e' := FinishRemoval(e, d, now);
            && e'.fabric == e.fabric && e'.fence == e.fence && d in e'.drains && e'.drains[d].state != Cancelled
            && SameCount(e, e', d)
  {
    var observed := ObserveRemoval(e, d, now);
    if observed.Some? {
      MoveFrame(observed.value, d, Verifying, now);
    } else {
      BlockFrame(e, d, {Blocker(QuiescenceEvidenceMissing, OnEvidence(RemovalKey(e.drains[d])))}, now);
    }
  }

  lemma QuiescingBranch(e: State, d: DrainId, now: Time)
    requires d in e.drains && e.drains[d].state == Quiescing
    ensures Branch(e, ActQuiescing(e, d, now), d, false)
  {
    var r := e.drains[d];
    if SomeMoving(e, r.target) {
      MoveFrame(e, d, Evacuating, now);
    } else if QuiescenceBlockers(e, r, now) != {} {
      BlockFrame(e, d, QuiescenceBlockers(e, r, now), now);
    } else if Retirable(e, r, now) == {} {
      RemoveBranch(e, d, now);
    }
  }

  lemma VerifyingBranch(e: State, d: DrainId, now: Time, digest: nat)
    requires d in e.drains && e.drains[d].state == Verifying
    ensures Branch(e, ActVerifying(e, d, now, digest), d, false)
  {
    var r := e.drains[d];
    var e1 := if VerificationBlockers(e, r, now) == {} then e else Reobserve(e, d, now);
    ReobserveEffect(e, d, now);
    var blockers := VerificationBlockers(e1, r, now);
    BlockFrame(e1, d, blockers, now);
    if blockers == {} {
      CompleteFrame(e1, d, now, digest);
    }
  }

  lemma CompleteFrame(e: State, d: DrainId, now: Time, digest: nat)
    requires d in e.drains && e.drains[d].state == Verifying
    ensures var e' := Complete(e, d, now, digest);
            && e'.fabric == e.fabric && e'.fence == e.fence && d in e'.drains && e'.drains[d].state != Cancelled
            && SameCount(e, e', d)
  {
    var r := e.drains[d];
    var completed := RecordCompletion(r, now, |Outstanding(e, r.target)|, digest, CompletionProof(e, r, now));
    if completed.Some? {
      MoveFrame(Put(e, d, completed.value), d, Drained, now);
    } else {
      BlockFrame(e, d, {Blocker(ProtectedObligationActive, OnTarget(r.target))}, now);
    }
  }

  lemma ValidatingBranch(e: State, d: DrainId, now: Time)
    requires d in e.drains && e.drains[d].state == Validating
    ensures Branch(e, ActValidating(e, d, now), d, true)
  {
    BlockFrame(e, d, StartBlockers(e, e.drains[d], now), now);
    CloseFrame(e, d, now);
  }

  lemma CloseFrame(e: State, d: DrainId, now: Time)
    requires d in e.drains && e.drains[d].state == Validating
    ensures var e' := CloseAdmission(e, d, now);
            e'.fabric == e.fabric && d in e'.drains && e'.drains[d].state != Cancelled && SameCount(e, e', d)
  {
    var r := e.drains[d];
    var closed := Ad.Close(e.fence, r.target, d);
    BlockFrame(e.(fence := closed.fence), d, {Blocker(AdmissionFenceMissing, OnTarget(r.target))}, now);
  }

  lemma EvacuatingBranch(e: State, d: DrainId, now: Time)
    requires d in e.drains && e.drains[d].state == Evacuating
    ensures Branch(e, ActEvacuating(e, d, now), d, false)
  {
    MoveFrame(e, d, Quiescing, now);
    BlockFrame(e, d, EvacuationBlockers(e, e.drains[d], now), now);
  }

  lemma ActBranch(e: State, d: DrainId, now: Time, digest: nat)
    requires d in e.drains && e.drains[d].state != Restoring && e.drains[d].state != Cancelled
    ensures Branch(e, Act(e, d, now, digest), d, e.drains[d].state == Validating)
  {
    match e.drains[d].state
    case Requested => MoveFrame(e, d, Validating, now);
    case Validating => ValidatingBranch(e, d, now);
    case AdmissionClosed => MoveFrame(e, d, Quiescing, now); MoveFrame(e, d, Evacuating, now);
    case Evacuating => EvacuatingBranch(e, d, now);
    case Quiescing => QuiescingBranch(e, d, now);
    case Verifying => VerifyingBranch(e, d, now, digest);
    case _ =>
  }

  /** Outside restoration, a step changes the fabric only by a validated removal of
      its own target, the fence only by closing admission, and never cancels. */
  lemma StepBranch(e: State, d: DrainId, now: Time, digest: nat)
    requires Ready(e, d) && Phase(e.drains[d]) != Restoring && Phase(e.drains[d]) != Cancelled
    ensures Branch(e, StepDrain(e, d, now, digest), d, Phase(e.drains[d]) == Validating)
  {
    if e.drains[d].state != Blocked {
      ActBranch(e, d, now, digest);
    } else {
      RevalidateEffect(e, d, now);
      var revalidated := Revalidate(e, d, now);
      if revalidated.ok {
        ActBranch(revalidated.state, d, now, digest);
      }
    }
  }

  /** The restoration completes in this step. A blocked one starts its settling
      time again as it resumes. */
  predicate FinishesRestoring(e: State, d: DrainId, now: Time)
    requires d in e.drains
  {
    var since := if e.drains[d].state == Blocked then now else e.drains[d].stateSince;
    Phase(e.drains[d]) == Restoring && now >= SaturatingAdd(since, e.policy.settle)
  }

  lemma ActRestores(e: State, d: DrainId, now: Time)
    requires Ready(e, d) && e.drains[d].state == Restoring
    ensures var e' := ActRestoring(e, d, now);
            && e'.fabric == e.fabric && e'.fence == e.fence && SameCount(e, e', d)
            && e'.drains[d].generation == e.drains[d].generation
            && if now >= SaturatingAdd(e.drains[d].stateSince, e.policy.settle)
               then e'.drains[d].state == Cancelled && e'.drains[d].restoredAt == now
               else e'.drains[d].state == Restoring
  {
    assert !RemovalOwned(e, e.drains[d]);
  }

  /** A restoring drain completes, recording the instant, or goes on restoring; it
      never touches the fence or the fabric. */
  lemma StepRestores(e: State, d: DrainId, now: Time, digest: nat)
    requires Ready(e, d) && Phase(e.drains[d]) == Restoring
    ensures var e' := StepDrain(e, d, now, digest);
            && e'.fabric == e.fabric && e'.fence == e.fence && SameCount(e, e', d)
            && e'.drains[d].generation == e.drains[d].generation
            && if FinishesRestoring(e, d, now)
               then e'.drains[d].state == Cancelled && e'.drains[d].restoredAt == now
               else e'.drains[d].state == Restoring
  {
    if e.drains[d].state != Blocked {
      ActRestores(e, d, now);
    } else {
      RevalidateEffect(e, d, now);
      ResumedRecord(e.fence, e.drainHighWater, d, e.drains[d], now);
      var revalidated := Revalidate(e, d, now);
      assert revalidated.ok && revalidated.state.drains[d].stateSince == now;
      ActRestores(revalidated.state, d, now);
    }
  }

  // ---- Admission closure ---------------------------------------------------------------

  /** Nobody of the domain waits with a smaller number, and the domain has room. */
  ghost predicate MayClose(e: State, r: DrainRecord) {
    && (forall x :: x in OthersWaiting(e, r) ==> r.id < x)
    && |OthersHolding(e, r)| < e.policy.maxPerDomain
  }

  lemma StartClearMayClose(e: State, r: DrainRecord, now: Time)
    requires StartBlockers(e, r, now) == {}
    ensures MayClose(e, r)
  {
    var all := StartBlockers(e, r, now);
    assert OrderBlockers(e, r) <= all;
    assert One(|OthersHolding(e, r)| >= e.policy.maxPerDomain, DomainLimitReached, OnDomain(r.target.domain)) <= all;
    OrderClear(e, r);
  }

  lemma OrderClear(e: State, r: DrainRecord)
    requires OrderBlockers(e, r) == {}
    ensures forall x :: x in OthersWaiting(e, r) ==> r.id < x
  {
    var waiting := OthersWaiting(e, r);
    if waiting != {} {
      assert IsMin(waiting, Min(waiting));
      assert Min(waiting) >= r.id;
    }
  }

  /** The others of a domain are the same however the drain itself stands. */
  lemma OthersSame(e: State, e1: State, d: DrainId, r: DrainRecord, r1: DrainRecord)
    requires e1.drains.Keys == e.drains.Keys
    requires forall x :: x in e.drains && x != d ==> e1.drains[x] == e.drains[x]
    requires r.id == d && r1.id == d && r1.target == r.target
    ensures OthersWaiting(e1, r1) == OthersWaiting(e, r) && OthersHolding(e1, r1) == OthersHolding(e, r)
  {
  }

  lemma RevalidatedOthers(e: State, e1: State, d: DrainId)
    requires Ready(e, d) && Revalidated(e, e1, d)
    ensures MayClose(e1, e1.drains[d]) <==> MayClose(e, e.drains[d])
  {
    OthersSame(e, e1, d, e.drains[d], e1.drains[d]);
  }

  lemma ActCloses(e: State, e': State, d: DrainId, now: Time)
    requires Ready(e, d) && e.drains[d].state == Validating
    requires e' == ActValidating(e, d, now) && d in e'.drains && Phase(e'.drains[d]) == AdmissionClosed
    ensures MayClose(e, e.drains[d])
  {
    var blockers := StartBlockers(e, e.drains[d], now);
    if blockers == {} {
      StartClearMayClose(e, e.drains[d], now);
    } else {
      BlockedEffect(e, d, blockers, now);
    }
  }

  /** Admission closes only for a drain that is first in its domain's order and
      within the domain's limit. */
  lemma ClosureGuard(e: State, e': State, d: DrainId, now: Time, digest: nat)
    requires Ready(e, d) && digest != 0
    requires Phase(e.drains[d]) == Validating
    requires e' == StepDrain(e, d, now, digest) && d in e'.drains && Phase(e'.drains[d]) == AdmissionClosed
    ensures MayClose(e, e.drains[d])
  {
    if e.drains[d].state != Blocked {
      ActCloses(e, e', d, now);
    } else {
      RevalidateEffect(e, d, now);
      var revalidated := Revalidate(e, d, now);
      if revalidated.ok {
        ActCloses(revalidated.state, e', d, now);
      }
      RevalidatedOthers(e, revalidated.state, d);
    }
  }

  // ---- Completion -------------------------------------------------------------------------

  /** What stands behind an entry to Drained: nothing outstanding, the target out
      of service, and, when policy asks for it, an observation of the removal that
      proves it for this drain now and is the one the record cites. */
  ghost predicate ProvenDrained(e: State, d: DrainId, now: Time) {
    && d in e.drains && e.drains[d].state == Drained
    && Outstanding(e, e.drains[d].target) == {}
    && e.drains[d].target.id in e.fabric.resources
    && e.fabric.resources[e.drains[d].target.id].status == To.Unavailable
    && (e.policy.requireQuiescence ==>
          && RemovalEvidence(e, e.drains[d], now).Some?
          && Proves(e, e.drains[d], RemovalEvidence(e, e.drains[d], now).value, now)
          && e.drains[d].completionEvidence == RemovalEvidence(e, e.drains[d], now).value.number)
  }

  lemma VerifiedIsProven(e: State, r: DrainRecord, now: Time)
    requires VerificationBlockers(e, r, now) == {} && e.policy.requireQuiescence
    ensures RemovalEvidence(e, r, now).Some? && Proves(e, r, RemovalEvidence(e, r, now).value, now)
  {
    VerifiedIsClear(e, r, now);
  }

  lemma CompleteIsProven(e: State, d: DrainId, now: Time, digest: nat)
    requires Ready(e, d) && e.drains[d].state == Verifying && digest != 0
    requires VerificationBlockers(e, e.drains[d], now) == {}
    ensures ProvenDrained(Complete(e, d, now, digest), d, now)
  {
    VerifiedIsClear(e, e.drains[d], now);
    CompleteEffect(e, d, now, digest);
    if e.policy.requireQuiescence {
      VerifiedIsProven(e, e.drains[d], now);
      CompleteEvidence(e, d, now, digest);
    }
  }

  /** The completed record is judged by the same evidence as the verifying one. */
  lemma CompleteEvidence(e: State, d: DrainId, now: Time, digest: nat)
    requires Ready(e, d) && e.drains[d].state == Verifying && digest != 0
    requires Outstanding(e, e.drains[d].target) == {}
    ensures var e' := Complete(e, d, now, digest);
            && RemovalEvidence(e', e'.drains[d], now) == RemovalEvidence(e, e.drains[d], now)
            && e'.drains[d].generation == e.drains[d].generation
            && e'.drains[d].admissionClosedAt == e.drains[d].admissionClosedAt
            && LineAt(e', now) == LineAt(e, now) && e'.policy == e.policy
  {
    CompleteEffect(e, d, now, digest);
  }

  lemma ActDrains(e: State, e': State, d: DrainId, now: Time, digest: nat)
    requires Ready(e, d) && digest != 0 && e.drains[d].state == Verifying
    requires e' == ActVerifying(e, d, now, digest) && d in e'.drains && e'.drains[d].state == Drained
    ensures ProvenDrained(e', d, now)
  {
    var r := e.drains[d];
    var e1 := if VerificationBlockers(e, r, now) == {} then e else Reobserve(e, d, now);
    ReobserveEffect(e, d, now);
    var blockers := VerificationBlockers(e1, r, now);
    if blockers == {} {
      CompleteIsProven(e1, d, now, digest);
    } else {
      BlockedEffect(e1, d, blockers, now);
    }
  }

  /** Only a verifying drain becomes Drained, and only on proof. */
  lemma RevalidatedDrains(e: State, e': State, d: DrainId, now: Time, digest: nat)
    requires Ready(e, d) && digest != 0 && e.drains[d].state == Blocked && Phase(e.drains[d]) == Verifying
    requires e' == StepDrain(e, d, now, digest) && d in e'.drains && e'.drains[d].state == Drained
    ensures ProvenDrained(e', d, now)
  {
    RevalidateEffect(e, d, now);
    var revalidated := Revalidate(e, d, now);
    if revalidated.ok {
      ActDrains(revalidated.state, e', d, now, digest);
    }
  }

  lemma DrainedGuard(e: State, e': State, d: DrainId, now: Time, digest: nat)
    requires Ready(e, d) && digest != 0
    requires e' == StepDrain(e, d, now, digest) && d in e'.drains
    requires e.drains[d].state != Drained && e'.drains[d].state == Drained
    ensures ProvenDrained(e', d, now)
  {
    StepDrainEffect(e, d, now, digest);
    assert Phase(e.drains[d]) == Verifying;
    if e.drains[d].state != Blocked {
      ActDrains(e, e', d, now, digest);
    } else {
      RevalidatedDrains(e, e', d, now, digest);
    }
  }
}
