/** The effect of `step_drain`, branch by branch: which parts of the state move
    and how the record moves through the lifecycle. */
module EngineSteps {
  import opened Identity
  import opened Lifecycle
  import opened Engine
  import opened EngineInvariant
  import Ad = Admission

  /** How one record may move: hold its position (blocked or not), or take one of
      the lifecycle steps. The generation is set once, at admission closure. */
  predicate Motion(r: DrainRecord, r': DrainRecord) {
    && r'.id == r.id && r'.target == r.target && r'.set_ == r.set_ && r'.authority == r.authority
    && (if Phase(r) == Validating && Phase(r') == AdmissionClosed then r'.generation > 0
        else r'.generation == r.generation)
    && MayFollow(Phase(r), Phase(r'))
  }

  predicate MayFollow(from: DrainState, to: DrainState) {
    || from == to
    || (from == Requested && to == Validating)
    || (from == Validating && to == AdmissionClosed)
    || (IsHolding(from) && IsHolding(to))
    || (from == Verifying && to == Drained)
    || (!IsSettled(from) && to == Cancelled)
    || ((from == Drained || from == Cancelled) && to == Restoring)
  }

  /** What no drain step touches. */
  predicate SameSetup(e: State, e': State) {
    && e'.policy == e.policy && e'.authority == e.authority && e'.sets == e.sets
    && e'.exceptions == e.exceptions && e'.nonces == e.nonces
    && e'.drainHighWater == e.drainHighWater && e'.setHighWater == e.setHighWater
    && e'.obligationHighWater == e.obligationHighWater
  }

  /** The effect of a step of drain d. */
  ghost predicate StepEffect(e: State, e': State, d: DrainId) {
    && OnlyDrain(e, e', d)
    && RecordOk(e'.fence, e'.drainHighWater, d, e'.drains[d])
    && Motion(e.drains[d], e'.drains[d])
    && SameSetup(e, e')
  }

  /** What a step of drain d starts from. */
  ghost predicate Ready(e: State, d: DrainId) {
    && d in e.drains
    && RecordOk(e.fence, e.drainHighWater, d, e.drains[d])
    && |e.fence| <= Ad.MAX_FENCED_TARGETS
    && Ad.GenerationOf(e.fence, e.drains[d].target) + 2 <= U64_MAX
  }

  /** Same fence, bindings and setup; only the record of d was replaced. */
  ghost predicate Replaced(e: State, e': State, d: DrainId) {
    && d in e.drains && d in e'.drains
    && e'.drains == e.drains[d := e'.drains[d]]
    && e'.fence == e.fence && SameBindings(e, e') && SameSetup(e, e')
  }

  lemma SameObligationsBind(e: State, e': State)
    requires e'.obligations == e.obligations
    ensures SameBindings(e, e')
  {
  }

  lemma ReplacedEffect(e: State, e': State, d: DrainId)
    requires Ready(e, d) && Replaced(e, e', d)
    requires RecordOk(e.fence, e.drainHighWater, d, e'.drains[d])
    requires Motion(e.drains[d], e'.drains[d])
    ensures StepEffect(e, e', d)
  {
  }

  /** A record that enters or stays Blocked holds its position. */
  lemma BlockedRecord(f: Ad.Fence, hw: DrainId, d: DrainId, r: DrainRecord, blockers: set<Blocker>, now: Time)
    requires RecordOk(f, hw, d, r)
    requires r.state == Blocked || IsTransient(r.state)
    ensures var moved := Transition(r.(blockers := blockers), Blocked, now);
            && moved.Some? && RecordOk(f, hw, d, moved.value) && Motion(r, moved.value)
            && moved.value.state == Blocked && moved.value.blockers == blockers
  {
  }

  lemma BlockedEffect(e: State, d: DrainId, blockers: set<Blocker>, now: Time)
    requires Ready(e, d)
    requires e.drains[d].state == Blocked || IsTransient(e.drains[d].state)
    ensures StepEffect(e, EnterBlocked(e, d, blockers, now), d)
    ensures EnterBlocked(e, d, blockers, now).drains[d].state == Blocked
    ensures EnterBlocked(e, d, blockers, now).drains[d].blockers == blockers
    ensures EnterBlocked(e, d, blockers, now) == e.(drains := EnterBlocked(e, d, blockers, now).drains)
  {
    var r := e.drains[d];
    BlockedRecord(e.fence, e.drainHighWater, d, r, blockers, now);
    PutEffect(e, d, Transition(r.(blockers := blockers), Blocked, now).value);
    assert EnterBlocked(e, d, blockers, now) == Put(e, d, Transition(r.(blockers := blockers), Blocked, now).value);
  }

  lemma PutEffect(e: State, d: DrainId, r: DrainRecord)
    requires Ready(e, d)
    requires RecordOk(e.fence, e.drainHighWater, d, r) && Motion(e.drains[d], r)
    ensures StepEffect(e, Put(e, d, r), d)
  {
    var e' := Put(e, d, r);
    SameObligationsBind(e, e');
    ReplacedEffect(e, e', d);
  }

  lemma MovedRecord(f: Ad.Fence, hw: DrainId, d: DrainId, r: DrainRecord, next: DrainState, now: Time)
    requires RecordOk(f, hw, d, r)
    requires LegalTransition(r.state, next)
    requires (r.state == Requested && next == Validating) || (IsHolding(r.state) && IsHolding(next))
    ensures var moved := Transition(r, next, now);
            && moved.Some? && RecordOk(f, hw, d, moved.value) && Motion(r, moved.value)
            && moved.value.state == next
  {
  }

  lemma MoveEffect(e: State, d: DrainId, next: DrainState, now: Time)
    requires Ready(e, d)
    requires LegalTransition(e.drains[d].state, next)
    requires (e.drains[d].state == Requested && next == Validating)
             || (IsHolding(e.drains[d].state) && IsHolding(next))
    ensures StepEffect(e, Move(e, d, next, now), d)
    ensures Move(e, d, next, now).drains[d].state == next
    ensures Move(e, d, next, now) == e.(drains := Move(e, d, next, now).drains)
  {
    MovedRecord(e.fence, e.drainHighWater, d, e.drains[d], next, now);
    PutEffect(e, d, Transition(e.drains[d], next, now).value);
  }

  /** A resumed record is the held position itself. */
  lemma ResumedRecord(f: Ad.Fence, hw: DrainId, d: DrainId, r: DrainRecord, now: Time)
    requires RecordOk(f, hw, d, r) && r.state == Blocked
    ensures var moved := Transition(r, r.blockedFrom.value, now);
            && moved.Some? && RecordOk(f, hw, d, moved.value) && Motion(r, moved.value)
            && moved.value.state == r.blockedFrom.value && Phase(moved.value) == Phase(r)
            && moved.value == r.(state := r.blockedFrom.value, stateSince := now, blockedFrom := None,
                                 blockers := {}, admissionClosedAt := moved.value.admissionClosedAt)
  {
  }

  // ---- The branches ------------------------------------------------------------------

  /** Closing admission: only a drain without blockers, and its generation is the
      one the fence now carries. */
  lemma ValidatingEffect(e: State, d: DrainId, now: Time)
    requires Ready(e, d) && e.drains[d].state == Validating
    ensures StepEffect(e, ActValidating(e, d, now), d)
    ensures ActValidating(e, d, now).drains[d].state == AdmissionClosed ==> StartBlockers(e, e.drains[d], now) == {}
    ensures ActValidating(e, d, now).drains[d].state == AdmissionClosed
            || ActValidating(e, d, now).drains[d].state == Blocked
    ensures ActValidating(e, d, now)
         == e.(drains := ActValidating(e, d, now).drains, fence := ActValidating(e, d, now).fence)
  {
    var blockers := StartBlockers(e, e.drains[d], now);
    if blockers != {} {
      BlockedEffect(e, d, blockers, now);
    } else {
      CloseEffect(e, d, now);
    }
  }

  lemma RefusedClose(e: State, d: DrainId)
    requires Ready(e, d)
    requires Ad.Close(e.fence, e.drains[d].target, d).generation.None?
    ensures Ad.Close(e.fence, e.drains[d].target, d).fence == e.fence
    ensures |e.fence| == Ad.MAX_FENCED_TARGETS && e.drains[d].target !in e.fence
  {
    var t := e.drains[d].target;
    assert t in e.fence ==> e.fence.Keys + {t} == e.fence.Keys;
    assert e.fence - {t} == e.fence;
  }

  lemma CloseFence(f: Ad.Fence, t: Target, d: DrainId)
    requires Ad.Close(f, t, d).generation.Some?
    ensures FenceStep(f, Ad.Close(f, t, d).fence, t, d)
    ensures |Ad.Close(f, t, d).fence| <= Ad.MAX_FENCED_TARGETS
    ensures Ad.Close(f, t, d).fence[t] == Ad.FenceEntry(true, Ad.Close(f, t, d).generation.value, d)
    ensures Ad.Close(f, t, d).generation.value > Ad.GenerationOf(f, t)
  {
    assert Ad.Close(f, t, d).fence.Keys == f.Keys + {t};
  }

  lemma ClosedRecord(f: Ad.Fence, hw: DrainId, d: DrainId, r: DrainRecord, g: Generation, f': Ad.Fence, now: Time)
    requires RecordOk(f, hw, d, r) && r.state == Validating && g > 0
    requires r.target in f' && f'[r.target] == Ad.FenceEntry(true, g, d)
    ensures var moved := Transition(r.(generation := g), AdmissionClosed, now);
            && moved.Some? && RecordOk(f', hw, d, moved.value) && Motion(r, moved.value)
            && moved.value.state == AdmissionClosed
  {
  }

  lemma CloseEffect(e: State, d: DrainId, now: Time)
    requires Ready(e, d) && e.drains[d].state == Validating
    ensures StepEffect(e, CloseAdmission(e, d, now), d)
    ensures CloseAdmission(e, d, now)
         == e.(drains := CloseAdmission(e, d, now).drains, fence := CloseAdmission(e, d, now).fence)
    ensures CloseAdmission(e, d, now).drains[d].state
         == if Ad.Close(e.fence, e.drains[d].target, d).generation.Some? then AdmissionClosed else Blocked
  {
    var r := e.drains[d];
    var closed := Ad.Close(e.fence, r.target, d);
    var e' := CloseAdmission(e, d, now);
    if closed.generation.None? {
      RefusedClose(e, d);
      BlockedEffect(e, d, {Blocker(AdmissionFenceMissing, OnTarget(r.target))}, now);
    } else {
      CloseFence(e.fence, r.target, d);
      ClosedRecord(e.fence, e.drainHighWater, d, r, closed.generation.value, closed.fence, now);
      assert e'.drains == e.drains[d := e'.drains[d]];
      SameObligationsBind(e, e');
    }
  }

  lemma AdmissionClosedEffect(e: State, d: DrainId, now: Time)
    requires Ready(e, d) && e.drains[d].state == AdmissionClosed
    ensures StepEffect(e, ActAdmissionClosed(e, d, now), d)
    ensures ActAdmissionClosed(e, d, now).drains[d].state != Blocked
  {
    MoveEffect(e, d, Quiescing, now);
    MoveEffect(e, d, Evacuating, now);
    StayEffect(e, d);
  }

  lemma StayEffect(e: State, d: DrainId)
    requires Ready(e, d)
    ensures StepEffect(e, e, d)
  {
    assert e.drains == e.drains[d := e.drains[d]];
    ReplacedEffect(e, e, d);
  }

  lemma EvacuatingEffect(e: State, d: DrainId, now: Time)
    requires Ready(e, d) && e.drains[d].state == Evacuating
    ensures StepEffect(e, ActEvacuating(e, d, now), d)
    ensures ActEvacuating(e, d, now).drains[d].state == Blocked ==> EvacuationBlockers(e, e.drains[d], now) != {}
  {
    var r := e.drains[d];
    var blockers := EvacuationBlockers(e, r, now);
    if !SomeMoving(e, r.target) {
      MoveEffect(e, d, Quiescing, now);
    } else if blockers != {} {
      BlockedEffect(e, d, blockers, now);
    } else if !IssuesRound(e, d, now) {
      StayEffect(e, d);
    } else {
      var e' := ActEvacuating(e, d, now);
      SameObligationsBind(e, e');
      ReplacedEffect(e, e', d);
    }
  }

  /** Retiring keeps every binding; the retired obligations were all released. */
  lemma RetireEffect(e: State, d: DrainId, now: Time)
    requires Ready(e, d)
    ensures StepEffect(e, RetireAll(e, Retirable(e, e.drains[d], now), now), d)
  {
    var e' := RetireAll(e, Retirable(e, e.drains[d], now), now);
    forall o | o in e.obligations ensures Settles(e.obligations[o], e'.obligations[o]) {
    }
    assert e'.drains == e.drains[d := e'.drains[d]];
    ReplacedEffect(e, e', d);
  }

  /** A ledger observation moves nothing but the ledger. */
  lemma ObserveEffect(e: State, d: DrainId, now: Time)
    requires d in e.drains && ObserveRemoval(e, d, now).Some?
    ensures ObserveRemoval(e, d, now).value == e.(evidence := ObserveRemoval(e, d, now).value.evidence)
  {
  }

  lemma FinishRemovalEffect(e: State, d: DrainId, now: Time)
    requires Ready(e, d) && e.drains[d].state == Quiescing
    ensures StepEffect(e, FinishRemoval(e, d, now), d)
    ensures FinishRemoval(e, d, now).fabric == e.fabric && FinishRemoval(e, d, now).obligations == e.obligations
    ensures FinishRemoval(e, d, now).drains[d].state
         == if ObserveRemoval(e, d, now).Some? then Verifying else Blocked
  {
    var observed := ObserveRemoval(e, d, now);
    if observed.None? {
      BlockedEffect(e, d, {Blocker(QuiescenceEvidenceMissing, OnEvidence(RemovalKey(e.drains[d])))}, now);
    } else {
      ObserveEffect(e, d, now);
      MoveEffect(observed.value, d, Verifying, now);
      AfterUnseen(e, observed.value, FinishRemoval(e, d, now), d);
    }
  }

  lemma RemoveEffect(e: State, d: DrainId, now: Time)
    requires Ready(e, d) && e.drains[d].state == Quiescing
    ensures StepEffect(e, Remove(e, d, now), d)
  {
    var r := e.drains[d];
    var blockers := RemovalBlockers(e, r);
    if blockers != {} {
      BlockedEffect(e, d, blockers, now);
    } else {
      var e1 := TakenOut(e, r.target.id);
      FinishRemovalEffect(e1, d, now);
      AfterUnseen(e, e1, FinishRemoval(e1, d, now), d);
    }
  }

  /** A step taken after the fabric or the ledger moved is a step. */
  lemma AfterUnseen(e: State, e1: State, e': State, d: DrainId)
    requires Ready(e, d)
    requires e1 == e.(fabric := e1.fabric, evidence := e1.evidence)
    requires StepEffect(e1, e', d)
    ensures StepEffect(e, e', d)
  {
  }

  lemma QuiescingEffect(e: State, d: DrainId, now: Time)
    requires Ready(e, d) && e.drains[d].state == Quiescing
    ensures StepEffect(e, ActQuiescing(e, d, now), d)
  {
    var r := e.drains[d];
    var blockers := QuiescenceBlockers(e, r, now);
    if SomeMoving(e, r.target) {
      MoveEffect(e, d, Evacuating, now);
    } else if blockers != {} {
      BlockedEffect(e, d, blockers, now);
    } else if Retirable(e, r, now) != {} {
      RetireEffect(e, d, now);
    } else {
      RemoveEffect(e, d, now);
    }
  }

  lemma ReobserveEffect(e: State, d: DrainId, now: Time)
    requires d in e.drains
    ensures Reobserve(e, d, now) == e.(evidence := Reobserve(e, d, now).evidence)
  {
  }

  lemma CompleteEffect(e: State, d: DrainId, now: Time, digest: nat)
    requires Ready(e, d) && e.drains[d].state == Verifying && digest != 0
    requires Outstanding(e, e.drains[d].target) == {}
    ensures StepEffect(e, Complete(e, d, now, digest), d)
    ensures Complete(e, d, now, digest).drains[d].state == Drained
    ensures Complete(e, d, now, digest).drains[d].completionEvidence == CompletionProof(e, e.drains[d], now)
    ensures Complete(e, d, now, digest) == e.(drains := Complete(e, d, now, digest).drains)
  {
    var e' := Complete(e, d, now, digest);
    assert e'.drains == e.drains[d := e'.drains[d]];
    SameObligationsBind(e, e');
    ReplacedEffect(e, e', d);
  }

  lemma VerifyingEffect(e: State, d: DrainId, now: Time, digest: nat)
    requires Ready(e, d) && e.drains[d].state == Verifying && digest != 0
    ensures StepEffect(e, ActVerifying(e, d, now, digest), d)
    ensures VerificationBlockers(e, e.drains[d], now) == {} ==>
              ActVerifying(e, d, now, digest).drains[d].state == Drained
  {
    var r := e.drains[d];
    var e1 := if VerificationBlockers(e, r, now) == {} then e else Reobserve(e, d, now);
    ReobserveEffect(e, d, now);
    var blockers := VerificationBlockers(e1, r, now);
    if blockers != {} {
      BlockedEffect(e1, d, blockers, now);
    } else {
      VerifiedIsClear(e1, r, now);
      CompleteEffect(e1, d, now, digest);
    }
    AfterUnseen(e, e1, ActVerifying(e, d, now, digest), d);
  }

  lemma VerifiedIsClear(e: State, r: DrainRecord, now: Time)
    requires VerificationBlockers(e, r, now) == {}
    ensures Outstanding(e, r.target) == {}
    ensures RemovalOwned(e, r)
  {
    assert forall o :: o in Outstanding(e, r.target) ==>
             Outstanding(e, r.target) != {}
             && Blocker(ProtectedObligationActive, OnObligation(o)) in VerificationBlockers(e, r, now);
  }

  /** Restoration: the fence is already open, so the drain owns no removal and the
      fabric is left as it is. */
  lemma RestoringEffect(e: State, d: DrainId, now: Time)
    requires Ready(e, d) && e.drains[d].state == Restoring
    ensures StepEffect(e, ActRestoring(e, d, now), d)
    ensures ActRestoring(e, d, now).fabric == e.fabric
    ensures ActRestoring(e, d, now).drains[d].state != Blocked
  {
    var e' := ActRestoring(e, d, now);
    assert !RemovalOwned(e, e.drains[d]);
    if now < SaturatingAdd(e.drains[d].stateSince, e.policy.settle) {
      StayEffect(e, d);
    } else {
      assert e'.drains == e.drains[d := e'.drains[d]];
      SameObligationsBind(e, e');
      ReplacedEffect(e, e', d);
    }
  }

  lemma ActEffect(e: State, d: DrainId, now: Time, digest: nat)
    requires Ready(e, d) && digest != 0
    ensures StepEffect(e, Act(e, d, now, digest), d)
  {
    match e.drains[d].state
    case Requested => MoveEffect(e, d, Validating, now);
    case Validating => ValidatingEffect(e, d, now);
    case AdmissionClosed => AdmissionClosedEffect(e, d, now);
    case Evacuating => EvacuatingEffect(e, d, now);
    case Quiescing => QuiescingEffect(e, d, now);
    case Verifying => VerifyingEffect(e, d, now, digest);
    case Restoring => RestoringEffect(e, d, now);
    case _ => StayEffect(e, d);
  }

  lemma RefreshedEffect(e: State, d: DrainId, now: Time)
    requires d in e.drains
    ensures Refreshed(e, d, now) == e.(evidence := Refreshed(e, d, now).evidence)
  {
    ReobserveEffect(e, d, now);
  }

  lemma ResumeEffect(e: State, d: DrainId, now: Time)
    requires Ready(e, d) && e.drains[d].state == Blocked
    ensures Transition(e.drains[d], Phase(e.drains[d]), now).Some?
    ensures var r' := Transition(e.drains[d], Phase(e.drains[d]), now).value;
            StepEffect(e, Put(e, d, r'), d) && Phase(r') == Phase(e.drains[d]) && r'.state == Phase(e.drains[d])
  {
    ResumedRecord(e.fence, e.drainHighWater, d, e.drains[d], now);
    PutEffect(e, d, Transition(e.drains[d], Phase(e.drains[d]), now).value);
  }

  /** Revalidation changes the record's own state, its blockers and the ledger. */
  ghost predicate Revalidated(e: State, e': State, d: DrainId) {
    && StepEffect(e, e', d)
    && e' == e.(drains := e'.drains, evidence := e'.evidence)
    && Phase(e'.drains[d]) == Phase(e.drains[d])
    && e'.drains[d].evacuationRequests == e.drains[d].evacuationRequests
  }

  lemma JudgedEffect(e: State, d: DrainId, blockers: set<Blocker>, now: Time)
    requires Ready(e, d) && e.drains[d].state == Blocked
    ensures Revalidated(e, Judged(e, d, blockers, now).state, d)
    ensures Judged(e, d, blockers, now).ok <==> blockers == {}
    ensures Judged(e, d, blockers, now).state.drains[d].state
         == if blockers == {} then Phase(e.drains[d]) else Blocked
  {
    if blockers != {} {
      BlockedEffect(e, d, blockers, now);
    } else {
      ResumeEffect(e, d, now);
    }
  }

  lemma RevalidateEffect(e: State, d: DrainId, now: Time)
    requires Ready(e, d) && e.drains[d].state == Blocked
    ensures Revalidated(e, Revalidate(e, d, now).state, d)
    ensures Revalidate(e, d, now).ok ==>
              Revalidate(e, d, now).state.drains[d].state == Phase(e.drains[d])
    ensures !Revalidate(e, d, now).ok ==> Revalidate(e, d, now).state.drains[d].state == Blocked
  {
    var e1 := Refreshed(e, d, now);
    RefreshedEffect(e, d, now);
    JudgedEffect(e1, d, StateBlockers(e1, e.drains[d], Phase(e.drains[d]), now), now);
    AfterUnseen(e, e1, Revalidate(e, d, now).state, d);
  }

  lemma AfterRevalidation(e: State, e1: State, e': State, d: DrainId)
    requires Ready(e, d)
    requires Revalidated(e, e1, d)
    requires StepEffect(e1, e', d)
    ensures StepEffect(e, e', d)
  {
    assert e'.drains == e.drains[d := e'.drains[d]];
    forall o | o in e.obligations ensures Settles(e.obligations[o], e'.obligations[o]) {
      assert Settles(e.obligations[o], e1.obligations[o]);
      assert Settles(e1.obligations[o], e'.obligations[o]);
    }
  }

  /** The whole step: one record moves along the lifecycle, its new form agrees
      with the fence, and nothing else of the engine's setup changes. */
  lemma StepDrainEffect(e: State, d: DrainId, now: Time, digest: nat)
    requires Ready(e, d) && digest != 0
    ensures StepEffect(e, StepDrain(e, d, now, digest), d)
  {
    if e.drains[d].state != Blocked {
      ActEffect(e, d, now, digest);
    } else {
      RevalidateEffect(e, d, now);
      var revalidated := Revalidate(e, d, now);
      if revalidated.ok {
        ActEffect(revalidated.state, d, now, digest);
        AfterRevalidation(e, revalidated.state, Act(revalidated.state, d, now, digest), d);
      }
    }
  }

  /** Time alone moves no settled drain. */
  lemma SettledStays(e: State, d: DrainId, now: Time, digest: nat)
    requires d in e.drains && IsSettled(e.drains[d].state)
    ensures StepDrain(e, d, now, digest) == e
  {
  }
}
