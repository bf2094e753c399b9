/** What a step does with a drain at each stage: when it waits, when it moves, where to,
    and what it leaves on the record. */
module EngineMoves {
  import opened Identity
  import opened Lifecycle
  import opened Engine
  import opened EngineInvariant
  import opened EngineStages
  import Ob = Obligations
  import Ev = Evidence
  import Au = Authority
  import Ad = Admission
  import To = Topology

  // ---- Holding a drain -------------------------------------------------------------------------

  ghost predicate Stopped(e: State, r: DrainRecord, s: DrainState, now: Time) {
    exists b :: Objects(e, r, s, now, b)
  }

  lemma StoppedIff(e: State, r: DrainRecord, s: DrainState, now: Time)
    ensures StateBlockers(e, r, s, now) != {} <==> Stopped(e, r, s, now)
  {
    if StateBlockers(e, r, s, now) != {} {
      var b :| b in StateBlockers(e, r, s, now);
      StateBlockersIff(e, r, s, now, b);
    }
    if Stopped(e, r, s, now) {
      var b :| Objects(e, r, s, now, b);
      StateBlockersIff(e, r, s, now, b);
    }
  }

  /** The record is Blocked at the stage where it stood. */
  predicate Held(r: DrainRecord, now: Time, blockers: set<Blocker>, r': DrainRecord) {
    r' == r.(state := Blocked, stateSince := now, blockedFrom := Some(r.state), blockers := blockers)
  }

  predicate Only(e: State, d: DrainId, r': DrainRecord, e': State) {
    e' == e.(drains := e.drains[d := r'])
  }

  lemma EnterBlockedIs(e: State, d: DrainId, blockers: set<Blocker>, now: Time)
    requires d in e.drains && (IsActive(e.drains[d].state) || e.drains[d].state == Restoring)
    ensures var e' := EnterBlocked(e, d, blockers, now);
            && d in e'.drains && Only(e, d, e'.drains[d], e') && Held(e.drains[d], now, blockers, e'.drains[d])
  {
    LegalMoves(e.drains[d].state, Blocked);
    TransitionIff(e.drains[d].(blockers := blockers), Blocked, now);
  }

  lemma MoveIs(e: State, d: DrainId, next: DrainState, now: Time)
    requires d in e.drains && LegalTransition(e.drains[d].state, next)
    requires next != e.drains[d].state && next != Blocked && e.drains[d].state != Blocked && next != AdmissionClosed
    ensures Only(e, d, e.drains[d].(state := next, stateSince := now), Move(e, d, next, now))
  {
    TransitionIff(e.drains[d], next, now);
  }

  /** The drain is Blocked at its stage, on exactly the objections of that stage, and
      nothing else changes. */
  ghost predicate HeldOn(e: State, d: DrainId, now: Time, e': State) {
    && d in e.drains && d in e'.drains && Only(e, d, e'.drains[d], e')
    && Held(e.drains[d], now, e'.drains[d].blockers, e'.drains[d])
    && forall b :: b in e'.drains[d].blockers <==> Objects(e, e.drains[d], e.drains[d].state, now, b)
  }

  lemma HeldOnBlockers(e: State, d: DrainId, now: Time)
    requires d in e.drains && IsActive(e.drains[d].state)
    ensures HeldOn(e, d, now, EnterBlocked(e, d, StateBlockers(e, e.drains[d], e.drains[d].state, now), now))
  {
    var r := e.drains[d];
    EnterBlockedIs(e, d, StateBlockers(e, r, r.state, now), now);
    forall b ensures b in StateBlockers(e, r, r.state, now) <==> Objects(e, r, r.state, now, b) {
      StateBlockersIff(e, r, r.state, now, b);
    }
  }

  // ---- Before admission closes ---------------------------------------------------------------------

  lemma StepRequested(e: State, d: DrainId, now: Time, digest: nat)
    requires d in e.drains && e.drains[d].state == Requested
    ensures Only(e, d, e.drains[d].(state := Validating, stateSince := now), StepDrain(e, d, now, digest))
  {
    MoveIs(e, d, Validating, now);
  }

  /** A validating drain is held on its objections, or on a full fence table; otherwise
      its target is closed in its name, one generation up, and the settle window starts. */
  lemma StepValidates(e: State, d: DrainId, now: Time, digest: nat)
    requires Inv(e) && Roomy(e) && d in e.drains && e.drains[d].state == Validating
    ensures var r, e' := e.drains[d], StepDrain(e, d, now, digest);
            if Stopped(e, r, Validating, now) then HeldOn(e, d, now, e')
            else if Ad.NoRoom(e.fence, r.target) then HeldFor(e, d, now, AdmissionFenceMissing, OnTarget(r.target), e')
            else ClosedBy(e, d, now, e')
  {
    StoppedIff(e, e.drains[d], Validating, now);
    ActsValidating(e, d, now, digest);
    if StateBlockers(e, e.drains[d], Validating, now) != {} {
      HeldOnBlockers(e, d, now);
    } else {
      FencedDrain(e, d);
      Closes(e, d, now);
    }
  }

  /** The drain is Blocked at its stage for one reason, and nothing else changes. */
  predicate HeldFor(e: State, d: DrainId, now: Time, code: BlockerCode, subject: Subject, e': State)
    requires d in e.drains
  {
    d in e'.drains && Only(e, d, e'.drains[d], e') && Held(e.drains[d], now, {Blocker(code, subject)}, e'.drains[d])
  }

  /** The target is closed in the drain's name, one generation up, and the settle window
      starts. */
  predicate ClosedBy(e: State, d: DrainId, now: Time, e': State)
    requires d in e.drains
  {
    var r, g := e.drains[d], Ad.GenerationOf(e.fence, e.drains[d].target) + 1;
    e' == e.(fence := e.fence[r.target := Ad.FenceEntry(true, g, d)],
             drains := e.drains[d := r.(state := AdmissionClosed, stateSince := now,
                                        admissionClosedAt := now, generation := g)])
  }

  lemma Closes(e: State, d: DrainId, now: Time)
    requires d in e.drains && d != 0 && e.drains[d].state == Validating
    requires |e.fence| <= Ad.MAX_FENCED_TARGETS && Ad.GenerationOf(e.fence, e.drains[d].target) < U64_MAX
    ensures var r, e' := e.drains[d], CloseAdmission(e, d, now);
            if Ad.NoRoom(e.fence, r.target) then HeldFor(e, d, now, AdmissionFenceMissing, OnTarget(r.target), e')
            else ClosedBy(e, d, now, e')
  {
    Ad.CloseIff(e.fence, e.drains[d].target, d);
    ClosesAdmission(e, d, now, Ad.Close(e.fence, e.drains[d].target, d));
  }

  lemma FencedDrain(e: State, d: DrainId)
    requires Inv(e) && Roomy(e) && d in e.drains
    ensures d != 0 && |e.fence| <= Ad.MAX_FENCED_TARGETS && Ad.GenerationOf(e.fence, e.drains[d].target) < U64_MAX
  {
    assert RecordOk(e.fence, e.drainHighWater, d, e.drains[d]);
  }

  lemma ActsValidating(e: State, d: DrainId, now: Time, digest: nat)
    requires d in e.drains && e.drains[d].state == Validating
    ensures var blockers := StateBlockers(e, e.drains[d], Validating, now);
            StepDrain(e, d, now, digest)
            == if blockers != {} then EnterBlocked(e, d, blockers, now) else CloseAdmission(e, d, now)
  {
  }

  lemma ClosesAdmission(e: State, d: DrainId, now: Time, closed: Ad.FenceResult)
    requires d in e.drains && e.drains[d].state == Validating && closed == Ad.Close(e.fence, e.drains[d].target, d)
    ensures var r, e' := e.drains[d], CloseAdmission(e, d, now);
            if closed.generation.Some? then
              e' == e.(fence := closed.fence,
                       drains := e.drains[d := r.(state := AdmissionClosed, stateSince := now,
                                                  admissionClosedAt := now, generation := closed.generation.value)])
            else HeldFor(e.(fence := closed.fence), d, now, AdmissionFenceMissing, OnTarget(r.target), e')
  {
    var r := e.drains[d];
    if closed.generation.None? {
      EnterBlockedIs(e.(fence := closed.fence), d, {Blocker(AdmissionFenceMissing, OnTarget(r.target))}, now);
    } else {
      TransitionIff(r.(generation := closed.generation.value), AdmissionClosed, now);
    }
  }

  // ---- The settle window ----------------------------------------------------------------------------

  /** Before closure plus settle everything stays as it is. From then on the drain goes to
      Quiescing exactly when no protected work is outstanding on its target, and to
      Evacuating otherwise. */
  ghost predicate SettledAt(e: State, d: DrainId, now: Time, e': State)
    requires d in e.drains
  {
    var r := e.drains[d];
    if now < SaturatingAdd(r.admissionClosedAt, e.policy.settle) then e' == e
    else if Busy(e, r.target) then Only(e, d, r.(state := DrainState.Evacuating, stateSince := now), e')
    else Only(e, d, r.(state := DrainState.Quiescing, stateSince := now), e')
  }

  lemma StepSettles(e: State, d: DrainId, now: Time, digest: nat)
    requires d in e.drains && e.drains[d].state == AdmissionClosed
    ensures SettledAt(e, d, now, StepDrain(e, d, now, digest))
  {
    DependsIff(e, e.drains[d].target);
    MoveIs(e, d, DrainState.Quiescing, now);
    MoveIs(e, d, DrainState.Evacuating, now);
  }

  // ---- Evacuation ---------------------------------------------------------------------------------------

  /** The first round is due at once, every later one a retry interval after the last. */
  predicate RoundDue(e: State, r: DrainRecord, now: Time) {
    r.evacuationRequests == 0 || now >= SaturatingAdd(r.lastEvacuationAt, e.policy.retryInterval)
  }

  /** An evacuating drain goes on to Quiescing exactly when nothing is left to move; while
      something is, it is held on its objections, or issues a round when one is due. */
  ghost predicate Evacuated(e: State, d: DrainId, now: Time, e': State)
    requires d in e.drains
  {
    var r := e.drains[d];
    if !Moving(e, r.target) then Only(e, d, r.(state := DrainState.Quiescing, stateSince := now), e')
    else if Stopped(e, r, DrainState.Evacuating, now) then HeldOn(e, d, now, e')
    else if !RoundDue(e, r, now) then e' == e
    else Only(e, d, r.(lastEvacuationAt := now, evacuationRequests := r.evacuationRequests + 1), e')
  }

  lemma StepEvacuates(e: State, d: DrainId, now: Time, digest: nat)
    requires d in e.drains && e.drains[d].state == DrainState.Evacuating
    ensures Evacuated(e, d, now, StepDrain(e, d, now, digest))
    ensures IssuesRound(e, d, now) <==>
              var r := e.drains[d];
              Moving(e, r.target) && !Stopped(e, r, DrainState.Evacuating, now) && RoundDue(e, r, now)
  {
    var r := e.drains[d];
    DependsIff(e, r.target);
    StoppedIff(e, r, DrainState.Evacuating, now);
    if !Moving(e, r.target) {
      MoveIs(e, d, DrainState.Quiescing, now);
    } else if Stopped(e, r, DrainState.Evacuating, now) {
      HeldOnBlockers(e, d, now);
    }
  }

  // ---- Quiescence and removal -----------------------------------------------------------------------------

  /** Every outstanding obligation retires on the evidence it already names; the others
      stay as they are. */
  ghost predicate AllRetired(e: State, t: Target, now: Time, e': State) {
    && e' == e.(obligations := e'.obligations) && e'.obligations.Keys == e.obligations.Keys
    && forall o :: o in e.obligations ==>
         e'.obligations[o] == if Depends(e, t, o)
                              then e.obligations[o].(state := Ob.Retired, clearedAt := now,
                                                     revision := e.obligations[o].revision + 1)
                              else e.obligations[o]
  }

  /** The engine's own observation that the resource is gone: the next of its stream, of
      the drain's generation and token, on the live line. */
  function Sighting(e: State, r: DrainRecord, now: Time): Ev.Observation {
    var stream := RemovalStream(r);
    var next := (if stream in e.evidence.latest then e.evidence.latest[stream] else 0) + 1;
    Ev.Observation(next, stream, r.generation, e.authority.epoch, e.authority.incarnation, r.authority, now,
                   SaturatingAdd(now, e.policy.freshness), true, 0, false)
  }

  /** The ledger's answer to it. */
  function Filing(e: State, r: DrainRecord, now: Time): Ev.RecordOutcome {
    Ev.Record(e.evidence, Sighting(e, r, now),
              Ev.EvidenceFence(e.authority.incarnation, e.authority.epoch, now, e.policy.skew), e.policy.requireLive)
  }

  lemma FilingIs(e: State, d: DrainId, now: Time)
    requires d in e.drains
    ensures ObserveRemoval(e, d, now)
         == if Filing(e, e.drains[d], now).Recorded?
            then Some(e.(evidence := Filing(e, e.drains[d], now).ledger)) else None
  {
    assert RemovalDraft(e, e.drains[d], now) == Sighting(e, e.drains[d], now);
  }

  /** The resource is out of service; nothing else about the fabric changes. */
  ghost predicate OutOf(f: To.Fabric, id: ResourceId, f': To.Fabric) {
    && id in f.resources && f'.resources.Keys == f.resources.Keys
    && f' == f.(resources := f'.resources) && f'.resources[id] == f.resources[id].(status := To.Unavailable)
    && forall x :: x in f.resources && x != id ==> f'.resources[x] == f.resources[x]
  }

  /** Nothing objects to the removal: the resource goes, its absence is observed, and the
      drain waits for verification; if the ledger takes no observation, it is held. */
  ghost predicate TakenDown(e: State, d: DrainId, now: Time, e': State)
    requires d in e.drains
  {
    var r := e.drains[d];
    && OutOf(e.fabric, r.target.id, e'.fabric)
    && match Filing(e, r, now)
       case Recorded(ledger, _) =>
         e' == e.(fabric := e'.fabric, evidence := ledger,
                  drains := e.drains[d := r.(state := Verifying, stateSince := now)])
       case Refused(_) =>
         HeldFor(e.(fabric := e'.fabric), d, now, QuiescenceEvidenceMissing, OnEvidence(RemovalStream(r)), e')
  }

  /** A quiescing drain falls back to Evacuating when work moves again; it is held on its
      objections; it retires what is proved released; and when nothing is left, and
      nothing objects, it takes the resource down. */
  ghost predicate Quiesced(e: State, d: DrainId, now: Time, e': State)
    requires d in e.drains
  {
    var r := e.drains[d];
    if Moving(e, r.target) then Only(e, d, r.(state := DrainState.Evacuating, stateSince := now), e')
    else if Stopped(e, r, DrainState.Quiescing, now) then HeldOn(e, d, now, e')
    else if Busy(e, r.target) then AllRetired(e, r.target, now, e')
    else TakenDown(e, d, now, e')
  }

  lemma StepQuiesces(e: State, d: DrainId, now: Time, digest: nat)
    requires d in e.drains && e.drains[d].state == DrainState.Quiescing
    ensures Quiesced(e, d, now, StepDrain(e, d, now, digest))
  {
    var r := e.drains[d];
    DependsIff(e, r.target);
    StoppedIff(e, r, DrainState.Quiescing, now);
    if Moving(e, r.target) {
      MoveIs(e, d, DrainState.Evacuating, now);
    } else if Stopped(e, r, DrainState.Quiescing, now) {
      HeldOnBlockers(e, d, now);
    } else if Busy(e, r.target) {
      RetirableIs(e, r, now);
      RetiresAll(e, r, now);
    } else {
      NothingToRetire(e, r, now);
      TakesDown(e, d, now);
    }
  }

  lemma RetirableIs(e: State, r: DrainRecord, now: Time)
    requires QuiescenceBlockers(e, r, now) == {} && Outstanding(e, r.target) != {}
    ensures ReleaseBlockers(e, r, now) == {} && Retirable(e, r, now) == Outstanding(e, r.target)
  {
    var o :| o in Outstanding(e, r.target);
    EitherWay(e, r, o, now);
    forall o | o in Outstanding(e, r.target) ensures o in Retirable(e, r, now) {
      EitherWay(e, r, o, now);
    }
  }

  lemma EitherWay(e: State, r: DrainRecord, o: ObligationId, now: Time)
    requires o in Outstanding(e, r.target)
    ensures o in Retirable(e, r, now) || ReleaseBlockers(e, r, now) != {}
  {
    if ReleaseObjection(e, r, o, now).Some? {
      assert Blocker(ReleaseObjection(e, r, o, now).value, OnObligation(o)) in ReleaseBlockers(e, r, now);
    }
  }

  lemma RetiresAll(e: State, r: DrainRecord, now: Time)
    requires Retirable(e, r, now) == Outstanding(e, r.target)
    ensures AllRetired(e, r.target, now, RetireAll(e, Retirable(e, r, now), now))
  {
    DependsIff(e, r.target);
    forall o | o in Retirable(e, r, now)
      ensures RetiredForm(e.obligations[o], now)
           == e.obligations[o].(state := Ob.Retired, clearedAt := now, revision := e.obligations[o].revision + 1)
    {
      assert ReleaseObjection(e, r, o, now).None?;
    }
  }

  lemma NothingToRetire(e: State, r: DrainRecord, now: Time)
    requires Outstanding(e, r.target) == {}
    ensures Retirable(e, r, now) == {} && QuiescenceBlockers(e, r, now) == RemovalBlockers(e, r)
  {
  }

  lemma TakesDown(e: State, d: DrainId, now: Time)
    requires d in e.drains && e.drains[d].state == DrainState.Quiescing && RemovalBlockers(e, e.drains[d]) == {}
    ensures TakenDown(e, d, now, Remove(e, d, now))
  {
    var r := e.drains[d];
    var e1 := TakenOut(e, r.target.id);
    GoesOut(e, r, e1);
    FilingSame(e, e1, r, now);
    Finishes(e1, d, now, Filing(e, r, now));
    assert Remove(e, d, now) == FinishRemoval(e1, d, now);
  }

  lemma FilingSame(e: State, e1: State, r: DrainRecord, now: Time)
    requires e1 == e.(fabric := e1.fabric)
    ensures Filing(e1, r, now) == Filing(e, r, now)
  {
  }

  lemma Finishes(e: State, d: DrainId, now: Time, filing: Ev.RecordOutcome)
    requires d in e.drains && e.drains[d].state == DrainState.Quiescing && filing == Filing(e, e.drains[d], now)
    ensures var r, e' := e.drains[d], FinishRemoval(e, d, now);
            match filing
            case Recorded(ledger, _) =>
              Only(e.(evidence := ledger), d, r.(state := Verifying, stateSince := now), e')
            case Refused(_) =>
              HeldFor(e, d, now, QuiescenceEvidenceMissing, OnEvidence(RemovalStream(r)), e')
  {
    FilingIs(e, d, now);
    if filing.Recorded? {
      MoveIs(e.(evidence := filing.ledger), d, Verifying, now);
    } else {
      EnterBlockedIs(e, d, {Blocker(QuiescenceEvidenceMissing, OnEvidence(RemovalStream(e.drains[d])))}, now);
    }
  }

  lemma GoesOut(e: State, r: DrainRecord, e1: State)
    requires RemovalBlockers(e, r) == {} && e1 == TakenOut(e, r.target.id)
    ensures e1 == e.(fabric := e1.fabric) && OutOf(e.fabric, r.target.id, e1.fabric)
  {
    RemovalBlockersIff(e, r, Blocker(TopologyInconsistent, OnTarget(r.target)));
  }

  // ---- Verification ---------------------------------------------------------------------------------------

  /** Policy lets the engine look again, and the resource is gone under the drain's own
      closure with no work left. */
  ghost predicate MayLookAgain(e: State, r: DrainRecord) {
    && e.policy.reobserve && !Busy(e, r.target)
    && r.target in e.fence && e.fence[r.target].closed && e.fence[r.target].generation == r.generation
    && r.target.id in e.fabric.resources && e.fabric.resources[r.target.id].status == To.Unavailable
  }

  ghost function LookedAgain(e: State, r: DrainRecord, now: Time): State {
    if MayLookAgain(e, r) && Filing(e, r, now).Recorded? then e.(evidence := Filing(e, r, now).ledger) else e
  }

  lemma ReobserveIs(e: State, d: DrainId, now: Time)
    requires d in e.drains
    ensures Reobserve(e, d, now) == LookedAgain(e, e.drains[d], now)
  {
    DependsIff(e, e.drains[d].target);
    FilingIs(e, d, now);
  }

  /** The removal is proved: the record says when, with what left, and on which
      observation, if policy asks for one. */
  ghost predicate Completed(e: State, r: DrainRecord, now: Time, digest: nat, r': DrainRecord) {
    && r' == r.(state := Drained, stateSince := now, completedAt := now, remainingAtCompletion := 0,
                completionDigest := digest, completionEvidence := r'.completionEvidence)
    && (e.policy.requireQuiescence ==> exists o :: Observed(e, r, now, o) && r'.completionEvidence == o.number)
    && (!e.policy.requireQuiescence ==> r'.completionEvidence == 0)
  }

  /** A verifying drain that is objected to looks again; it completes exactly when nothing
      objects then, and is otherwise held on what it found. */
  ghost predicate Verified(e: State, d: DrainId, now: Time, digest: nat, e': State)
    requires d in e.drains
  {
    var r := e.drains[d];
    var e1 := if Stopped(e, r, Verifying, now) then LookedAgain(e, r, now) else e;
    if Stopped(e1, r, Verifying, now) then HeldOn(e1, d, now, e')
    else d in e'.drains && Only(e1, d, e'.drains[d], e') && Completed(e1, r, now, digest, e'.drains[d])
  }

  lemma StepVerifies(e: State, d: DrainId, now: Time, digest: nat)
    requires d in e.drains && e.drains[d].state == Verifying
    ensures Verified(e, d, now, digest, StepDrain(e, d, now, digest))
  {
    var r := e.drains[d];
    StoppedIff(e, r, Verifying, now);
    ReobserveIs(e, d, now);
    var e1 := if Stopped(e, r, Verifying, now) then LookedAgain(e, r, now) else e;
    StoppedIff(e1, r, Verifying, now);
    if Stopped(e1, r, Verifying, now) {
      HeldOnBlockers(e1, d, now);
    } else {
      Completes(e1, d, now, digest);
    }
  }

  lemma Completes(e: State, d: DrainId, now: Time, digest: nat)
    requires d in e.drains && e.drains[d].state == Verifying && VerificationBlockers(e, e.drains[d], now) == {}
    ensures var e' := Complete(e, d, now, digest);
            d in e'.drains && Only(e, d, e'.drains[d], e') && Completed(e, e.drains[d], now, digest, e'.drains[d])
  {
    var r := e.drains[d];
    NothingLeft(e, r, now);
    var completed := r.(completedAt := now, remainingAtCompletion := 0, completionDigest := digest,
                        completionEvidence := CompletionProof(e, r, now));
    MoveIs(Put(e, d, completed), d, Drained, now);
  }

  lemma NothingLeft(e: State, r: DrainRecord, now: Time)
    requires VerificationBlockers(e, r, now) == {}
    ensures Outstanding(e, r.target) == {}
    ensures e.policy.requireQuiescence ==>
              exists o :: Observed(e, r, now, o) && CompletionProof(e, r, now) == o.number
  {
    OutstandingBlocks(e, r, now);
    if e.policy.requireQuiescence {
      ObservedIff(e, r, now, RemovalEvidence(e, r, now).value);
    }
  }

  lemma OutstandingBlocks(e: State, r: DrainRecord, now: Time)
    ensures Outstanding(e, r.target) != {} ==> VerificationBlockers(e, r, now) != {}
  {
    if Outstanding(e, r.target) != {} {
      var o :| o in Outstanding(e, r.target);
      assert Blocker(ProtectedObligationActive, OnObligation(o)) in VerificationBlockers(e, r, now);
    }
  }

  // ---- Restoration -----------------------------------------------------------------------------------------

  /** A restoring drain waits out the settle window and is then done, cancelled and
      restored at that instant; a resource it still holds out of service goes back. */
  ghost predicate Returned(e: State, d: DrainId, now: Time, e': State)
    requires d in e.drains
  {
    var r := e.drains[d];
    if now < SaturatingAdd(r.stateSince, e.policy.settle) then e' == e
    else
      && Only(e.(fabric := e'.fabric), d, r.(state := Cancelled, stateSince := now, restoredAt := now), e')
      && if TakenOutBy(e, r)
         then e'.fabric == e.fabric.(resources := e.fabric.resources[r.target.id :=
                e.fabric.resources[r.target.id].(status := To.InService)])
         else e'.fabric == e.fabric
  }

  lemma StepReturns(e: State, d: DrainId, now: Time, digest: nat)
    requires d in e.drains && e.drains[d].state == Restoring
    ensures Returned(e, d, now, StepDrain(e, d, now, digest))
  {
    assert StepDrain(e, d, now, digest) == ActRestoring(e, d, now);
    ReturnsTo(e, d, now);
  }

  lemma ReturnsTo(e: State, d: DrainId, now: Time)
    requires d in e.drains && e.drains[d].state == Restoring
    ensures Returned(e, d, now, ActRestoring(e, d, now))
  {
    TransitionIff(e.drains[d], Cancelled, now);
  }

  // ---- Blocked ------------------------------------------------------------------------------------------------

  /** Back where it was held, with nothing against it. Resuming in AdmissionClosed starts
      the settle window anew. */
  function Resumed(r: DrainRecord, now: Time): DrainRecord
    requires r.blockedFrom.Some?
  {
    var s := r.blockedFrom.value;
    r.(state := s, stateSince := now, blockedFrom := None, blockers := {},
       admissionClosedAt := if s == AdmissionClosed then now else r.admissionClosedAt)
  }

  /** What the engine does about a blocked drain: the same record with what stops it now,
      or the record resumed. */
  ghost predicate Rejudged(e: State, d: DrainId, now: Time, e': State, resumed: bool)
    requires d in e.drains && e.drains[d].blockedFrom.Some?
  {
    var r := e.drains[d];
    && d in e'.drains && Only(e, d, e'.drains[d], e')
    && (resumed <==> !Stopped(e, r, r.blockedFrom.value, now))
    && (resumed ==> e'.drains[d] == Resumed(r, now))
    && (!resumed ==>
          && e'.drains[d] == r.(blockers := e'.drains[d].blockers)
          && forall b :: b in e'.drains[d].blockers <==> Objects(e, r, r.blockedFrom.value, now, b))
  }

  lemma JudgedIs(e: State, d: DrainId, now: Time)
    requires d in e.drains && e.drains[d].state == Blocked && e.drains[d].blockedFrom.Some?
    requires IsTransient(e.drains[d].blockedFrom.value)
    ensures var r := e.drains[d];
            var outcome := Judged(e, d, StateBlockers(e, r, r.blockedFrom.value, now), now);
            Rejudged(e, d, now, outcome.state, outcome.ok)
  {
    var r := e.drains[d];
    var s := r.blockedFrom.value;
    var blockers := StateBlockers(e, r, s, now);
    StoppedIff(e, r, s, now);
    forall b ensures b in blockers <==> Objects(e, r, s, now, b) {
      StateBlockersIff(e, r, s, now, b);
    }
    if blockers != {} {
      JudgedStays(e, d, blockers, now);
    } else {
      JudgedResumes(e, d, now);
    }
  }

  lemma JudgedStays(e: State, d: DrainId, blockers: set<Blocker>, now: Time)
    requires d in e.drains && e.drains[d].state == Blocked && blockers != {}
    ensures Judged(e, d, blockers, now)
         == Outcome(e.(drains := e.drains[d := e.drains[d].(blockers := blockers)]), false)
  {
    TransitionIff(e.drains[d].(blockers := blockers), Blocked, now);
  }

  lemma JudgedResumes(e: State, d: DrainId, now: Time)
    requires d in e.drains && e.drains[d].state == Blocked && e.drains[d].blockedFrom.Some?
    requires IsTransient(e.drains[d].blockedFrom.value)
    ensures Judged(e, d, {}, now) == Outcome(e.(drains := e.drains[d := Resumed(e.drains[d], now)]), true)
  {
    LegalMoves(Blocked, e.drains[d].blockedFrom.value);
    TransitionIff(e.drains[d], e.drains[d].blockedFrom.value, now);
  }

  /** The operator's resume: accepted exactly under an accepted token, for a blocked drain
      that nothing stops where it is held. */
  lemma ResumeIff(e: State, d: DrainId, token: AuthorityId, now: Time)
    requires Inv(e)
    ensures Resume(e, d, token, now).ok <==>
              && Au.Authorizes(e.authority, token, now) && d in e.drains && e.drains[d].state == Blocked
              && e.drains[d].blockedFrom.Some? && !Stopped(e, e.drains[d], e.drains[d].blockedFrom.value, now)
    ensures Au.Authorizes(e.authority, token, now) && d in e.drains && e.drains[d].state == Blocked ==>
              && e.drains[d].blockedFrom.Some?
              && Rejudged(e, d, now, Resume(e, d, token, now).state, Resume(e, d, token, now).ok)
    ensures !(Au.Authorizes(e.authority, token, now) && d in e.drains && e.drains[d].state == Blocked) ==>
              Resume(e, d, token, now) == Outcome(e, false)
  {
    if d in e.drains && e.drains[d].state == Blocked {
      assert RecordOk(e.fence, e.drainHighWater, d, e.drains[d]);
      JudgedIs(e, d, now);
    }
  }

  /** A step of a blocked drain judges it again, after one more look when it is held in
      Verifying; a drain that resumes goes on in the same step as if it had stood there. */
  lemma StepRejudges(e: State, d: DrainId, now: Time, digest: nat)
    requires Inv(e) && d in e.drains && e.drains[d].state == Blocked
    ensures e.drains[d].blockedFrom.Some?
    ensures var r, e' := e.drains[d], StepDrain(e, d, now, digest);
            var e1 := if r.blockedFrom.value == Verifying then LookedAgain(e, r, now) else e;
            if Stopped(e1, r, r.blockedFrom.value, now) then Rejudged(e1, d, now, e', false)
            else
              var e2 := e1.(drains := e1.drains[d := Resumed(r, now)]);
              Rejudged(e1, d, now, e2, true) && e' == StepDrain(e2, d, now, digest)
  {
    var r := e.drains[d];
    assert RecordOk(e.fence, e.drainHighWater, d, r);
    var e1 := if r.blockedFrom.value == Verifying then LookedAgain(e, r, now) else e;
    RejudgesFrom(e, d, now, digest, e1);
  }

  lemma RejudgesFrom(e: State, d: DrainId, now: Time, digest: nat, e1: State)
    requires d in e.drains && e.drains[d].state == Blocked && e.drains[d].blockedFrom.Some?
    requires IsTransient(e.drains[d].blockedFrom.value)
    requires e1 == if e.drains[d].blockedFrom.value == Verifying then LookedAgain(e, e.drains[d], now) else e
    ensures var r, e' := e.drains[d], StepDrain(e, d, now, digest);
            if Stopped(e1, r, r.blockedFrom.value, now) then Rejudged(e1, d, now, e', false)
            else
              var e2 := e1.(drains := e1.drains[d := Resumed(r, now)]);
              Rejudged(e1, d, now, e2, true) && e' == StepDrain(e2, d, now, digest)
  {
    var r := e.drains[d];
    var outcome := Judged(e1, d, StateBlockers(e1, r, r.blockedFrom.value, now), now);
    LookedFirst(e, d, now, e1);
    JudgedIs(e1, d, now);
    RevalidateIs(e, d, now, e1, outcome);
    GoesOn(e, d, now, digest, outcome);
  }

  lemma LookedFirst(e: State, d: DrainId, now: Time, e1: State)
    requires d in e.drains && e.drains[d].state == Blocked && e.drains[d].blockedFrom.Some?
    requires e1 == if e.drains[d].blockedFrom.value == Verifying then LookedAgain(e, e.drains[d], now) else e
    ensures e1 == Refreshed(e, d, now) && e1.drains == e.drains
  {
    ReobserveIs(e, d, now);
  }

  lemma RevalidateIs(e: State, d: DrainId, now: Time, e1: State, outcome: Outcome)
    requires d in e.drains && e.drains[d].state == Blocked && e.drains[d].blockedFrom.Some?
    requires e1 == Refreshed(e, d, now) && d in e1.drains
    requires outcome == Judged(e1, d, StateBlockers(e1, e.drains[d], e.drains[d].blockedFrom.value, now), now)
    ensures Revalidate(e, d, now) == outcome
  {
  }

  /** A drain that was judged either stays as it was left or takes its step. */
  lemma GoesOn(e: State, d: DrainId, now: Time, digest: nat, outcome: Outcome)
    requires d in e.drains && e.drains[d].state == Blocked && outcome == Revalidate(e, d, now)
    requires outcome.ok ==> d in outcome.state.drains && outcome.state.drains[d].state != Blocked
    ensures StepDrain(e, d, now, digest)
         == if outcome.ok then StepDrain(outcome.state, d, now, digest) else outcome.state
  {
  }

  // ---- Recovery -----------------------------------------------------------------------------------------------

  /** Each drain that was on its way is Blocked where it stood, at the instant of the
      restart, on exactly the pending recovery; every other record is as it was. */
  ghost predicate Recovered(r: DrainRecord, now: Time, r': DrainRecord) {
    match r.state
    case Requested => r' == r
    case Drained => r' == r
    case Blocked => r' == r
    case Cancelled => r' == r
    case Failed => r' == r
    case _ => Held(r, now, {Blocker(RestartRecoveryPending, OnDrain(r.id))}, r')
  }

  /** After a recovery no drain is on its way, no evidence is attested and no token is
      accepted; the ledger is bounded by the policy, and the rest is as it was saved. */
  lemma RecoveryBlocks(e: State, now: Time)
    ensures var e' := Recover(e, now);
            && e'.drains.Keys == e.drains.Keys
            && (forall d :: d in e.drains ==> Recovered(e.drains[d], now, e'.drains[d]))
            && (forall d :: d in e'.drains ==>
                  e'.drains[d].state in {Requested, Drained, Blocked, Cancelled, DrainState.Failed})
            && e'.evidence.records.Keys == e.evidence.records.Keys && e'.evidence.latest == e.evidence.latest
            && e'.evidence.maxRecords == e.policy.maxEvidence
            && (forall k :: k in e'.evidence.records ==>
                  e'.evidence.records[k] == e.evidence.records[k].(attested := false))
            && (forall token, at :: !Au.Authorizes(e'.authority, token, at))
            && e' == e.(drains := e'.drains, evidence := e'.evidence, authority := e'.authority)
  {
    var e' := Recover(e, now);
    forall d | d in e.drains ensures Recovered(e.drains[d], now, e'.drains[d]) {
      RecoveredIs(e.drains[d], now);
    }
  }

  lemma RecoveredIs(r: DrainRecord, now: Time)
    ensures Recovered(r, now, RecoverRecord(r, now))
  {
    LegalMoves(r.state, Blocked);
    TransitionIff(r, Blocked, now);
  }
}
