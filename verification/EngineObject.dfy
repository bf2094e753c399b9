/** The engine as an object: its fields, and its operations as methods that update
    them in place. Every method is proved against the function that specifies it. */
module EngineObject {
  import opened Identity
  import opened Lifecycle
  import opened Engine
  import Ob = Obligations
  import Ev = Evidence
  import Au = Authority
  import Ad = Admission
  import To = Topology

  class DrainEngine {
    var policy: Policy
    var fabric: To.Fabric
    var obligations: map<ObligationId, Ob.Obligation>
    var obligationHighWater: ObligationId
    var evidence: Ev.Ledger
    var authority: Au.Registry
    var fence: Ad.Fence
    var drains: map<DrainId, DrainRecord>
    var sets: map<DrainSetId, DrainSet>
    var exceptions: map<DrainId, seq<Grant>>
    var nonces: map<nat, DrainSetId>
    var drainHighWater: DrainId
    var setHighWater: DrainSetId

    function View(): State
      reads this
    {
      State(policy, fabric, obligations, obligationHighWater, evidence, authority, fence, drains, sets,
            exceptions, nonces, drainHighWater, setHighWater)
    }

    constructor (p: Policy)
      ensures View() == Empty(p)
    {
      policy := p;
      fabric := To.EMPTY;
      obligations := map[];
      obligationHighWater := 0;
      evidence := Ev.EMPTY.(maxRecords := p.maxEvidence);
      authority := Au.EMPTY;
      fence := map[];
      drains := map[];
      sets := map[];
      exceptions := map[];
      nonces := map[];
      drainHighWater := 0;
      setHighWater := 0;
    }

    // ---- Reads --------------------------------------------------------------------------

    method OutstandingFor(t: Target) returns (found: set<ObligationId>)
      ensures found == Outstanding(View(), t)
    {
      found := {};
      var todo := obligations.Keys;
      while todo != {}
        invariant todo <= obligations.Keys
        invariant found == set o | o in obligations && o !in todo && Ob.BlocksCompletion(obligations[o])
                                   && t in obligations[o].dependencies
        decreases |todo|
      {
        var o :| o in todo;
        if Ob.BlocksCompletion(obligations[o]) && t in obligations[o].dependencies {
          found := found + {o};
        }
        todo := todo - {o};
      }
    }

    /** Counts the other drains of the domain that hold a fence. */
    method ActiveInDomain(r: DrainRecord) returns (count: nat)
      ensures count == |OthersHolding(View(), r)|
    {
      count := 0;
      ghost var seen: set<DrainId> := {};
      var todo := drains.Keys;
      while todo != {}
        invariant todo <= drains.Keys
        invariant seen == set d | d in drains && d !in todo && d != r.id
                                  && drains[d].target.domain == r.target.domain && HoldsFence(drains[d])
        invariant count == |seen|
        decreases |todo|
      {
        var d :| d in todo;
        if d != r.id && drains[d].target.domain == r.target.domain && HoldsFence(drains[d]) {
          count := count + 1;
          seen := seen + {d};
        }
        todo := todo - {d};
      }
      assert seen == OthersHolding(View(), r);
    }

    /** The lowest-numbered other drain of the domain that waits, if any. */
    method Frontmost(r: DrainRecord) returns (front: Option<DrainId>)
      ensures front.None? <==> OthersWaiting(View(), r) == {}
      ensures front.Some? ==> IsMin(OthersWaiting(View(), r), front.value)
    {
      front := None;
      ghost var seen: set<DrainId> := {};
      var todo := drains.Keys;
      while todo != {}
        invariant todo <= drains.Keys
        invariant seen == set d | d in drains && d !in todo && d != r.id
                                  && drains[d].target.domain == r.target.domain && IsWaiting(drains[d])
        invariant front.None? <==> seen == {}
        invariant front.Some? ==> IsMin(seen, front.value)
        decreases |todo|
      {
        var d :| d in todo;
        if d != r.id && drains[d].target.domain == r.target.domain && IsWaiting(drains[d]) {
          seen := seen + {d};
          if front.None? || d < front.value {
            front := Some(d);
          }
        }
        todo := todo - {d};
      }
      assert seen == OthersWaiting(View(), r);
    }

    /** The first unsettled earlier member of the drain's own set. */
    method Predecessor(r: DrainRecord, members: seq<DrainId>) returns (before: Option<DrainId>)
      ensures before == UnsettledBefore(View(), r, members)
    {
      before := None;
      var i := 0;
      while i < |members| && members[i] != r.id
        invariant 0 <= i <= |members|
        invariant UnsettledBefore(View(), r, members) == UnsettledBefore(View(), r, members[i..])
      {
        var m := members[i];
        if m in drains && drains[m].target.domain == r.target.domain && !IsSettled(drains[m].state) {
          before := Some(m);
          return;
        }
        i := i + 1;
      }
    }

    method EvaluateStart(r: DrainRecord, now: Time) returns (blockers: set<Blocker>)
      ensures blockers == StartBlockers(View(), r, now)
    {
      var holding := ActiveInDomain(r);
      var order := WaitInOrder(r);
      var within := WaitInSet(r);
      var serves := To.Serves(fabric, r.target.id);
      var verdict: set<Blocker> := {};
      if serves {
        var violation := To.ValidateRemovalMany(fabric, {r.target.id}, policy.headroom);
        verdict := VerdictBlockers(violation);
      }
      blockers := One(AuthorityObjects(View(), r, now), AuthorityInvalid, OnAuthority(r.authority))
                + One(ForeignFence(View(), r), GenerationSuperseded, OnTarget(r.target))
                + One(!serves, TopologyInconsistent, OnTarget(r.target))
                + One(holding >= policy.maxPerDomain, DomainLimitReached, OnDomain(r.target.domain))
                + order
                + within
                + verdict;
    }

    method WaitInOrder(r: DrainRecord) returns (blockers: set<Blocker>)
      ensures blockers == OrderBlockers(View(), r)
    {
      var front := Frontmost(r);
      if front.Some? && front.value < r.id {
        blockers := {Blocker(SetPredecessorPending, OnDrain(front.value))};
      } else {
        blockers := {};
      }
    }

    method WaitInSet(r: DrainRecord) returns (blockers: set<Blocker>)
      ensures blockers == SetBlockers(View(), r)
    {
      blockers := {};
      if r.set_ != 0 && policy.serializeSameDomain && r.set_ in sets {
        var before := Predecessor(r, sets[r.set_].members);
        if before.Some? {
          blockers := {Blocker(SetPredecessorPending, OnDrain(before.value))};
        }
      }
    }

    /** Accumulates the grants of the drain that cover the obligation. */
    method DeadlineFor(r: DrainRecord, o: ObligationId) returns (deadline: Time)
      requires o in obligations
      ensures deadline == GraceDeadline(View(), r, o)
    {
      deadline := SaturatingAdd(obligations[o].admittedAt, GraceFor(policy, obligations[o]));
      if r.id in exceptions {
        var grants := exceptions[r.id];
        var i := 0;
        while i < |grants|
          invariant 0 <= i <= |grants|
          invariant GraceDeadline(View(), r, o) == Extended(deadline, grants[i..], o)
        {
          if grants[i].obligation == 0 || grants[i].obligation == o {
            deadline := SaturatingAdd(deadline, grants[i].extension);
          }
          i := i + 1;
        }
      }
    }

    /** Which outstanding obligations failed, overran their grace, or still move. */
    method SurveyEvacuation(r: DrainRecord, now: Time)
      returns (failed: set<ObligationId>, expired: set<ObligationId>, moving: set<ObligationId>)
      ensures forall o :: o in failed <==> o in Outstanding(View(), r.target) && obligations[o].state == Ob.Failed
      ensures forall o :: o in expired <==> o in Outstanding(View(), r.target) && GraceExpired(View(), r, o, now)
      ensures forall o :: o in moving <==> o in Outstanding(View(), r.target) && Ob.NeedsMoving(obligations[o])
    {
      ghost var e := View();
      var all := OutstandingFor(r.target);
      assert all <= e.obligations.Keys;
      var todo := all;
      failed, expired, moving := {}, {}, {};
      while todo != {}
        invariant todo <= all
        invariant forall o :: o in failed <==> o in all && o !in todo && e.obligations[o].state == Ob.Failed
        invariant forall o :: o in expired <==> o in all && o !in todo && GraceExpired(e, r, o, now)
        invariant forall o :: o in moving <==> o in all && o !in todo && Ob.NeedsMoving(e.obligations[o])
        decreases |todo|
      {
        var o :| o in todo;
        var late := Overdue(r, o, now);
        failed := failed + (if obligations[o].state == Ob.Failed then {o} else {});
        expired := expired + (if late then {o} else {});
        moving := moving + (if Ob.NeedsMoving(obligations[o]) then {o} else {});
        todo := todo - {o};
      }
    }

    method Overdue(r: DrainRecord, o: ObligationId, now: Time) returns (late: bool)
      requires o in obligations
      ensures late == GraceExpired(View(), r, o, now)
    {
      late := false;
      if obligations[o].state != Ob.Failed {
        var deadline := DeadlineFor(r, o);
        late := now > deadline;
      }
    }

    method EvaluateEvacuation(r: DrainRecord, now: Time) returns (blockers: set<Blocker>, movable: bool)
      ensures blockers == EvacuationBlockers(View(), r, now)
      ensures movable == SomeMoving(View(), r.target)
    {
      var failed, expired, moving := SurveyEvacuation(r, now);
      movable := moving != {};
      assert SomeMoving(View(), r.target) <==> exists o :: o in moving;
      blockers := (set o | o in failed :: Blocker(ObligationFailed, OnObligation(o)))
                + (set o | o in expired :: Blocker(ObligationGraceExpired, OnObligation(o)))
                + One(movable && r.evacuationRequests >= policy.maxAttempts,
                      EvacuationAttemptsExhausted, OnDrain(r.id));
    }

    /** Sorts the outstanding obligations into blockers and what may be retired. */
    method EvaluateReleases(r: DrainRecord, now: Time) returns (blockers: set<Blocker>, retirable: set<ObligationId>)
      ensures blockers == ReleaseBlockers(View(), r, now)
      ensures retirable == Retirable(View(), r, now)
    {
      ghost var e := View();
      var all := OutstandingFor(r.target);
      var todo := all;
      blockers := {};
      retirable := {};
      while todo != {}
        invariant todo <= all
        invariant blockers == set o | o in all && o !in todo && ReleaseObjection(e, r, o, now).Some?
                                    :: Blocker(ReleaseObjection(e, r, o, now).value, OnObligation(o))
        invariant retirable == set o | o in all && o !in todo && ReleaseObjection(e, r, o, now).None?
        decreases |todo|
      {
        var o :| o in todo;
        var objection := ReleaseObjection(View(), r, o, now);
        if objection.Some? {
          blockers := blockers + {Blocker(objection.value, OnObligation(o))};
        } else {
          retirable := retirable + {o};
        }
        todo := todo - {o};
      }
    }

    method EvaluateQuiescence(r: DrainRecord, now: Time) returns (blockers: set<Blocker>, retirable: set<ObligationId>)
      ensures blockers == QuiescenceBlockers(View(), r, now)
      ensures retirable == Retirable(View(), r, now)
    {
      blockers, retirable := EvaluateReleases(r, now);
      if blockers == {} && retirable == {} {
        blockers := EvaluateRemoval(r);
      }
    }

    /** Out of service, under a fence this drain holds closed. */
    method OwnsRemoval(r: DrainRecord) returns (owned: bool)
      ensures owned == RemovalOwned(View(), r)
    {
      owned := false;
      if r.target.id in fabric.resources && fabric.resources[r.target.id].status == To.Unavailable {
        owned := r.target in fence && fence[r.target].closed && fence[r.target].drain == r.id;
      }
    }

    /** What stands against the removal step: nothing exactly when the target is known
        and either in service and removable, or already out under this drain's fence. */
    method EvaluateRemoval(r: DrainRecord) returns (blockers: set<Blocker>)
      ensures blockers == RemovalBlockers(View(), r)
      ensures blockers == {} <==>
                && r.target.id in fabric.resources
                && if To.Serves(fabric, r.target.id)
                   then To.Validate(fabric, {r.target.id}, policy.headroom) == To.Fine
                   else RemovalOwned(View(), r)
    {
      if r.target.id !in fabric.resources {
        return {Blocker(TopologyInconsistent, OnTarget(r.target))};
      }
      if fabric.resources[r.target.id].status != To.InService {
        var owned := OwnsRemoval(r);
        return if owned then {} else {Blocker(TopologyInconsistent, OnTarget(r.target))};
      }
      var violation := To.ValidateRemovalMany(fabric, {r.target.id}, policy.headroom);
      blockers := VerdictBlockers(violation);
    }

    /** The evidence half of the verification: what is wrong with the newest removal
        observation, or its sequence. */
    method EvaluateEvidence(r: DrainRecord, now: Time) returns (blockers: set<Blocker>, proof: EvidenceSeq)
      ensures var candidate := RemovalEvidence(View(), r, now);
              && (blockers == {} <==> candidate.Some? && Proves(View(), r, candidate.value, now))
              && (blockers == {} ==> proof == candidate.value.number) && (blockers != {} ==> proof == 0)
      ensures var candidate := RemovalEvidence(View(), r, now);
              && (candidate.None? ==> blockers == {Blocker(QuiescenceEvidenceMissing, OnEvidence(RemovalKey(r)))})
              && (candidate.Some? && candidate.value.generation != r.generation ==>
                    blockers == {Blocker(GenerationSuperseded, OnEvidence(RemovalKey(r)))})
              && (candidate.Some? && candidate.value.generation == r.generation && blockers != {} ==>
                    blockers == {Blocker(ReleaseEvidenceStale, OnEvidence(RemovalKey(r)))})
    {
      var key := Ev.EvidenceKey(Ev.ResourceRemoved, r.id, 0, r.target.id);
      var line := Ev.EvidenceFence(authority.incarnation, authority.epoch, now, policy.skew);
      var candidate := Ev.Fresh(evidence, key, line, policy.freshness);
      proof := 0;
      if candidate.None? {
        blockers := {Blocker(QuiescenceEvidenceMissing, OnEvidence(key))};
      } else if candidate.value.generation != r.generation {
        blockers := {Blocker(GenerationSuperseded, OnEvidence(key))};
      } else if candidate.value.observedAt < r.admissionClosedAt {
        blockers := {Blocker(ReleaseEvidenceStale, OnEvidence(key))};
      } else {
        blockers := {};
        proof := candidate.value.number;
      }
    }

    /** One blocker for each protected obligation that is outstanding on the target. */
    method StillActive(t: Target) returns (blockers: set<Blocker>)
      ensures blockers == set o | o in Outstanding(View(), t) :: Blocker(ProtectedObligationActive, OnObligation(o))
      ensures blockers == {} <==> Outstanding(View(), t) == {}
    {
      var all := OutstandingFor(t);
      var todo := all;
      blockers := {};
      while todo != {}
        invariant todo <= all
        invariant blockers == set o | o in all && o !in todo :: Blocker(ProtectedObligationActive, OnObligation(o))
        decreases |todo|
      {
        var o :| o in todo;
        blockers := blockers + {Blocker(ProtectedObligationActive, OnObligation(o))};
        todo := todo - {o};
      }
      if all != {} {
        SomeBlocked(all, blockers);
      }
    }

    /** Verification passes exactly when nothing protected is outstanding, the target
        is out of service under this drain's fence, and, where the policy asks for it,
        a fresh observation of the drain's own generation, not older than admission
        closure, proves the removal; its sequence is then the proof. */
    method EvaluateVerification(r: DrainRecord, now: Time) returns (blockers: set<Blocker>, proof: EvidenceSeq)
      ensures blockers == VerificationBlockers(View(), r, now)
      ensures blockers == {} <==>
                && Outstanding(View(), r.target) == {} && RemovalOwned(View(), r)
                && (policy.requireQuiescence ==>
                      && RemovalEvidence(View(), r, now).Some?
                      && Proves(View(), r, RemovalEvidence(View(), r, now).value, now))
      ensures blockers == {} ==>
                proof == if policy.requireQuiescence then RemovalEvidence(View(), r, now).value.number else 0
    {
      proof := 0;
      blockers := StillActive(r.target);
      if blockers != {} {
        return;
      }
      var owned := OwnsRemoval(r);
      if !owned {
        blockers := {Blocker(TopologyInconsistent, OnTarget(r.target))};
      }
      if policy.requireQuiescence {
        var more;
        more, proof := EvaluateEvidence(r, now);
        blockers := blockers + more;
      }
    }

    method EvaluateState(r: DrainRecord, s: DrainState, now: Time) returns (blockers: set<Blocker>)
      ensures blockers == StateBlockers(View(), r, s, now)
    {
      match s {
        case Requested => blockers := EvaluateStart(r, now);
        case Validating => blockers := EvaluateStart(r, now);
        case Evacuating => var movable; blockers, movable := EvaluateEvacuation(r, now);
        case Quiescing => var retirable; blockers, retirable := EvaluateQuiescence(r, now);
        case Verifying => var proof; blockers, proof := EvaluateVerification(r, now);
        case _ => blockers := {};
      }
    }

    // ---- Building blocks of the step ----------------------------------------------------------

    method ApplyTransition(d: DrainId, next: DrainState, now: Time)
      requires d in drains
      modifies this`drains
      ensures View() == Move(old(View()), d, next, now)
    {
      var moved := Transition(drains[d], next, now);
      if moved.Some? {
        drains := drains[d := moved.value];
      }
    }

    method Block(d: DrainId, blockers: set<Blocker>, now: Time)
      requires d in drains
      modifies this`drains
      ensures View() == EnterBlocked(old(View()), d, blockers, now)
    {
      drains := drains[d := drains[d].(blockers := blockers)];
      ApplyTransition(d, Blocked, now);
    }

    method RecordRemoval(d: DrainId, now: Time) returns (ok: bool)
      requires d in drains
      modifies this`evidence
      ensures ok == ObserveRemoval(old(View()), d, now).Some?
      ensures View() == if ok then ObserveRemoval(old(View()), d, now).value else old(View())
    {
      var r := drains[d];
      var draft := Ev.Observation(
        Ev.HighWater(evidence, RemovalKey(r)) + 1, RemovalKey(r), r.generation, authority.epoch,
        authority.incarnation, r.authority, now, SaturatingAdd(now, policy.freshness), true, 0, false);
      var recorded := Ev.Record(evidence, draft, LineAt(View(), now), policy.requireLive);
      ok := recorded.Recorded?;
      if ok {
        evidence := recorded.ledger;
      }
    }

    method ObserveAgain(d: DrainId, now: Time)
      requires d in drains
      modifies this`evidence
      ensures View() == Reobserve(old(View()), d, now)
    {
      if policy.reobserve && Reobservable(View(), drains[d]) {
        var ok := RecordRemoval(d, now);
      }
    }

    /** Retires the given obligations one by one. */
    method Retire(retirable: set<ObligationId>, now: Time)
      requires retirable <= obligations.Keys
      modifies this`obligations
      ensures View() == RetireAll(old(View()), retirable, now)
    {
      var todo := retirable;
      while todo != {}
        invariant todo <= retirable && obligations.Keys == old(obligations.Keys)
        invariant forall o :: o in obligations ==>
                    obligations[o] == if o in retirable && o !in todo then RetiredForm(old(obligations)[o], now)
                                      else old(obligations)[o]
        decreases |todo|
      {
        var o :| o in todo;
        obligations := obligations[o := RetiredForm(obligations[o], now)];
        todo := todo - {o};
      }
      assert obligations == RetireAll(old(View()), retirable, now).obligations;
    }

    // ---- The branches of the step -----------------------------------------------------------------

    method StepValidating(d: DrainId, now: Time)
      requires d in drains
      modifies this`drains, this`fence
      ensures View() == ActValidating(old(View()), d, now)
    {
      var r := drains[d];
      var blockers := EvaluateStart(r, now);
      if blockers != {} {
        Block(d, blockers, now);
      } else {
        Close(d, now);
      }
    }

    method Close(d: DrainId, now: Time)
      requires d in drains
      modifies this`drains, this`fence
      ensures View() == CloseAdmission(old(View()), d, now)
    {
      var r := drains[d];
      var closed := Ad.Close(fence, r.target, d);
      fence := closed.fence;
      if closed.generation.None? {
        Block(d, {Blocker(AdmissionFenceMissing, OnTarget(r.target))}, now);
      } else {
        drains := drains[d := r.(generation := closed.generation.value)];
        ApplyTransition(d, AdmissionClosed, now);
      }
    }

    method StepAdmissionClosed(d: DrainId, now: Time)
      requires d in drains
      modifies this`drains
      ensures View() == ActAdmissionClosed(old(View()), d, now)
    {
      var r := drains[d];
      if now >= SaturatingAdd(r.admissionClosedAt, policy.settle) {
        var outstanding := OutstandingFor(r.target);
        ApplyTransition(d, if outstanding == {} then DrainState.Quiescing else DrainState.Evacuating, now);
      }
    }

    /** Issues an evacuation round when one is due. */
    method StepEvacuating(d: DrainId, now: Time) returns (issued: bool)
      requires d in drains
      modifies this`drains
      ensures View() == ActEvacuating(old(View()), d, now)
      ensures issued == IssuesRound(old(View()), d, now)
    {
      var r := drains[d];
      var blockers, movable := EvaluateEvacuation(r, now);
      issued := false;
      if !movable {
        ApplyTransition(d, Quiescing, now);
      } else if blockers != {} {
        Block(d, blockers, now);
      } else if r.evacuationRequests == 0 || now >= SaturatingAdd(r.lastEvacuationAt, policy.retryInterval) {
        issued := true;
        drains := drains[d := r.(lastEvacuationAt := now, evacuationRequests := r.evacuationRequests + 1)];
      }
    }

    method StepQuiescing(d: DrainId, now: Time)
      requires d in drains
      modifies this`drains, this`obligations, this`evidence, this`fabric
      ensures View() == ActQuiescing(old(View()), d, now)
    {
      var r := drains[d];
      var outstanding := OutstandingFor(r.target);
      var blockers, retirable := EvaluateQuiescence(r, now);
      if exists o :: o in outstanding && Ob.NeedsMoving(obligations[o]) {
        ApplyTransition(d, Evacuating, now);
      } else if blockers != {} {
        Block(d, blockers, now);
      } else if retirable != {} {
        Retire(retirable, now);
      } else {
        TakeOut(d, now);
      }
    }

    method TakeOut(d: DrainId, now: Time)
      requires d in drains
      modifies this`drains, this`evidence, this`fabric
      ensures View() == Remove(old(View()), d, now)
    {
      var r := drains[d];
      var blockers := EvaluateRemoval(r);
      if blockers != {} {
        Block(d, blockers, now);
      } else {
        if To.Serves(fabric, r.target.id) {
          fabric := To.SetStatus(fabric, r.target.id, To.Unavailable);
        }
        var ok := RecordRemoval(d, now);
        if ok {
          ApplyTransition(d, Verifying, now);
        } else {
          Block(d, {Blocker(QuiescenceEvidenceMissing, OnEvidence(RemovalKey(r)))}, now);
        }
      }
    }

    method StepVerifying(d: DrainId, now: Time, digest: nat)
      requires d in drains
      modifies this`drains, this`evidence
      ensures View() == ActVerifying(old(View()), d, now, digest)
    {
      var r := drains[d];
      var blockers, proof := EvaluateVerification(r, now);
      if blockers != {} {
        ObserveAgain(d, now);
        blockers, proof := EvaluateVerification(r, now);
      }
      if blockers != {} {
        Block(d, blockers, now);
      } else {
        Finish(d, proof, now, digest);
      }
    }

    method Finish(d: DrainId, proof: EvidenceSeq, now: Time, digest: nat)
      requires d in drains && proof == CompletionProof(View(), drains[d], now)
      modifies this`drains
      ensures View() == Complete(old(View()), d, now, digest)
    {
      var r := drains[d];
      var outstanding := OutstandingFor(r.target);
      var completed := RecordCompletion(r, now, |outstanding|, digest, proof);
      if completed.None? {
        Block(d, {Blocker(ProtectedObligationActive, OnTarget(r.target))}, now);
      } else {
        drains := drains[d := completed.value];
        ApplyTransition(d, Drained, now);
      }
    }

    method StepRestoring(d: DrainId, now: Time)
      requires d in drains
      modifies this`drains, this`fabric
      ensures View() == ActRestoring(old(View()), d, now)
    {
      var r := drains[d];
      if now >= SaturatingAdd(r.stateSince, policy.settle) {
        if RemovalOwned(View(), r) {
          fabric := To.SetStatus(fabric, r.target.id, To.InService);
        }
        var moved := Transition(r, Cancelled, now);
        if moved.None? {
          Block(d, {Blocker(GenerationSuperseded, OnTarget(r.target))}, now);
        } else {
          drains := drains[d := moved.value.(restoredAt := now)];
        }
      }
    }

    /** The state switch. */
    method Perform(d: DrainId, now: Time, digest: nat)
      requires d in drains
      modifies this`drains, this`obligations, this`evidence, this`fabric, this`fence
      ensures View() == Act(old(View()), d, now, digest)
    {
      match drains[d].state {
        case Requested => ApplyTransition(d, Validating, now);
        case Validating => StepValidating(d, now);
        case AdmissionClosed => StepAdmissionClosed(d, now);
        case Evacuating => var issued := StepEvacuating(d, now);
        case Quiescing => StepQuiescing(d, now);
        case Verifying => StepVerifying(d, now, digest);
        case Restoring => StepRestoring(d, now);
        case _ =>
      }
    }

    /** Judges a blocked drain again; true when it resumed. */
    method Judge(d: DrainId, now: Time) returns (resumed: bool)
      requires d in drains
      modifies this`drains
      ensures Outcome(View(), resumed)
           == Judged(old(View()), d, StateBlockers(old(View()), old(drains)[d], Phase(old(drains)[d]), now), now)
    {
      var r := drains[d];
      var blockers := EvaluateState(r, Phase(r), now);
      var moved := Transition(r, Phase(r), now);
      resumed := blockers == {} && moved.Some?;
      if blockers != {} {
        Block(d, blockers, now);
      } else if moved.Some? {
        drains := drains[d := moved.value];
      }
    }

    method Step(d: DrainId, now: Time, digest: nat)
      requires d in drains
      modifies this`drains, this`obligations, this`evidence, this`fabric, this`fence
      ensures View() == StepDrain(old(View()), d, now, digest)
    {
      if drains[d].state == Blocked {
        if Phase(drains[d]) == Verifying {
          ObserveAgain(d, now);
        }
        var resumed := Judge(d, now);
        if resumed {
          Perform(d, now, digest);
        }
      } else {
        Perform(d, now, digest);
      }
    }

    /** The step of one drain as the pass takes it: settled drains are passed over. */
    method StepUnsettled(d: DrainId, now: Time, digest: nat)
      requires digest != 0
      modifies this`drains, this`obligations, this`evidence, this`fabric, this`fence
      ensures View() == Apply(old(View()), DrainEvent(d, StepOp(digest), now))
    {
      ghost var e := View();
      if d in drains && !IsSettled(drains[d].state) {
        Step(d, now, digest);
      }
      StepEvent(e, d, now, digest, View());
    }

    /** One scheduling pass over every unsettled drain, in the order of their
        numbers: the same as those step events one after the other. */
    method Advance(now: Time, digest: nat)
      requires digest != 0
      modifies this`drains, this`obligations, this`evidence, this`fabric, this`fence
      ensures View() == AfterPass(old(View()), Ascending(old(drains).Keys), now, digest)
    {
      var ids := Ascending(drains.Keys);
      var i := 0;
      while i < |ids|
        invariant 0 <= i <= |ids|
        invariant View() == AfterPass(old(View()), ids[..i], now, digest)
      {
        StepUnsettled(ids[i], now, digest);
        assert ids[..i + 1][..i] == ids[..i];
        i := i + 1;
      }
      assert ids[..i] == ids;
    }

    // ---- The other operations -----------------------------------------------------------------------

    /** True when every dependency admits a binding under the presented generation. */
    method Admits(dependencies: set<Target>, presented: Generation) returns (ok: bool)
      ensures ok <==> forall t :: t in dependencies ==> Ad.CheckAdmission(fence, t, presented) == Ad.Admissible
    {
      ok := true;
      var todo := dependencies;
      while todo != {} && ok
        invariant todo <= dependencies
        invariant ok <==> forall t :: t in dependencies && t !in todo ==>
                            Ad.CheckAdmission(fence, t, presented) == Ad.Admissible
        decreases |todo|
      {
        var t :| t in todo;
        ok := Ad.CheckAdmission(fence, t, presented) == Ad.Admissible;
        todo := todo - {t};
      }
    }

    method AdmitObligation(draft: Ob.Obligation, presented: Generation, token: AuthorityId, now: Time)
      returns (ok: bool)
      modifies this`obligations, this`obligationHighWater
      ensures Outcome(View(), ok) == Admit(old(View()), draft, presented, token, now)
    {
      ok := Au.Authorizes(authority, token, now)
            && draft.dependencies != {} && |draft.dependencies| <= MAX_DEPENDENCIES;
      if ok {
        ok := Admits(draft.dependencies, presented);
      }
      ok := ok && |obligations| < policy.maxObligations && obligationHighWater + 1 !in obligations;
      if ok {
        obligationHighWater := obligationHighWater + 1;
        obligations := obligations[obligationHighWater := draft.(admittedAt := now, admissionGeneration := presented)];
      }
    }

    method ReportState(report: Report, now: Time) returns (ok: bool)
      modifies this`obligations
      ensures Outcome(View(), ok) == ReportObligation(old(View()), report, now)
    {
      ok := report.obligation in obligations && ReportFenced(View(), report);
      if ok {
        var o := obligations[report.obligation];
        var applied := Ob.ApplyState(o, report.expected, report.next, report.evidence, now);
        ok := applied.Some?;
        if ok {
          obligations := obligations[report.obligation := applied.value];
        }
      }
    }

    method CancelDrain(d: DrainId, token: AuthorityId, now: Time) returns (ok: bool)
      modifies this`drains
      ensures Outcome(View(), ok) == Cancel(old(View()), d, token, now)
    {
      ok := false;
      if Au.Authorizes(authority, token, now) && d in drains && drains[d].state != Drained {
        var moved := Transition(drains[d], Cancelled, now);
        if moved.Some? {
          ok := true;
          drains := drains[d := moved.value];
        }
      }
    }

    /** Reopens the fence, or forces its generation on, or takes the one in force. */
    method Reopen(d: DrainId) returns (generation: Option<Generation>)
      requires d in drains
      modifies this`fence
      ensures Ad.FenceResult(fence, generation) == ReopenFor(old(View()), d)
    {
      var r := drains[d];
      if Ad.IsClosed(fence, r.target) {
        if fence[r.target].drain != d {
          generation := None;
        } else {
          var reopened := Ad.Reopen(fence, r.target, d);
          fence, generation := reopened.fence, reopened.generation;
        }
      } else if Ad.GenerationOf(fence, r.target) <= r.generation {
        var closed := Ad.Close(fence, r.target, d);
        fence, generation := closed.fence, closed.generation;
        if generation.Some? {
          var reopened := Ad.Reopen(fence, r.target, d);
          fence, generation := reopened.fence, reopened.generation;
        }
      } else {
        generation := Some(Ad.GenerationOf(fence, r.target));
      }
    }

    method RestoreDrain(d: DrainId, token: AuthorityId, now: Time) returns (ok: bool)
      modifies this`drains, this`fence
      ensures Outcome(View(), ok) == Restore(old(View()), d, token, now)
    {
      if !Au.Authorizes(authority, token, now) || d !in drains {
        ok := false;
      } else if drains[d].state == Restoring {
        ok := true;
      } else if !IsSettled(drains[d].state) {
        ok := false;
      } else if IsDone(drains[d]) {
        ok := true;
      } else {
        var generation := Reopen(d);
        var moved := Transition(drains[d], Restoring, now);
        ok := generation.Some? && moved.Some?;
        if ok {
          drains := drains[d := moved.value.(restoreGeneration := generation.value)];
        }
      }
    }

    method ResumeDrain(d: DrainId, token: AuthorityId, now: Time) returns (ok: bool)
      modifies this`drains
      ensures Outcome(View(), ok) == Resume(old(View()), d, token, now)
    {
      ok := false;
      if Au.Authorizes(authority, token, now) && d in drains && drains[d].state == Blocked {
        ok := Judge(d, now);
      }
    }

    method Grant(d: DrainId, obligation: ObligationId, extension: int, token: AuthorityId, now: Time)
      returns (ok: bool)
      modifies this`drains, this`exceptions
      ensures Outcome(View(), ok) == GrantException(old(View()), d, obligation, extension, token, now)
    {
      ok := false;
      if !Au.Authorizes(authority, token, now) || extension <= 0 || d !in drains
         || IsSettled(drains[d].state) || (obligation != 0 && obligation !in obligations)
      {
        return;
      }
      ok := Extend(d, Engine.Grant.Grant(obligation, extension));
    }

    /** The drain's list of grants comes into being even when no more fit. */
    method Extend(d: DrainId, grant: Grant) returns (ok: bool)
      requires d in drains
      modifies this`drains, this`exceptions
      ensures ok <==> |GrantsOf(old(View()), d)| < policy.maxExtensions
      ensures View() == if ok then WithGrant(old(View()), d, grant)
                        else old(View()).(exceptions := old(exceptions)[d := GrantsOf(old(View()), d)])
    {
      if d !in exceptions {
        exceptions := exceptions[d := []];
      }
      ok := |exceptions[d]| < policy.maxExtensions;
      if ok {
        exceptions := exceptions[d := exceptions[d] + [grant]];
        drains := drains[d := drains[d].(evacuationRequests := 0)];
      }
    }

    method BlockTransient(now: Time)
      modifies this`drains
      ensures drains == map d | d in old(drains) :: RecoverRecord(old(drains)[d], now)
    {
      var todo := drains.Keys;
      while todo != {}
        invariant todo <= drains.Keys == old(drains).Keys
        invariant forall d :: d in drains ==>
                    drains[d] == if d in todo then old(drains)[d] else RecoverRecord(old(drains)[d], now)
        decreases |todo|
      {
        var d :| d in todo;
        drains := drains[d := RecoverRecord(drains[d], now)];
        todo := todo - {d};
      }
    }

    /** Takes over what recovery does not touch. */
    method Adopt(snapshot: State)
      modifies this
      ensures View() == snapshot.(evidence := old(evidence), authority := old(authority), drains := old(drains))
    {
      policy, fabric, fence := snapshot.policy, snapshot.fabric, snapshot.fence;
      obligations, obligationHighWater := snapshot.obligations, snapshot.obligationHighWater;
      sets, exceptions, nonces := snapshot.sets, snapshot.exceptions, snapshot.nonces;
      drainHighWater, setHighWater := snapshot.drainHighWater, snapshot.setHighWater;
    }

    /** Conservative recovery of a snapshot. */
    method Load(snapshot: State, now: Time)
      modifies this
      ensures View() == Recover(snapshot, now)
    {
      Adopt(snapshot);
      drains := snapshot.drains;
      evidence := Ev.QuarantineAll(snapshot.evidence).(maxRecords := policy.maxEvidence);
      authority := Au.Reload(snapshot.authority);
      BlockTransient(now);
    }

    // ---- Requests ----------------------------------------------------------------------------------

    method Canonical(targets: seq<Target>) returns (ts: seq<Target>)
      ensures ts == Normalize(targets)
    {
      ts := [];
      var i := |targets|;
      while i > 0
        invariant 0 <= i <= |targets|
        invariant ts == Normalize(targets[i..])
      {
        i := i - 1;
        ts := InsertTarget(ts, targets[i]);
      }
    }

    /** No target of the list is owned by a drain that is not restored. */
    method Unowned(ts: seq<Target>) returns (ok: bool)
      ensures ok <==> forall i :: 0 <= i < |ts| ==> Free(View(), ts[i])
    {
      ok := true;
      var i := 0;
      while i < |ts| && ok
        invariant 0 <= i <= |ts|
        invariant ok <==> forall k :: 0 <= k < i ==> Free(View(), ts[k])
      {
        ok := Available(ts[i]);
        i := i + 1;
      }
    }

    method Available(t: Target) returns (ok: bool)
      ensures ok <==> Free(View(), t)
    {
      ok := true;
      var todo := drains.Keys;
      while todo != {} && ok
        invariant todo <= drains.Keys
        invariant ok <==> forall d :: d in drains && d !in todo && drains[d].target == t ==> IsDone(drains[d])
        decreases |todo|
      {
        var d :| d in todo;
        ok := drains[d].target == t ==> IsDone(drains[d]);
        todo := todo - {d};
      }
    }

    /** Creates one record per target, numbered in order. */
    method CreateDrain(ghost e: State, ghost done: seq<Target>, t: Target, token: AuthorityId, now: Time)
      requires drainHighWater == e.drainHighWater + |done| && setHighWater == e.setHighWater
      requires drains == e.drains + NewDrains(e, done, token, now)
      modifies this`drains, this`drainHighWater
      ensures drainHighWater == old(drainHighWater) + 1
      ensures drains == e.drains + NewDrains(e, done + [t], token, now)
    {
      drainHighWater := drainHighWater + 1;
      drains := drains[drainHighWater := NewRecord(drainHighWater, setHighWater + 1, t, token, now)];
      assert (done + [t])[..|done|] == done;
    }

    method CreateDrains(ts: seq<Target>, token: AuthorityId, now: Time)
      modifies this`drains, this`drainHighWater
      ensures drains == old(drains) + NewDrains(old(View()), ts, token, now)
      ensures drainHighWater == old(drainHighWater) + |ts|
    {
      ghost var e := View();
      var i := 0;
      while i < |ts|
        invariant 0 <= i <= |ts|
        invariant drainHighWater == e.drainHighWater + i
        invariant drains == e.drains + NewDrains(e, ts[..i], token, now)
      {
        CreateDrain(e, ts[..i], ts[i], token, now);
        assert ts[..i + 1] == ts[..i] + [ts[i]];
        i := i + 1;
      }
      assert ts[..i] == ts;
    }

    method RegisterSet(created: DrainSet, nonce: nat)
      modifies this`sets, this`nonces, this`setHighWater
      ensures setHighWater == old(setHighWater) + 1 && sets == old(sets)[setHighWater := created]
      ensures nonces == if nonce != 0 then old(nonces)[nonce := setHighWater] else old(nonces)
    {
      setHighWater := setHighWater + 1;
      sets := sets[setHighWater := created];
      if nonce != 0 {
        nonces := nonces[nonce := setHighWater];
      }
    }

    method InstallSet(ts: seq<Target>, token: AuthorityId, nonce: nat, now: Time)
      modifies this`drains, this`sets, this`nonces, this`drainHighWater, this`setHighWater
      ensures View() == WithSet(old(View()), ts, token, nonce, now)
    {
      ghost var e := View();
      var members := NewMembers(View(), |ts|);
      CreateDrains(ts, token, now);
      RegisterSet(DrainSet(ts, members), nonce);
      SetInstalled(e, ts, token, nonce, now, members, View());
    }

    method MayGrant(ts: seq<Target>) returns (ok: bool)
      ensures ok == Grantable(View(), ts)
    {
      ok := Unowned(ts);
      if ok {
        ok := Removable(ts);
      }
      ok := ok && forall i :: 0 <= i < |ts| ==> InDomain(ts, ts[i].domain) <= policy.maxPerDomain;
    }

    /** The correlated check of a request: skipped when a target is unknown. */
    method Removable(ts: seq<Target>) returns (ok: bool)
      ensures ok == SetRemovable(View(), ts)
    {
      var removal: set<ResourceId> := {};
      var complete := true;
      var i := 0;
      while i < |ts|
        invariant 0 <= i <= |ts|
        invariant removal == set k | 0 <= k < i :: ts[k].id
        invariant complete <==> forall k :: 0 <= k < i ==> ts[k].id in fabric.resources
      {
        if ts[i].id !in fabric.resources {
          complete := false;
        }
        removal := removal + {ts[i].id};
        i := i + 1;
      }
      ok := true;
      if complete {
        var violation := To.ValidateRemovalMany(fabric, removal, policy.headroom);
        ok := violation == To.Fine;
      }
    }

    method RequestDrainSet(targets: seq<Target>, token: AuthorityId, nonce: nat, now: Time) returns (ok: bool)
      modifies this`drains, this`sets, this`nonces, this`drainHighWater, this`setHighWater
      ensures Outcome(View(), ok) == RequestSet(old(View()), targets, token, nonce, now)
    {
      ok := false;
      if WellFormedRequest(View(), targets, token, now) {
        var ts := Canonical(targets);
        if nonce != 0 && nonce in nonces {
          ok := nonces[nonce] in sets && sets[nonces[nonce]].targets == ts;
        } else {
          ok := MayGrant(ts);
          if ok {
            InstallSet(ts, token, nonce, now);
          }
        }
      }
    }
  }

  /** What a step event comes to: the step of an unsettled drain, and otherwise nothing. */
  lemma StepEvent(e: State, d: DrainId, now: Time, digest: nat, e': State)
    requires digest != 0
    requires e' == if d in e.drains && !IsSettled(e.drains[d].state) then StepDrain(e, d, now, digest) else e
    ensures Apply(e, DrainEvent(d, StepOp(digest), now)) == e'
  {
    if d in e.drains && IsSettled(e.drains[d].state) {
      SettledStep(e, d, now, digest);
    }
  }

  lemma SettledStep(e: State, d: DrainId, now: Time, digest: nat)
    requires d in e.drains && IsSettled(e.drains[d].state)
    ensures StepDrain(e, d, now, digest) == e
  {
  }

  lemma SetInstalled(e: State, ts: seq<Target>, token: AuthorityId, nonce: nat, now: Time,
                     members: seq<DrainId>, e': State)
    requires members == NewMembers(e, |ts|)
    requires e' == e.(drains := e.drains + NewDrains(e, ts, token, now), drainHighWater := e.drainHighWater + |ts|,
                      setHighWater := e.setHighWater + 1, sets := e.sets[e.setHighWater + 1 := DrainSet(ts, members)],
                      nonces := if nonce != 0 then e.nonces[nonce := e.setHighWater + 1] else e.nonces)
    ensures e' == WithSet(e, ts, token, nonce, now)
  {
  }

  lemma SomeBlocked(all: set<ObligationId>, blockers: set<Blocker>)
    requires all != {} && blockers == set o | o in all :: Blocker(ProtectedObligationActive, OnObligation(o))
    ensures blockers != {}
  {
    var o :| o in all;
    assert Blocker(ProtectedObligationActive, OnObligation(o)) in blockers;
  }
}
