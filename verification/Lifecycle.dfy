/** The drain lifecycle: states, the legality table, and the drain record. */
module Lifecycle {
  import opened Identity
  import Evidence

  datatype DrainState =
    | Requested | Validating | AdmissionClosed | Evacuating | Quiescing | Verifying
    | Drained | Blocked | Cancelled | Failed | Restoring

  predicate IsSettled(s: DrainState) {
    s == Drained || s == Cancelled || s == Failed
  }

  /** `is_legal_drain_transition`. */
  predicate LegalTransition(from: DrainState, to: DrainState) {
    from == to ||
    match from
    case Requested => to.Validating? || to.Blocked? || to.Cancelled? || to.Failed?
    case Validating => to.AdmissionClosed? || to.Blocked? || to.Cancelled? || to.Failed?
    case AdmissionClosed =>
      to.Evacuating? || to.Quiescing? || to.Blocked? || to.Cancelled? || to.Failed?
    case Evacuating => to.Quiescing? || to.Blocked? || to.Cancelled? || to.Failed?
    case Quiescing =>
      to.Verifying? || to.Evacuating? || to.Blocked? || to.Cancelled? || to.Failed?
    case Verifying =>
      to.Drained? || to.Quiescing? || to.Blocked? || to.Cancelled? || to.Failed?
    case Blocked =>
      to.Requested? || to.Validating? || to.AdmissionClosed? || to.Evacuating? || to.Quiescing?
      || to.Verifying? || to.Cancelled? || to.Failed? || to.Restoring?
    case Cancelled => to.Restoring? || to.Failed?
    case Failed => to.Restoring? || to.Cancelled?
    case Restoring => to.Cancelled? || to.Failed? || to.Blocked?
    case Drained => to.Restoring?
  }

  datatype BlockerCode =
    | AdmissionFenceMissing | ProtectedObligationActive | ObligationGraceExpired
    | ReleaseEvidenceMissing | ReleaseEvidenceStale | DomainLimitReached | CapacityInsufficient
    | PathDiversityViolation | AlternatePathLost | AuthorityInvalid | GenerationSuperseded
    | EvacuationAttemptsExhausted | RestartRecoveryPending | TopologyInconsistent
    | SetPredecessorPending | ObligationFailed | QuiescenceEvidenceMissing

  /** What a blocker names. */
  datatype Subject =
    | OnTarget(target: Target)
    | OnDrain(drain: DrainId)
    | OnObligation(obligation: ObligationId)
    | OnDomain(domain: DomainId)
    | OnAuthority(authority: AuthorityId)
    | OnEvidence(key: Evidence.EvidenceKey)
    | OnCommitment

  datatype Blocker = Blocker(code: BlockerCode, subject: Subject)

  datatype DrainRecord = DrainRecord(
    id: DrainId, set_: DrainSetId, target: Target, generation: Generation,
    restoreGeneration: Generation, state: DrainState, blockedFrom: Option<DrainState>,
    authority: AuthorityId, requestedAt: Time, stateSince: Time, admissionClosedAt: Time,
    completedAt: Time, restoredAt: Time, lastEvacuationAt: Time, evacuationRequests: nat,
    remainingAtCompletion: nat, completionDigest: nat, completionEvidence: EvidenceSeq,
    blockers: set<Blocker>)

  function NewRecord(id: DrainId, set_: DrainSetId, target: Target, authority: AuthorityId, at: Time): DrainRecord {
    DrainRecord(id, set_, target, 0, 0, Requested, None, authority, at, at, 0, 0, 0, 0, 0, 0, 0, 0, {})
  }

  /** `DrainRecord::transition`. A self-transition changes nothing; an illegal
      one is refused. */
  function Transition(r: DrainRecord, next: DrainState, at: Time): Option<DrainRecord> {
    if next == r.state then Some(r)
    else if !LegalTransition(r.state, next) then None
    else Some(r.(
      state := next,
      stateSince := at,
      blockedFrom := if next.Blocked? then Some(r.state) else if r.state.Blocked? then None else r.blockedFrom,
      blockers := if !next.Blocked? && r.state.Blocked? then {} else r.blockers,
      admissionClosedAt := if next.AdmissionClosed? then at else r.admissionClosedAt))
  }

  /** A move is made exactly when it is legal. It stamps the new state; entering
      Blocked remembers where from, leaving it forgets that and the blockers, and
      entering AdmissionClosed, from wherever, starts the settle window anew. */
  lemma TransitionIff(r: DrainRecord, next: DrainState, at: Time)
    ensures Transition(r, next, at).Some? <==> LegalTransition(r.state, next)
    ensures Transition(r, next, at).Some? && next == r.state ==> Transition(r, next, at).value == r
    ensures Transition(r, next, at).Some? && next != r.state ==>
              var r' := Transition(r, next, at).value;
              && r'.state == next && r'.stateSince == at
              && (next == Blocked ==> r'.blockedFrom == Some(r.state) && r'.blockers == r.blockers)
              && (r.state == Blocked ==> r'.blockedFrom == None && r'.blockers == {})
              && (next != Blocked && r.state != Blocked ==>
                    r'.blockedFrom == r.blockedFrom && r'.blockers == r.blockers)
              && (next == AdmissionClosed ==> r'.admissionClosedAt == at)
              && (next != AdmissionClosed ==> r'.admissionClosedAt == r.admissionClosedAt)
              && r' == r.(state := next, stateSince := at, blockedFrom := r'.blockedFrom, blockers := r'.blockers,
                          admissionClosedAt := r'.admissionClosedAt)
  {
  }

  /** `DrainRecord::record_completion`: refused while protected work remains. */
  function RecordCompletion(r: DrainRecord, at: Time, remaining: nat, digest: nat, proof: EvidenceSeq)
    : Option<DrainRecord>
  {
    if remaining != 0 then None
    else Some(r.(completedAt := at, remainingAtCompletion := remaining, completionDigest := digest,
                 completionEvidence := proof))
  }

  /** The lifecycle position a record occupies or, when blocked, the one it holds. */
  function Phase(r: DrainRecord): DrainState {
    if r.state.Blocked? then (if r.blockedFrom.Some? then r.blockedFrom.value else Validating) else r.state
  }

  predicate IsHolding(s: DrainState) {
    s == AdmissionClosed || s == Evacuating || s == Quiescing || s == Verifying
  }

  /** `holds_fence`: past admission closure and not yet settled. */
  predicate HoldsFence(r: DrainRecord) {
    IsHolding(r.state) || (r.state.Blocked? && r.blockedFrom.Some? && IsHolding(r.blockedFrom.value))
  }

  /** Waiting to close admission. */
  predicate IsWaiting(r: DrainRecord) {
    r.state == Requested || r.state == Validating
    || (r.state == Blocked && r.blockedFrom.Some?
        && (r.blockedFrom.value == Requested || r.blockedFrom.value == Validating))
  }

  /** Cancelled, restored, and therefore no longer an owner of its target. */
  predicate IsDone(r: DrainRecord) {
    r.state == Cancelled && r.restoredAt != 0
  }

  // ---- Consequences of the table ---------------------------------------------------

  /** On the way to removal. */
  predicate IsActive(s: DrainState) {
    s == Requested || s == Validating || IsHolding(s)
  }

  function Place(s: DrainState): nat {
    match s
    case Requested => 0
    case Validating => 1
    case AdmissionClosed => 2
    case Evacuating => 3
    case Quiescing => 4
    case Verifying => 5
    case _ => 6
  }

  /** The table in words: an active drain goes one place on, may skip evacuation, and
      may fall one place back from Quiescing and Verifying; what is active or restoring
      may be blocked and resumed; anything not drained may be cancelled or fail; what is
      settled may be restored. */
  lemma LegalMoves(from: DrainState, to: DrainState)
    ensures LegalTransition(from, to) <==>
              || from == to
              || (IsActive(from) && IsActive(to)
                  && (|| Place(to) == Place(from) + 1
                      || (from == AdmissionClosed && to == Quiescing)
                      || (Place(to) + 1 == Place(from) && Place(from) >= 4)))
              || (from == Verifying && to == Drained)
              || (to == Blocked && (IsActive(from) || from == Restoring))
              || (from == Blocked && (IsActive(to) || to == Restoring))
              || ((to == Cancelled || to == Failed) && from != Drained)
              || (to == Restoring && IsSettled(from))
  {
  }

  ghost predicate LegalPath(p: seq<DrainState>) {
    |p| > 0 && forall i :: 0 <= i < |p| - 1 ==> LegalTransition(p[i], p[i + 1])
  }

  /** The table alone: a legal walk that starts at Requested and reaches Drained
      passes through Verifying immediately before it. */
  lemma {:induction false} DrainedOnlyFromVerifying(p: seq<DrainState>)
    requires LegalPath(p) && p[0] == Requested && p[|p| - 1] == Drained
    ensures exists i :: 0 <= i < |p| - 1 && p[i] == Verifying && p[i + 1] == Drained
  {
    if p[|p| - 2] == Drained {
      assert LegalPath(p[..|p| - 1]);
      DrainedOnlyFromVerifying(p[..|p| - 1]);
      var i :| 0 <= i < |p| - 2 && p[i] == Verifying && p[i + 1] == Drained;
    } else {
      assert LegalTransition(p[|p| - 2], p[|p| - 1]);
      assert p[|p| - 2] == Verifying;
    }
  }

  /** Once settled or restoring, the table never leads back to an active drain
      except through Blocked; without Blocked the settled side is closed. */
  predicate Retired(s: DrainState) {
    s == Drained || s == Cancelled || s == Failed || s == Restoring
  }

  lemma {:induction false} RetiredIsClosed(p: seq<DrainState>, i: nat)
    requires LegalPath(p) && Retired(p[0]) && i < |p|
    requires forall k :: 0 <= k < |p| ==> p[k] != Blocked
    ensures Retired(p[i])
  {
    if i > 0 {
      RetiredIsClosed(p, i - 1);
      assert LegalTransition(p[i - 1], p[i - 1 + 1]);
    }
  }
}
