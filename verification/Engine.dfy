/** The drain engine as a value: its state, what its evaluations read, and every
    locked operation as a function from state to state. */
module Engine {
  import opened Identity
  import opened Lifecycle
  import Ob = Obligations
  import Ev = Evidence
  import Au = Authority
  import Ad = Admission
  import To = Topology
  import Ordering

  const MAX_DRAINS: nat := 65536
  const MAX_DRAIN_SETS: nat := 16384
  const MAX_DEPENDENCIES: nat := 64

  /** The policy values the engine consults. */
  datatype Policy = Policy(
    maxTargets: nat, maxDrainsInSet: nat, maxPerDomain: nat, serializeSameDomain: bool,
    maxObligations: nat, maxEvidence: nat, maxAttempts: nat, maxExtensions: nat,
    settle: int, freshness: int, retryInterval: int, skew: int, defaultGrace: int,
    kindGrace: map<Ob.ObligationKind, int>, headroom: To.Headroom,
    requireQuiescence: bool, requireLive: bool, reobserve: bool)

  datatype Grant = Grant(obligation: ObligationId, extension: int)

  datatype DrainSet = DrainSet(targets: seq<Target>, members: seq<DrainId>)

  datatype State = State(
    policy: Policy, fabric: To.Fabric,
    obligations: map<ObligationId, Ob.Obligation>, obligationHighWater: ObligationId,
    evidence: Ev.Ledger, authority: Au.Registry, fence: Ad.Fence,
    drains: map<DrainId, DrainRecord>, sets: map<DrainSetId, DrainSet>,
    exceptions: map<DrainId, seq<Grant>>, nonces: map<nat, DrainSetId>,
    drainHighWater: DrainId, setHighWater: DrainSetId)

  /** An operation leaves a state and reports whether it was accepted. A refusal
      may still have changed the state. */
  datatype Outcome = Outcome(state: State, ok: bool)

  // ---- What the evaluations read ----------------------------------------------------

  function Outstanding(e: State, t: Target): set<ObligationId> {
    set o | o in e.obligations && Ob.BlocksCompletion(e.obligations[o]) && t in e.obligations[o].dependencies
  }

  predicate SomeMoving(e: State, t: Target) {
    exists o :: o in Outstanding(e, t) && Ob.NeedsMoving(e.obligations[o])
  }

  /** `removal_owned_by`: out of service, under a fence this drain holds closed. */
  predicate RemovalOwned(e: State, r: DrainRecord) {
    && r.target.id in e.fabric.resources
    && e.fabric.resources[r.target.id].status == To.Unavailable
    && Ad.IsClosed(e.fence, r.target)
    && e.fence[r.target].drain == r.id
  }

  /** `removal_is_reobservable`. */
  predicate Reobservable(e: State, r: DrainRecord) {
    && Outstanding(e, r.target) == {}
    && Ad.IsClosed(e.fence, r.target) && e.fence[r.target].generation == r.generation
    && r.target.id in e.fabric.resources
    && e.fabric.resources[r.target.id].status == To.Unavailable
  }

  function LineAt(e: State, now: Time): Ev.EvidenceFence {
    Ev.EvidenceFence(e.authority.incarnation, e.authority.epoch, now, e.policy.skew)
  }

  function GraceFor(p: Policy, o: Ob.Obligation): int {
    if o.grace != 0 then o.grace
    else if o.kind in p.kindGrace && p.kindGrace[o.kind] != 0 then p.kindGrace[o.kind]
    else p.defaultGrace
  }

  function Extended(deadline: Time, grants: seq<Grant>, o: ObligationId): Time
    decreases |grants|
  {
    if grants == [] then deadline
    else if grants[0].obligation == 0 || grants[0].obligation == o then
      Extended(SaturatingAdd(deadline, grants[0].extension), grants[1..], o)
    else Extended(deadline, grants[1..], o)
  }

  function GraceDeadline(e: State, r: DrainRecord, o: ObligationId): Time
    requires o in e.obligations
  {
    var base := SaturatingAdd(e.obligations[o].admittedAt, GraceFor(e.policy, e.obligations[o]));
    if r.id in e.exceptions then Extended(base, e.exceptions[r.id], o) else base
  }

  function OthersHolding(e: State, r: DrainRecord): set<DrainId> {
    set d | d in e.drains && d != r.id && e.drains[d].target.domain == r.target.domain && HoldsFence(e.drains[d])
  }

  function OthersWaiting(e: State, r: DrainRecord): set<DrainId> {
    set d | d in e.drains && d != r.id && e.drains[d].target.domain == r.target.domain && IsWaiting(e.drains[d])
  }

  predicate IsMin(s: set<DrainId>, m: DrainId) {
    m in s && forall x | x in s :: m <= x
  }

  lemma {:induction false} MinExists(s: set<DrainId>)
    requires s != {}
    ensures exists m :: IsMin(s, m)
    decreases |s|
  {
    var a :| a in s;
    var rest := s - {a};
    assert s == rest + {a};
    if rest != {} {
      MinExists(rest);
      var m :| IsMin(rest, m);
      assert IsMin(s, if a <= m then a else m);
    } else {
      assert IsMin(s, a);
    }
  }

  function Min(s: set<DrainId>): (m: DrainId)
    requires s != {}
    ensures IsMin(s, m)
  {
    MinExists(s);
    var m :| m in s && IsMin(s, m);
    m
  }

  // ---- Blockers ------------------------------------------------------------------------

  function One(condition: bool, code: BlockerCode, subject: Subject): set<Blocker> {
    if condition then {Blocker(code, subject)} else {}
  }

  /** The token is re-checked only while it belongs to the live incarnation. */
  predicate AuthorityObjects(e: State, r: DrainRecord, now: Time) {
    r.authority == 0
    || (r.authority in e.authority.tokens
        && e.authority.tokens[r.authority].incarnation == e.authority.incarnation
        && !Au.Authorizes(e.authority, r.authority, now))
  }

  predicate ForeignFence(e: State, r: DrainRecord) {
    Ad.IsClosed(e.fence, r.target) && e.fence[r.target].drain != r.id
  }

  /** An earlier member of the drain's own set, in the same domain and unsettled. */
  function UnsettledBefore(e: State, r: DrainRecord, members: seq<DrainId>): Option<DrainId>
    decreases |members|
  {
    if members == [] || members[0] == r.id then None
    else if members[0] in e.drains && e.drains[members[0]].target.domain == r.target.domain
            && !IsSettled(e.drains[members[0]].state)
    then Some(members[0])
    else UnsettledBefore(e, r, members[1..])
  }

  function OrderBlockers(e: State, r: DrainRecord): set<Blocker> {
    var waiting := OthersWaiting(e, r);
    if waiting != {} && Min(waiting) < r.id then {Blocker(SetPredecessorPending, OnDrain(Min(waiting)))} else {}
  }

  function SetBlockers(e: State, r: DrainRecord): set<Blocker> {
    if r.set_ != 0 && e.policy.serializeSameDomain && r.set_ in e.sets then
      var before := UnsettledBefore(e, r, e.sets[r.set_].members);
      if before.Some? then {Blocker(SetPredecessorPending, OnDrain(before.value))} else {}
    else {}
  }

  function VerdictBlockers(verdict: To.Verdict): set<Blocker> {
    match verdict
    case Fine => {}
    case UnknownResource => {Blocker(TopologyInconsistent, OnCommitment)}
    case ReservationOverCapacity => {Blocker(CapacityInsufficient, OnCommitment)}
    case PoolExhausted => {Blocker(CapacityInsufficient, OnCommitment)}
    case DiversityLost => {Blocker(PathDiversityViolation, OnCommitment)}
    case RouteSevered => {Blocker(AlternatePathLost, OnCommitment)}
  }

  /** `evaluate_start`. */
  function StartBlockers(e: State, r: DrainRecord, now: Time): set<Blocker> {
    One(AuthorityObjects(e, r, now), AuthorityInvalid, OnAuthority(r.authority))
    + One(ForeignFence(e, r), GenerationSuperseded, OnTarget(r.target))
    + One(!To.Serves(e.fabric, r.target.id), TopologyInconsistent, OnTarget(r.target))
    + One(|OthersHolding(e, r)| >= e.policy.maxPerDomain, DomainLimitReached, OnDomain(r.target.domain))
    + OrderBlockers(e, r)
    + SetBlockers(e, r)
    + (if To.Serves(e.fabric, r.target.id)
       then VerdictBlockers(To.Validate(e.fabric, {r.target.id}, e.policy.headroom)) else {})
  }

  predicate GraceExpired(e: State, r: DrainRecord, o: ObligationId, now: Time)
    requires o in e.obligations
  {
    e.obligations[o].state != Ob.Failed && now > GraceDeadline(e, r, o)
  }

  /** `evaluate_evacuation`. */
  function EvacuationBlockers(e: State, r: DrainRecord, now: Time): set<Blocker> {
    (set o | o in Outstanding(e, r.target) && e.obligations[o].state == Ob.Failed
       :: Blocker(ObligationFailed, OnObligation(o)))
    + (set o | o in Outstanding(e, r.target) && GraceExpired(e, r, o, now)
         :: Blocker(ObligationGraceExpired, OnObligation(o)))
    + One(SomeMoving(e, r.target) && r.evacuationRequests >= e.policy.maxAttempts,
          EvacuationAttemptsExhausted, OnDrain(r.id))
  }

  function ReleaseKey(d: DrainId, o: ObligationId): Ev.EvidenceKey {
    Ev.EvidenceKey(Ev.ObligationReleased, d, o, "")
  }

  function RemovalKey(r: DrainRecord): Ev.EvidenceKey {
    Ev.EvidenceKey(Ev.ResourceRemoved, r.id, 0, r.target.id)
  }

  /** An observation that proves something for this drain now: fresh on the live
      line, of the drain's generation, and not older than admission closure. */
  predicate Proves(e: State, r: DrainRecord, o: Ev.Observation, now: Time) {
    && Ev.IsFresh(o, LineAt(e, now), e.policy.freshness)
    && o.generation == r.generation
    && o.observedAt >= r.admissionClosedAt
  }

  /** Why one outstanding obligation cannot be retired yet, if it cannot. */
  function ReleaseObjection(e: State, r: DrainRecord, o: ObligationId, now: Time): Option<BlockerCode>
    requires o in e.obligations
  {
    match e.obligations[o].state
    case Admitted => Some(ProtectedObligationActive)
    case Evacuating => Some(ProtectedObligationActive)
    case Failed => Some(ObligationFailed)
    case Retired => None
    case _ =>
      var number := e.obligations[o].releaseEvidence;
      var found := Ev.Find(e.evidence, ReleaseKey(r.id, o), number);
      if number == 0 || found.None? then Some(ReleaseEvidenceMissing)
      else if !Ev.IsFresh(found.value, LineAt(e, now), e.policy.freshness) then Some(ReleaseEvidenceStale)
      else if found.value.generation != r.generation then Some(GenerationSuperseded)
      else if found.value.observedAt < r.admissionClosedAt then Some(ReleaseEvidenceStale)
      else None
  }

  function ReleaseBlockers(e: State, r: DrainRecord, now: Time): set<Blocker> {
    set o | o in Outstanding(e, r.target) && ReleaseObjection(e, r, o, now).Some?
      :: Blocker(ReleaseObjection(e, r, o, now).value, OnObligation(o))
  }

  function Retirable(e: State, r: DrainRecord, now: Time): set<ObligationId> {
    set o | o in Outstanding(e, r.target) && ReleaseObjection(e, r, o, now).None?
  }

  /** The validation that belongs to the removal step itself. */
  function RemovalBlockers(e: State, r: DrainRecord): set<Blocker> {
    if r.target.id !in e.fabric.resources then {Blocker(TopologyInconsistent, OnTarget(r.target))}
    else if !To.Serves(e.fabric, r.target.id) then
      One(!RemovalOwned(e, r), TopologyInconsistent, OnTarget(r.target))
    else VerdictBlockers(To.Validate(e.fabric, {r.target.id}, e.policy.headroom))
  }

  /** `evaluate_quiescence`. */
  function QuiescenceBlockers(e: State, r: DrainRecord, now: Time): set<Blocker> {
    if ReleaseBlockers(e, r, now) != {} || Retirable(e, r, now) != {} then ReleaseBlockers(e, r, now)
    else RemovalBlockers(e, r)
  }

  function RemovalEvidence(e: State, r: DrainRecord, now: Time): Option<Ev.Observation> {
    Ev.Fresh(e.evidence, RemovalKey(r), LineAt(e, now), e.policy.freshness)
  }

  /** `evaluate_verification`. */
  function VerificationBlockers(e: State, r: DrainRecord, now: Time): set<Blocker> {
    if Outstanding(e, r.target) != {} then
      set o | o in Outstanding(e, r.target) :: Blocker(ProtectedObligationActive, OnObligation(o))
    else
      One(!RemovalOwned(e, r), TopologyInconsistent, OnTarget(r.target))
      + (if !e.policy.requireQuiescence then {}
         else
           var candidate := RemovalEvidence(e, r, now);
           if candidate.None? then {Blocker(QuiescenceEvidenceMissing, OnEvidence(RemovalKey(r)))}
           else if candidate.value.generation != r.generation then
             {Blocker(GenerationSuperseded, OnEvidence(RemovalKey(r)))}
           else if candidate.value.observedAt < r.admissionClosedAt then
             {Blocker(ReleaseEvidenceStale, OnEvidence(RemovalKey(r)))}
           else {})
  }

  /** The sequence cited by the completion record; zero when policy asks for none. */
  function CompletionProof(e: State, r: DrainRecord, now: Time): EvidenceSeq {
    if e.policy.requireQuiescence && RemovalEvidence(e, r, now).Some?
    then RemovalEvidence(e, r, now).value.number else 0
  }

  /** `evaluate_state`. */
  function StateBlockers(e: State, r: DrainRecord, s: DrainState, now: Time): set<Blocker> {
    match s
    case Requested => StartBlockers(e, r, now)
    case Validating => StartBlockers(e, r, now)
    case Evacuating => EvacuationBlockers(e, r, now)
    case Quiescing => QuiescenceBlockers(e, r, now)
    case Verifying => VerificationBlockers(e, r, now)
    case _ => {}
  }

  // ---- Building blocks of the steps -------------------------------------------------------

  function Put(e: State, d: DrainId, r: DrainRecord): State {
    e.(drains := e.drains[d := r])
  }

  /** `apply_transition`: an illegal one leaves the record alone. */
  function Move(e: State, d: DrainId, next: DrainState, now: Time): State
    requires d in e.drains
  {
    var moved := Transition(e.drains[d], next, now);
    if moved.Some? then Put(e, d, moved.value) else e
  }

  /** `enter_blocked`. */
  function EnterBlocked(e: State, d: DrainId, blockers: set<Blocker>, now: Time): State
    requires d in e.drains
  {
    Move(Put(e, d, e.drains[d].(blockers := blockers)), d, Blocked, now)
  }

  /** The engine's own observation that the target is gone. */
  function RemovalDraft(e: State, r: DrainRecord, now: Time): Ev.Observation {
    Ev.Observation(
      Ev.HighWater(e.evidence, RemovalKey(r)) + 1, RemovalKey(r), r.generation, e.authority.epoch,
      e.authority.incarnation, r.authority, now, SaturatingAdd(now, e.policy.freshness), true, 0, false)
  }

  /** `record_removal_evidence`; None when the ledger refuses. */
  function ObserveRemoval(e: State, d: DrainId, now: Time): Option<State>
    requires d in e.drains
  {
    var recorded := Ev.Record(e.evidence, RemovalDraft(e, e.drains[d], now), LineAt(e, now), e.policy.requireLive);
    if recorded.Recorded? then Some(e.(evidence := recorded.ledger)) else None
  }

  /** A fresh removal observation when policy and live state allow one. */
  function Reobserve(e: State, d: DrainId, now: Time): State
    requires d in e.drains
  {
    if e.policy.reobserve && Reobservable(e, e.drains[d]) && ObserveRemoval(e, d, now).Some?
    then ObserveRemoval(e, d, now).value else e
  }

  function RetireAll(e: State, retired: set<ObligationId>, now: Time): State {
    e.(obligations := map o | o in e.obligations ::
         if o in retired then RetiredForm(e.obligations[o], now) else e.obligations[o])
  }

  function RetiredForm(o: Ob.Obligation, now: Time): Ob.Obligation {
    var applied := Ob.ApplyState(o, o.revision, Ob.Retired, o.releaseEvidence, now);
    if applied.Some? then applied.value else o
  }

  // ---- step_drain ---------------------------------------------------------------------------

  /** Closes the fence and takes its generation; blocks when the table refuses. */
  function CloseAdmission(e: State, d: DrainId, now: Time): State
    requires d in e.drains
  {
    var r := e.drains[d];
    var closed := Ad.Close(e.fence, r.target, d);
    var e1 := e.(fence := closed.fence);
    if closed.generation.None? then
      EnterBlocked(e1, d, {Blocker(AdmissionFenceMissing, OnTarget(r.target))}, now)
    else Move(Put(e1, d, r.(generation := closed.generation.value)), d, AdmissionClosed, now)
  }

  function ActValidating(e: State, d: DrainId, now: Time): State
    requires d in e.drains
  {
    var blockers := StartBlockers(e, e.drains[d], now);
    if blockers != {} then EnterBlocked(e, d, blockers, now) else CloseAdmission(e, d, now)
  }

  function ActAdmissionClosed(e: State, d: DrainId, now: Time): State
    requires d in e.drains
  {
    var r := e.drains[d];
    if now < SaturatingAdd(r.admissionClosedAt, e.policy.settle) then e
    else if Outstanding(e, r.target) == {} then Move(e, d, Quiescing, now)
    else Move(e, d, Evacuating, now)
  }

  /** An evacuation round is issued in this call. */
  predicate IssuesRound(e: State, d: DrainId, now: Time)
    requires d in e.drains
  {
    var r := e.drains[d];
    && SomeMoving(e, r.target)
    && EvacuationBlockers(e, r, now) == {}
    && (r.evacuationRequests == 0 || now >= SaturatingAdd(r.lastEvacuationAt, e.policy.retryInterval))
  }

  function ActEvacuating(e: State, d: DrainId, now: Time): State
    requires d in e.drains
  {
    var r := e.drains[d];
    var blockers := EvacuationBlockers(e, r, now);
    if !SomeMoving(e, r.target) then Move(e, d, Quiescing, now)
    else if blockers != {} then EnterBlocked(e, d, blockers, now)
    else if !IssuesRound(e, d, now) then e
    else Put(e, d, r.(lastEvacuationAt := now, evacuationRequests := r.evacuationRequests + 1))
  }

  function TakenOut(e: State, id: ResourceId): State {
    if To.Serves(e.fabric, id) then e.(fabric := To.SetStatus(e.fabric, id, To.Unavailable)) else e
  }

  /** After the target left service: observe the removal and move on to verify it. */
  function FinishRemoval(e: State, d: DrainId, now: Time): State
    requires d in e.drains
  {
    var observed := ObserveRemoval(e, d, now);
    if observed.None? then
      EnterBlocked(e, d, {Blocker(QuiescenceEvidenceMissing, OnEvidence(RemovalKey(e.drains[d])))}, now)
    else Move(observed.value, d, Verifying, now)
  }

  /** The removal step: take the target out of service, observe, verify. */
  function Remove(e: State, d: DrainId, now: Time): State
    requires d in e.drains
  {
    var r := e.drains[d];
    var blockers := RemovalBlockers(e, r);
    if blockers != {} then EnterBlocked(e, d, blockers, now)
    else FinishRemoval(TakenOut(e, r.target.id), d, now)
  }

  function ActQuiescing(e: State, d: DrainId, now: Time): State
    requires d in e.drains
  {
    var r := e.drains[d];
    var blockers := QuiescenceBlockers(e, r, now);
    if SomeMoving(e, r.target) then Move(e, d, Evacuating, now)
    else if blockers != {} then EnterBlocked(e, d, blockers, now)
    else if Retirable(e, r, now) != {} then RetireAll(e, Retirable(e, r, now), now)
    else Remove(e, d, now)
  }

  function Complete(e: State, d: DrainId, now: Time, digest: nat): State
    requires d in e.drains
  {
    var r := e.drains[d];
    var completed := RecordCompletion(r, now, |Outstanding(e, r.target)|, digest, CompletionProof(e, r, now));
    if completed.None? then EnterBlocked(e, d, {Blocker(ProtectedObligationActive, OnTarget(r.target))}, now)
    else Move(Put(e, d, completed.value), d, Drained, now)
  }

  function ActVerifying(e: State, d: DrainId, now: Time, digest: nat): State
    requires d in e.drains
  {
    var r := e.drains[d];
    var e1 := if VerificationBlockers(e, r, now) == {} then e else Reobserve(e, d, now);
    var blockers := VerificationBlockers(e1, r, now);
    if blockers != {} then EnterBlocked(e1, d, blockers, now) else Complete(e1, d, now, digest)
  }

  function ActRestoring(e: State, d: DrainId, now: Time): State
    requires d in e.drains
  {
    var r := e.drains[d];
    if now < SaturatingAdd(r.stateSince, e.policy.settle) then e
    else
      var e1 := if RemovalOwned(e, r)
                then e.(fabric := To.SetStatus(e.fabric, r.target.id, To.InService)) else e;
      var moved := Transition(r, Cancelled, now);
      if moved.None? then EnterBlocked(e1, d, {Blocker(GenerationSuperseded, OnTarget(r.target))}, now)
      else Put(e1, d, moved.value.(restoredAt := now))
  }

  /** The state switch of `step_drain`. */
  function Act(e: State, d: DrainId, now: Time, digest: nat): State
    requires d in e.drains
  {
    match e.drains[d].state
    case Requested => Move(e, d, Validating, now)
    case Validating => ActValidating(e, d, now)
    case AdmissionClosed => ActAdmissionClosed(e, d, now)
    case Evacuating => ActEvacuating(e, d, now)
    case Quiescing => ActQuiescing(e, d, now)
    case Verifying => ActVerifying(e, d, now, digest)
    case Restoring => ActRestoring(e, d, now)
    case _ => e
  }

  /** A drain held in Verifying takes a fresh observation before it is judged. */
  function Refreshed(e: State, d: DrainId, now: Time): State
    requires d in e.drains
  {
    if Phase(e.drains[d]) == Verifying then Reobserve(e, d, now) else e
  }

  /** A blocked drain that was judged again: it stays Blocked on what was found,
      or resumes the position it held. */
  function Judged(e: State, d: DrainId, blockers: set<Blocker>, now: Time): Outcome
    requires d in e.drains
  {
    var moved := Transition(e.drains[d], Phase(e.drains[d]), now);
    if blockers != {} then Outcome(EnterBlocked(e, d, blockers, now), false)
    else if moved.None? then Outcome(e, false)
    else Outcome(Put(e, d, moved.value), true)
  }

  /** The revalidation of a blocked drain: the state it leaves, and whether the
      drain resumed. */
  function Revalidate(e: State, d: DrainId, now: Time): Outcome
    requires d in e.drains
  {
    var r := e.drains[d];
    var e1 := Refreshed(e, d, now);
    Judged(e1, d, StateBlockers(e1, r, Phase(r), now), now)
  }

  /** `step_drain`. */
  function StepDrain(e: State, d: DrainId, now: Time, digest: nat): State
    requires d in e.drains
  {
    if e.drains[d].state != Blocked then Act(e, d, now, digest)
    else
      var revalidated := Revalidate(e, d, now);
      if revalidated.ok then Act(revalidated.state, d, now, digest) else revalidated.state
  }

  // ---- Requests ------------------------------------------------------------------------------

  /** Canonical execution order: failure domain, then kind, then identity. */
  predicate TargetLess(a: Target, b: Target) {
    if a.domain != b.domain then Ordering.StringLess(a.domain, b.domain)
    else if a.kind != b.kind then KindRank(a.kind) < KindRank(b.kind)
    else Ordering.StringLess(a.id, b.id)
  }

  function KindRank(k: TargetKind): nat {
    match k
    case Port => 0
    case Link => 1
    case Switch => 2
    case Path => 3
    case Service => 4
    case Resource => 5
  }

  function InsertTarget(ts: seq<Target>, t: Target): seq<Target> {
    if ts == [] then [t]
    else if ts[0] == t then ts
    else if TargetLess(t, ts[0]) then [t] + ts
    else [ts[0]] + InsertTarget(ts[1..], t)
  }

  /** `normalize_targets`: sorted into the canonical order, duplicates removed. */
  function Normalize(ts: seq<Target>): seq<Target> {
    if ts == [] then [] else InsertTarget(Normalize(ts[1..]), ts[0])
  }

  function InDomain(ts: seq<Target>, domain: DomainId): nat {
    if ts == [] then 0
    else InDomain(ts[..|ts| - 1], domain) + (if ts[|ts| - 1].domain == domain then 1 else 0)
  }

  /** No drain that is not restored owns the target. */
  predicate Free(e: State, t: Target) {
    forall d :: d in e.drains && e.drains[d].target == t ==> IsDone(e.drains[d])
  }

  predicate SetRemovable(e: State, ts: seq<Target>) {
    (forall i :: 0 <= i < |ts| ==> ts[i].id in e.fabric.resources)
    ==> To.Validate(e.fabric, set i | 0 <= i < |ts| :: ts[i].id, e.policy.headroom) == To.Fine
  }

  /** What `request_drain_set` checks before it looks at the nonce. */
  predicate WellFormedRequest(e: State, targets: seq<Target>, authority: AuthorityId, now: Time) {
    var ts := Normalize(targets);
    && targets != [] && |targets| <= e.policy.maxTargets
    && (forall i :: 0 <= i < |targets| ==> targets[i].id != "")
    && Au.Authorizes(e.authority, authority, now)
    && |ts| <= e.policy.maxDrainsInSet
    && |e.sets| < MAX_DRAIN_SETS && |e.drains| + |ts| <= MAX_DRAINS
  }

  /** What it checks before it creates records: ownership, the correlated
      removal, and the failure-domain limit. */
  predicate Grantable(e: State, ts: seq<Target>) {
    && (forall i :: 0 <= i < |ts| ==> Free(e, ts[i]))
    && SetRemovable(e, ts)
    && (forall i :: 0 <= i < |ts| ==> InDomain(ts, ts[i].domain) <= e.policy.maxPerDomain)
  }

  /** One new record per target, numbered after the high-water mark in order. */
  function NewDrains(e: State, ts: seq<Target>, authority: AuthorityId, now: Time): map<DrainId, DrainRecord> {
    if ts == [] then map[]
    else
      var d := e.drainHighWater + |ts|;
      NewDrains(e, ts[..|ts| - 1], authority, now)
        [d := NewRecord(d, e.setHighWater + 1, ts[|ts| - 1], authority, now)]
  }

  function NewMembers(e: State, count: nat): seq<DrainId> {
    seq(count, i => e.drainHighWater + 1 + i)
  }

  /** `request_drain_set`. A replayed nonce returns the original set unchanged. */
  function RequestSet(e: State, targets: seq<Target>, authority: AuthorityId, nonce: nat, now: Time): Outcome {
    var ts := Normalize(targets);
    if !WellFormedRequest(e, targets, authority, now) then Outcome(e, false)
    else if nonce != 0 && nonce in e.nonces then
      Outcome(e, e.nonces[nonce] in e.sets && e.sets[e.nonces[nonce]].targets == ts)
    else if !Grantable(e, ts) then Outcome(e, false)
    else Outcome(WithSet(e, ts, authority, nonce, now), true)
  }

  /** The set and its records, under fresh numbers. */
  function WithSet(e: State, ts: seq<Target>, authority: AuthorityId, nonce: nat, now: Time): State {
    e.(drains := e.drains + NewDrains(e, ts, authority, now),
       sets := e.sets[e.setHighWater + 1 := DrainSet(ts, NewMembers(e, |ts|))],
       nonces := if nonce != 0 then e.nonces[nonce := e.setHighWater + 1] else e.nonces,
       drainHighWater := e.drainHighWater + |ts|,
       setHighWater := e.setHighWater + 1)
  }

  // ---- The other operations --------------------------------------------------------------------

  /** `admit_obligation`. The draft is the caller's: only the identity, the
      instant and the admission generation are set here. */
  predicate Admissible(e: State, draft: Ob.Obligation, presented: Generation, authority: AuthorityId, now: Time) {
    && Au.Authorizes(e.authority, authority, now)
    && draft.dependencies != {} && |draft.dependencies| <= MAX_DEPENDENCIES
    && (forall t :: t in draft.dependencies ==> Ad.CheckAdmission(e.fence, t, presented) == Ad.Admissible)
    && |e.obligations| < e.policy.maxObligations
    && e.obligationHighWater + 1 !in e.obligations
  }

  function Admit(e: State, draft: Ob.Obligation, presented: Generation, authority: AuthorityId, now: Time): Outcome {
    if !Admissible(e, draft, presented, authority, now) then Outcome(e, false)
    else
      var o := e.obligationHighWater + 1;
      Outcome(
        e.(obligations := e.obligations[o := draft.(admittedAt := now, admissionGeneration := presented)],
           obligationHighWater := o),
        true)
  }

  datatype Report = Report(obligation: ObligationId, expected: nat, next: Ob.ObligationState,
                           evidence: EvidenceSeq, drain: DrainId, generation: Generation)

  /** The generation fence of a report that names a drain. */
  predicate ReportFenced(e: State, report: Report) {
    report.drain != 0 ==>
      && report.drain in e.drains
      && (report.generation == e.drains[report.drain].generation
          || (e.drains[report.drain].restoreGeneration != 0
              && report.generation == e.drains[report.drain].restoreGeneration))
  }

  /** `report_obligation`. */
  function ReportObligation(e: State, report: Report, now: Time): Outcome {
    if report.obligation !in e.obligations || !ReportFenced(e, report) then Outcome(e, false)
    else
      var o := e.obligations[report.obligation];
      var applied := Ob.ApplyState(o, report.expected, report.next, report.evidence, now);
      if applied.None? then Outcome(e, false)
      else Outcome(e.(obligations := e.obligations[report.obligation := applied.value]), true)
  }

  function RecordEvidence(e: State, draft: Ev.Observation, now: Time): Outcome {
    var recorded := Ev.Record(e.evidence, draft, LineAt(e, now), e.policy.requireLive);
    if recorded.Recorded? then Outcome(e.(evidence := recorded.ledger), true) else Outcome(e, false)
  }

  function AttestEvidence(e: State, key: Ev.EvidenceKey, number: EvidenceSeq, now: Time): Outcome {
    var attested := Ev.Attest(e.evidence, key, number, LineAt(e, now));
    if attested.Some? then Outcome(e.(evidence := attested.value), true) else Outcome(e, false)
  }

  /** `cancel_drain`: refused once drained, otherwise legal from every unsettled
      state; the fence is left as it is. */
  function Cancel(e: State, d: DrainId, authority: AuthorityId, now: Time): Outcome {
    if !Au.Authorizes(e.authority, authority, now) || d !in e.drains || e.drains[d].state == Drained
    then Outcome(e, false)
    else
      var moved := Transition(e.drains[d], Cancelled, now);
      if moved.None? then Outcome(e, false) else Outcome(Put(e, d, moved.value), true)
  }

  /** The fence part of `restore_drain`: reopen, or force a generation advance,
      or take the generation already in force. */
  function ReopenFor(e: State, d: DrainId): Ad.FenceResult
    requires d in e.drains
  {
    var r := e.drains[d];
    if Ad.IsClosed(e.fence, r.target) then
      if e.fence[r.target].drain != d then Ad.FenceResult(e.fence, None)
      else Ad.Reopen(e.fence, r.target, d)
    else if Ad.GenerationOf(e.fence, r.target) <= r.generation then
      var closed := Ad.Close(e.fence, r.target, d);
      if closed.generation.None? then closed else Ad.Reopen(closed.fence, r.target, d)
    else Ad.FenceResult(e.fence, Some(Ad.GenerationOf(e.fence, r.target)))
  }

  /** `restore_drain`. */
  function Restore(e: State, d: DrainId, authority: AuthorityId, now: Time): Outcome {
    if !Au.Authorizes(e.authority, authority, now) || d !in e.drains then Outcome(e, false)
    else if e.drains[d].state == Restoring then Outcome(e, true)
    else if !IsSettled(e.drains[d].state) then Outcome(e, false)
    else if IsDone(e.drains[d]) then Outcome(e, true)
    else
      EnterRestoring(e, d, ReopenFor(e, d), now)
  }

  /** The record moves to Restoring under the generation the fence reopened at. */
  function EnterRestoring(e: State, d: DrainId, reopened: Ad.FenceResult, now: Time): Outcome
    requires d in e.drains
  {
    var e1 := e.(fence := reopened.fence);
    var moved := Transition(e.drains[d], Restoring, now);
    if reopened.generation.None? || moved.None? then Outcome(e1, false)
    else Outcome(Put(e1, d, moved.value.(restoreGeneration := reopened.generation.value)), true)
  }

  /** `resume_drain`: the operator's revalidation, without re-observation. */
  function Resume(e: State, d: DrainId, authority: AuthorityId, now: Time): Outcome {
    if !Au.Authorizes(e.authority, authority, now) || d !in e.drains || e.drains[d].state != Blocked
    then Outcome(e, false)
    else
      Judged(e, d, StateBlockers(e, e.drains[d], Phase(e.drains[d]), now), now)
  }

  function GrantsOf(e: State, d: DrainId): seq<Grant> {
    if d in e.exceptions then e.exceptions[d] else []
  }

  /** `grant_exception`: the only way to obtain further evacuation rounds. */
  function GrantException(e: State, d: DrainId, obligation: ObligationId, extension: int,
                          authority: AuthorityId, now: Time): Outcome {
    if !Au.Authorizes(e.authority, authority, now) || extension <= 0 || d !in e.drains
       || IsSettled(e.drains[d].state) || (obligation != 0 && obligation !in e.obligations)
    then Outcome(e, false)
    else if |GrantsOf(e, d)| >= e.policy.maxExtensions then
      Outcome(e.(exceptions := e.exceptions[d := GrantsOf(e, d)]), false)
    else Outcome(WithGrant(e, d, Grant(obligation, extension)), true)
  }

  function WithGrant(e: State, d: DrainId, grant: Grant): State
    requires d in e.drains
  {
    e.(exceptions := e.exceptions[d := GrantsOf(e, d) + [grant]],
       drains := e.drains[d := e.drains[d].(evacuationRequests := 0)])
  }

  function SetPolicy(e: State, p: Policy): State {
    e.(policy := p, evidence := e.evidence.(maxRecords := p.maxEvidence))
  }

  /** `install_authority_line`: a new line voids the tokens and quarantines the evidence. */
  function InstallLine(e: State, incarnation: nat, epoch: nat): Outcome {
    var installed := Au.InstallLine(e.authority, incarnation, epoch);
    if installed.None? then Outcome(e, false)
    else Outcome(e.(authority := installed.value, evidence := Ev.QuarantineAll(e.evidence)), true)
  }

  predicate IsTransient(s: DrainState) {
    s == Validating || IsHolding(s) || s == Restoring
  }

  function RecoverRecord(r: DrainRecord, now: Time): DrainRecord {
    if !IsTransient(r.state) then r
    else
      var moved := Transition(r, Blocked, now);
      if moved.None? then r
      else moved.value.(blockers := {Blocker(RestartRecoveryPending, OnDrain(r.id))})
  }

  /** Conservative recovery of a snapshot: evidence quarantined, authority
      revoked, transient drains blocked. */
  function Recover(e: State, now: Time): State {
    e.(evidence := Ev.QuarantineAll(e.evidence).(maxRecords := e.policy.maxEvidence),
       authority := Au.Reload(e.authority),
       drains := map d | d in e.drains :: RecoverRecord(e.drains[d], now))
  }

  // ---- Events --------------------------------------------------------------------------------------

  /** Operations on one drain. `digest` is the authoritative digest a completion
      would record; it is never zero. */
  datatype DrainOp =
    | CancelOp(authority: AuthorityId)
    | RestoreOp(authority: AuthorityId)
    | ResumeOp(authority: AuthorityId)
    | GrantOp(obligation: ObligationId, extension: int, authority: AuthorityId)
    | StepOp(digest: nat)

  /** Operations that touch neither drains, fence nor obligations. */
  datatype SetupOp =
    | RecordOp(observation: Ev.Observation)
    | AttestOp(key: Ev.EvidenceKey, number: EvidenceSeq)
    | FabricOp(change: To.FabricOp)
    | PolicyOp(policy: Policy)
    | LineOp(incarnation: nat, epoch: nat)
    | IncarnationOp(incarnation: nat)
    | IssueOp(scope: DomainId, validity: int)
    | RevokeOp(authority: AuthorityId)

  /** Every locked section of the engine. */
  datatype Event =
    | AdmitEvent(draft: Ob.Obligation, presented: Generation, authority: AuthorityId, now: Time)
    | ReportEvent(report: Report, now: Time)
    | RequestEvent(targets: seq<Target>, authority: AuthorityId, nonce: nat, now: Time)
    | DrainEvent(drain: DrainId, call: DrainOp, now: Time)
    | SetupEvent(setup: SetupOp, now: Time)

  function ApplyDrain(e: State, d: DrainId, op: DrainOp, now: Time): State
    requires d in e.drains
  {
    match op
    case CancelOp(authority) => Cancel(e, d, authority, now).state
    case RestoreOp(authority) => Restore(e, d, authority, now).state
    case ResumeOp(authority) => Resume(e, d, authority, now).state
    case GrantOp(o, extension, authority) => GrantException(e, d, o, extension, authority, now).state
    case StepOp(digest) => if digest != 0 then StepDrain(e, d, now, digest) else e
  }

  /** A setup operation moves the policy, the fabric, the ledger and the registry;
      a refusal leaves them as they are. */
  function ApplySetup(e: State, op: SetupOp, now: Time): State {
    e.(policy := if op.PolicyOp? then op.policy else e.policy,
       fabric := if op.FabricOp? then To.Apply(e.fabric, op.change) else e.fabric,
       evidence := NextEvidence(e, op, now),
       authority := NextAuthority(e.authority, op, now))
  }

  function NextEvidence(e: State, op: SetupOp, now: Time): Ev.Ledger {
    match op
    case RecordOp(o) => RecordEvidence(e, o, now).state.evidence
    case AttestOp(key, number) => AttestEvidence(e, key, number, now).state.evidence
    case PolicyOp(p) => SetPolicy(e, p).evidence
    case LineOp(incarnation, epoch) => InstallLine(e, incarnation, epoch).state.evidence
    case _ => e.evidence
  }

  function NextAuthority(reg: Au.Registry, op: SetupOp, now: Time): Au.Registry {
    match op
    case LineOp(incarnation, epoch) => Kept(reg, Au.InstallLine(reg, incarnation, epoch))
    case IncarnationOp(incarnation) => Kept(reg, Au.InstallIncarnation(reg, incarnation))
    case IssueOp(scope, validity) => Kept(reg, Au.Issue(reg, scope, now, validity))
    case RevokeOp(id) => Kept(reg, Au.Revoke(reg, id))
    case _ => reg
  }

  function Kept<T>(before: T, after: Option<T>): T {
    if after.Some? then after.value else before
  }

  function Apply(e: State, v: Event): State {
    match v
    case AdmitEvent(draft, presented, authority, now) => Admit(e, draft, presented, authority, now).state
    case ReportEvent(report, now) => ReportObligation(e, report, now).state
    case RequestEvent(ts, authority, nonce, now) => RequestSet(e, ts, authority, nonce, now).state
    case DrainEvent(d, op, now) => if d in e.drains then ApplyDrain(e, d, op, now) else e
    case SetupEvent(op, now) => ApplySetup(e, op, now)
  }

  function Ascending(ids: set<DrainId>): seq<DrainId> {
    if ids == {} then [] else [Min(ids)] + Ascending(ids - {Min(ids)})
  }

  /** A scheduling pass: the step events of the drains, one after the other. */
  function AfterPass(e: State, ids: seq<DrainId>, now: Time, digest: nat): State
    decreases |ids|
  {
    if ids == [] then e
    else Apply(AfterPass(e, ids[..|ids| - 1], now, digest), DrainEvent(ids[|ids| - 1], StepOp(digest), now))
  }

  function Empty(p: Policy): State {
    State(p, To.EMPTY, map[], 0, Ev.EMPTY.(maxRecords := p.maxEvidence), Au.EMPTY, map[], map[], map[], map[],
          map[], 0, 0)
  }
}
