/** What stops a drain at each stage, blocker by blocker, and what a step does when
    nothing does, told in the fields of the state. */
module EngineStages {
  import opened Identity
  import opened Lifecycle
  import opened Engine
  import Ob = Obligations
  import Ev = Evidence
  import Au = Authority
  import Ad = Admission
  import To = Topology

  // ---- Reading the state ----------------------------------------------------------------------

  /** Protected work that depends on the target and is not retired. */
  predicate Depends(e: State, t: Target, o: ObligationId) {
    && o in e.obligations && t in e.obligations[o].dependencies
    && e.obligations[o].isProtected && e.obligations[o].state != Ob.Retired
  }

  ghost predicate Busy(e: State, t: Target) {
    exists o :: Depends(e, t, o)
  }

  /** Such work that has not even begun to leave. */
  predicate Moves(e: State, t: Target, o: ObligationId) {
    Depends(e, t, o) && (e.obligations[o].state == Ob.Admitted || e.obligations[o].state == Ob.Evacuating)
  }

  ghost predicate Moving(e: State, t: Target) {
    exists o :: Moves(e, t, o)
  }

  lemma DependsIff(e: State, t: Target)
    ensures forall o :: o in Outstanding(e, t) <==> Depends(e, t, o)
    ensures Outstanding(e, t) == {} <==> !Busy(e, t)
    ensures SomeMoving(e, t) <==> Moving(e, t)
  {
    assert forall o :: o in Outstanding(e, t) <==> Depends(e, t, o);
    if Busy(e, t) {
      var o :| Depends(e, t, o);
      assert o in Outstanding(e, t);
    }
    if Moving(e, t) {
      var o :| Moves(e, t, o);
      assert o in Outstanding(e, t) && Ob.NeedsMoving(e.obligations[o]);
    }
    if SomeMoving(e, t) {
      var o :| o in Outstanding(e, t) && Ob.NeedsMoving(e.obligations[o]);
      assert Moves(e, t, o);
    }
  }

  predicate InService(e: State, id: ResourceId) {
    id in e.fabric.resources && e.fabric.resources[id].status == To.InService
  }

  predicate OverReserved(e: State, id: ResourceId) {
    id in e.fabric.resources && e.fabric.resources[id].reserved > e.fabric.resources[id].capacity
  }

  /** Taken out of service under a fence that this drain holds closed. */
  predicate TakenOutBy(e: State, r: DrainRecord) {
    && r.target.id in e.fabric.resources && e.fabric.resources[r.target.id].status == To.Unavailable
    && r.target in e.fence && e.fence[r.target].closed && e.fence[r.target].drain == r.id
  }

  /** Attested, of the live epoch, not from the future and not too old. */
  predicate IsLive(e: State, o: Ev.Observation, now: Time) {
    && o.attested && o.epoch == e.authority.epoch && o.observedAt <= SaturatingAdd(now, e.policy.skew)
    && e.policy.freshness > 0 && now <= SaturatingAdd(o.observedAt, e.policy.freshness)
  }

  lemma IsLiveIff(e: State, o: Ev.Observation, now: Time)
    ensures Ev.IsFresh(o, LineAt(e, now), e.policy.freshness) <==> IsLive(e, o, now)
  {
  }

  // ---- The removal of one resource --------------------------------------------------------------

  /** Why the fabric cannot spare one resource that is in service. */
  ghost predicate FabricObjects(e: State, id: ResourceId, b: Blocker) {
    && b.subject == OnCommitment
    && match b.code
       case CapacityInsufficient => OverReserved(e, id) || !To.AllCovered(e.fabric, {id}, e.policy.headroom)
       case PathDiversityViolation =>
         && !OverReserved(e, id) && To.AllCovered(e.fabric, {id}, e.policy.headroom)
         && !To.AllDiverse(e.fabric, {id})
       case AlternatePathLost =>
         && !OverReserved(e, id) && To.AllCovered(e.fabric, {id}, e.policy.headroom)
         && To.AllDiverse(e.fabric, {id}) && !To.RoutesHold(e.fabric, To.OutOfService(e.fabric) + {id})
       case _ => false
  }

  lemma FabricObjectsIff(e: State, id: ResourceId, b: Blocker)
    requires InService(e, id)
    ensures b in VerdictBlockers(To.Validate(e.fabric, {id}, e.policy.headroom)) <==> FabricObjects(e, id, b)
  {
    var f, h := e.fabric, e.policy.headroom;
    var verdict := To.Validate(f, {id}, h);
    assert To.Named(f, {id}) <==> !OverReserved(e, id);
    To.ValidateJudges(f, {id}, h);
    SeveredIff(f, id, h, verdict);
    VerdictObjects(verdict, b);
  }

  lemma SeveredIff(f: To.Fabric, id: ResourceId, h: To.Headroom, verdict: To.Verdict)
    requires id in f.resources && verdict == To.Validate(f, {id}, h)
    ensures verdict != To.UnknownResource
    ensures verdict == To.RouteSevered <==>
              && f.resources[id].reserved <= f.resources[id].capacity && To.AllCovered(f, {id}, h)
              && To.AllDiverse(f, {id}) && !To.RoutesHold(f, To.OutOfService(f) + {id})
  {
    To.PoolsHoldIff(f, {id}, h);
    To.GroupsHoldIff(f, {id});
    var bad := set x | x in {id} && To.Objectionable(f, x);
    if To.Objectionable(f, id) {
      assert bad == {id};
    } else {
      assert bad == {};
    }
  }

  lemma VerdictObjects(verdict: To.Verdict, b: Blocker)
    requires verdict != To.UnknownResource
    ensures b in VerdictBlockers(verdict) <==>
              && b.subject == OnCommitment
              && match b.code
                 case CapacityInsufficient => verdict == To.ReservationOverCapacity || verdict == To.PoolExhausted
                 case PathDiversityViolation => verdict == To.DiversityLost
                 case AlternatePathLost => verdict == To.RouteSevered
                 case _ => false
  {
  }

  // ---- Validating -----------------------------------------------------------------------------------

  /** The smallest drain of the domain that still waits to close admission comes first. */
  ghost predicate WaitsFor(e: State, r: DrainRecord, x: DrainId) {
    && x in e.drains && x < r.id && e.drains[x].target.domain == r.target.domain && IsWaiting(e.drains[x])
    && forall y :: y in e.drains && y != r.id ==>
         e.drains[y].target.domain == r.target.domain && IsWaiting(e.drains[y]) ==> x <= y
  }

  predicate UnsettledPeer(e: State, r: DrainRecord, x: DrainId) {
    x in e.drains && e.drains[x].target.domain == r.target.domain && !IsSettled(e.drains[x].state)
  }

  /** The first member listed before the drain that is unsettled in its domain. */
  ghost predicate FirstBefore(e: State, r: DrainRecord, members: seq<DrainId>, k: nat, x: DrainId) {
    && k < |members| && members[k] == x && UnsettledPeer(e, r, x)
    && (forall j :: 0 <= j <= k ==> members[j] != r.id)
    && (forall j :: 0 <= j < k ==> !UnsettledPeer(e, r, members[j]))
  }

  lemma {:induction false} UnsettledBeforeIff(e: State, r: DrainRecord, members: seq<DrainId>, x: DrainId)
    ensures UnsettledBefore(e, r, members) == Some(x) <==> exists k: nat :: FirstBefore(e, r, members, k, x)
    decreases |members|
  {
    if members != [] && members[0] != r.id {
      if UnsettledPeer(e, r, members[0]) {
        assert FirstBefore(e, r, members, 0, members[0]);
      } else {
        UnsettledBeforeIff(e, r, members[1..], x);
        ShiftFirst(e, r, members, x);
      }
    }
  }

  lemma ShiftFirst(e: State, r: DrainRecord, members: seq<DrainId>, x: DrainId)
    requires members != [] && members[0] != r.id && !UnsettledPeer(e, r, members[0])
    ensures (exists k: nat :: FirstBefore(e, r, members[1..], k, x)) <==>
            (exists k: nat :: FirstBefore(e, r, members, k, x))
  {
    var rest := members[1..];
    if k: nat :| FirstBefore(e, r, rest, k, x) {
      forall j | 0 <= j <= k + 1 ensures members[j] != r.id {
        assert j > 0 ==> members[j] == rest[j - 1];
      }
      forall j | 0 <= j < k + 1 ensures !UnsettledPeer(e, r, members[j]) {
        assert j > 0 ==> members[j] == rest[j - 1];
      }
      assert FirstBefore(e, r, members, k + 1, x);
    }
    if k: nat :| FirstBefore(e, r, members, k, x) {
      assert k > 0;
      assert forall j :: 0 <= j < |rest| ==> rest[j] == members[j + 1];
      assert FirstBefore(e, r, rest, k - 1, x);
    }
  }

  /** The earlier member of the drain's own set that it is to follow, when sets are
      worked off one drain at a time in each domain. */
  ghost predicate FollowsInSet(e: State, r: DrainRecord, x: DrainId) {
    && r.set_ != 0 && e.policy.serializeSameDomain && r.set_ in e.sets
    && exists k: nat :: FirstBefore(e, r, e.sets[r.set_].members, k, x)
  }

  ghost function Holders(e: State, r: DrainRecord): set<DrainId> {
    set d | d in e.drains && d != r.id && e.drains[d].target.domain == r.target.domain && IsHolding(Phase(e.drains[d]))
  }

  /** The token of the request is missing, or is of the live incarnation and no longer
      accepted. */
  predicate TokenObjects(e: State, r: DrainRecord, now: Time) {
    r.authority == 0
    || (r.authority in e.authority.tokens
        && e.authority.tokens[r.authority].incarnation == e.authority.incarnation
        && !Au.Authorizes(e.authority, r.authority, now))
  }

  /** Why a drain cannot close admission yet. */
  ghost predicate StartObjects(e: State, r: DrainRecord, now: Time, b: Blocker) {
    match b.code
    case AuthorityInvalid => b.subject == OnAuthority(r.authority) && TokenObjects(e, r, now)
    case GenerationSuperseded =>
      && b.subject == OnTarget(r.target)
      && r.target in e.fence && e.fence[r.target].closed && e.fence[r.target].drain != r.id
    case TopologyInconsistent => b.subject == OnTarget(r.target) && !InService(e, r.target.id)
    case DomainLimitReached =>
      b.subject == OnDomain(r.target.domain) && |Holders(e, r)| >= e.policy.maxPerDomain
    case SetPredecessorPending =>
      b.subject.OnDrain? && (WaitsFor(e, r, b.subject.drain) || FollowsInSet(e, r, b.subject.drain))
    case _ => InService(e, r.target.id) && FabricObjects(e, r.target.id, b)
  }

  lemma OrderBlockersIff(e: State, r: DrainRecord, b: Blocker)
    ensures b in OrderBlockers(e, r) <==>
              b.code == SetPredecessorPending && b.subject.OnDrain? && WaitsFor(e, r, b.subject.drain)
  {
    var waiting := OthersWaiting(e, r);
    if waiting != {} && Min(waiting) < r.id {
      forall y | y in e.drains && y != r.id && e.drains[y].target.domain == r.target.domain && IsWaiting(e.drains[y])
        ensures Min(waiting) <= y
      {
        assert y in waiting;
      }
      assert WaitsFor(e, r, Min(waiting));
    }
    if b.subject.OnDrain? && WaitsFor(e, r, b.subject.drain) {
      assert b.subject.drain in waiting && Min(waiting) in waiting;
      assert Min(waiting) == b.subject.drain;
    }
  }

  lemma SetBlockersIff(e: State, r: DrainRecord, b: Blocker)
    ensures b in SetBlockers(e, r) <==>
              b.code == SetPredecessorPending && b.subject.OnDrain? && FollowsInSet(e, r, b.subject.drain)
  {
    if r.set_ in e.sets {
      if b.subject.OnDrain? {
        UnsettledBeforeIff(e, r, e.sets[r.set_].members, b.subject.drain);
      }
    }
  }

  lemma HoldersAre(e: State, r: DrainRecord)
    ensures OthersHolding(e, r) == Holders(e, r)
  {
  }

  /** The blockers found at the start are exactly these. */
  lemma StartBlockersIff(e: State, r: DrainRecord, now: Time, b: Blocker)
    ensures b in StartBlockers(e, r, now) <==> StartObjects(e, r, now, b)
  {
    OrderBlockersIff(e, r, b);
    SetBlockersIff(e, r, b);
    FabricPartIff(e, r, b);
    var fabric := FabricPart(e, r);
    StartUnion(e, r, now, b, fabric);
    StartByCode(e, r, now, b, b in fabric);
  }

  /** The objections side by side instead of by code. */
  lemma StartByCode(e: State, r: DrainRecord, now: Time, b: Blocker, spared: bool)
    requires spared <==> InService(e, r.target.id) && FabricObjects(e, r.target.id, b)
    ensures StartObjects(e, r, now, b) <==>
              || (b == Blocker(AuthorityInvalid, OnAuthority(r.authority)) && AuthorityObjects(e, r, now))
              || (b == Blocker(GenerationSuperseded, OnTarget(r.target)) && ForeignFence(e, r))
              || (b == Blocker(TopologyInconsistent, OnTarget(r.target)) && !To.Serves(e.fabric, r.target.id))
              || (b == Blocker(DomainLimitReached, OnDomain(r.target.domain))
                  && |OthersHolding(e, r)| >= e.policy.maxPerDomain)
              || (b.code == SetPredecessorPending && b.subject.OnDrain? && WaitsFor(e, r, b.subject.drain))
              || (b.code == SetPredecessorPending && b.subject.OnDrain? && FollowsInSet(e, r, b.subject.drain))
              || spared
  {
    HoldersAre(e, r);
  }

  function FabricPart(e: State, r: DrainRecord): set<Blocker> {
    if To.Serves(e.fabric, r.target.id)
    then VerdictBlockers(To.Validate(e.fabric, {r.target.id}, e.policy.headroom)) else {}
  }

  lemma FabricPartIff(e: State, r: DrainRecord, b: Blocker)
    ensures b in FabricPart(e, r) <==> InService(e, r.target.id) && FabricObjects(e, r.target.id, b)
  {
    if InService(e, r.target.id) {
      FabricObjectsIff(e, r.target.id, b);
    }
  }

  lemma StartUnion(e: State, r: DrainRecord, now: Time, b: Blocker, fabric: set<Blocker>)
    requires fabric == FabricPart(e, r)
    ensures b in StartBlockers(e, r, now) <==>
              || (b == Blocker(AuthorityInvalid, OnAuthority(r.authority)) && AuthorityObjects(e, r, now))
              || (b == Blocker(GenerationSuperseded, OnTarget(r.target)) && ForeignFence(e, r))
              || (b == Blocker(TopologyInconsistent, OnTarget(r.target)) && !To.Serves(e.fabric, r.target.id))
              || (b == Blocker(DomainLimitReached, OnDomain(r.target.domain))
                  && |OthersHolding(e, r)| >= e.policy.maxPerDomain)
              || b in OrderBlockers(e, r) || b in SetBlockers(e, r) || b in fabric
  {
    SevenParts(b, AuthorityObjects(e, r, now), AuthorityInvalid, OnAuthority(r.authority), ForeignFence(e, r),
               GenerationSuperseded, OnTarget(r.target), !To.Serves(e.fabric, r.target.id), TopologyInconsistent,
               OnTarget(r.target), |OthersHolding(e, r)| >= e.policy.maxPerDomain, DomainLimitReached,
               OnDomain(r.target.domain), OrderBlockers(e, r), SetBlockers(e, r), fabric);
  }

  lemma SevenParts(b: Blocker, c1: bool, k1: BlockerCode, s1: Subject, c2: bool, k2: BlockerCode, s2: Subject,
                   c3: bool, k3: BlockerCode, s3: Subject, c4: bool, k4: BlockerCode, s4: Subject,
                   order: set<Blocker>, set_: set<Blocker>, fabric: set<Blocker>)
    ensures b in One(c1, k1, s1) + One(c2, k2, s2) + One(c3, k3, s3) + One(c4, k4, s4) + order + set_ + fabric <==>
              || (b == Blocker(k1, s1) && c1) || (b == Blocker(k2, s2) && c2) || (b == Blocker(k3, s3) && c3)
              || (b == Blocker(k4, s4) && c4) || b in order || b in set_ || b in fabric
  {
  }

  // ---- Evacuating -------------------------------------------------------------------------------------

  /** An obligation's own grace comes first, then that of its kind, then the default. */
  lemma GraceOrder(p: Policy, o: Ob.Obligation)
    ensures o.grace != 0 ==> GraceFor(p, o) == o.grace
    ensures o.grace == 0 && o.kind in p.kindGrace && p.kindGrace[o.kind] != 0 ==> GraceFor(p, o) == p.kindGrace[o.kind]
    ensures o.grace == 0 && (o.kind !in p.kindGrace || p.kindGrace[o.kind] == 0) ==> GraceFor(p, o) == p.defaultGrace
  {
  }

  /** The extensions granted for one obligation: its own and those for all. */
  ghost function Granted(grants: seq<Grant>, o: ObligationId): int {
    if grants == [] then 0
    else
      var g := grants[|grants| - 1];
      Granted(grants[..|grants| - 1], o) + if g.obligation == 0 || g.obligation == o then g.extension else 0
  }

  lemma {:induction false} GrantedFront(grants: seq<Grant>, o: ObligationId)
    requires grants != []
    ensures Granted(grants, o)
         == (if grants[0].obligation == 0 || grants[0].obligation == o then grants[0].extension else 0)
            + Granted(grants[1..], o)
    decreases |grants|
  {
    if |grants| > 1 {
      var n := |grants| - 1;
      GrantedFront(grants[..n], o);
      assert grants[..n][1..] == grants[1..][..n - 1];
    }
  }

  ghost predicate Positive(grants: seq<Grant>) {
    forall i :: 0 <= i < |grants| ==> grants[i].extension > 0
  }

  lemma {:induction false} ExtendedIs(deadline: Time, grants: seq<Grant>, o: ObligationId)
    requires Positive(grants) && I64_MIN <= deadline <= I64_MAX
    ensures Granted(grants, o) >= 0
    ensures Extended(deadline, grants, o) == SaturatingAdd(deadline, Granted(grants, o))
    decreases |grants|
  {
    if grants != [] {
      GrantedFront(grants, o);
      var applies := grants[0].obligation == 0 || grants[0].obligation == o;
      ExtendedIs(if applies then SaturatingAdd(deadline, grants[0].extension) else deadline, grants[1..], o);
    }
  }

  /** The deadline is admission, plus the grace, plus all that was granted. */
  lemma DeadlineIs(e: State, r: DrainRecord, o: ObligationId)
    requires o in e.obligations && Positive(GrantsOf(e, r.id))
    ensures GraceDeadline(e, r, o)
         == SaturatingAdd(SaturatingAdd(e.obligations[o].admittedAt, GraceFor(e.policy, e.obligations[o])),
                          Granted(GrantsOf(e, r.id), o))
  {
    ExtendedIs(SaturatingAdd(e.obligations[o].admittedAt, GraceFor(e.policy, e.obligations[o])), GrantsOf(e, r.id), o);
  }

  /** Why an evacuation cannot go on. */
  ghost predicate EvacuationObjects(e: State, r: DrainRecord, now: Time, b: Blocker) {
    match b.code
    case ObligationFailed =>
      && b.subject.OnObligation? && Depends(e, r.target, b.subject.obligation)
      && e.obligations[b.subject.obligation].state == Ob.Failed
    case ObligationGraceExpired =>
      && b.subject.OnObligation? && Depends(e, r.target, b.subject.obligation)
      && e.obligations[b.subject.obligation].state != Ob.Failed
      && now > GraceDeadline(e, r, b.subject.obligation)
    case EvacuationAttemptsExhausted =>
      b.subject == OnDrain(r.id) && Moving(e, r.target) && r.evacuationRequests >= e.policy.maxAttempts
    case _ => false
  }

  lemma EvacuationBlockersIff(e: State, r: DrainRecord, now: Time, b: Blocker)
    ensures b in EvacuationBlockers(e, r, now) <==> EvacuationObjects(e, r, now, b)
  {
    DependsIff(e, r.target);
  }

  // ---- Quiescing ----------------------------------------------------------------------------------------

  /** The observation an obligation's release rests on for this drain. */
  function ReleaseRecord(r: DrainRecord, o: ObligationId, number: EvidenceSeq): Ev.RecordKey {
    Ev.RecordKey(Ev.EvidenceKey(Ev.ObligationReleased, r.id, o, ""), number)
  }

  /** The obligation rests, but its release is not proved: why. */
  predicate ReleaseObjects(e: State, r: DrainRecord, o: ObligationId, now: Time, code: BlockerCode)
    requires o in e.obligations
  {
    var rk := ReleaseRecord(r, o, e.obligations[o].releaseEvidence);
    var known := e.obligations[o].releaseEvidence != 0 && rk in e.evidence.records;
    match code
    case ReleaseEvidenceMissing => !known
    case ReleaseEvidenceStale =>
      known && (!IsLive(e, e.evidence.records[rk], now)
                || (e.evidence.records[rk].generation == r.generation
                    && e.evidence.records[rk].observedAt < r.admissionClosedAt))
    case GenerationSuperseded =>
      known && IsLive(e, e.evidence.records[rk], now) && e.evidence.records[rk].generation != r.generation
    case _ => false
  }

  /** What holds one outstanding obligation back, by the state it is in. */
  ghost predicate Withholds(e: State, r: DrainRecord, o: ObligationId, now: Time, code: BlockerCode)
    requires o in e.obligations
  {
    match e.obligations[o].state
    case Admitted => code == ProtectedObligationActive
    case Evacuating => code == ProtectedObligationActive
    case Failed => code == ObligationFailed
    case _ => ReleaseObjects(e, r, o, now, code)
  }

  lemma WithholdsIff(e: State, r: DrainRecord, o: ObligationId, now: Time, code: BlockerCode)
    requires Depends(e, r.target, o)
    ensures ReleaseObjection(e, r, o, now) == Some(code) <==> Withholds(e, r, o, now, code)
  {
    var number := e.obligations[o].releaseEvidence;
    if Ev.Find(e.evidence, ReleaseKey(r.id, o), number).Some? {
      IsLiveIff(e, e.evidence.records[ReleaseRecord(r, o, number)], now);
    }
  }

  /** Why the target itself cannot be taken out. */
  ghost predicate RemovalObjects(e: State, r: DrainRecord, b: Blocker) {
    if InService(e, r.target.id) then FabricObjects(e, r.target.id, b)
    else b == Blocker(TopologyInconsistent, OnTarget(r.target)) && !TakenOutBy(e, r)
  }

  lemma RemovalBlockersIff(e: State, r: DrainRecord, b: Blocker)
    ensures b in RemovalBlockers(e, r) <==> RemovalObjects(e, r, b)
  {
    if InService(e, r.target.id) {
      FabricObjectsIff(e, r.target.id, b);
    }
  }

  /** Why a quiescing drain cannot go on: while anything is outstanding its releases are
      the question, and after that the removal. */
  ghost predicate QuiescenceObjects(e: State, r: DrainRecord, now: Time, b: Blocker) {
    if Busy(e, r.target) then
      && b.subject.OnObligation? && Depends(e, r.target, b.subject.obligation)
      && Withholds(e, r, b.subject.obligation, now, b.code)
    else RemovalObjects(e, r, b)
  }

  lemma ReleaseBlockersIff(e: State, r: DrainRecord, now: Time, b: Blocker)
    ensures b in ReleaseBlockers(e, r, now) <==>
              && b.subject.OnObligation? && Depends(e, r.target, b.subject.obligation)
              && Withholds(e, r, b.subject.obligation, now, b.code)
  {
    DependsIff(e, r.target);
    if b.subject.OnObligation? && Depends(e, r.target, b.subject.obligation) {
      WithholdsIff(e, r, b.subject.obligation, now, b.code);
    }
  }

  lemma QuiescenceBlockersIff(e: State, r: DrainRecord, now: Time, b: Blocker)
    ensures b in QuiescenceBlockers(e, r, now) <==> QuiescenceObjects(e, r, now, b)
  {
    DependsIff(e, r.target);
    ReleaseBlockersIff(e, r, now, b);
    RemovalBlockersIff(e, r, b);
    if Busy(e, r.target) {
      var o :| Depends(e, r.target, o);
      assert o in Outstanding(e, r.target);
      if ReleaseObjection(e, r, o, now).Some? {
        assert Blocker(ReleaseObjection(e, r, o, now).value, OnObligation(o)) in ReleaseBlockers(e, r, now);
      } else {
        assert o in Retirable(e, r, now);
      }
    }
  }

  // ---- Verifying -------------------------------------------------------------------------------------------

  /** The stream of removal observations of one drain. */
  function RemovalStream(r: DrainRecord): Ev.EvidenceKey {
    Ev.EvidenceKey(Ev.ResourceRemoved, r.id, 0, r.target.id)
  }

  /** The newest of them, when it is there and live. */
  predicate Observed(e: State, r: DrainRecord, now: Time, o: Ev.Observation) {
    && RemovalStream(r) in e.evidence.latest
    && Ev.RecordKey(RemovalStream(r), e.evidence.latest[RemovalStream(r)]) in e.evidence.records
    && o == e.evidence.records[Ev.RecordKey(RemovalStream(r), e.evidence.latest[RemovalStream(r)])]
    && IsLive(e, o, now)
  }

  lemma ObservedIff(e: State, r: DrainRecord, now: Time, o: Ev.Observation)
    ensures RemovalEvidence(e, r, now) == Some(o) <==> Observed(e, r, now, o)
  {
    if Ev.Latest(e.evidence, RemovalStream(r)).Some? {
      IsLiveIff(e, Ev.Latest(e.evidence, RemovalStream(r)).value, now);
    }
  }

  /** Why a removal is not proved. */
  ghost predicate VerificationObjects(e: State, r: DrainRecord, now: Time, b: Blocker) {
    if Busy(e, r.target) then
      b.code == ProtectedObligationActive && b.subject.OnObligation? && Depends(e, r.target, b.subject.obligation)
    else if b.code == TopologyInconsistent then b.subject == OnTarget(r.target) && !TakenOutBy(e, r)
    else
      && e.policy.requireQuiescence && b.subject == OnEvidence(RemovalStream(r))
      && match b.code
         case QuiescenceEvidenceMissing => !exists o :: Observed(e, r, now, o)
         case GenerationSuperseded => exists o :: Observed(e, r, now, o) && o.generation != r.generation
         case ReleaseEvidenceStale =>
           exists o :: Observed(e, r, now, o) && o.generation == r.generation && o.observedAt < r.admissionClosedAt
         case _ => false
  }

  lemma VerificationBlockersIff(e: State, r: DrainRecord, now: Time, b: Blocker)
    ensures b in VerificationBlockers(e, r, now) <==> VerificationObjects(e, r, now, b)
  {
    DependsIff(e, r.target);
    forall o ensures RemovalEvidence(e, r, now) == Some(o) <==> Observed(e, r, now, o) {
      ObservedIff(e, r, now, o);
    }
    if RemovalEvidence(e, r, now).Some? {
      assert Observed(e, r, now, RemovalEvidence(e, r, now).value);
    }
  }

  // ---- Every stage ---------------------------------------------------------------------------------------------

  /** What stops a drain that stands at, or is held at, a stage. */
  ghost predicate Objects(e: State, r: DrainRecord, s: DrainState, now: Time, b: Blocker) {
    match s
    case Requested => StartObjects(e, r, now, b)
    case Validating => StartObjects(e, r, now, b)
    case Evacuating => EvacuationObjects(e, r, now, b)
    case Quiescing => QuiescenceObjects(e, r, now, b)
    case Verifying => VerificationObjects(e, r, now, b)
    case _ => false
  }

  /** An evaluation reports a blocker exactly when its stage has that objection. */
  lemma StateBlockersIff(e: State, r: DrainRecord, s: DrainState, now: Time, b: Blocker)
    ensures b in StateBlockers(e, r, s, now) <==> Objects(e, r, s, now, b)
  {
    match s
    case Requested => StartBlockersIff(e, r, now, b);
    case Validating => StartBlockersIff(e, r, now, b);
    case Evacuating => EvacuationBlockersIff(e, r, now, b);
    case Quiescing => QuiescenceBlockersIff(e, r, now, b);
    case Verifying => VerificationBlockersIff(e, r, now, b);
    case _ =>
  }
}
