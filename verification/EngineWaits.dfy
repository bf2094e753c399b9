/** Waits among drains: every recorded wait names a smaller drain number, so in
    no reachable state do waits form a cycle. */
module EngineWaits {
  import opened Identity
  import opened Lifecycle
  import opened Engine
  import opened EngineInvariant
  import opened EngineSteps
  import opened EngineOperations
  import opened EngineGuards
  import opened EngineRuns
  import Ad = Admission
  import To = Topology

  predicate PointsBack(b: Blocker, d: DrainId) {
    b.code == SetPredecessorPending ==> b.subject.OnDrain? && b.subject.drain < d
  }

  /** Every wait in the set is for a drain numbered below d. */
  ghost predicate Backward(blockers: set<Blocker>, d: DrainId) {
    forall b :: b in blockers ==> PointsBack(b, d)
  }

  // ---- What the evaluations name -------------------------------------------------------

  lemma OrderPointsBack(e: State, r: DrainRecord)
    ensures Backward(OrderBlockers(e, r), r.id)
  {
  }

  /** Before a member of an increasing list come only smaller numbers. */
  lemma {:induction false} UnsettledIsSmaller(e: State, r: DrainRecord, members: seq<DrainId>)
    requires Increasing(members) && r.id in members
    ensures UnsettledBefore(e, r, members).Some? ==> UnsettledBefore(e, r, members).value < r.id
    decreases |members|
  {
    if members[0] != r.id {
      assert members[0] < r.id by {
        var k :| 0 <= k < |members| && members[k] == r.id;
      }
      assert r.id in members[1..];
      UnsettledIsSmaller(e, r, members[1..]);
    }
  }

  lemma SetPointsBack(e: State, r: DrainRecord)
    requires SetsOk(e) && Enrolled(e.sets, r.id, r)
    ensures Backward(SetBlockers(e, r), r.id)
  {
    UnsettledIsSmaller(e, r, e.sets[r.set_].members);
  }

  lemma VerdictPointsBack(verdict: To.Verdict, d: DrainId)
    ensures Backward(VerdictBlockers(verdict), d)
  {
  }

  lemma UnionPointsBack(a: set<Blocker>, b: set<Blocker>, d: DrainId)
    requires Backward(a, d) && Backward(b, d)
    ensures Backward(a + b, d)
  {
  }

  lemma FourPointBack(a: bool, b: bool, c: bool, full: bool, r: DrainRecord)
    ensures Backward(One(a, AuthorityInvalid, OnAuthority(r.authority))
                     + One(b, GenerationSuperseded, OnTarget(r.target))
                     + One(c, TopologyInconsistent, OnTarget(r.target))
                     + One(full, DomainLimitReached, OnDomain(r.target.domain)), r.id)
  {
  }

  lemma StartPointsBack(e: State, r: DrainRecord, now: Time)
    requires SetsOk(e) && Enrolled(e.sets, r.id, r)
    ensures Backward(StartBlockers(e, r, now), r.id)
  {
    var serves := To.Serves(e.fabric, r.target.id);
    var full := |OthersHolding(e, r)| >= e.policy.maxPerDomain;
    var plain := One(AuthorityObjects(e, r, now), AuthorityInvalid, OnAuthority(r.authority))
               + One(ForeignFence(e, r), GenerationSuperseded, OnTarget(r.target))
               + One(!serves, TopologyInconsistent, OnTarget(r.target))
               + One(full, DomainLimitReached, OnDomain(r.target.domain));
    FourPointBack(AuthorityObjects(e, r, now), ForeignFence(e, r), !serves, full, r);
    OrderPointsBack(e, r);
    SetPointsBack(e, r);
    var verdict := if serves then VerdictBlockers(To.Validate(e.fabric, {r.target.id}, e.policy.headroom)) else {};
    VerdictPointsBack(To.Validate(e.fabric, {r.target.id}, e.policy.headroom), r.id);
    UnionPointsBack(plain, OrderBlockers(e, r), r.id);
    UnionPointsBack(plain + OrderBlockers(e, r), SetBlockers(e, r), r.id);
    UnionPointsBack(plain + OrderBlockers(e, r) + SetBlockers(e, r), verdict, r.id);
  }

  lemma ReleasePointsBack(e: State, r: DrainRecord, now: Time)
    ensures Backward(ReleaseBlockers(e, r, now), r.id)
  {
    forall b | b in ReleaseBlockers(e, r, now) ensures b.code != SetPredecessorPending {
      var o :| o in Outstanding(e, r.target) && ReleaseObjection(e, r, o, now).Some?
               && b == Blocker(ReleaseObjection(e, r, o, now).value, OnObligation(o));
    }
  }

  lemma RemovalPointsBack(e: State, r: DrainRecord)
    ensures Backward(RemovalBlockers(e, r), r.id)
  {
    VerdictPointsBack(To.Validate(e.fabric, {r.target.id}, e.policy.headroom), r.id);
  }

  lemma QuiescencePointsBack(e: State, r: DrainRecord, now: Time)
    ensures Backward(QuiescenceBlockers(e, r, now), r.id)
  {
    ReleasePointsBack(e, r, now);
    RemovalPointsBack(e, r);
  }

  lemma EvacuationPointsBack(e: State, r: DrainRecord, now: Time)
    ensures Backward(EvacuationBlockers(e, r, now), r.id)
  {
  }

  lemma VerificationPointsBack(e: State, r: DrainRecord, now: Time)
    ensures Backward(VerificationBlockers(e, r, now), r.id)
  {
  }

  lemma StatePointsBack(e: State, r: DrainRecord, s: DrainState, now: Time)
    requires SetsOk(e) && Enrolled(e.sets, r.id, r)
    ensures Backward(StateBlockers(e, r, s, now), r.id)
  {
    match s
    case Requested => StartPointsBack(e, r, now);
    case Validating => StartPointsBack(e, r, now);
    case Evacuating => EvacuationPointsBack(e, r, now);
    case Quiescing => QuiescencePointsBack(e, r, now);
    case Verifying => VerificationPointsBack(e, r, now);
    case _ =>
  }

  // ---- What a step records -----------------------------------------------------------------

  /** What the branch lemmas start from. */
  ghost predicate Sound(e: State, d: DrainId) {
    && d in e.drains && e.drains[d].id == d && SetsOk(e) && Enrolled(e.sets, d, e.drains[d])
    && Backward(e.drains[d].blockers, d)
  }

  ghost predicate RecordsBack(e: State, d: DrainId) {
    d in e.drains && Backward(e.drains[d].blockers, d)
  }

  lemma MovePointsBack(e: State, d: DrainId, next: DrainState, now: Time)
    requires RecordsBack(e, d)
    ensures RecordsBack(Move(e, d, next, now), d)
  {
    MoveFrame(e, d, next, now);
  }

  lemma BlockPointsBack(e: State, d: DrainId, blockers: set<Blocker>, now: Time)
    requires d in e.drains && Backward(blockers, d)
    ensures RecordsBack(EnterBlocked(e, d, blockers, now), d)
  {
    BlockFrame(e, d, blockers, now);
  }

  lemma ValidatingPointsBack(e: State, d: DrainId, now: Time)
    requires Sound(e, d)
    ensures RecordsBack(ActValidating(e, d, now), d)
  {
    StartPointsBack(e, e.drains[d], now);
    BlockPointsBack(e, d, StartBlockers(e, e.drains[d], now), now);
    ClosePointsBack(e, d, now);
  }

  lemma ClosePointsBack(e: State, d: DrainId, now: Time)
    requires Sound(e, d)
    ensures RecordsBack(CloseAdmission(e, d, now), d)
  {
    var r := e.drains[d];
    var closed := Ad.Close(e.fence, r.target, d);
    var e1 := e.(fence := closed.fence);
    BlockPointsBack(e1, d, {Blocker(AdmissionFenceMissing, OnTarget(r.target))}, now);
    if closed.generation.Some? {
      MovePointsBack(Put(e1, d, r.(generation := closed.generation.value)), d, AdmissionClosed, now);
    }
  }

  lemma EvacuatingPointsBack(e: State, d: DrainId, now: Time)
    requires Sound(e, d)
    ensures RecordsBack(ActEvacuating(e, d, now), d)
  {
    MovePointsBack(e, d, Quiescing, now);
    EvacuationPointsBack(e, e.drains[d], now);
    BlockPointsBack(e, d, EvacuationBlockers(e, e.drains[d], now), now);
  }

  lemma FinishPointsBack(e: State, d: DrainId, now: Time)
    requires RecordsBack(e, d)
    ensures RecordsBack(FinishRemoval(e, d, now), d)
  {
    var observed := ObserveRemoval(e, d, now);
    BlockPointsBack(e, d, {Blocker(QuiescenceEvidenceMissing, OnEvidence(RemovalKey(e.drains[d])))}, now);
    if observed.Some? {
      ObserveEffect(e, d, now);
      MovePointsBack(observed.value, d, Verifying, now);
    }
  }

  lemma QuiescingPointsBack(e: State, d: DrainId, now: Time)
    requires Sound(e, d)
    ensures RecordsBack(ActQuiescing(e, d, now), d)
  {
    var r := e.drains[d];
    MovePointsBack(e, d, Evacuating, now);
    QuiescencePointsBack(e, r, now);
    BlockPointsBack(e, d, QuiescenceBlockers(e, r, now), now);
    RemovePointsBack(e, d, now);
  }

  lemma RemovePointsBack(e: State, d: DrainId, now: Time)
    requires Sound(e, d)
    ensures RecordsBack(Remove(e, d, now), d)
  {
    var r := e.drains[d];
    RemovalPointsBack(e, r);
    BlockPointsBack(e, d, RemovalBlockers(e, r), now);
    FinishPointsBack(TakenOut(e, r.target.id), d, now);
  }

  lemma VerifyingPointsBack(e: State, d: DrainId, now: Time, digest: nat)
    requires Sound(e, d)
    ensures RecordsBack(ActVerifying(e, d, now, digest), d)
  {
    var r := e.drains[d];
    var e1 := if VerificationBlockers(e, r, now) == {} then e else Reobserve(e, d, now);
    ReobserveEffect(e, d, now);
    VerificationPointsBack(e1, r, now);
    BlockPointsBack(e1, d, VerificationBlockers(e1, r, now), now);
    CompletePointsBack(e1, d, now, digest);
  }

  lemma CompletePointsBack(e: State, d: DrainId, now: Time, digest: nat)
    requires RecordsBack(e, d)
    ensures RecordsBack(Complete(e, d, now, digest), d)
  {
    var r := e.drains[d];
    BlockPointsBack(e, d, {Blocker(ProtectedObligationActive, OnTarget(r.target))}, now);
    var completed := RecordCompletion(r, now, |Outstanding(e, r.target)|, digest, CompletionProof(e, r, now));
    if completed.Some? {
      MovePointsBack(Put(e, d, completed.value), d, Drained, now);
    }
  }

  lemma RestoringPointsBack(e: State, d: DrainId, now: Time)
    requires Sound(e, d)
    ensures RecordsBack(ActRestoring(e, d, now), d)
  {
    var r := e.drains[d];
    var e1 := if RemovalOwned(e, r) then e.(fabric := To.SetStatus(e.fabric, r.target.id, To.InService)) else e;
    BlockPointsBack(e1, d, {Blocker(GenerationSuperseded, OnTarget(r.target))}, now);
  }

  lemma ActPointsBack(e: State, d: DrainId, now: Time, digest: nat)
    requires Sound(e, d)
    ensures RecordsBack(Act(e, d, now, digest), d)
  {
    match e.drains[d].state
    case Requested => MovePointsBack(e, d, Validating, now);
    case Validating => ValidatingPointsBack(e, d, now);
    case AdmissionClosed => MovePointsBack(e, d, Quiescing, now); MovePointsBack(e, d, Evacuating, now);
    case Evacuating => EvacuatingPointsBack(e, d, now);
    case Quiescing => QuiescingPointsBack(e, d, now);
    case Verifying => VerifyingPointsBack(e, d, now, digest);
    case Restoring => RestoringPointsBack(e, d, now);
    case _ =>
  }

  lemma JudgedPointsBack(e: State, d: DrainId, blockers: set<Blocker>, now: Time)
    requires RecordsBack(e, d) && Backward(blockers, d)
    ensures RecordsBack(Judged(e, d, blockers, now).state, d)
  {
    BlockPointsBack(e, d, blockers, now);
  }

  lemma StepPointsBack(e: State, d: DrainId, now: Time, digest: nat)
    requires Sound(e, d) && Ready(e, d)
    ensures RecordsBack(StepDrain(e, d, now, digest), d)
  {
    if e.drains[d].state != Blocked {
      ActPointsBack(e, d, now, digest);
    } else {
      var r := e.drains[d];
      var e1 := Refreshed(e, d, now);
      RefreshedEffect(e, d, now);
      var blockers := StateBlockers(e1, r, Phase(r), now);
      StatePointsBack(e1, r, Phase(r), now);
      JudgedPointsBack(e1, d, blockers, now);
      RevalidateEffect(e, d, now);
      if blockers == {} {
        ActPointsBack(Judged(e1, d, blockers, now).state, d, now, digest);
      }
    }
  }

  lemma CancelPointsBack(e: State, d: DrainId, authority: AuthorityId, now: Time)
    requires RecordsBack(e, d)
    ensures RecordsBack(Cancel(e, d, authority, now).state, d)
  {
  }

  lemma RestorePointsBack(e: State, d: DrainId, authority: AuthorityId, now: Time)
    requires RecordsBack(e, d)
    ensures RecordsBack(Restore(e, d, authority, now).state, d)
  {
  }

  lemma ResumePointsBack(e: State, d: DrainId, authority: AuthorityId, now: Time)
    requires Sound(e, d)
    ensures RecordsBack(Resume(e, d, authority, now).state, d)
  {
    StatePointsBack(e, e.drains[d], Phase(e.drains[d]), now);
    JudgedPointsBack(e, d, StateBlockers(e, e.drains[d], Phase(e.drains[d]), now), now);
  }

  lemma GrantPointsBack(e: State, d: DrainId, o: ObligationId, extension: int, authority: AuthorityId, now: Time)
    requires RecordsBack(e, d)
    ensures RecordsBack(GrantException(e, d, o, extension, authority, now).state, d)
  {
  }

  lemma DrainOpPointsBack(e: State, d: DrainId, op: DrainOp, now: Time)
    requires Sound(e, d) && Ready(e, d)
    ensures RecordsBack(ApplyDrain(e, d, op, now), d)
  {
    match op
    case CancelOp(authority) => CancelPointsBack(e, d, authority, now);
    case RestoreOp(authority) => RestorePointsBack(e, d, authority, now);
    case ResumeOp(authority) => ResumePointsBack(e, d, authority, now);
    case GrantOp(o, extension, authority) => GrantPointsBack(e, d, o, extension, authority, now);
    case StepOp(digest) => StepPointsBack(e, d, now, digest);
  }

  // ---- Every state ------------------------------------------------------------------------------

  ghost predicate AllBackward(e: State) {
    forall d :: d in e.drains ==> Backward(e.drains[d].blockers, d)
  }

  lemma DrainEventPointsBack(e: State, d: DrainId, op: DrainOp, now: Time)
    requires Inv(e) && Roomy(e) && AllBackward(e) && d in e.drains
    ensures AllBackward(ApplyDrain(e, d, op, now))
  {
    InvIsReady(e, d);
    assert Enrolled(e.sets, d, e.drains[d]);
    DrainOpPointsBack(e, d, op, now);
    ApplyDrainEffect(e, d, op, now);
    var e' := ApplyDrain(e, d, op, now);
    assert e'.drains == e.drains[d := e'.drains[d]];
  }

  lemma RequestPointsBack(e: State, targets: seq<Target>, authority: AuthorityId, nonce: nat, now: Time)
    requires AllBackward(e)
    ensures AllBackward(RequestSet(e, targets, authority, nonce, now).state)
  {
    NewDrainsFacts(e, Normalize(targets), authority, now);
  }

  lemma ApplyPointsBack(e: State, v: Event)
    requires Inv(e) && Roomy(e) && AllBackward(e)
    ensures AllBackward(Apply(e, v))
  {
    match v
    case RequestEvent(ts, authority, nonce, now) => RequestPointsBack(e, ts, authority, nonce, now);
    case DrainEvent(d, op, now) =>
      if d in e.drains {
        DrainEventPointsBack(e, d, op, now);
      }
    case _ => assert Apply(e, v).drains == e.drains;
  }

  lemma {:induction false} RunPointsBack(p: Policy, run: seq<RunEvent>, states: seq<State>, i: nat)
    requires IsRun(p, run, states) && i < |states|
    ensures AllBackward(states[i])
    decreases i
  {
    if i > 0 {
      SourceBefore(p, run, states, i);
      var e := states[Source(run, i)];
      RunKeepsInv(p, run, states, Source(run, i));
      RunPointsBack(p, run, states, Source(run, i));
      if run[i - 1].Do? {
        ApplyPointsBack(e, run[i - 1].event);
      }
    }
  }

  // ---- No cycle -----------------------------------------------------------------------------------

  /** Drain i is blocked on drain j. */
  predicate Waits(e: State, i: DrainId, j: DrainId) {
    i in e.drains && Blocker(SetPredecessorPending, OnDrain(j)) in e.drains[i].blockers
  }

  ghost predicate WaitChain(e: State, chain: seq<DrainId>) {
    |chain| > 1 && forall k :: 0 <= k < |chain| - 1 ==> Waits(e, chain[k], chain[k + 1])
  }

  lemma {:induction false} ChainDecreases(e: State, chain: seq<DrainId>)
    requires AllBackward(e) && WaitChain(e, chain)
    ensures chain[|chain| - 1] < chain[0]
  {
    assert Waits(e, chain[0], chain[0 + 1]);
    assert PointsBack(Blocker(SetPredecessorPending, OnDrain(chain[1])), chain[0]);
    if |chain| > 2 {
      var rest := chain[1..];
      forall k | 0 <= k < |rest| - 1 ensures Waits(e, rest[k], rest[k + 1]) {
        assert Waits(e, chain[k + 1], chain[k + 1 + 1]);
      }
      ChainDecreases(e, rest);
    }
  }

  /** In every state of every run a chain of waits leads to ever smaller drains,
      so no chain returns to where it started. */
  lemma WaitsNeverCycle(p: Policy, run: seq<RunEvent>, states: seq<State>, i: nat, chain: seq<DrainId>)
    requires IsRun(p, run, states) && i < |states| && WaitChain(states[i], chain)
    ensures chain[|chain| - 1] < chain[0]
  {
    RunPointsBack(p, run, states, i);
    ChainDecreases(states[i], chain);
  }
}
