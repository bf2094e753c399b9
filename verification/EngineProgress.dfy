/** Liveness-side guarantees of the step: a cleared drain does not fall back into
    Blocked, and evacuation rounds stay within their budget. */
module EngineProgress {
  import opened Identity
  import opened Lifecycle
  import opened Engine
  import opened EngineInvariant
  import opened EngineSteps
  import opened EngineOperations
  import opened EngineGuards
  import opened EngineRuns
  import opened EngineOrder
  import Ev = Evidence
  import Ad = Admission

  // ---- The judgement does not depend on being blocked --------------------------------------

  /** The resumed record: the same drain at the position it held. */
  predicate Resumed(r: DrainRecord, r1: DrainRecord) {
    && r1.id == r.id && r1.set_ == r.set_ && r1.target == r.target && r1.generation == r.generation
    && r1.authority == r.authority && r1.evacuationRequests == r.evacuationRequests
    && r1.lastEvacuationAt == r.lastEvacuationAt
    && (Phase(r) != AdmissionClosed ==> r1.admissionClosedAt == r.admissionClosedAt)
  }

  /** Only the record of d differs. */
  ghost predicate OnlyRecord(e: State, e1: State, d: DrainId) {
    && d in e.drains && e.drains[d].id == d && d in e1.drains && e1 == e.(drains := e.drains[d := e1.drains[d]])
    && Resumed(e.drains[d], e1.drains[d])
  }

  lemma {:induction false} UnsettledSame(e: State, e1: State, d: DrainId, members: seq<DrainId>)
    requires OnlyRecord(e, e1, d)
    ensures UnsettledBefore(e1, e1.drains[d], members) == UnsettledBefore(e, e.drains[d], members)
    decreases |members|
  {
    if members != [] && members[0] != d {
      UnsettledSame(e, e1, d, members[1..]);
    }
  }

  lemma OrderSame(e: State, e1: State, d: DrainId)
    requires OnlyRecord(e, e1, d)
    ensures OrderBlockers(e1, e1.drains[d]) == OrderBlockers(e, e.drains[d])
    ensures OthersHolding(e1, e1.drains[d]) == OthersHolding(e, e.drains[d])
  {
    OthersSame(e, e1, d, e.drains[d], e1.drains[d]);
  }

  lemma SetSame(e: State, e1: State, d: DrainId)
    requires OnlyRecord(e, e1, d)
    ensures SetBlockers(e1, e1.drains[d]) == SetBlockers(e, e.drains[d])
  {
    var r := e.drains[d];
    if r.set_ in e.sets {
      UnsettledSame(e, e1, d, e.sets[r.set_].members);
    }
  }

  lemma StartSame(e: State, e1: State, d: DrainId, now: Time)
    requires OnlyRecord(e, e1, d)
    ensures StartBlockers(e1, e1.drains[d], now) == StartBlockers(e, e.drains[d], now)
  {
    OrderSame(e, e1, d);
    SetSame(e, e1, d);
  }

  lemma EvacuationSame(e: State, e1: State, d: DrainId, now: Time)
    requires OnlyRecord(e, e1, d)
    ensures EvacuationBlockers(e1, e1.drains[d], now) == EvacuationBlockers(e, e.drains[d], now)
  {
    var r := e.drains[d];
    assert Outstanding(e1, r.target) == Outstanding(e, r.target);
    forall o | o in Outstanding(e, r.target)
      ensures GraceExpired(e1, e1.drains[d], o, now) == GraceExpired(e, r, o, now)
    {
    }
  }

  lemma ReleaseSame(e: State, e1: State, d: DrainId, now: Time)
    requires OnlyRecord(e, e1, d) && Phase(e.drains[d]) != AdmissionClosed
    ensures ReleaseBlockers(e1, e1.drains[d], now) == ReleaseBlockers(e, e.drains[d], now)
    ensures Retirable(e1, e1.drains[d], now) == Retirable(e, e.drains[d], now)
  {
    var r := e.drains[d];
    assert Outstanding(e1, r.target) == Outstanding(e, r.target);
    forall o | o in Outstanding(e, r.target)
      ensures ReleaseObjection(e1, e1.drains[d], o, now) == ReleaseObjection(e, r, o, now)
    {
    }
  }

  lemma QuiescenceSame(e: State, e1: State, d: DrainId, now: Time)
    requires OnlyRecord(e, e1, d) && Phase(e.drains[d]) != AdmissionClosed
    ensures QuiescenceBlockers(e1, e1.drains[d], now) == QuiescenceBlockers(e, e.drains[d], now)
    ensures RemovalBlockers(e1, e1.drains[d]) == RemovalBlockers(e, e.drains[d])
  {
    ReleaseSame(e, e1, d, now);
  }

  lemma VerificationSame(e: State, e1: State, d: DrainId, now: Time)
    requires OnlyRecord(e, e1, d) && Phase(e.drains[d]) != AdmissionClosed
    ensures VerificationBlockers(e1, e1.drains[d], now) == VerificationBlockers(e, e.drains[d], now)
  {
    assert Outstanding(e1, e.drains[d].target) == Outstanding(e, e.drains[d].target);
  }

  // ---- No oscillation --------------------------------------------------------------------------

  /** The fence table is full and the target is not in it. */
  predicate FenceRefuses(e: State, d: DrainId)
    requires d in e.drains
  {
    |e.fence| >= Ad.MAX_FENCED_TARGETS && e.drains[d].target !in e.fence
  }

  /** The ledger is full, and every record in it is the current one of another stream. */
  predicate LedgerFull(l: Ev.Ledger, key: Ev.EvidenceKey) {
    |l.records| >= l.maxRecords && forall k :: k in l.records ==> !Ev.Retirable(l, k, key)
  }

  /** The target would leave service now, but the ledger takes no observation of it:
      it is full, or the policy's clock skew is negative and puts this very instant
      in the future. */
  predicate LedgerRefuses(e: State, d: DrainId, now: Time)
    requires d in e.drains
  {
    var r := e.drains[d];
    && !SomeMoving(e, r.target) && Retirable(e, r, now) == {}
    && (now > SaturatingAdd(now, e.policy.skew) || LedgerFull(e.evidence, RemovalKey(r)))
  }

  /** A refusal stands in the way of the position the drain holds. */
  predicate Refused(e: State, d: DrainId, now: Time)
    requires d in e.drains
  {
    (Phase(e.drains[d]) == Validating && FenceRefuses(e, d))
    || (Phase(e.drains[d]) == Quiescing && LedgerRefuses(e, d, now))
  }

  lemma CloseRefused(e: State, d: DrainId)
    requires Ready(e, d)
    ensures Ad.Close(e.fence, e.drains[d].target, d).generation.None? <==> FenceRefuses(e, d)
  {
    var t := e.drains[d].target;
    if Ad.Close(e.fence, t, d).generation.None? {
      RefusedClose(e, d);
    } else {
      assert t !in e.fence ==> |e.fence.Keys + {t}| == |e.fence| + 1;
    }
  }

  lemma ObserveRefused(e: State, d: DrainId, now: Time)
    requires d in e.drains && Ev.Consistent(e.evidence)
    ensures ObserveRemoval(e, d, now).None? <==>
              now > SaturatingAdd(now, e.policy.skew) || LedgerFull(e.evidence, RemovalKey(e.drains[d]))
  {
    if now <= SaturatingAdd(now, e.policy.skew) {
      Ev.RecordRefusal(e.evidence, RemovalDraft(e, e.drains[d], now), LineAt(e, now), e.policy.requireLive);
    }
  }

  lemma ClearValidating(e: State, d: DrainId, now: Time)
    requires Ready(e, d) && e.drains[d].state == Validating && StartBlockers(e, e.drains[d], now) == {}
    ensures d in ActValidating(e, d, now).drains
    ensures ActValidating(e, d, now).drains[d].state == Blocked <==> FenceRefuses(e, d)
  {
    CloseEffect(e, d, now);
    CloseRefused(e, d);
  }

  lemma ClearEvacuating(e: State, d: DrainId, now: Time)
    requires Ready(e, d) && e.drains[d].state == Evacuating && EvacuationBlockers(e, e.drains[d], now) == {}
    ensures d in ActEvacuating(e, d, now).drains && ActEvacuating(e, d, now).drains[d].state != Blocked
  {
    EvacuatingEffect(e, d, now);
  }

  lemma ClearQuiescing(e: State, d: DrainId, now: Time)
    requires Ready(e, d) && Ev.Consistent(e.evidence)
    requires e.drains[d].state == Quiescing && QuiescenceBlockers(e, e.drains[d], now) == {}
    ensures d in ActQuiescing(e, d, now).drains
    ensures ActQuiescing(e, d, now).drains[d].state == Blocked <==> LedgerRefuses(e, d, now)
  {
    var r := e.drains[d];
    if SomeMoving(e, r.target) {
      MoveEffect(e, d, Evacuating, now);
    } else if Retirable(e, r, now) != {} {
      assert RetireAll(e, Retirable(e, r, now), now).drains == e.drains;
    } else {
      assert RemovalBlockers(e, r) == {};
      ClearRemoval(e, d, now, TakenOut(e, r.target.id));
    }
  }

  lemma FinishBlocked(e: State, d: DrainId, now: Time)
    requires Ready(e, d) && e.drains[d].state == Quiescing
    ensures d in FinishRemoval(e, d, now).drains
    ensures FinishRemoval(e, d, now).drains[d].state == Blocked <==> ObserveRemoval(e, d, now).None?
  {
    FinishRemovalEffect(e, d, now);
  }

  lemma ClearRemoval(e: State, d: DrainId, now: Time, out: State)
    requires Ready(e, d) && Ev.Consistent(e.evidence) && e.drains[d].state == Quiescing
    requires out == e.(fabric := out.fabric)
    ensures d in FinishRemoval(out, d, now).drains
    ensures FinishRemoval(out, d, now).drains[d].state == Blocked <==>
              now > SaturatingAdd(now, e.policy.skew) || LedgerFull(e.evidence, RemovalKey(e.drains[d]))
  {
    FinishBlocked(out, d, now);
    ObserveRefused(out, d, now);
  }

  lemma ClearAct(e: State, d: DrainId, now: Time, digest: nat)
    requires Ready(e, d) && Ev.Consistent(e.evidence) && digest != 0 && IsTransient(e.drains[d].state)
    requires StateBlockers(e, e.drains[d], e.drains[d].state, now) == {}
    ensures d in Act(e, d, now, digest).drains
    ensures Act(e, d, now, digest).drains[d].state == Blocked <==> Refused(e, d, now)
    ensures e.drains[d].state == Verifying ==> Act(e, d, now, digest).drains[d].state == Drained
  {
    match e.drains[d].state
    case Validating => ClearValidating(e, d, now);
    case AdmissionClosed => AdmissionClosedEffect(e, d, now);
    case Evacuating => ClearEvacuating(e, d, now);
    case Quiescing => ClearQuiescing(e, d, now);
    case Verifying => VerifyingEffect(e, d, now, digest);
    case Restoring => RestoringEffect(e, d, now);
  }

  /** A judgement that cleared the drain still stands after it resumed. */
  lemma StateSame(e: State, e1: State, d: DrainId, s: DrainState, now: Time)
    requires OnlyRecord(e, e1, d) && s == Phase(e.drains[d])
    ensures StateBlockers(e1, e1.drains[d], s, now) == StateBlockers(e, e.drains[d], s, now)
  {
    match s
    case Requested => StartSame(e, e1, d, now);
    case Validating => StartSame(e, e1, d, now);
    case Evacuating => EvacuationSame(e, e1, d, now);
    case Quiescing => QuiescenceSame(e, e1, d, now);
    case Verifying => VerificationSame(e, e1, d, now);
    case _ =>
  }

  lemma RefusedSame(e: State, e1: State, d: DrainId, now: Time)
    requires OnlyRecord(e, e1, d) && e1.drains[d].state == Phase(e.drains[d]) && e1.drains[d].state != Blocked
    ensures Refused(e1, d, now) <==> Refused(e, d, now)
  {
    if Phase(e.drains[d]) == Quiescing {
      ReleaseSame(e, e1, d, now);
      assert Outstanding(e1, e.drains[d].target) == Outstanding(e, e.drains[d].target);
    }
  }

  /** A fresh observation leaves the ledger consistent. */
  lemma RefreshedLedger(e: State, d: DrainId, now: Time)
    requires d in e.drains && Ev.Consistent(e.evidence)
    ensures Ev.Consistent(Refreshed(e, d, now).evidence)
  {
    if ObserveRemoval(e, d, now).Some? {
      ObservedLedger(e, d, now);
    }
  }

  lemma ObservedLedger(e: State, d: DrainId, now: Time)
    requires d in e.drains && Ev.Consistent(e.evidence) && ObserveRemoval(e, d, now).Some?
    ensures Ev.Consistent(ObserveRemoval(e, d, now).value.evidence)
  {
    Ev.RecordKeepsIndex(e.evidence, RemovalDraft(e, e.drains[d], now), LineAt(e, now), e.policy.requireLive);
  }

  /** What a revalidation that clears the drain leaves. */
  lemma ClearedRecord(e: State, d: DrainId, now: Time)
    requires Ready(e, d) && e.drains[d].state == Blocked && Revalidate(e, d, now).ok
    ensures OnlyRecord(Refreshed(e, d, now), Revalidate(e, d, now).state, d)
    ensures Revalidate(e, d, now).state.drains[d].state == Phase(e.drains[d])
    ensures StateBlockers(Refreshed(e, d, now), e.drains[d], Phase(e.drains[d]), now) == {}
  {
    RefreshedEffect(e, d, now);
    RevalidateEffect(e, d, now);
    ResumedRecord(e.fence, e.drainHighWater, d, e.drains[d], now);
  }

  /** No oscillation: a blocked drain that the step clears is Blocked again at the
      end of it exactly when the fence table has no room for its target or the ledger
      none for the observation of its removal; one cleared from Verifying is Drained
      by the same step. */
  lemma NoOscillation(e: State, e': State, d: DrainId, now: Time, digest: nat)
    requires Ready(e, d) && Ev.Consistent(e.evidence) && e.drains[d].state == Blocked && digest != 0
    requires Revalidate(e, d, now).ok && e' == StepDrain(e, d, now, digest)
    ensures d in e'.drains && (e'.drains[d].state == Blocked <==> Refused(e, d, now))
    ensures Phase(e.drains[d]) == Verifying ==> e'.drains[d].state == Drained
  {
    var e0 := Refreshed(e, d, now);
    var e1 := Revalidate(e, d, now).state;
    ClearedRecord(e, d, now);
    RefreshedEffect(e, d, now);
    RefreshedLedger(e, d, now);
    RevalidateEffect(e, d, now);
    StateSame(e0, e1, d, Phase(e.drains[d]), now);
    ClearAct(e1, d, now, digest);
    RefusedSame(e0, e1, d, now);
  }

  // ---- The evacuation budget -------------------------------------------------------------------

  /** The step of the drain issues an evacuation round. */
  predicate RoundIssued(e: State, d: DrainId, now: Time)
    requires d in e.drains
  {
    if e.drains[d].state == Evacuating then IssuesRound(e, d, now)
    else
      && e.drains[d].state == Blocked && Phase(e.drains[d]) == Evacuating
      && Revalidate(e, d, now).ok
      && d in Revalidate(e, d, now).state.drains && IssuesRound(Revalidate(e, d, now).state, d, now)
  }

  /** Rounds are counted one by one, and only below the limit. */
  lemma EvacuatingCount(e: State, d: DrainId, now: Time)
    requires d in e.drains
    ensures var e' := ActEvacuating(e, d, now);
            && d in e'.drains
            && e'.drains[d].evacuationRequests
               == e.drains[d].evacuationRequests + (if IssuesRound(e, d, now) then 1 else 0)
    ensures IssuesRound(e, d, now) ==> e.drains[d].evacuationRequests < e.policy.maxAttempts
  {
    MoveFrame(e, d, Quiescing, now);
    BlockFrame(e, d, EvacuationBlockers(e, e.drains[d], now), now);
    if IssuesRound(e, d, now) {
      BelowLimit(e, e.drains[d], now);
    }
  }

  lemma BelowLimit(e: State, r: DrainRecord, now: Time)
    requires EvacuationBlockers(e, r, now) == {} && SomeMoving(e, r.target)
    ensures r.evacuationRequests < e.policy.maxAttempts
  {
    assert One(SomeMoving(e, r.target) && r.evacuationRequests >= e.policy.maxAttempts,
               EvacuationAttemptsExhausted, OnDrain(r.id)) <= EvacuationBlockers(e, r, now);
  }

  lemma StepCount(e: State, d: DrainId, now: Time, digest: nat)
    requires Ready(e, d)
    ensures var e' := StepDrain(e, d, now, digest);
            && d in e'.drains
            && e'.drains[d].evacuationRequests
               == e.drains[d].evacuationRequests + (if RoundIssued(e, d, now) then 1 else 0)
    ensures RoundIssued(e, d, now) ==> e.drains[d].evacuationRequests < e.policy.maxAttempts
  {
    if Phase(e.drains[d]) == Restoring {
      StepRestores(e, d, now, digest);
    } else if Phase(e.drains[d]) == Cancelled {
      SettledStays(e, d, now, digest);
    } else if Phase(e.drains[d]) != Evacuating {
      StepBranch(e, d, now, digest);
    } else if e.drains[d].state == Evacuating {
      EvacuatingCount(e, d, now);
    } else {
      RevalidateEffect(e, d, now);
      if Revalidate(e, d, now).ok {
        EvacuatingCount(Revalidate(e, d, now).state, d, now);
      }
    }
  }

  /** The event is a step of d that issues a round. */
  predicate Issues(e: State, v: Event, d: DrainId) {
    && v.DrainEvent? && v.drain == d && d in e.drains && v.call.StepOp? && v.call.digest != 0
    && RoundIssued(e, d, v.now)
  }

  /** Which events of the run issue a round of d. */
  ghost function Marks(run: seq<RunEvent>, states: seq<State>, d: DrainId): seq<bool>
    requires |states| == |run| + 1
  {
    seq(|run|, m requires 0 <= m < |run| => run[m].Do? && Issues(states[m], run[m].event, d))
  }

  /** Marked events on the history that leads to state i. A restart abandons what its
      snapshot does not contain. */
  ghost function Surviving(run: seq<RunEvent>, marks: seq<bool>, i: nat): nat
    requires |marks| == |run| && i <= |run|
    decreases i
  {
    if i == 0 then 0
    else if run[i - 1].Restart? then
      (if run[i - 1].snapshot < i then Surviving(run, marks, run[i - 1].snapshot) else 0)
    else Surviving(run, marks, i - 1) + (if marks[i - 1] then 1 else 0)
  }

  /** Rounds issued on the history that leads to state i. */
  ghost function Rounds(run: seq<RunEvent>, states: seq<State>, d: DrainId, i: nat): nat
    requires |states| == |run| + 1 && i < |states|
  {
    Surviving(run, Marks(run, states, d), i)
  }

  /** total <= attempts x grants + the running counter. */
  predicate InBudget(e: State, d: DrainId, total: nat) {
    && |GrantsOf(e, d)| <= e.policy.maxExtensions
    && (d !in e.drains ==> total == 0)
    && (d in e.drains ==>
          && e.drains[d].evacuationRequests <= e.policy.maxAttempts
          && total <= e.policy.maxAttempts * |GrantsOf(e, d)| + e.drains[d].evacuationRequests)
  }

  /** What the budget of d looks at. */
  predicate SameAccount(e: State, e': State, d: DrainId) {
    && e'.policy == e.policy && GrantsOf(e', d) == GrantsOf(e, d)
    && d in e.drains && d in e'.drains && e'.drains[d].evacuationRequests == e.drains[d].evacuationRequests
  }

  lemma OneMore(attempts: nat, grants: nat)
    ensures attempts * (grants + 1) == attempts * grants + attempts
  {
  }

  lemma GrantBudget(e: State, d: DrainId, o: ObligationId, extension: int, authority: AuthorityId, now: Time,
                    total: nat)
    requires d in e.drains && InBudget(e, d, total)
    ensures InBudget(GrantException(e, d, o, extension, authority, now).state, d, total)
  {
    OneMore(e.policy.maxAttempts, |GrantsOf(e, d)|);
  }

  lemma CancelAccount(e: State, d: DrainId, authority: AuthorityId, now: Time)
    requires d in e.drains
    ensures SameAccount(e, Cancel(e, d, authority, now).state, d)
  {
  }

  lemma RestoreAccount(e: State, d: DrainId, authority: AuthorityId, now: Time)
    requires d in e.drains
    ensures SameAccount(e, Restore(e, d, authority, now).state, d)
  {
  }

  lemma ResumeAccount(e: State, d: DrainId, authority: AuthorityId, now: Time)
    requires Ready(e, d)
    ensures SameAccount(e, Resume(e, d, authority, now).state, d)
  {
    if e.drains[d].state == Blocked {
      JudgedEffect(e, d, StateBlockers(e, e.drains[d], Phase(e.drains[d]), now), now);
    }
  }

  lemma StepBudget(e: State, d: DrainId, now: Time, digest: nat, total: nat)
    requires Ready(e, d) && digest != 0 && InBudget(e, d, total)
    ensures InBudget(StepDrain(e, d, now, digest), d, total + (if RoundIssued(e, d, now) then 1 else 0))
  {
    StepCount(e, d, now, digest);
    StepDrainEffect(e, d, now, digest);
  }

  lemma DrainBudget(e: State, d: DrainId, op: DrainOp, now: Time, total: nat)
    requires Ready(e, d) && InBudget(e, d, total)
    ensures InBudget(ApplyDrain(e, d, op, now), d,
                     total + (if Issues(e, DrainEvent(d, op, now), d) then 1 else 0))
  {
    match op
    case CancelOp(authority) => CancelAccount(e, d, authority, now);
    case RestoreOp(authority) => RestoreAccount(e, d, authority, now);
    case ResumeOp(authority) => ResumeAccount(e, d, authority, now);
    case GrantOp(o, extension, authority) => GrantBudget(e, d, o, extension, authority, now, total);
    case StepOp(digest) =>
      if digest != 0 {
        StepBudget(e, d, now, digest, total);
      }
  }

  /** Another event: the account of d stays, or d is new and its account empty. */
  predicate AccountKept(e: State, e': State, d: DrainId) {
    && |GrantsOf(e', d)| == |GrantsOf(e, d)|
    && (d in e.drains ==> d in e'.drains && e'.drains[d].evacuationRequests == e.drains[d].evacuationRequests)
    && (d !in e.drains && d in e'.drains ==> e'.drains[d].evacuationRequests == 0)
  }

  lemma GrantElsewhere(e: State, x: DrainId, o: ObligationId, extension: int, authority: AuthorityId, now: Time,
                       d: DrainId)
    requires x in e.drains && x != d
    ensures GrantsOf(GrantException(e, x, o, extension, authority, now).state, d) == GrantsOf(e, d)
  {
  }

  /** Of the operations on a drain only the grant touches the grant lists. */
  lemma ExceptionsStay(e: State, x: DrainId, op: DrainOp, now: Time)
    requires Inv(e) && Roomy(e) && x in e.drains && !op.GrantOp?
    ensures ApplyDrain(e, x, op, now).exceptions == e.exceptions
  {
    InvIsReady(e, x);
    match op
    case CancelOp(authority) => CancelEffect(e, x, authority, now);
    case RestoreOp(authority) => RestoreEffect(e, x, authority, now);
    case ResumeOp(authority) => ResumeOpEffect(e, x, authority, now);
    case StepOp(digest) =>
      if digest != 0 {
        StepDrainEffect(e, x, now, digest);
      }
  }

  lemma DrainElsewhere(e: State, x: DrainId, op: DrainOp, now: Time, d: DrainId)
    requires Inv(e) && Roomy(e) && x in e.drains && x != d
    ensures AccountKept(e, ApplyDrain(e, x, op, now), d)
  {
    ApplyDrainEffect(e, x, op, now);
    if op.GrantOp? {
      GrantElsewhere(e, x, op.obligation, op.extension, op.authority, now, d);
    } else {
      ExceptionsStay(e, x, op, now);
    }
  }

  lemma RequestAccount(e: State, targets: seq<Target>, authority: AuthorityId, nonce: nat, now: Time, d: DrainId)
    requires RecordsOk(e)
    ensures AccountKept(e, RequestSet(e, targets, authority, nonce, now).state, d)
  {
    RequestOnlyAdds(e, targets, authority, nonce, now);
    assert RequestSet(e, targets, authority, nonce, now).state.exceptions == e.exceptions;
  }

  lemma SetupElsewhere(e: State, op: SetupOp, now: Time, d: DrainId)
    requires Inv(e)
    ensures AccountKept(e, ApplySetup(e, op, now), d)
  {
    SetupEffect(e, op, now);
  }

  lemma EventElsewhere(e: State, v: Event, d: DrainId)
    requires Inv(e) && Roomy(e) && !(v.DrainEvent? && v.drain == d)
    ensures AccountKept(e, Apply(e, v), d)
  {
    match v
    case RequestEvent(ts, authority, nonce, now) => RequestAccount(e, ts, authority, nonce, now, d);
    case DrainEvent(x, op, now) =>
      if x in e.drains {
        DrainElsewhere(e, x, op, now, d);
      }
    case SetupEvent(op, now) => SetupElsewhere(e, op, now, d);
    case _ =>
  }

  /** The run never installs another evacuation limit. */
  predicate KeepsBudget(p: Policy, v: RunEvent) {
    v.Do? && v.event.SetupEvent? && v.event.setup.PolicyOp? ==>
      && v.event.setup.policy.maxAttempts == p.maxAttempts
      && v.event.setup.policy.maxExtensions == p.maxExtensions
  }

  ghost predicate BudgetFixed(p: Policy, run: seq<RunEvent>) {
    forall i :: 0 <= i < |run| ==> KeepsBudget(p, run[i])
  }

  predicate SameLimits(p: Policy, q: Policy) {
    q.maxAttempts == p.maxAttempts && q.maxExtensions == p.maxExtensions
  }

  lemma ElsewhereBudget(e: State, e': State, d: DrainId, total: nat)
    requires InBudget(e, d, total) && AccountKept(e, e', d) && SameLimits(e.policy, e'.policy)
    requires d in e'.drains ==> d in e.drains || total == 0
    ensures d in e'.drains || d !in e.drains ==> InBudget(e', d, total)
  {
  }

  lemma EventBudget(e: State, v: Event, d: DrainId, total: nat)
    requires Inv(e) && Roomy(e) && InBudget(e, d, total) && SameLimits(e.policy, Apply(e, v).policy)
    ensures InBudget(Apply(e, v), d, total + (if Issues(e, v, d) then 1 else 0))
  {
    if v.DrainEvent? && v.drain == d {
      if d in e.drains {
        InvIsReady(e, d);
        DrainBudget(e, d, v.call, v.now, total);
      }
    } else {
      EventElsewhere(e, v, d);
      ElsewhereBudget(e, Apply(e, v), d, total);
    }
  }

  lemma RecoverBudget(e: State, d: DrainId, total: nat, now: Time)
    requires RecordsOk(e) && InBudget(e, d, total)
    ensures InBudget(Recover(e, now), d, total)
  {
    if d in e.drains {
      RecoveredRecord(e.fence, e.drainHighWater, d, e.drains[d], now);
    }
  }

  lemma {:induction false} RunInBudget(p: Policy, run: seq<RunEvent>, states: seq<State>, d: DrainId, i: nat)
    requires IsRun(p, run, states) && BudgetFixed(p, run) && i < |states|
    ensures InBudget(states[i], d, Rounds(run, states, d, i)) && SameLimits(p, states[i].policy)
    decreases i
  {
    if i > 0 {
      SourceBefore(p, run, states, i);
      var k := Source(run, i);
      RunInBudget(p, run, states, d, k);
      RunKeepsInv(p, run, states, k);
      assert KeepsBudget(p, run[i - 1]);
      if run[i - 1].Do? {
        ApplyPolicy(states[k], run[i - 1].event);
        EventBudget(states[k], run[i - 1].event, d, Rounds(run, states, d, k));
      } else {
        RecoverBudget(states[k], d, Rounds(run, states, d, k), run[i - 1].now);
      }
    }
  }

  /** Under a fixed policy the history that leads to a state never holds more
      evacuation rounds of a drain than the attempt limit allows once, and once more
      for each granted exception. */
  lemma EvacuationBudget(p: Policy, run: seq<RunEvent>, states: seq<State>, d: DrainId, i: nat)
    requires IsRun(p, run, states) && BudgetFixed(p, run) && i < |states|
    ensures Rounds(run, states, d, i) <= p.maxAttempts * (1 + |GrantsOf(states[i], d)|)
    ensures |GrantsOf(states[i], d)| <= p.maxExtensions
    ensures Rounds(run, states, d, i) <= p.maxAttempts * (1 + p.maxExtensions)
  {
    RunInBudget(p, run, states, d, i);
    BudgetTotal(p.maxAttempts, |GrantsOf(states[i], d)|, p.maxExtensions);
  }

  lemma BudgetTotal(attempts: nat, grants: nat, extensions: nat)
    requires grants <= extensions
    ensures attempts * grants + attempts == attempts * (1 + grants)
    ensures attempts * (1 + grants) <= attempts * (1 + extensions)
  {
  }

  // ---- Rounds of the whole run -----------------------------------------------------------------

  /** All marked events before state i. */
  ghost function Marked(marks: seq<bool>, i: nat): nat
    requires i <= |marks|
  {
    if i == 0 then 0 else Marked(marks, i - 1) + (if marks[i - 1] then 1 else 0)
  }

  /** Every round issued before state i, on histories a restart has abandoned too. */
  ghost function AllRounds(run: seq<RunEvent>, states: seq<State>, d: DrainId, i: nat): nat
    requires |states| == |run| + 1 && i < |states|
  {
    Marked(Marks(run, states, d), i)
  }

  function Restarts(run: seq<RunEvent>, i: nat): nat
    requires i <= |run|
  {
    if i == 0 then 0 else Restarts(run, i - 1) + (if run[i - 1].Restart? then 1 else 0)
  }

  /** Every restart before state i recovers the state it interrupts. */
  ghost predicate NothingAbandoned(run: seq<RunEvent>, i: nat)
    requires i <= |run|
  {
    forall m :: 0 <= m < i && run[m].Restart? ==> run[m].snapshot == m
  }

  /** When no restart abandons anything, every mark is on the surviving history. */
  lemma {:induction false} NoneAbandoned(run: seq<RunEvent>, marks: seq<bool>, i: nat)
    requires |marks| == |run| && i <= |run| && NothingAbandoned(run, i)
    requires forall m :: 0 <= m < |run| && marks[m] ==> run[m].Do?
    ensures Marked(marks, i) == Surviving(run, marks, i)
    decreases i
  {
    if i > 0 {
      NoneAbandoned(run, marks, i - 1);
    }
  }

  /** Each restart can give back at most one budget. */
  lemma {:induction false} Abandoned(run: seq<RunEvent>, marks: seq<bool>, i: nat, budget: nat)
    requires |marks| == |run| && i <= |run|
    requires forall m :: 0 <= m < |run| && marks[m] ==> run[m].Do?
    requires forall j :: 0 <= j <= i ==> Surviving(run, marks, j) <= budget
    ensures Marked(marks, i) <= Restarts(run, i) * budget + Surviving(run, marks, i)
    decreases i
  {
    if i > 0 {
      Abandoned(run, marks, i - 1, budget);
      OneMoreBudget(Restarts(run, i - 1), budget);
    }
  }

  lemma OneMoreBudget(restarts: nat, budget: nat)
    ensures (restarts + 1) * budget == restarts * budget + budget
  {
  }

  /** The rounds a run really issues: one budget when no restart abandons anything,
      and one more for each restart at most. */
  lemma WholeRunBudget(p: Policy, run: seq<RunEvent>, states: seq<State>, d: DrainId, i: nat)
    requires IsRun(p, run, states) && BudgetFixed(p, run) && i < |states|
    ensures NothingAbandoned(run, i) ==> AllRounds(run, states, d, i) <= p.maxAttempts * (1 + p.maxExtensions)
    ensures AllRounds(run, states, d, i) <= (1 + Restarts(run, i)) * (p.maxAttempts * (1 + p.maxExtensions))
  {
    var budget := p.maxAttempts * (1 + p.maxExtensions);
    var marks := Marks(run, states, d);
    forall j | 0 <= j <= i ensures Surviving(run, marks, j) <= budget {
      EvacuationBudget(p, run, states, d, j);
    }
    MarksAreDone(run, states, d, marks);
    Abandoned(run, marks, i, budget);
    OneMoreBudget(Restarts(run, i), budget);
    if NothingAbandoned(run, i) {
      NoneAbandoned(run, marks, i);
    }
  }

  lemma MarksAreDone(run: seq<RunEvent>, states: seq<State>, d: DrainId, marks: seq<bool>)
    requires |states| == |run| + 1 && marks == Marks(run, states, d)
    ensures |marks| == |run| && forall m :: 0 <= m < |run| && marks[m] ==> run[m].Do?
  {
  }
}
