/** Stale evidence never finishes a drain: what stands behind completions and
    retirements was observed on the live authority line. */
module EngineProof {
  import opened Identity
  import opened Lifecycle
  import opened Engine
  import opened EngineInvariant
  import opened EngineSteps
  import opened EngineOperations
  import opened EngineGuards
  import opened EngineRuns
  import opened EngineOrder
  import opened EngineSafety
  import Ob = Obligations
  import Ev = Evidence
  import Au = Authority
  import Ad = Admission
  import To = Topology

  // ---- How the ledger moves under one line ------------------------------------------------

  predicate Live(o: Ev.Observation, reg: Au.Registry) {
    o.producer == reg.incarnation && o.epoch == reg.epoch
  }

  /** The same observation, whatever its attestation. */
  predicate SameFacts(a: Ev.Observation, b: Ev.Observation) {
    a.(attested := true) == b.(attested := true)
  }

  /** The record at k was written between the two ledgers. */
  predicate WrittenBetween(l: Ev.Ledger, l': Ev.Ledger, k: Ev.RecordKey) {
    k in l'.records && (k !in l.records || !SameFacts(l.records[k], l'.records[k]))
  }

  /** A record was there before, and becomes attested only if live; or it is live. */
  predicate RecordStep(l: Ev.Ledger, l': Ev.Ledger, reg: Au.Registry, k: Ev.RecordKey)
    requires k in l'.records
  {
    Live(l'.records[k], reg)
    || (k in l.records && SameFacts(l.records[k], l'.records[k])
        && (l'.records[k].attested ==> l.records[k].attested))
  }

  /** Live records only, and the index keeps agreeing with the records. */
  ghost predicate LedgerStep(l: Ev.Ledger, l': Ev.Ledger, reg: Au.Registry) {
    (forall k :: k in l'.records ==> RecordStep(l, l', reg, k)) && (Ev.Consistent(l) ==> Ev.Consistent(l'))
  }

  lemma StepReflexive(l: Ev.Ledger, reg: Au.Registry)
    ensures LedgerStep(l, l, reg)
  {
  }

  lemma StepTransitive(a: Ev.Ledger, b: Ev.Ledger, c: Ev.Ledger, reg: Au.Registry)
    requires LedgerStep(a, b, reg) && LedgerStep(b, c, reg)
    ensures LedgerStep(a, c, reg)
  {
    forall k | k in c.records ensures RecordStep(a, c, reg, k) {
      assert RecordStep(b, c, reg, k);
      assert k in b.records ==> RecordStep(a, b, reg, k);
    }
  }

  lemma RecordIsStep(l: Ev.Ledger, draft: Ev.Observation, fence: Ev.EvidenceFence, requireLive: bool, reg: Au.Registry)
    requires Ev.Record(l, draft, fence, requireLive).Recorded?
    requires fence.incarnation == reg.incarnation && fence.epoch == reg.epoch
    requires requireLive || draft.producer == reg.incarnation
    ensures LedgerStep(l, Ev.Record(l, draft, fence, requireLive).ledger, reg)
  {
    var l' := Ev.Record(l, draft, fence, requireLive).ledger;
    if Ev.Consistent(l) {
      Ev.RecordKeepsIndex(l, draft, fence, requireLive);
    }
    forall k | k in l'.records ensures RecordStep(l, l', reg, k) {
      if k != Ev.RecordKey(draft.key, draft.number) {
        assert k in l.records && l'.records[k] == l.records[k];
      }
    }
  }

  lemma AttestIsStep(l: Ev.Ledger, key: Ev.EvidenceKey, number: EvidenceSeq, fence: Ev.EvidenceFence, reg: Au.Registry)
    requires Ev.Attest(l, key, number, fence).Some?
    requires fence.incarnation == reg.incarnation && fence.epoch == reg.epoch
    ensures LedgerStep(l, Ev.Attest(l, key, number, fence).value, reg)
  {
    if Ev.Consistent(l) {
      Ev.AttestKeepsIndex(l, key, number, fence);
    }
  }

  lemma ObserveIsStep(e: State, d: DrainId, now: Time)
    requires d in e.drains && ObserveRemoval(e, d, now).Some?
    ensures LedgerStep(e.evidence, ObserveRemoval(e, d, now).value.evidence, e.authority)
  {
    RecordIsStep(e.evidence, RemovalDraft(e, e.drains[d], now), LineAt(e, now), e.policy.requireLive, e.authority);
  }

  lemma ReobserveIsStep(e: State, d: DrainId, now: Time)
    requires d in e.drains
    ensures LedgerStep(e.evidence, Reobserve(e, d, now).evidence, e.authority)
  {
    StepReflexive(e.evidence, e.authority);
    if ObserveRemoval(e, d, now).Some? {
      ObserveIsStep(e, d, now);
    }
  }

  // ---- What a step does to ledger and obligations -----------------------------------------------

  predicate Plain(e: State, e': State) {
    e'.obligations == e.obligations && e'.evidence == e.evidence
  }

  lemma ValidatingPlain(e: State, d: DrainId, now: Time)
    requires d in e.drains
    ensures Plain(e, ActValidating(e, d, now))
  {
    BlockFrame(e, d, StartBlockers(e, e.drains[d], now), now);
    ClosePlain(e, d, now);
  }

  lemma ClosePlain(e: State, d: DrainId, now: Time)
    requires d in e.drains
    ensures Plain(e, CloseAdmission(e, d, now))
  {
    var r := e.drains[d];
    var closed := Ad.Close(e.fence, r.target, d);
    var e1 := e.(fence := closed.fence);
    if closed.generation.None? {
      BlockFrame(e1, d, {Blocker(AdmissionFenceMissing, OnTarget(r.target))}, now);
    } else {
      MoveFrame(Put(e1, d, r.(generation := closed.generation.value)), d, AdmissionClosed, now);
    }
  }

  lemma EvacuatingPlain(e: State, d: DrainId, now: Time)
    requires d in e.drains
    ensures Plain(e, ActEvacuating(e, d, now))
  {
    MoveFrame(e, d, Quiescing, now);
    BlockFrame(e, d, EvacuationBlockers(e, e.drains[d], now), now);
  }

  lemma RestoringPlain(e: State, d: DrainId, now: Time)
    requires d in e.drains
    ensures Plain(e, ActRestoring(e, d, now))
  {
    var r := e.drains[d];
    var e1 := if RemovalOwned(e, r) then e.(fabric := To.SetStatus(e.fabric, r.target.id, To.InService)) else e;
    BlockFrame(e1, d, {Blocker(GenerationSuperseded, OnTarget(r.target))}, now);
  }

  lemma FinishBooks(e: State, d: DrainId, now: Time)
    requires d in e.drains
    ensures FinishRemoval(e, d, now).obligations == e.obligations
    ensures LedgerStep(e.evidence, FinishRemoval(e, d, now).evidence, e.authority)
  {
    var observed := ObserveRemoval(e, d, now);
    if observed.None? {
      BlockFrame(e, d, {Blocker(QuiescenceEvidenceMissing, OnEvidence(RemovalKey(e.drains[d])))}, now);
      StepReflexive(e.evidence, e.authority);
    } else {
      ObserveEffect(e, d, now);
      ObserveIsStep(e, d, now);
      MoveFrame(observed.value, d, Verifying, now);
    }
  }

  /** Obligations stay and the ledger moves under the line, or the releasable
      obligations are retired and the ledger stays. */
  ghost predicate Books(e: State, e': State, d: DrainId, now: Time)
    requires d in e.drains
  {
    (e'.obligations == e.obligations && LedgerStep(e.evidence, e'.evidence, e.authority))
    || (e' == RetireAll(e, Retirable(e, e.drains[d], now), now) && e.drains[d].state == Quiescing)
  }

  lemma QuiescingBooks(e: State, d: DrainId, now: Time)
    requires d in e.drains && e.drains[d].state == Quiescing
    ensures Books(e, ActQuiescing(e, d, now), d, now)
  {
    var r := e.drains[d];
    var blockers := QuiescenceBlockers(e, r, now);
    StepReflexive(e.evidence, e.authority);
    MoveFrame(e, d, Evacuating, now);
    BlockFrame(e, d, blockers, now);
    if !SomeMoving(e, r.target) && blockers == {} && Retirable(e, r, now) == {} {
      RemoveBooks(e, d, now);
    }
  }

  lemma RemoveBooks(e: State, d: DrainId, now: Time)
    requires d in e.drains
    ensures Remove(e, d, now).obligations == e.obligations
    ensures LedgerStep(e.evidence, Remove(e, d, now).evidence, e.authority)
  {
    var r := e.drains[d];
    StepReflexive(e.evidence, e.authority);
    BlockFrame(e, d, RemovalBlockers(e, r), now);
    FinishBooks(TakenOut(e, r.target.id), d, now);
  }

  lemma VerifyingBooks(e: State, d: DrainId, now: Time, digest: nat)
    requires d in e.drains
    ensures ActVerifying(e, d, now, digest).obligations == e.obligations
    ensures LedgerStep(e.evidence, ActVerifying(e, d, now, digest).evidence, e.authority)
  {
    var r := e.drains[d];
    var e1 := if VerificationBlockers(e, r, now) == {} then e else Reobserve(e, d, now);
    StepReflexive(e.evidence, e.authority);
    ReobserveIsStep(e, d, now);
    ReobserveEffect(e, d, now);
    BlockFrame(e1, d, VerificationBlockers(e1, r, now), now);
    CompletePlain(e1, d, now, digest);
  }

  lemma CompletePlain(e: State, d: DrainId, now: Time, digest: nat)
    requires d in e.drains
    ensures Plain(e, Complete(e, d, now, digest))
  {
    var r := e.drains[d];
    var completed := RecordCompletion(r, now, |Outstanding(e, r.target)|, digest, CompletionProof(e, r, now));
    if completed.None? {
      BlockFrame(e, d, {Blocker(ProtectedObligationActive, OnTarget(r.target))}, now);
    } else {
      MoveFrame(Put(e, d, completed.value), d, Drained, now);
    }
  }

  lemma PlainBooks(e: State, e': State, d: DrainId, now: Time)
    requires d in e.drains && Plain(e, e')
    ensures Books(e, e', d, now)
  {
    StepReflexive(e.evidence, e.authority);
  }

  lemma ActPlain(e: State, d: DrainId, now: Time, digest: nat)
    requires d in e.drains && e.drains[d].state != Quiescing && e.drains[d].state != Verifying
    ensures Plain(e, Act(e, d, now, digest))
  {
    match e.drains[d].state
    case Requested => MoveFrame(e, d, Validating, now);
    case Validating => ValidatingPlain(e, d, now);
    case AdmissionClosed => MoveFrame(e, d, Quiescing, now); MoveFrame(e, d, Evacuating, now);
    case Evacuating => EvacuatingPlain(e, d, now);
    case Restoring => RestoringPlain(e, d, now);
    case _ =>
  }

  lemma ActBooks(e: State, d: DrainId, now: Time, digest: nat)
    requires d in e.drains
    ensures Books(e, Act(e, d, now, digest), d, now)
  {
    if e.drains[d].state == Quiescing {
      QuiescingBooks(e, d, now);
    } else if e.drains[d].state == Verifying {
      VerifyingBooks(e, d, now, digest);
    } else {
      ActPlain(e, d, now, digest);
      PlainBooks(e, Act(e, d, now, digest), d, now);
    }
  }

  /** What stands behind a retirement made by the engine: a release observation
      that proves it for this drain now. */
  ghost predicate ProvenRelease(e: State, d: DrainId, o: ObligationId, now: Time) {
    && d in e.drains && o in e.obligations && e.obligations[o].releaseEvidence != 0
    && Ev.Find(e.evidence, ReleaseKey(d, o), e.obligations[o].releaseEvidence).Some?
    && Proves(e, e.drains[d], Ev.Find(e.evidence, ReleaseKey(d, o), e.obligations[o].releaseEvidence).value, now)
  }

  lemma RetirableIsProven(e: State, d: DrainId, o: ObligationId, now: Time)
    requires d in e.drains && e.drains[d].id == d && o in Retirable(e, e.drains[d], now)
    ensures ProvenRelease(e, d, o, now)
    ensures RetiredForm(e.obligations[o], now).releaseEvidence == e.obligations[o].releaseEvidence
    ensures RetiredForm(e.obligations[o], now).state == Ob.Retired
  {
  }

  /** The whole step: the ledger moves under the live line, and an obligation that
      changed was retired on proof. */
  ghost predicate StepBooks(e: State, e': State, d: DrainId, now: Time) {
    && LedgerStep(e.evidence, e'.evidence, e.authority)
    && (forall o :: o in e.obligations ==>
          o in e'.obligations && (e'.obligations[o] == e.obligations[o] || ProvenRelease(e', d, o, now)))
  }

  lemma RetireStepBooks(e: State, d: DrainId, now: Time)
    requires d in e.drains && e.drains[d].id == d
    ensures StepBooks(e, RetireAll(e, Retirable(e, e.drains[d], now), now), d, now)
  {
    var e' := RetireAll(e, Retirable(e, e.drains[d], now), now);
    StepReflexive(e.evidence, e.authority);
    forall o | o in e.obligations
      ensures o in e'.obligations && (e'.obligations[o] == e.obligations[o] || ProvenRelease(e', d, o, now))
    {
      if o in Retirable(e, e.drains[d], now) {
        RetirableIsProven(e, d, o, now);
      }
    }
  }

  lemma BooksAreStepBooks(e: State, e': State, d: DrainId, now: Time)
    requires d in e.drains && e.drains[d].id == d && Books(e, e', d, now)
    ensures StepBooks(e, e', d, now)
  {
    if e' == RetireAll(e, Retirable(e, e.drains[d], now), now) {
      RetireStepBooks(e, d, now);
    }
  }

  lemma StepDrainBooks(e: State, d: DrainId, now: Time, digest: nat)
    requires Ready(e, d)
    ensures StepBooks(e, StepDrain(e, d, now, digest), d, now)
  {
    if e.drains[d].state != Blocked {
      ActBooks(e, d, now, digest);
      BooksAreStepBooks(e, Act(e, d, now, digest), d, now);
    } else {
      RevalidateEffect(e, d, now);
      var revalidated := Revalidate(e, d, now);
      RevalidateLedger(e, d, now);
      if revalidated.ok {
        var e1 := revalidated.state;
        ActBooks(e1, d, now, digest);
        BooksAreStepBooks(e1, Act(e1, d, now, digest), d, now);
        StepTransitive(e.evidence, e1.evidence, Act(e1, d, now, digest).evidence, e.authority);
      }
    }
  }

  lemma RevalidateLedger(e: State, d: DrainId, now: Time)
    requires Ready(e, d) && e.drains[d].state == Blocked
    ensures LedgerStep(e.evidence, Revalidate(e, d, now).state.evidence, e.authority)
  {
    var e1 := Refreshed(e, d, now);
    StepReflexive(e.evidence, e.authority);
    ReobserveIsStep(e, d, now);
    RefreshedEffect(e, d, now);
    JudgedEffect(e1, d, StateBlockers(e1, e.drains[d], Phase(e.drains[d]), now), now);
  }

  lemma ResumePlain(e: State, d: DrainId, authority: AuthorityId, now: Time)
    requires Ready(e, d)
    ensures Plain(e, Resume(e, d, authority, now).state)
  {
    if e.drains[d].state == Blocked {
      JudgedEffect(e, d, StateBlockers(e, e.drains[d], Phase(e.drains[d]), now), now);
    }
  }

  lemma CancelPlain(e: State, d: DrainId, authority: AuthorityId, now: Time)
    ensures Plain(e, Cancel(e, d, authority, now).state)
  {
  }

  lemma RestorePlain(e: State, d: DrainId, authority: AuthorityId, now: Time)
    ensures Plain(e, Restore(e, d, authority, now).state)
  {
  }

  lemma GrantPlain(e: State, d: DrainId, o: ObligationId, extension: int, authority: AuthorityId, now: Time)
    ensures Plain(e, GrantException(e, d, o, extension, authority, now).state)
  {
  }

  lemma PlainStepBooks(e: State, e': State, d: DrainId, now: Time)
    requires Plain(e, e')
    ensures StepBooks(e, e', d, now)
  {
    StepReflexive(e.evidence, e.authority);
  }

  lemma OpBooks(e: State, d: DrainId, op: DrainOp, now: Time)
    requires Ready(e, d)
    ensures StepBooks(e, ApplyDrain(e, d, op, now), d, now)
  {
    match op
    case StepOp(digest) =>
      if digest != 0 {
        StepDrainBooks(e, d, now, digest);
      } else {
        PlainStepBooks(e, e, d, now);
      }
    case CancelOp(authority) =>
      CancelPlain(e, d, authority, now);
      PlainStepBooks(e, Cancel(e, d, authority, now).state, d, now);
    case RestoreOp(authority) =>
      RestorePlain(e, d, authority, now);
      PlainStepBooks(e, Restore(e, d, authority, now).state, d, now);
    case ResumeOp(authority) =>
      ResumePlain(e, d, authority, now);
      PlainStepBooks(e, Resume(e, d, authority, now).state, d, now);
    case GrantOp(o, extension, authority) =>
      GrantPlain(e, d, o, extension, authority, now);
      PlainStepBooks(e, GrantException(e, d, o, extension, authority, now).state, d, now);
  }

  // ---- Recorded since the last line -----------------------------------------------------------

  predicate NewLine(e: State, v: Event) {
    v.SetupEvent? && v.setup.LineOp? && InstallLine(e, v.setup.incarnation, v.setup.epoch).ok
  }

  predicate MovesIncarnation(v: Event) {
    v.SetupEvent? && v.setup.IncarnationOp?
  }

  /** The records written since the last line was installed, on the history that
      leads to state i. */
  ghost function Since(run: seq<RunEvent>, states: seq<State>, i: nat): set<Ev.RecordKey>
    requires |states| == |run| + 1 && i < |states|
    decreases i
  {
    if i == 0 then {}
    else if run[i - 1].Restart? then
      (if run[i - 1].snapshot < i then Since(run, states, run[i - 1].snapshot) else {})
    else if NewLine(states[i - 1], run[i - 1].event) then {}
    else Since(run, states, i - 1) + Written(states[i - 1].evidence, states[i].evidence)
  }

  ghost function Written(l: Ev.Ledger, l': Ev.Ledger): set<Ev.RecordKey> {
    set k | k in l'.records && WrittenBetween(l, l', k)
  }

  /** No record is from the future of the line; the live producer's records were
      written since; and only live records are attested. */
  predicate Trusted(o: Ev.Observation, reg: Au.Registry, since: bool) {
    && o.producer <= reg.incarnation
    && (o.producer == reg.incarnation ==> since)
    && (o.attested ==> Live(o, reg))
  }

  ghost predicate AllTrusted(e: State, since: set<Ev.RecordKey>) {
    forall k :: k in e.evidence.records ==> Trusted(e.evidence.records[k], e.authority, k in since)
  }

  lemma StepKeepsTrust(e: State, e': State, since: set<Ev.RecordKey>)
    requires AllTrusted(e, since) && LedgerStep(e.evidence, e'.evidence, e.authority)
    requires e'.authority.incarnation == e.authority.incarnation && e'.authority.epoch == e.authority.epoch
    ensures AllTrusted(e', since + Written(e.evidence, e'.evidence))
  {
    var since' := since + Written(e.evidence, e'.evidence);
    forall k | k in e'.evidence.records ensures Trusted(e'.evidence.records[k], e'.authority, k in since') {
      assert RecordStep(e.evidence, e'.evidence, e.authority, k);
      if !WrittenBetween(e.evidence, e'.evidence, k) {
        assert Trusted(e.evidence.records[k], e.authority, k in since);
      }
    }
  }

  lemma LineKeepsTrust(e: State, incarnation: nat, epoch: nat, since: set<Ev.RecordKey>)
    requires AllTrusted(e, since) && InstallLine(e, incarnation, epoch).ok
    ensures AllTrusted(InstallLine(e, incarnation, epoch).state, {})
  {
    var e' := InstallLine(e, incarnation, epoch).state;
    forall k | k in e'.evidence.records ensures Trusted(e'.evidence.records[k], e'.authority, false) {
      assert Trusted(e.evidence.records[k], e.authority, k in since);
    }
  }

  lemma RecoverKeepsTrust(e: State, now: Time, since: set<Ev.RecordKey>)
    requires AllTrusted(e, since)
    ensures AllTrusted(Recover(e, now), since)
  {
    forall k | k in Recover(e, now).evidence.records
      ensures Trusted(Recover(e, now).evidence.records[k], Recover(e, now).authority, k in since)
    {
      assert Trusted(e.evidence.records[k], e.authority, k in since);
    }
  }

  lemma RecordEvidenceIsStep(e: State, o: Ev.Observation, now: Time)
    requires e.policy.requireLive
    ensures LedgerStep(e.evidence, RecordEvidence(e, o, now).state.evidence, e.authority)
  {
    StepReflexive(e.evidence, e.authority);
    if RecordEvidence(e, o, now).ok {
      RecordIsStep(e.evidence, o, LineAt(e, now), e.policy.requireLive, e.authority);
    }
  }

  lemma AttestEvidenceIsStep(e: State, key: Ev.EvidenceKey, number: EvidenceSeq, now: Time)
    ensures LedgerStep(e.evidence, AttestEvidence(e, key, number, now).state.evidence, e.authority)
  {
    StepReflexive(e.evidence, e.authority);
    if AttestEvidence(e, key, number, now).ok {
      AttestIsStep(e.evidence, key, number, LineAt(e, now), e.authority);
    }
  }

  lemma SetupIsStep(e: State, op: SetupOp, now: Time)
    requires e.policy.requireLive && !op.IncarnationOp?
    requires !(op.LineOp? && InstallLine(e, op.incarnation, op.epoch).ok)
    ensures LedgerStep(e.evidence, NextEvidence(e, op, now), e.authority)
    ensures NextAuthority(e.authority, op, now).incarnation == e.authority.incarnation
    ensures NextAuthority(e.authority, op, now).epoch == e.authority.epoch
  {
    StepReflexive(e.evidence, e.authority);
    match op
    case RecordOp(o) => RecordEvidenceIsStep(e, o, now);
    case AttestOp(key, number) => AttestEvidenceIsStep(e, key, number, now);
    case _ =>
  }

  lemma DrainEventIsStep(e: State, d: DrainId, op: DrainOp, now: Time)
    requires Inv(e) && Roomy(e) && d in e.drains
    ensures LedgerStep(e.evidence, ApplyDrain(e, d, op, now).evidence, e.authority)
    ensures ApplyDrain(e, d, op, now).authority == e.authority
  {
    InvIsReady(e, d);
    OpBooks(e, d, op, now);
    ApplyDrainEffect(e, d, op, now);
  }

  /** Under one line and the live-incarnation policy every event moves the ledger
      by live records only. */
  lemma EventIsStep(e: State, v: Event)
    requires Inv(e) && Roomy(e) && e.policy.requireLive && !MovesIncarnation(v) && !NewLine(e, v)
    ensures LedgerStep(e.evidence, Apply(e, v).evidence, e.authority)
    ensures Apply(e, v).authority.incarnation == e.authority.incarnation
    ensures Apply(e, v).authority.epoch == e.authority.epoch
  {
    StepReflexive(e.evidence, e.authority);
    match v
    case DrainEvent(d, op, now) =>
      if d in e.drains {
        DrainEventIsStep(e, d, op, now);
      }
    case SetupEvent(op, now) => SetupIsStep(e, op, now);
    case _ =>
  }

  /** The line moves only as a whole, and every policy in force demands live
      producers and evidence of quiescence. */
  predicate KeepsDiscipline(v: RunEvent) {
    v.Do? ==>
      && !MovesIncarnation(v.event)
      && (v.event.SetupEvent? && v.event.setup.PolicyOp? ==>
            v.event.setup.policy.requireLive && v.event.setup.policy.requireQuiescence)
  }

  ghost predicate LiveDiscipline(p: Policy, run: seq<RunEvent>) {
    p.requireLive && p.requireQuiescence && forall i :: 0 <= i < |run| ==> KeepsDiscipline(run[i])
  }

  predicate Demanding(p: Policy) {
    p.requireLive && p.requireQuiescence
  }

  lemma LineEventKeepsTrust(e: State, v: Event, since: set<Ev.RecordKey>)
    requires AllTrusted(e, since) && NewLine(e, v)
    ensures AllTrusted(Apply(e, v), {})
  {
    LineKeepsTrust(e, v.setup.incarnation, v.setup.epoch, since);
    var e' := InstallLine(e, v.setup.incarnation, v.setup.epoch).state;
    assert ApplySetup(e, v.setup, v.now).evidence == e'.evidence;
    assert ApplySetup(e, v.setup, v.now).authority == e'.authority;
  }

  lemma {:induction false} RunTrusted(p: Policy, run: seq<RunEvent>, states: seq<State>, i: nat)
    requires IsRun(p, run, states) && LiveDiscipline(p, run) && i < |states|
    ensures AllTrusted(states[i], Since(run, states, i)) && Demanding(states[i].policy)
    decreases i
  {
    if i > 0 {
      SourceBefore(p, run, states, i);
      var k := Source(run, i);
      var e := states[k];
      RunTrusted(p, run, states, k);
      RunKeepsInv(p, run, states, k);
      assert KeepsDiscipline(run[i - 1]);
      if run[i - 1].Restart? {
        RecoverKeepsTrust(e, run[i - 1].now, Since(run, states, k));
      } else {
        ApplyPolicy(e, run[i - 1].event);
        if NewLine(e, run[i - 1].event) {
          LineEventKeepsTrust(e, run[i - 1].event, Since(run, states, k));
        } else {
          EventIsStep(e, run[i - 1].event);
          StepKeepsTrust(e, states[i], Since(run, states, k));
        }
      }
    }
  }

  // ---- The theorems ----------------------------------------------------------------------------

  /** A record of the ledger that was written since the last line, by the live
      producer in the live epoch, and proves something for the drain now. */
  ghost predicate LiveProof(e: State, since: set<Ev.RecordKey>, d: DrainId, k: Ev.RecordKey, now: Time) {
    && d in e.drains && k in e.evidence.records && k in since
    && Live(e.evidence.records[k], e.authority)
    && e.evidence.records[k].generation == e.drains[d].generation
    && e.evidence.records[k].observedAt >= e.drains[d].admissionClosedAt
    && now <= SaturatingAdd(e.evidence.records[k].observedAt, e.policy.freshness)
  }

  lemma ProofIsLive(e: State, since: set<Ev.RecordKey>, d: DrainId, k: Ev.RecordKey, now: Time)
    requires AllTrusted(e, since) && d in e.drains && k in e.evidence.records
    requires Proves(e, e.drains[d], e.evidence.records[k], now)
    ensures LiveProof(e, since, d, k, now)
  {
    assert Trusted(e.evidence.records[k], e.authority, k in since);
  }

  lemma DrainedRecord(e: State, d: DrainId, now: Time)
    requires ProvenDrained(e, d, now) && e.policy.requireQuiescence
    ensures var k := Ev.RecordKey(RemovalKey(e.drains[d]), e.evidence.latest[RemovalKey(e.drains[d])]);
            && k in e.evidence.records && Proves(e, e.drains[d], e.evidence.records[k], now)
            && e.evidence.records[k].number == e.drains[d].completionEvidence
  {
  }

  /** Every entry to Drained rests on an observation of the removal recorded since
      the last line was installed: by the live producer, in the live epoch, of the
      drain's generation, not older than admission closure, inside the freshness
      window; and the record cites its number. */
  lemma DrainedOnLiveEvidence(p: Policy, run: seq<RunEvent>, states: seq<State>, d: DrainId, i: nat)
    requires IsRun(p, run, states) && LiveDiscipline(p, run)
    requires 0 < i < |states| && CompletesAt(run, states, d, i)
    ensures exists k: Ev.RecordKey :: k.key == RemovalKey(states[i].drains[d])
                        && LiveProof(states[i], Since(run, states, i), d, k, run[i - 1].event.now)
                        && states[i].evidence.records[k].number == states[i].drains[d].completionEvidence
  {
    var e := states[i];
    CompletionIsProven(p, run, states, d, i);
    RunTrusted(p, run, states, i);
    DrainedRecord(e, d, run[i - 1].event.now);
    var k := Ev.RecordKey(RemovalKey(e.drains[d]), e.evidence.latest[RemovalKey(e.drains[d])]);
    ProofIsLive(e, Since(run, states, i), d, k, run[i - 1].event.now);
  }

  lemma EventRetires(e: State, v: Event, e': State, o: ObligationId)
    requires Inv(e) && Roomy(e) && v.DrainEvent? && e' == Apply(e, v)
    requires o in e.obligations && o in e'.obligations && e'.obligations[o] != e.obligations[o]
    ensures ProvenRelease(e', v.drain, o, v.now)
  {
    if v.drain in e.drains {
      InvIsReady(e, v.drain);
      OpBooks(e, v.drain, v.call, v.now);
    }
  }

  /** And every obligation the engine itself retires was released by evidence that
      satisfies the same. */
  lemma RetiredOnLiveEvidence(p: Policy, run: seq<RunEvent>, states: seq<State>, o: ObligationId, i: nat)
    requires IsRun(p, run, states) && LiveDiscipline(p, run)
    requires 0 < i < |states| && run[i - 1].Do? && run[i - 1].event.DrainEvent?
    requires o in states[i - 1].obligations && o in states[i].obligations
    requires states[i].obligations[o] != states[i - 1].obligations[o]
    ensures var k := Ev.RecordKey(ReleaseKey(run[i - 1].event.drain, o), states[i].obligations[o].releaseEvidence);
            LiveProof(states[i], Since(run, states, i), run[i - 1].event.drain, k, run[i - 1].event.now)
  {
    SourceBefore(p, run, states, i);
    var e := states[Source(run, i)];
    RunKeepsInv(p, run, states, Source(run, i));
    EventRetires(e, run[i - 1].event, states[i], o);
    RunTrusted(p, run, states, i);
    var k := Ev.RecordKey(ReleaseKey(run[i - 1].event.drain, o), states[i].obligations[o].releaseEvidence);
    ProofIsLive(states[i], Since(run, states, i), run[i - 1].event.drain, k, run[i - 1].event.now);
  }
}
