/** The ledger inside the engine: its index agrees with its records in every
    reachable state, and what that means for a drain that falls back into Blocked. */
module EngineLedger {
  import opened Identity
  import opened Lifecycle
  import opened Engine
  import opened EngineInvariant
  import opened EngineSteps
  import opened EngineOperations
  import opened EngineRuns
  import opened EngineProgress
  import opened EngineProof
  import Ev = Evidence

  lemma SetupKeepsIndex(e: State, op: SetupOp, now: Time)
    requires Ev.Consistent(e.evidence)
    ensures Ev.Consistent(NextEvidence(e, op, now))
  {
    match op
    case RecordOp(o) =>
      if RecordEvidence(e, o, now).ok {
        Ev.RecordKeepsIndex(e.evidence, o, LineAt(e, now), e.policy.requireLive);
      }
    case AttestOp(key, number) =>
      if AttestEvidence(e, key, number, now).ok {
        Ev.AttestKeepsIndex(e.evidence, key, number, LineAt(e, now));
      }
    case PolicyOp(p) => BoundKeepsIndex(e.evidence, p.maxEvidence);
    case LineOp(incarnation, epoch) => Ev.QuarantineKeepsIndex(e.evidence);
    case _ =>
  }

  lemma BoundKeepsIndex(l: Ev.Ledger, bound: nat)
    requires Ev.Consistent(l)
    ensures Ev.Consistent(l.(maxRecords := bound))
  {
    var l' := l.(maxRecords := bound);
    forall k | k in l'.records ensures Ev.Filed(l', k) {
      assert Ev.Filed(l, k);
    }
    forall k | k in l'.latest ensures Ev.Indexed(l', k) {
      assert Ev.Indexed(l, k);
    }
  }

  lemma EventKeepsIndex(e: State, v: Event)
    requires Inv(e) && Roomy(e) && Ev.Consistent(e.evidence)
    ensures Ev.Consistent(Apply(e, v).evidence)
  {
    match v
    case DrainEvent(d, op, now) =>
      if d in e.drains {
        DrainEventIsStep(e, d, op, now);
      }
    case SetupEvent(op, now) => SetupKeepsIndex(e, op, now);
    case _ =>
  }

  lemma RecoverKeepsIndex(e: State, now: Time)
    requires Ev.Consistent(e.evidence)
    ensures Ev.Consistent(Recover(e, now).evidence)
  {
    Ev.QuarantineKeepsIndex(e.evidence);
    BoundKeepsIndex(Ev.QuarantineAll(e.evidence), e.policy.maxEvidence);
  }

  /** Index and records agree in every state of every run. */
  lemma {:induction false} RunIndexAgrees(p: Policy, run: seq<RunEvent>, states: seq<State>, i: nat)
    requires IsRun(p, run, states) && i < |states|
    ensures Ev.Consistent(states[i].evidence)
    decreases i
  {
    if i > 0 {
      SourceBefore(p, run, states, i);
      var k := Source(run, i);
      RunIndexAgrees(p, run, states, k);
      if run[i - 1].Do? {
        RunKeepsInv(p, run, states, k);
        EventKeepsIndex(states[k], run[i - 1].event);
      } else {
        RecoverKeepsIndex(states[k], run[i - 1].now);
      }
    }
  }

  /** The event is a step that clears the blocked drain. */
  predicate Clears(e: State, v: Event, d: DrainId) {
    && v.DrainEvent? && v.drain == d && v.call.StepOp? && v.call.digest != 0
    && d in e.drains && e.drains[d].state == Blocked && Revalidate(e, d, v.now).ok
  }

  /** Blocked again exactly on a refusal; done when it came from Verifying. */
  ghost predicate NoBounce(e: State, e': State, d: DrainId, now: Time)
    requires d in e.drains
  {
    && d in e'.drains && (e'.drains[d].state == Blocked <==> Refused(e, d, now))
    && (Phase(e.drains[d]) == Verifying ==> e'.drains[d].state == Drained)
  }

  lemma StepEvent(e: State, d: DrainId, now: Time, digest: nat)
    requires d in e.drains && digest != 0
    ensures Apply(e, DrainEvent(d, StepOp(digest), now)) == StepDrain(e, d, now, digest)
  {
  }

  lemma StepSettles(e: State, e': State, d: DrainId, now: Time, digest: nat)
    requires Ready(e, d) && Ev.Consistent(e.evidence) && e.drains[d].state == Blocked && digest != 0
    requires Revalidate(e, d, now).ok && e' == StepDrain(e, d, now, digest)
    ensures NoBounce(e, e', d, now)
  {
    NoOscillation(e, e', d, now, digest);
  }

  /** No oscillation over runs: a step that clears a blocked drain leaves it Blocked
      exactly when the fence table or the ledger was full against it, and one that
      clears it from Verifying completes it. */
  lemma RunNoOscillation(p: Policy, run: seq<RunEvent>, states: seq<State>, d: DrainId, i: nat)
    requires IsRun(p, run, states) && i < |run| && run[i].Do? && Clears(states[i], run[i].event, d)
    ensures NoBounce(states[i], states[i + 1], d, run[i].event.now)
  {
    SourceBefore(p, run, states, i + 1);
    RunKeepsInv(p, run, states, i);
    RunIndexAgrees(p, run, states, i);
    InvIsReady(states[i], d);
    StepEvent(states[i], d, run[i].event.now, run[i].event.call.digest);
    StepSettles(states[i], states[i + 1], d, run[i].event.now, run[i].event.call.digest);
  }
}
