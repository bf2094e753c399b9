/** Instants over whole runs: the settle window after admission closes, the pause between
    evacuation rounds, the deadline of an obligation, and what a restart does. */
module EngineTiming {
  import opened Identity
  import opened Lifecycle
  import opened Engine
  import opened EngineInvariant
  import opened EngineSteps
  import opened EngineOperations
  import opened EngineRuns
  import opened EngineSafety
  import opened EngineProgress
  import opened EngineStages
  import Ad = Admission
  import Calls = EngineCalls
  import Moves = EngineMoves

  // ---- Restarts ----------------------------------------------------------------------------------

  /** Every restart of every run leaves no drain on its way: each that was is Blocked where
      the snapshot has it, at the instant of the restart, on the pending recovery alone. */
  lemma RestartBlocks(p: Policy, run: seq<RunEvent>, states: seq<State>, i: nat)
    requires IsRun(p, run, states) && i < |run| && run[i].Restart?
    ensures run[i].snapshot <= i && states[i + 1].drains.Keys == states[run[i].snapshot].drains.Keys
    ensures forall d :: d in states[i + 1].drains ==>
              && Moves.Recovered(states[run[i].snapshot].drains[d], run[i].now, states[i + 1].drains[d])
              && states[i + 1].drains[d].state in {Requested, Drained, Blocked, Cancelled, DrainState.Failed}
  {
    assert Follows(run, states, i);
    Moves.RecoveryBlocks(states[run[i].snapshot], run[i].now);
  }

  // ---- What one operation stamps -------------------------------------------------------------------

  /** A record is stamped by closing admission and by issuing a round, and by nothing else. */
  predicate Stamps(r: DrainRecord, now: Time, r': DrainRecord) {
    && (|| (r'.admissionClosedAt == r.admissionClosedAt && (IsHolding(Phase(r')) ==> IsHolding(r.state)))
        || (r.state == Validating && r'.admissionClosedAt == now))
    && (|| (r'.lastEvacuationAt == r.lastEvacuationAt && r'.evacuationRequests == r.evacuationRequests)
        || (r'.lastEvacuationAt == now && r'.evacuationRequests == r.evacuationRequests + 1))
  }

  lemma StampsValidating(e: State, d: DrainId, now: Time, digest: nat)
    requires d in e.drains && e.drains[d].state == Validating
    ensures var e' := StepDrain(e, d, now, digest);
            d in e'.drains && Stamps(e.drains[d], now, e'.drains[d])
  {
    Moves.ActsValidating(e, d, now, digest);
    Moves.EnterBlockedIs(e, d, StateBlockers(e, e.drains[d], Validating, now), now);
    Moves.ClosesAdmission(e, d, now, Ad.Close(e.fence, e.drains[d].target, d));
  }

  lemma StampsSettled(e: State, d: DrainId, now: Time, e': State)
    requires d in e.drains && e.drains[d].state == AdmissionClosed && Moves.SettledAt(e, d, now, e')
    ensures d in e'.drains && Stamps(e.drains[d], now, e'.drains[d])
  {
    if e' != e {
      assert d in e'.drains && IsHolding(e'.drains[d].state);
    }
  }

  lemma StampsEvacuated(e: State, d: DrainId, now: Time, e': State)
    requires d in e.drains && e.drains[d].state == DrainState.Evacuating && Moves.Evacuated(e, d, now, e')
    ensures d in e'.drains && Stamps(e.drains[d], now, e'.drains[d])
  {
    if Moves.HeldOn(e, d, now, e') {
      HeldStamps(e.drains[d], now, e'.drains[d].blockers, e'.drains[d]);
    }
  }

  lemma HeldStamps(r: DrainRecord, now: Time, blockers: set<Blocker>, r': DrainRecord)
    requires Moves.Held(r, now, blockers, r')
    ensures Stamps(r, now, r')
  {
  }

  lemma StampsQuiesced(e: State, d: DrainId, now: Time, e': State)
    requires d in e.drains && e.drains[d].state == DrainState.Quiescing && Moves.Quiesced(e, d, now, e')
    ensures d in e'.drains && Stamps(e.drains[d], now, e'.drains[d])
  {
    if Moves.HeldOn(e, d, now, e') {
      HeldStamps(e.drains[d], now, e'.drains[d].blockers, e'.drains[d]);
    } else if Moves.TakenDown(e, d, now, e') {
      StampsDown(e, d, now, e');
    }
  }

  lemma StampsDown(e: State, d: DrainId, now: Time, e': State)
    requires d in e.drains && e.drains[d].state == DrainState.Quiescing && Moves.TakenDown(e, d, now, e')
    ensures d in e'.drains && Stamps(e.drains[d], now, e'.drains[d])
  {
  }

  lemma StampsVerified(e: State, d: DrainId, now: Time, digest: nat, e': State)
    requires d in e.drains && e.drains[d].state == Verifying && Moves.Verified(e, d, now, digest, e')
    ensures d in e'.drains && Stamps(e.drains[d], now, e'.drains[d])
  {
  }

  lemma StampsReturned(e: State, d: DrainId, now: Time, e': State)
    requires d in e.drains && e.drains[d].state == Restoring && Moves.Returned(e, d, now, e')
    ensures d in e'.drains && Stamps(e.drains[d], now, e'.drains[d])
  {
  }

  lemma StepStamps(e: State, d: DrainId, now: Time, digest: nat, e': State)
    requires d in e.drains && e.drains[d].state != Blocked && e' == StepDrain(e, d, now, digest)
    ensures d in e'.drains && Stamps(e.drains[d], now, e'.drains[d])
  {
    match e.drains[d].state
    case Requested => Moves.StepRequested(e, d, now, digest);
    case Validating => StampsValidating(e, d, now, digest);
    case AdmissionClosed =>
      Moves.StepSettles(e, d, now, digest);
      StampsSettled(e, d, now, e');
    case Evacuating =>
      Moves.StepEvacuates(e, d, now, digest);
      StampsEvacuated(e, d, now, e');
    case Quiescing =>
      Moves.StepQuiesces(e, d, now, digest);
      StampsQuiesced(e, d, now, e');
    case Verifying =>
      Moves.StepVerifies(e, d, now, digest);
      StampsVerified(e, d, now, digest, e');
    case Restoring =>
      Moves.StepReturns(e, d, now, digest);
      StampsReturned(e, d, now, e');
    case _ => SettledStays(e, d, now, digest);
  }

  // ---- What one event does to the window and the round ------------------------------------------------

  /** The event lets the drain enter AdmissionClosed: a step that closes admission, or a
      step or resume of a drain that was held there. */
  predicate OpensWindow(e: State, v: Event, d: DrainId) {
    && v.DrainEvent? && v.drain == d && d in e.drains && (v.call.StepOp? || v.call.ResumeOp?)
    && (Phase(e.drains[d]) == Validating || (e.drains[d].state == Blocked && Phase(e.drains[d]) == AdmissionClosed))
  }

  /** A drain past closure has its window from before, or from this event. */
  predicate WindowFrom(e: State, v: Event, d: DrainId, r: DrainRecord, r': DrainRecord) {
    IsHolding(Phase(r')) ==>
      || (IsHolding(Phase(r)) && r'.admissionClosedAt == r.admissionClosedAt)
      || (OpensWindow(e, v, d) && r'.admissionClosedAt == v.now)
  }

  /** A counted round is from before, or issued by this event. */
  predicate RoundFrom(e: State, v: Event, d: DrainId, r: DrainRecord, r': DrainRecord) {
    r'.evacuationRequests > 0 ==>
      || (r.evacuationRequests > 0 && r'.lastEvacuationAt == r.lastEvacuationAt)
      || (Issues(e, v, d) && r'.lastEvacuationAt == v.now)
  }

  lemma ResumedStamps(r: DrainRecord, now: Time, r': DrainRecord)
    requires r.state == Blocked && r.blockedFrom.Some? && IsTransient(r.blockedFrom.value)
    requires Stamps(Moves.Resumed(r, now), now, r')
    ensures IsHolding(Phase(r')) ==>
              || (IsHolding(Phase(r)) && r'.admissionClosedAt == r.admissionClosedAt)
              || ((Phase(r) == Validating || Phase(r) == AdmissionClosed) && r'.admissionClosedAt == now)
    ensures (r'.lastEvacuationAt == r.lastEvacuationAt && r'.evacuationRequests == r.evacuationRequests)
         || (r'.lastEvacuationAt == now && r'.evacuationRequests == r.evacuationRequests + 1)
  {
  }

  lemma BlockedStep(e: State, d: DrainId, now: Time, digest: nat)
    requires Inv(e) && d in e.drains && e.drains[d].state == Blocked
    ensures var r, e' := e.drains[d], StepDrain(e, d, now, digest);
            && d in e'.drains
            && (IsHolding(Phase(e'.drains[d])) ==>
                  || (IsHolding(Phase(r)) && e'.drains[d].admissionClosedAt == r.admissionClosedAt)
                  || ((Phase(r) == Validating || Phase(r) == AdmissionClosed) && e'.drains[d].admissionClosedAt == now))
            && (|| (e'.drains[d].lastEvacuationAt == r.lastEvacuationAt
                    && e'.drains[d].evacuationRequests == r.evacuationRequests)
                || (e'.drains[d].lastEvacuationAt == now
                    && e'.drains[d].evacuationRequests == r.evacuationRequests + 1))
  {
    var r := e.drains[d];
    assert RecordOk(e.fence, e.drainHighWater, d, r);
    var e1 := if r.blockedFrom.value == Verifying then Moves.LookedAgain(e, r, now) else e;
    Moves.RejudgesFrom(e, d, now, digest, e1);
    if !Moves.Stopped(e1, r, r.blockedFrom.value, now) {
      var e2 := e1.(drains := e1.drains[d := Moves.Resumed(r, now)]);
      StepStamps(e2, d, now, digest, StepDrain(e2, d, now, digest));
      ResumedStamps(r, now, StepDrain(e2, d, now, digest).drains[d]);
    }
  }

  lemma StepEvent(e: State, v: Event, d: DrainId)
    requires Inv(e) && Roomy(e) && d in e.drains
    requires v.DrainEvent? && v.drain == d && v.call.StepOp? && v.call.digest != 0
    ensures var e' := StepDrain(e, d, v.now, v.call.digest);
            && d in e'.drains && WindowFrom(e, v, d, e.drains[d], e'.drains[d])
            && RoundFrom(e, v, d, e.drains[d], e'.drains[d])
  {
    InvIsReady(e, d);
    StepCount(e, d, v.now, v.call.digest);
    if e.drains[d].state == Blocked {
      BlockedStep(e, d, v.now, v.call.digest);
    } else {
      StepStamps(e, d, v.now, v.call.digest, StepDrain(e, d, v.now, v.call.digest));
    }
  }

  lemma ResumeEvent(e: State, v: Event, d: DrainId)
    requires Inv(e) && d in e.drains && v.DrainEvent? && v.drain == d && v.call.ResumeOp?
    ensures var e' := Resume(e, d, v.call.authority, v.now).state;
            && d in e'.drains && WindowFrom(e, v, d, e.drains[d], e'.drains[d])
            && RoundFrom(e, v, d, e.drains[d], e'.drains[d])
  {
    Moves.ResumeIff(e, d, v.call.authority, v.now);
  }

  lemma DrainStamps(e: State, v: Event, d: DrainId)
    requires Inv(e) && Roomy(e) && d in e.drains && v.DrainEvent? && v.drain == d
    ensures var e' := ApplyDrain(e, d, v.call, v.now);
            && d in e'.drains && WindowFrom(e, v, d, e.drains[d], e'.drains[d])
            && RoundFrom(e, v, d, e.drains[d], e'.drains[d])
  {
    match v.call
    case CancelOp(token) => CancelEvent(e, d, token, v.now, ApplyDrain(e, d, v.call, v.now));
    case RestoreOp(token) => RestoreEvent(e, d, token, v.now, ApplyDrain(e, d, v.call, v.now));
    case ResumeOp(token) => ResumeEvent(e, v, d);
    case GrantOp(o, extension, token) => GrantEvent(e, d, o, extension, token, v.now, ApplyDrain(e, d, v.call, v.now));
    case StepOp(digest) =>
      if digest != 0 {
        StepEvent(e, v, d);
      }
  }

  lemma CancelEvent(e: State, d: DrainId, token: AuthorityId, now: Time, e': State)
    requires d in e.drains && e' == Cancel(e, d, token, now).state
    ensures d in e'.drains
    ensures e'.drains[d] == e.drains[d] || e'.drains[d].state == Cancelled
    ensures e'.drains[d].lastEvacuationAt == e.drains[d].lastEvacuationAt
    ensures e'.drains[d].evacuationRequests == e.drains[d].evacuationRequests
  {
    Calls.CancelIff(e, d, token, now);
  }

  lemma GrantEvent(e: State, d: DrainId, o: ObligationId, extension: int, token: AuthorityId, now: Time, e': State)
    requires d in e.drains && e' == GrantException(e, d, o, extension, token, now).state
    ensures d in e'.drains
    ensures e'.drains[d] == e.drains[d] || e'.drains[d] == e.drains[d].(evacuationRequests := 0)
  {
    Calls.GrantIff(e, d, o, extension, token, now);
  }

  lemma RestoreEvent(e: State, d: DrainId, token: AuthorityId, now: Time, e': State)
    requires Inv(e) && Roomy(e) && d in e.drains && e' == Restore(e, d, token, now).state
    ensures d in e'.drains
    ensures e'.drains[d] == e.drains[d] || (e'.drains[d].state == Restoring && IsSettled(e.drains[d].state))
    ensures e'.drains[d].lastEvacuationAt == e.drains[d].lastEvacuationAt
    ensures e'.drains[d].evacuationRequests == e.drains[d].evacuationRequests
  {
    Calls.RestoreIff(e, d, token, now);
  }

  lemma EventStamps(e: State, v: Event, d: DrainId, e': State)
    requires Inv(e) && Roomy(e) && d in e.drains && e' == Apply(e, v)
    ensures d in e'.drains
    ensures WindowFrom(e, v, d, e.drains[d], e'.drains[d])
    ensures RoundFrom(e, v, d, e.drains[d], e'.drains[d])
  {
    if v.DrainEvent? && v.drain == d {
      DrainStamps(e, v, d);
    } else {
      OthersUntouched(e, v, d);
    }
  }

  // ---- Over the history ---------------------------------------------------------------------------------

  function Instant(v: RunEvent): Time {
    if v.Do? then v.event.now else v.now
  }

  /** Event k of the run, on the history of state j, let the drain enter AdmissionClosed. */
  ghost predicate OpenedAt(run: seq<RunEvent>, states: seq<State>, d: DrainId, k: nat, j: nat) {
    && k < |run| && k < |states| && run[k].Do? && OpensWindow(states[k], run[k].event, d)
    && OnHistory(run, k, j)
  }

  /** Event k of the run, on the history of state j, issued a round of the drain. */
  ghost predicate IssuedAt(run: seq<RunEvent>, states: seq<State>, d: DrainId, k: nat, j: nat) {
    && k < |run| && k < |states| && run[k].Do? && Issues(states[k], run[k].event, d)
    && OnHistory(run, k, j)
  }

  lemma RecoverKeepsStamps(e: State, now: Time, d: DrainId)
    requires d in e.drains
    ensures var r, r' := e.drains[d], Recover(e, now).drains[d];
            && Phase(r') == Phase(r) && r'.admissionClosedAt == r.admissionClosedAt
            && r'.lastEvacuationAt == r.lastEvacuationAt && r'.evacuationRequests == r.evacuationRequests
  {
    Moves.RecoveredIs(e.drains[d], now);
  }

  /** The window of a drain past closure started at an event of its history. */
  lemma {:induction false} WindowOpened(p: Policy, run: seq<RunEvent>, states: seq<State>, d: DrainId, j: nat)
    returns (k: nat)
    requires IsRun(p, run, states) && j < |states| && d in states[j].drains && IsHolding(Phase(states[j].drains[d]))
    ensures k < j && OpenedAt(run, states, d, k, j)
    ensures Instant(run[k]) == states[j].drains[d].admissionClosedAt
    decreases j
  {
    SourceBefore(p, run, states, j);
    var i := Source(run, j);
    RunKeepsInv(p, run, states, i);
    NewIsFresh(p, run, states, d, j);
    if run[j - 1].Restart? {
      RecoverKeepsStamps(states[i], run[j - 1].now, d);
      k := WindowOpened(p, run, states, d, i);
    } else {
      EventStamps(states[i], run[i].event, d, states[j]);
      if OpensWindow(states[i], run[i].event, d) && states[j].drains[d].admissionClosedAt == run[i].event.now {
        k := i;
      } else {
        k := WindowOpened(p, run, states, d, i);
      }
    }
  }

  /** A drain that a state does not have from its source is newly requested. */
  lemma NewIsFresh(p: Policy, run: seq<RunEvent>, states: seq<State>, d: DrainId, j: nat)
    requires IsRun(p, run, states) && 0 < j < |states| && d in states[j].drains
    ensures Source(run, j) < j
    ensures d !in states[Source(run, j)].drains ==>
              states[j].drains[d].state == Requested && states[j].drains[d].evacuationRequests == 0
  {
    SourceBefore(p, run, states, j);
    var i := Source(run, j);
    RunKeepsInv(p, run, states, i);
    if run[j - 1].Do? {
      ApplyDrainsProgress(states[i], run[j - 1].event);
      assert d !in states[i].drains ==> Fresh(states[i].drainHighWater, d, states[j].drains[d]);
    }
  }

  /** The last round a drain counts was issued at an event of its history. */
  lemma {:induction false} RoundWasIssued(p: Policy, run: seq<RunEvent>, states: seq<State>, d: DrainId, j: nat)
    returns (k: nat)
    requires IsRun(p, run, states) && j < |states| && d in states[j].drains
    requires states[j].drains[d].evacuationRequests > 0
    ensures k < j && IssuedAt(run, states, d, k, j)
    ensures Instant(run[k]) == states[j].drains[d].lastEvacuationAt
    decreases j
  {
    SourceBefore(p, run, states, j);
    var i := Source(run, j);
    RunKeepsInv(p, run, states, i);
    NewIsFresh(p, run, states, d, j);
    if run[j - 1].Restart? {
      RecoverKeepsStamps(states[i], run[j - 1].now, d);
      k := RoundWasIssued(p, run, states, d, i);
    } else {
      EventStamps(states[i], run[i].event, d, states[j]);
      if Issues(states[i], run[i].event, d) && states[j].drains[d].lastEvacuationAt == run[i].event.now {
        k := i;
      } else {
        k := RoundWasIssued(p, run, states, d, i);
      }
    }
  }

  // ---- The settle window ----------------------------------------------------------------------------------

  /** The event takes the drain from AdmissionClosed on towards removal. */
  predicate LeavesWindow(e: State, e': State, d: DrainId) {
    && d in e.drains && d in e'.drains && Phase(e.drains[d]) == AdmissionClosed
    && Phase(e'.drains[d]) != AdmissionClosed && e'.drains[d].state != Cancelled
  }

  /** Only a step does that, and not before the window it found, or opened itself, is over. */
  lemma LeavesInTime(e: State, v: Event, d: DrainId, e': State)
    requires Inv(e) && Roomy(e) && e' == Apply(e, v) && LeavesWindow(e, e', d)
    ensures v.DrainEvent? && v.drain == d && v.call.StepOp?
    ensures e.drains[d].state == AdmissionClosed ==>
              v.now >= SaturatingAdd(e.drains[d].admissionClosedAt, e.policy.settle)
    ensures e.drains[d].state != AdmissionClosed ==>
              OpensWindow(e, v, d) && v.now >= SaturatingAdd(v.now, e.policy.settle)
  {
    if !(v.DrainEvent? && v.drain == d) {
      OthersUntouched(e, v, d);
    } else {
      match v.call
      case CancelOp(token) => CancelEvent(e, d, token, v.now, e');
      case RestoreOp(token) => RestoreEvent(e, d, token, v.now, e');
      case ResumeOp(token) => ResumeStays(e, d, token, v.now);
      case GrantOp(o, extension, token) => GrantEvent(e, d, o, extension, token, v.now, e');
      case StepOp(digest) =>
        if digest != 0 {
          StepLeaves(e, d, v.now, digest);
        }
    }
  }

  lemma ResumeStays(e: State, d: DrainId, token: AuthorityId, now: Time)
    requires Inv(e) && d in e.drains && Phase(e.drains[d]) == AdmissionClosed
    ensures var e' := Resume(e, d, token, now).state;
            d in e'.drains && Phase(e'.drains[d]) == AdmissionClosed
  {
    Moves.ResumeIff(e, d, token, now);
  }

  lemma StepLeaves(e: State, d: DrainId, now: Time, digest: nat)
    requires Inv(e) && d in e.drains && Phase(e.drains[d]) == AdmissionClosed
    requires d in StepDrain(e, d, now, digest).drains
    requires Phase(StepDrain(e, d, now, digest).drains[d]) != AdmissionClosed
    ensures if e.drains[d].state == AdmissionClosed
            then now >= SaturatingAdd(e.drains[d].admissionClosedAt, e.policy.settle)
            else e.drains[d].state == Blocked && now >= SaturatingAdd(now, e.policy.settle)
  {
    if e.drains[d].state == AdmissionClosed {
      Moves.StepSettles(e, d, now, digest);
    } else {
      var r := e.drains[d];
      assert RecordOk(e.fence, e.drainHighWater, d, r);
      Moves.RejudgesFrom(e, d, now, digest, e);
      var e2 := e.(drains := e.drains[d := Moves.Resumed(r, now)]);
      Moves.StepSettles(e2, d, now, digest);
    }
  }

  /** Over every run and through every restart: a drain leaves AdmissionClosed towards
      removal only by a step, and no earlier than settle after the event of its history
      that let it enter. */
  lemma SettleRespected(p: Policy, run: seq<RunEvent>, states: seq<State>, d: DrainId, i: nat)
    requires IsRun(p, run, states) && i < |run| && run[i].Do? && LeavesWindow(states[i], states[i + 1], d)
    ensures exists k: nat :: k <= i && OpenedAt(run, states, d, k, i)
              && Instant(run[i]) >= SaturatingAdd(Instant(run[k]), states[i].policy.settle)
  {
    var k := WindowBefore(p, run, states, d, i);
  }

  lemma WindowBefore(p: Policy, run: seq<RunEvent>, states: seq<State>, d: DrainId, i: nat) returns (k: nat)
    requires IsRun(p, run, states) && i < |run| && run[i].Do? && LeavesWindow(states[i], states[i + 1], d)
    ensures k <= i && OpenedAt(run, states, d, k, i)
    ensures Instant(run[i]) >= SaturatingAdd(Instant(run[k]), states[i].policy.settle)
  {
    assert Follows(run, states, i);
    RunKeepsInv(p, run, states, i);
    LeavesInTime(states[i], run[i].event, d, states[i + 1]);
    if states[i].drains[d].state == AdmissionClosed {
      k := WindowOpened(p, run, states, d, i);
    } else {
      k := i;
    }
  }

  // ---- The first closure, under a clock that does not go back -------------------------------------------------

  ghost predicate ClockForward(run: seq<RunEvent>) {
    forall a, b :: 0 <= a <= b < |run| ==> Instant(run[a]) <= Instant(run[b])
  }

  /** Event k closed admission for the drain: it stood, or was held, in Validating before. */
  ghost predicate ClosedAt(run: seq<RunEvent>, states: seq<State>, d: DrainId, k: nat, j: nat) {
    && k < |run| && k < |states| && run[k].Do? && OnHistory(run, k, j)
    && OpensWindow(states[k], run[k].event, d) && Phase(states[k].drains[d]) == Validating
  }

  lemma {:induction false} HistoryJoins(run: seq<RunEvent>, a: nat, b: nat, c: nat)
    requires OnHistory(run, a, b) && OnHistory(run, b, c)
    ensures OnHistory(run, a, c)
    decreases c
  {
    if b != c {
      HistoryJoins(run, a, b, Source(run, c));
    }
  }

  lemma {:induction false} ClosureOf(p: Policy, run: seq<RunEvent>, states: seq<State>, d: DrainId, k: nat, j: nat)
    returns (c: nat)
    requires IsRun(p, run, states) && j < |states| && k <= j
    requires OpenedAt(run, states, d, k, j)
    ensures c <= k && ClosedAt(run, states, d, c, j)
    decreases k
  {
    if Phase(states[k].drains[d]) == Validating {
      c := k;
    } else {
      var before := WindowOpened(p, run, states, d, k);
      HistoryJoins(run, before, k, j);
      c := ClosureOf(p, run, states, d, before, j);
    }
  }

  /** When the clock does not go back, settle also holds from the event that closed
      admission in the first place, whatever blocked and resumed the drain since. */
  lemma SettleSinceClosure(p: Policy, run: seq<RunEvent>, states: seq<State>, d: DrainId, i: nat)
    requires IsRun(p, run, states) && i < |run| && run[i].Do? && LeavesWindow(states[i], states[i + 1], d)
    requires ClockForward(run)
    ensures exists c: nat :: c <= i && ClosedAt(run, states, d, c, i)
              && Instant(run[i]) >= SaturatingAdd(Instant(run[c]), states[i].policy.settle)
  {
    var k := WindowBefore(p, run, states, d, i);
    var c := ClosureOf(p, run, states, d, k, i);
    assert Instant(run[c]) <= Instant(run[k]);
  }

  // ---- The pause between rounds ---------------------------------------------------------------------------

  lemma RoundIsDue(e: State, d: DrainId, now: Time)
    requires Inv(e) && d in e.drains && RoundIssued(e, d, now) && e.drains[d].evacuationRequests > 0
    ensures now >= SaturatingAdd(e.drains[d].lastEvacuationAt, e.policy.retryInterval)
  {
    if e.drains[d].state == Blocked {
      assert RecordOk(e.fence, e.drainHighWater, d, e.drains[d]);
      Moves.JudgedIs(e, d, now);
    }
  }

  /** Over every run: a round that is not the first under its grant comes no earlier than
      the retry interval after the one before it on its history. */
  lemma RoundsSpaced(p: Policy, run: seq<RunEvent>, states: seq<State>, d: DrainId, i: nat)
    requires IsRun(p, run, states) && i < |run| && run[i].Do? && Issues(states[i], run[i].event, d)
    requires states[i].drains[d].evacuationRequests > 0
    ensures exists k: nat :: k < i && IssuedAt(run, states, d, k, i)
              && Instant(run[i]) >= SaturatingAdd(Instant(run[k]), states[i].policy.retryInterval)
  {
    RunKeepsInv(p, run, states, i);
    RoundIsDue(states[i], d, run[i].event.now);
    var k := RoundWasIssued(p, run, states, d, i);
  }

  // ---- The ledger's bound ----------------------------------------------------------------------------------

  /** Neither the policy nor the bound of the ledger moves. */
  predicate SameBound(e: State, e': State) {
    e'.policy == e.policy && e'.evidence.maxRecords == e.evidence.maxRecords
  }

  lemma FilingBound(e: State, r: DrainRecord, now: Time)
    ensures Moves.Filing(e, r, now).Recorded? ==>
              Moves.Filing(e, r, now).ledger.maxRecords == e.evidence.maxRecords
    ensures SameBound(e, Moves.LookedAgain(e, r, now)) && Moves.LookedAgain(e, r, now).drains == e.drains
  {
  }

  lemma OnlyBound(e: State, d: DrainId, r': DrainRecord, e': State)
    requires Moves.Only(e, d, r', e')
    ensures SameBound(e, e')
  {
  }

  lemma BoundValidating(e: State, d: DrainId, now: Time, digest: nat)
    requires d in e.drains && e.drains[d].state == Validating
    ensures SameBound(e, StepDrain(e, d, now, digest))
  {
    Moves.ActsValidating(e, d, now, digest);
    Moves.EnterBlockedIs(e, d, StateBlockers(e, e.drains[d], Validating, now), now);
    Moves.ClosesAdmission(e, d, now, Ad.Close(e.fence, e.drains[d].target, d));
  }

  lemma BoundSettled(e: State, d: DrainId, now: Time, e': State)
    requires d in e.drains && Moves.SettledAt(e, d, now, e')
    ensures SameBound(e, e')
  {
  }

  lemma BoundEvacuated(e: State, d: DrainId, now: Time, e': State)
    requires d in e.drains && Moves.Evacuated(e, d, now, e')
    ensures SameBound(e, e')
  {
    if Moves.HeldOn(e, d, now, e') {
      OnlyBound(e, d, e'.drains[d], e');
    }
  }

  lemma BoundDown(e: State, d: DrainId, now: Time, e': State)
    requires d in e.drains && Moves.TakenDown(e, d, now, e')
    ensures SameBound(e, e')
  {
    FilingBound(e, e.drains[d], now);
  }

  lemma BoundQuiesced(e: State, d: DrainId, now: Time, e': State)
    requires d in e.drains && Moves.Quiesced(e, d, now, e')
    ensures SameBound(e, e')
  {
    if Moves.HeldOn(e, d, now, e') {
      OnlyBound(e, d, e'.drains[d], e');
    } else if Moves.TakenDown(e, d, now, e') {
      BoundDown(e, d, now, e');
    }
  }

  lemma BoundVerified(e: State, d: DrainId, now: Time, digest: nat, e': State)
    requires d in e.drains && Moves.Verified(e, d, now, digest, e')
    ensures SameBound(e, e')
  {
    var r := e.drains[d];
    FilingBound(e, r, now);
    var e1 := if Moves.Stopped(e, r, Verifying, now) then Moves.LookedAgain(e, r, now) else e;
    assert d in e'.drains && Moves.Only(e1, d, e'.drains[d], e');
    OnlyBound(e1, d, e'.drains[d], e');
  }

  lemma BoundReturned(e: State, d: DrainId, now: Time, e': State)
    requires d in e.drains && Moves.Returned(e, d, now, e')
    ensures SameBound(e, e')
  {
  }

  lemma StepBound(e: State, d: DrainId, now: Time, digest: nat, e': State)
    requires d in e.drains && e.drains[d].state != Blocked && e' == StepDrain(e, d, now, digest)
    ensures SameBound(e, e')
  {
    match e.drains[d].state
    case Requested => Moves.StepRequested(e, d, now, digest);
    case Validating => BoundValidating(e, d, now, digest);
    case AdmissionClosed =>
      Moves.StepSettles(e, d, now, digest);
      BoundSettled(e, d, now, e');
    case Evacuating =>
      Moves.StepEvacuates(e, d, now, digest);
      BoundEvacuated(e, d, now, e');
    case Quiescing =>
      Moves.StepQuiesces(e, d, now, digest);
      BoundQuiesced(e, d, now, e');
    case Verifying =>
      Moves.StepVerifies(e, d, now, digest);
      BoundVerified(e, d, now, digest, e');
    case Restoring =>
      Moves.StepReturns(e, d, now, digest);
      BoundReturned(e, d, now, e');
    case _ => SettledStays(e, d, now, digest);
  }

  lemma BlockedBound(e: State, d: DrainId, now: Time, digest: nat)
    requires Inv(e) && d in e.drains && e.drains[d].state == Blocked
    ensures SameBound(e, StepDrain(e, d, now, digest))
  {
    var r := e.drains[d];
    assert RecordOk(e.fence, e.drainHighWater, d, r);
    FilingBound(e, r, now);
    var e1 := if r.blockedFrom.value == Verifying then Moves.LookedAgain(e, r, now) else e;
    Moves.RejudgesFrom(e, d, now, digest, e1);
    if !Moves.Stopped(e1, r, r.blockedFrom.value, now) {
      var e2 := e1.(drains := e1.drains[d := Moves.Resumed(r, now)]);
      StepBound(e2, d, now, digest, StepDrain(e2, d, now, digest));
    }
  }

  lemma OperatorBound(e: State, d: DrainId, op: DrainOp, now: Time)
    requires Inv(e) && Roomy(e) && d in e.drains && !op.StepOp?
    ensures SameBound(e, ApplyDrain(e, d, op, now))
  {
    match op
    case CancelOp(token) => Calls.CancelIff(e, d, token, now);
    case RestoreOp(token) => RestoreBound(e, d, token, now);
    case ResumeOp(token) => ResumeBound(e, d, token, now);
    case GrantOp(o, extension, token) => Calls.GrantIff(e, d, o, extension, token, now);
  }

  lemma RestoreBound(e: State, d: DrainId, token: AuthorityId, now: Time)
    requires d in e.drains
    ensures SameBound(e, Restore(e, d, token, now).state)
  {
  }

  lemma ResumeBound(e: State, d: DrainId, token: AuthorityId, now: Time)
    requires Inv(e) && d in e.drains
    ensures SameBound(e, Resume(e, d, token, now).state)
  {
    Moves.ResumeIff(e, d, token, now);
  }

  lemma DrainBounded(e: State, d: DrainId, op: DrainOp, now: Time)
    requires Inv(e) && Roomy(e) && d in e.drains && Calls.Bounded(e)
    ensures Calls.Bounded(ApplyDrain(e, d, op, now))
  {
    if !op.StepOp? {
      OperatorBound(e, d, op, now);
    } else if op.digest != 0 {
      if e.drains[d].state == Blocked {
        BlockedBound(e, d, now, op.digest);
      } else {
        StepBound(e, d, now, op.digest, StepDrain(e, d, now, op.digest));
      }
    }
  }

  /** In every state of every run, through policy changes and restarts, the ledger holds at
      most what the policy in force allows it to take in. */
  lemma {:induction false} RunBounded(p: Policy, run: seq<RunEvent>, states: seq<State>, i: nat)
    requires IsRun(p, run, states) && i < |states|
    ensures Calls.Bounded(states[i])
    decreases i
  {
    if i > 0 {
      SourceBefore(p, run, states, i);
      var k := Source(run, i);
      RunBounded(p, run, states, k);
      RunKeepsInv(p, run, states, k);
      if run[i - 1].Do? {
        EventBounded(states[k], run[i - 1].event);
      }
    }
  }

  lemma EventBounded(e: State, v: Event)
    requires Inv(e) && Roomy(e) && Calls.Bounded(e)
    ensures Calls.Bounded(Apply(e, v))
  {
    match v
    case DrainEvent(d, op, now) =>
      if d in e.drains {
        DrainBounded(e, d, op, now);
      }
    case SetupEvent(op, now) => Calls.SetupBounded(e, op, now);
    case _ =>
  }

  // ---- Deadlines ----------------------------------------------------------------------------------------

  ghost predicate AllPositive(e: State) {
    forall d :: Positive(GrantsOf(e, d))
  }

  lemma GrantStaysPositive(e: State, d: DrainId, o: ObligationId, extension: int, token: AuthorityId, now: Time)
    requires AllPositive(e)
    ensures AllPositive(GrantException(e, d, o, extension, token, now).state)
  {
    Calls.GrantIff(e, d, o, extension, token, now);
    var e' := GrantException(e, d, o, extension, token, now).state;
    forall x ensures Positive(GrantsOf(e', x)) {
      assert Positive(GrantsOf(e, x));
    }
  }

  lemma EventStaysPositive(e: State, v: Event)
    requires Inv(e) && Roomy(e) && AllPositive(e)
    ensures AllPositive(Apply(e, v))
  {
    if v.DrainEvent? && v.drain in e.drains {
      if v.call.GrantOp? {
        GrantStaysPositive(e, v.drain, v.call.obligation, v.call.extension, v.call.authority, v.now);
      } else {
        ExceptionsStay(e, v.drain, v.call, v.now);
        SameGrants(e, Apply(e, v));
      }
    } else {
      GrantsElsewhere(e, v);
      SameGrants(e, Apply(e, v));
    }
  }

  lemma GrantsElsewhere(e: State, v: Event)
    requires !(v.DrainEvent? && v.drain in e.drains)
    ensures Apply(e, v).exceptions == e.exceptions
  {
  }

  lemma SameGrants(e: State, e': State)
    requires AllPositive(e) && e'.exceptions == e.exceptions
    ensures AllPositive(e')
  {
    forall d ensures Positive(GrantsOf(e', d)) {
      assert Positive(GrantsOf(e, d));
    }
  }

  lemma {:induction false} RunPositive(p: Policy, run: seq<RunEvent>, states: seq<State>, i: nat)
    requires IsRun(p, run, states) && i < |states|
    ensures AllPositive(states[i])
    decreases i
  {
    if i > 0 {
      SourceBefore(p, run, states, i);
      var k := Source(run, i);
      RunPositive(p, run, states, k);
      RunKeepsInv(p, run, states, k);
      if run[i - 1].Do? {
        EventStaysPositive(states[k], run[i - 1].event);
      } else {
        SameGrants(states[k], states[i]);
      }
    }
  }

  /** In every state of every run the deadline of an obligation is its admission, plus its
      own grace, its kind's, or the default, plus everything granted for it or for all. */
  lemma RunDeadline(p: Policy, run: seq<RunEvent>, states: seq<State>, i: nat, r: DrainRecord, o: ObligationId)
    requires IsRun(p, run, states) && i < |states| && o in states[i].obligations
    ensures var e, work := states[i], states[i].obligations[o];
            var grace := if work.grace != 0 then work.grace
                         else if work.kind in e.policy.kindGrace && e.policy.kindGrace[work.kind] != 0
                         then e.policy.kindGrace[work.kind] else e.policy.defaultGrace;
            GraceDeadline(e, r, o)
            == SaturatingAdd(SaturatingAdd(work.admittedAt, grace), Granted(GrantsOf(e, r.id), o))
  {
    RunPositive(p, run, states, i);
    GraceOrder(states[i].policy, states[i].obligations[o]);
    DeadlineIs(states[i], r, o);
  }
}
