/** The engine's audit, and exactly which events keep it clean. */
module EngineAudit {
  import opened Identity
  import opened Lifecycle
  import opened Engine
  import opened EngineInvariant
  import opened EngineSteps
  import opened EngineOperations
  import opened EngineGuards
  import opened EngineRuns
  import opened EngineFence
  import Ob = Obligations
  import Ad = Admission
  import To = Topology

  // ---- The audit ---------------------------------------------------------------------

  /** What `audit` demands of a drained record. */
  predicate DrainedClean(e: State, r: DrainRecord) {
    && Outstanding(e, r.target) == {} && r.remainingAtCompletion == 0 && r.completionDigest != 0
    && Ad.IsClosed(e.fence, r.target) && !To.Serves(e.fabric, r.target.id)
  }

  /** And of a cancelled one. */
  predicate CancelledClean(f: Ad.Fence, r: DrainRecord) {
    if r.restoredAt != 0 then
      r.target in f && f[r.target].generation > r.generation && !(f[r.target].closed && f[r.target].drain == r.id)
    else if r.generation != 0 then Ad.IsClosed(f, r.target) && f[r.target].generation == r.generation
    else !(Ad.IsClosed(f, r.target) && f[r.target].drain == r.id)
  }

  predicate DrainClean(e: State, r: DrainRecord) {
    && (r.state == Drained ==> DrainedClean(e, r))
    && (r.state == Cancelled ==> CancelledClean(e.fence, r))
    && (HoldsFence(r) ==> Ad.IsClosed(e.fence, r.target))
    && (r.state == Restoring ==> !Ad.IsClosed(e.fence, r.target))
  }

  ghost predicate ObligationClean(f: Ad.Fence, o: Ob.Obligation) {
    forall t :: t in o.dependencies && Ad.IsClosed(f, t) ==> o.admissionGeneration < f[t].generation
  }

  predicate EntryClean(drains: map<DrainId, DrainRecord>, entry: Ad.FenceEntry) {
    entry.closed ==> entry.drain in drains && !IsDone(drains[entry.drain])
  }

  /** `audit` reports no violation. */
  ghost predicate AuditClean(e: State) {
    && (forall d :: d in e.drains ==> DrainClean(e, e.drains[d]))
    && (forall o :: o in e.obligations ==> ObligationClean(e.fence, e.obligations[o]))
    && (forall t :: t in e.fence ==> EntryClean(e.drains, e.fence[t]))
  }

  // ---- What the invariant leaves to check ---------------------------------------------

  /** The only parts of the audit the invariant does not already give. */
  predicate Calm(e: State, d: DrainId)
    requires d in e.drains
  {
    !Stranded(e, d) && AtRest(e, d)
  }

  /** A drained target has no outstanding work and is out of service. */
  predicate AtRest(e: State, d: DrainId)
    requires d in e.drains
  {
    e.drains[d].state == Drained ==>
      Outstanding(e, e.drains[d].target) == {} && !To.Serves(e.fabric, e.drains[d].target.id)
  }

  ghost predicate AllCalm(e: State) {
    forall d :: d in e.drains ==> Calm(e, d)
  }

  lemma RecordClean(e: State, d: DrainId)
    requires d in e.drains && RecordOk(e.fence, e.drainHighWater, d, e.drains[d])
    ensures DrainClean(e, e.drains[d]) <==> Calm(e, d)
  {
  }

  /** In a reachable state the audit is clean exactly when no cancelled drain is
      stranded behind an open fence and no drained target has outstanding work or
      is in service. */
  lemma AuditExact(e: State)
    requires Inv(e)
    ensures AuditClean(e) <==> AllCalm(e)
  {
    forall d | d in e.drains ensures DrainClean(e, e.drains[d]) <==> Calm(e, d) {
      RecordClean(e, d);
    }
    forall o | o in e.obligations ensures ObligationClean(e.fence, e.obligations[o]) {
      assert BindingsOk(e.fence, e.obligations[o]);
      forall t | t in e.obligations[o].dependencies && Ad.IsClosed(e.fence, t)
        ensures e.obligations[o].admissionGeneration < e.fence[t].generation
      {
        assert BindingOk(e.fence, e.obligations[o], t);
      }
    }
    forall t | t in e.fence ensures EntryClean(e.drains, e.fence[t]) {
      if e.fence[t].closed {
        ClosedHasOwner(e, t);
      }
    }
  }

  // ---- Which events keep it clean --------------------------------------------------------

  /** A report takes a protected obligation out of Retired while a target it depends
      on is drained: it names the current revision and, if it names a drain at all, a
      known one at one of its generations. */
  predicate Reawakens(e: State, report: Report) {
    && report.obligation in e.obligations && ReportFenced(e, report)
    && report.expected == e.obligations[report.obligation].revision && report.next == Ob.Admitted
    && e.obligations[report.obligation].isProtected && e.obligations[report.obligation].state == Ob.Retired
    && exists d :: d in e.drains && e.drains[d].state == Drained
                   && e.drains[d].target in e.obligations[report.obligation].dependencies
  }

  /** A drained target is reported back in service from outside. */
  predicate ReturnsDrained(e: State, change: To.FabricOp) {
    && change.ReportStatus? && change.status == To.InService
    && exists d :: d in e.drains && e.drains[d].state == Drained && e.drains[d].target.id == change.resource
  }

  /** The events that leave a clean audit clean: no reawakening report, no outside
      return to service, no stranding. */
  predicate Permitted(e: State, v: Event) {
    match v
    case ReportEvent(report, now) => !Reawakens(e, report)
    case DrainEvent(d, op, now) => d in e.drains ==> !Strands(e, d, op, now)
    case SetupEvent(op, now) => op.FabricOp? ==> !ReturnsDrained(e, op.change)
    case _ => true
  }

  /** A drained target is known to the fabric. */
  ghost predicate DrainedKnown(e: State) {
    forall d :: d in e.drains && e.drains[d].state == Drained ==> e.drains[d].target.id in e.fabric.resources
  }

  // ---- Operations on one drain -----------------------------------------------------------

  /** Nothing came back: no outstanding obligation that was not, no resource in
      service that was not, and no resource forgotten. */
  ghost predicate NothingReturns(e: State, e': State) {
    && (forall o :: o in e'.obligations && Ob.BlocksCompletion(e'.obligations[o]) ==>
          && o in e.obligations && Ob.BlocksCompletion(e.obligations[o])
          && e'.obligations[o].dependencies == e.obligations[o].dependencies)
    && (forall id :: To.Serves(e'.fabric, id) ==> To.Serves(e.fabric, id))
    && e.fabric.resources.Keys <= e'.fabric.resources.Keys
  }

  lemma OutstandingShrinks(e: State, e': State, t: Target)
    requires NothingReturns(e, e') && Outstanding(e, t) == {}
    ensures Outstanding(e', t) == {}
  {
    forall o | o in Outstanding(e', t) ensures o in Outstanding(e, t) {
    }
  }

  lemma OtherStaysCalm(e: State, e': State, d: DrainId, x: DrainId)
    requires Inv(e) && DrainEffect(e, e', d) && NothingReturns(e, e')
    requires x in e.drains && x != d && Calm(e, x)
    ensures x in e'.drains && Calm(e', x)
  {
    assert Compatible(e.drains[x], e.drains[d]);
    if e.drains[x].state == Drained {
      OutstandingShrinks(e, e', e.drains[x].target);
    }
  }

  lemma EffectNothingReturns(e: State, e': State, d: DrainId)
    requires DrainEffect(e, e', d) && FabricMove(e, e'.fabric, e.drains[d].target.id)
    ensures NothingReturns(e, e')
  {
    forall o | o in e'.obligations && Ob.BlocksCompletion(e'.obligations[o])
      ensures o in e.obligations && Ob.BlocksCompletion(e.obligations[o])
      ensures e'.obligations[o].dependencies == e.obligations[o].dependencies
    {
      assert Settles(e.obligations[o], e'.obligations[o]);
    }
  }

  lemma StepKeepsFabric(e: State, d: DrainId, now: Time, digest: nat)
    requires Ready(e, d)
    ensures FabricMove(e, StepDrain(e, d, now, digest).fabric, e.drains[d].target.id)
  {
    if Phase(e.drains[d]) == Restoring {
      StepRestores(e, d, now, digest);
    } else if Phase(e.drains[d]) == Cancelled {
      SettledStays(e, d, now, digest);
    } else {
      StepBranch(e, d, now, digest);
    }
  }

  lemma OpKeepsFabric(e: State, d: DrainId, op: DrainOp, now: Time)
    requires Ready(e, d)
    ensures FabricMove(e, ApplyDrain(e, d, op, now).fabric, e.drains[d].target.id)
  {
    match op
    case StepOp(digest) => StepKeepsFabric(e, d, now, digest);
    case ResumeOp(authority) => ResumeFabric(e, d, authority, now);
    case _ =>
  }

  lemma ResumeFabric(e: State, d: DrainId, authority: AuthorityId, now: Time)
    requires Ready(e, d)
    ensures Resume(e, d, authority, now).state.fabric == e.fabric
  {
    if e.drains[d].state == Blocked {
      JudgedEffect(e, d, StateBlockers(e, e.drains[d], Phase(e.drains[d]), now), now);
    }
  }

  /** After any operation its own drain is calm exactly when it is not stranded by it. */
  lemma OpSelfCalm(e: State, e': State, d: DrainId, op: DrainOp, now: Time)
    requires Inv(e) && Roomy(e) && d in e.drains && Calm(e, d)
    requires e' == ApplyDrain(e, d, op, now) && DrainEffect(e, e', d) && NothingReturns(e, e')
    ensures Calm(e', d) <==> !Strands(e, d, op, now)
  {
    OpStrands(e, d, op, now);
    if e'.drains[d].state == Drained {
      if e.drains[d].state == Drained {
        OutstandingShrinks(e, e', e.drains[d].target);
      } else {
        InvIsReady(e, d);
        DrainedOnProof(e, e', d, op, now);
      }
    }
  }

  lemma DrainOpCalm(e: State, d: DrainId, op: DrainOp, now: Time)
    requires Inv(e) && Roomy(e) && AllCalm(e) && d in e.drains
    ensures AllCalm(ApplyDrain(e, d, op, now)) <==> !Strands(e, d, op, now)
  {
    var e' := ApplyDrain(e, d, op, now);
    ApplyDrainEffect(e, d, op, now);
    InvIsReady(e, d);
    OpKeepsFabric(e, d, op, now);
    EffectNothingReturns(e, e', d);
    OpSelfCalm(e, e', d, op, now);
    OthersStayCalm(e, e', d);
  }

  lemma OthersStayCalm(e: State, e': State, d: DrainId)
    requires Inv(e) && AllCalm(e) && DrainEffect(e, e', d) && NothingReturns(e, e')
    ensures AllCalm(e') <==> Calm(e', d)
  {
    forall x | x in e'.drains && x != d ensures Calm(e', x) {
      OtherStaysCalm(e, e', d, x);
    }
  }

  // ---- The other events --------------------------------------------------------------------

  lemma AdmitCalm(e: State, draft: Ob.Obligation, presented: Generation, authority: AuthorityId, now: Time)
    requires Inv(e) && AllCalm(e)
    ensures AllCalm(Admit(e, draft, presented, authority, now).state)
  {
    var e' := Admit(e, draft, presented, authority, now).state;
    forall d | d in e'.drains ensures Calm(e', d) {
      assert Calm(e, d);
      if e.drains[d].state == Drained {
        var t := e.drains[d].target;
        assert RecordOk(e.fence, e.drainHighWater, d, e.drains[d]);
        assert Ad.CheckAdmission(e.fence, t, presented) != Ad.Admissible;
        forall o | o in Outstanding(e', t) ensures o in Outstanding(e, t) {
        }
      }
    }
  }

  /** A report leaves the audit clean exactly when it reawakens nothing. */
  lemma ReportCalm(e: State, report: Report, now: Time)
    requires AllCalm(e)
    ensures AllCalm(ReportObligation(e, report, now).state) <==> !Reawakens(e, report)
  {
    var e' := ReportObligation(e, report, now).state;
    if ReportObligation(e, report, now).ok {
      var o := report.obligation;
      Ob.ReportEvolves(e.obligations[o], report.expected, report.next, report.evidence, now);
      assert e'.obligations == e.obligations[o := e'.obligations[o]];
      if d :| d in e.drains && e.drains[d].state == Drained && Reawakens(e, report)
              && e.drains[d].target in e.obligations[o].dependencies {
        assert o in Outstanding(e', e.drains[d].target);
        assert !Calm(e', d);
      } else {
        forall d | d in e'.drains ensures Calm(e', d) {
          ReportKeepsCalm(e, e', o, d);
        }
      }
    }
  }

  lemma ReportKeepsCalm(e: State, e': State, o: ObligationId, d: DrainId)
    requires o in e.obligations && o in e'.obligations && d in e.drains && Calm(e, d)
    requires e' == e.(obligations := e.obligations[o := e'.obligations[o]])
    requires Ob.Evolves(e.obligations[o], e'.obligations[o])
    requires !(e.obligations[o].isProtected && e.obligations[o].state == Ob.Retired
               && e'.obligations[o].state != Ob.Retired
               && e.drains[d].state == Drained && e.drains[d].target in e.obligations[o].dependencies)
    ensures Calm(e', d)
  {
    if e.drains[d].state == Drained {
      forall x | x in Outstanding(e', e.drains[d].target) ensures x in Outstanding(e, e.drains[d].target) {
      }
    }
  }

  lemma AddsCalm(e: State, e': State)
    requires OnlyAdds(e, e') && AllCalm(e)
    ensures AllCalm(e')
  {
    forall d | d in e'.drains ensures Calm(e', d) {
      if d in e.drains {
        assert Calm(e, d);
        assert Outstanding(e', e.drains[d].target) == Outstanding(e, e.drains[d].target);
      } else {
        assert Fresh(e.drainHighWater, d, e'.drains[d]);
      }
    }
  }

  /** A fabric change returns no drained target to service, unless it says so. */
  lemma FabricKeepsOut(f: To.Fabric, change: To.FabricOp, id: ResourceId)
    requires id in f.resources && !To.Serves(f, id)
    ensures To.Serves(To.Apply(f, change), id) <==>
              change.ReportStatus? && change.status == To.InService && change.resource == id
    ensures id in To.Apply(f, change).resources
  {
  }

  lemma SetupCalm(e: State, op: SetupOp, now: Time)
    requires AllCalm(e) && DrainedKnown(e)
    ensures AllCalm(ApplySetup(e, op, now)) <==> !(op.FabricOp? && ReturnsDrained(e, op.change))
  {
    var e' := ApplySetup(e, op, now);
    forall d | d in e.drains
      ensures Calm(e', d) <==>
                !(op.FabricOp? && op.change.ReportStatus? && op.change.status == To.InService
                  && e.drains[d].state == Drained && e.drains[d].target.id == op.change.resource)
    {
      assert Calm(e, d);
      assert Outstanding(e', e.drains[d].target) == Outstanding(e, e.drains[d].target);
      if op.FabricOp? && e.drains[d].state == Drained {
        FabricKeepsOut(e.fabric, op.change, e.drains[d].target.id);
      }
    }
  }

  /** From a clean state every event leads to a clean state, except exactly those
      that are not permitted. */
  lemma ApplyCalm(e: State, v: Event)
    requires Inv(e) && Roomy(e) && DrainedKnown(e) && AllCalm(e)
    ensures AllCalm(Apply(e, v)) <==> Permitted(e, v)
  {
    match v
    case AdmitEvent(draft, presented, authority, now) => AdmitCalm(e, draft, presented, authority, now);
    case ReportEvent(report, now) => ReportCalm(e, report, now);
    case RequestEvent(ts, authority, nonce, now) =>
      RequestOnlyAdds(e, ts, authority, nonce, now);
      AddsCalm(e, RequestSet(e, ts, authority, nonce, now).state);
    case DrainEvent(d, op, now) =>
      if d in e.drains {
        DrainOpCalm(e, d, op, now);
      }
    case SetupEvent(op, now) => SetupCalm(e, op, now);
  }

  lemma RecoverCalm(e: State, now: Time)
    requires Inv(e) && AllCalm(e)
    ensures AllCalm(Recover(e, now))
  {
    var e' := Recover(e, now);
    forall d | d in e'.drains ensures Calm(e', d) {
      assert RecordOk(e.fence, e.drainHighWater, d, e.drains[d]);
      RecoveredRecord(e.fence, e.drainHighWater, d, e.drains[d], now);
      assert Calm(e, d);
      assert Outstanding(e', e.drains[d].target) == Outstanding(e, e.drains[d].target);
    }
  }

  // ---- Whole runs -------------------------------------------------------------------------

  /** Whatever the operation, a drain becomes Drained only on proof. */
  lemma DrainedOnProof(e: State, e': State, d: DrainId, op: DrainOp, now: Time)
    requires Ready(e, d) && e' == ApplyDrain(e, d, op, now) && d in e'.drains
    requires e.drains[d].state != Drained && e'.drains[d].state == Drained
    ensures ProvenDrained(e', d, now)
  {
    if !op.StepOp? {
      OnlyStepAdvances(e, d, op, now);
    } else if op.digest != 0 {
      DrainedGuard(e, e', d, now, op.digest);
    }
  }

  lemma EffectKeepsKnown(e: State, e': State, d: DrainId)
    requires DrainedKnown(e) && DrainEffect(e, e', d) && NothingReturns(e, e')
    requires e'.drains[d].state == Drained && e.drains[d].state != Drained ==>
               e'.drains[d].target.id in e'.fabric.resources
    ensures DrainedKnown(e')
  {
  }

  lemma DrainKeepsKnown(e: State, d: DrainId, op: DrainOp, now: Time)
    requires Inv(e) && Roomy(e) && DrainedKnown(e) && d in e.drains
    ensures DrainedKnown(ApplyDrain(e, d, op, now))
  {
    var e' := ApplyDrain(e, d, op, now);
    InvIsReady(e, d);
    ApplyDrainEffect(e, d, op, now);
    OpKeepsFabric(e, d, op, now);
    EffectNothingReturns(e, e', d);
    if e'.drains[d].state == Drained && e.drains[d].state != Drained {
      DrainedOnProof(e, e', d, op, now);
    }
    EffectKeepsKnown(e, e', d);
  }

  lemma FabricRemembers(f: To.Fabric, change: To.FabricOp)
    ensures f.resources.Keys <= To.Apply(f, change).resources.Keys
  {
  }

  lemma SameDrainsKnown(e: State, e': State)
    requires DrainedKnown(e) && e'.drains == e.drains && e.fabric.resources.Keys <= e'.fabric.resources.Keys
    ensures DrainedKnown(e')
  {
  }

  lemma SetupKeepsKnown(e: State, op: SetupOp, now: Time)
    requires DrainedKnown(e)
    ensures DrainedKnown(ApplySetup(e, op, now))
  {
    if op.FabricOp? {
      FabricRemembers(e.fabric, op.change);
    }
    SameDrainsKnown(e, ApplySetup(e, op, now));
  }

  lemma AdmitKeepsKnown(e: State, draft: Ob.Obligation, presented: Generation, authority: AuthorityId, now: Time)
    requires DrainedKnown(e)
    ensures DrainedKnown(Admit(e, draft, presented, authority, now).state)
  {
    SameDrainsKnown(e, Admit(e, draft, presented, authority, now).state);
  }

  lemma ReportKeepsKnown(e: State, report: Report, now: Time)
    requires DrainedKnown(e)
    ensures DrainedKnown(ReportObligation(e, report, now).state)
  {
    SameDrainsKnown(e, ReportObligation(e, report, now).state);
  }

  lemma AddsKeepKnown(e: State, e': State)
    requires OnlyAdds(e, e') && DrainedKnown(e)
    ensures DrainedKnown(e')
  {
  }

  lemma ApplyKeepsKnown(e: State, v: Event)
    requires Inv(e) && Roomy(e) && DrainedKnown(e)
    ensures DrainedKnown(Apply(e, v))
  {
    match v
    case RequestEvent(ts, authority, nonce, now) =>
      RequestOnlyAdds(e, ts, authority, nonce, now);
      AddsKeepKnown(e, RequestSet(e, ts, authority, nonce, now).state);
    case DrainEvent(d, op, now) =>
      if d in e.drains {
        DrainKeepsKnown(e, d, op, now);
      }
    case SetupEvent(op, now) => SetupKeepsKnown(e, op, now);
    case AdmitEvent(draft, presented, authority, now) => AdmitKeepsKnown(e, draft, presented, authority, now);
    case ReportEvent(report, now) => ReportKeepsKnown(e, report, now);
  }

  lemma RecoverKeepsKnown(e: State, now: Time)
    requires DrainedKnown(e)
    ensures DrainedKnown(Recover(e, now))
  {
  }

  lemma {:induction false} RunKeepsKnown(p: Policy, run: seq<RunEvent>, states: seq<State>, i: nat)
    requires IsRun(p, run, states) && i < |states|
    ensures DrainedKnown(states[i])
    decreases i
  {
    if i > 0 {
      SourceBefore(p, run, states, i);
      var e := states[Source(run, i)];
      RunKeepsKnown(p, run, states, Source(run, i));
      if run[i - 1].Do? {
        RunKeepsInv(p, run, states, i - 1);
        ApplyKeepsKnown(e, run[i - 1].event);
      } else {
        RecoverKeepsKnown(e, run[i - 1].now);
      }
    }
  }

  predicate PermittedAt(run: seq<RunEvent>, states: seq<State>, i: nat)
    requires i < |run| < |states|
  {
    run[i].Do? ==> Permitted(states[i], run[i].event)
  }

  ghost predicate AllPermitted(run: seq<RunEvent>, states: seq<State>)
    requires |run| < |states|
  {
    forall i :: 0 <= i < |run| ==> PermittedAt(run, states, i)
  }

  lemma {:induction false} RunStaysCalm(p: Policy, run: seq<RunEvent>, states: seq<State>, i: nat)
    requires IsRun(p, run, states) && i < |states| && AllPermitted(run, states)
    ensures AllCalm(states[i])
    decreases i
  {
    if i > 0 {
      SourceBefore(p, run, states, i);
      var k := Source(run, i);
      RunStaysCalm(p, run, states, k);
      RunKeepsInv(p, run, states, k);
      assert PermittedAt(run, states, i - 1);
      if run[i - 1].Do? {
        RunKeepsKnown(p, run, states, k);
        ApplyCalm(states[k], run[i - 1].event);
      } else {
        RecoverCalm(states[k], run[i - 1].now);
      }
    }
  }

  lemma CleanStepPermitted(p: Policy, run: seq<RunEvent>, states: seq<State>, i: nat)
    requires IsRun(p, run, states) && i < |run|
    requires AllCalm(states[i]) && AllCalm(states[i + 1])
    ensures PermittedAt(run, states, i)
  {
    SourceBefore(p, run, states, i + 1);
    if run[i].Do? {
      RunKeepsInv(p, run, states, i);
      RunKeepsKnown(p, run, states, i);
      ApplyCalm(states[i], run[i].event);
    }
  }

  /** Audit closure. Over any run, restarts included, the audit is clean in every
      state if and only if every event of the run is permitted in the state it
      meets. */
  lemma RunCleanIff(p: Policy, run: seq<RunEvent>, states: seq<State>)
    requires IsRun(p, run, states)
    ensures (forall i :: 0 <= i < |states| ==> AuditClean(states[i])) <==> AllPermitted(run, states)
  {
    forall i | 0 <= i < |states| ensures AuditClean(states[i]) <==> AllCalm(states[i]) {
      RunKeepsInv(p, run, states, i);
      AuditExact(states[i]);
    }
    if AllPermitted(run, states) {
      forall i | 0 <= i < |states| ensures AllCalm(states[i]) {
        RunStaysCalm(p, run, states, i);
      }
    } else if forall i :: 0 <= i < |states| ==> AuditClean(states[i]) {
      forall i | 0 <= i < |run| ensures PermittedAt(run, states, i) {
        CleanStepPermitted(p, run, states, i);
      }
    }
  }

  lemma AuditBreaks(e: State, v: Event)
    requires Inv(e) && Roomy(e) && DrainedKnown(e) && AllCalm(e) && !Permitted(e, v)
    ensures AuditClean(e) && !AuditClean(Apply(e, v))
  {
    AuditExact(e);
    ApplyCalm(e, v);
    ApplyKeepsInv(e, v);
    AuditExact(Apply(e, v));
  }
}
