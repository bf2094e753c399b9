/** Whole runs of the engine: any interleaving of its operations, with restarts
    from any earlier state. */
module EngineRuns {
  import opened Identity
  import opened Lifecycle
  import opened Engine
  import opened EngineInvariant
  import opened EngineSteps
  import opened EngineOperations
  import Ob = Obligations
  import Ad = Admission

  /** One entry of a run. A restart recovers a snapshot of any earlier state. */
  datatype RunEvent = Do(event: Event) | Restart(snapshot: nat, now: Time)

  ghost predicate Follows(run: seq<RunEvent>, states: seq<State>, i: nat)
    requires i < |run| && |states| == |run| + 1
  {
    match run[i]
    case Do(event) => states[i + 1] == Apply(states[i], event)
    case Restart(snapshot, now) => snapshot <= i && states[i + 1] == Recover(states[snapshot], now)
  }

  /** A run from the empty engine; no target exhausts its generation space. */
  ghost predicate IsRun(p: Policy, run: seq<RunEvent>, states: seq<State>) {
    && |states| == |run| + 1
    && states[0] == Empty(p)
    && (forall i :: 0 <= i < |run| ==> Follows(run, states, i))
    && (forall i :: 0 <= i < |states| ==> Roomy(states[i]))
  }

  /** The state that state i was made from. */
  function Source(run: seq<RunEvent>, i: nat): nat
    requires 0 < i <= |run|
  {
    if run[i - 1].Do? then i - 1 else run[i - 1].snapshot
  }

  lemma SourceBefore(p: Policy, run: seq<RunEvent>, states: seq<State>, i: nat)
    requires IsRun(p, run, states) && 0 < i < |states|
    ensures Source(run, i) < i
    ensures run[i - 1].Do? ==> states[i] == Apply(states[i - 1], run[i - 1].event)
    ensures run[i - 1].Restart? ==> states[i] == Recover(states[Source(run, i)], run[i - 1].now)
  {
    assert Follows(run, states, i - 1);
  }

  /** The fence/owner invariant holds in every state of every run. */
  lemma {:induction false} RunKeepsInv(p: Policy, run: seq<RunEvent>, states: seq<State>, i: nat)
    requires IsRun(p, run, states) && i < |states|
    ensures Inv(states[i])
    decreases i
  {
    if i > 0 {
      SourceBefore(p, run, states, i);
      var e := states[Source(run, i)];
      RunKeepsInv(p, run, states, Source(run, i));
      if run[i - 1].Do? {
        ApplyKeepsInv(e, run[i - 1].event);
      } else {
        RecoverKeepsInv(e, run[i - 1].now);
      }
    }
  }

  // ---- What one event may do --------------------------------------------------------

  predicate Fresh(highWater: DrainId, d: DrainId, r: DrainRecord) {
    d > highWater && r.state == Requested && r.generation == 0 && r.blockers == {} && r.evacuationRequests == 0
  }

  /** Bound to a target only while the target was open. */
  ghost predicate BoundOpen(f: Ad.Fence, o: Ob.Obligation) {
    forall t :: t in o.dependencies ==> !Ad.IsClosed(f, t)
  }

  /** Drains move along the lifecycle and are added at the end; obligations evolve
      and are added only on open targets. */
  ghost predicate DrainsProgress(e: State, e': State) {
    && (forall d :: d in e.drains ==> d in e'.drains && Motion(e.drains[d], e'.drains[d]))
    && (forall d :: d in e'.drains && d !in e.drains ==> Fresh(e.drainHighWater, d, e'.drains[d]))
  }

  ghost predicate ObligationsProgress(e: State, e': State) {
    && (forall o :: o in e.obligations ==> o in e'.obligations && Ob.Evolves(e.obligations[o], e'.obligations[o]))
    && (forall o :: o in e'.obligations && o !in e.obligations ==> BoundOpen(e.fence, e'.obligations[o]))
  }

  lemma AdmitProgress(e: State, draft: Ob.Obligation, presented: Generation, authority: AuthorityId, now: Time)
    ensures ObligationsProgress(e, Admit(e, draft, presented, authority, now).state)
  {
    if Admissible(e, draft, presented, authority, now) {
      forall t | t in draft.dependencies ensures !Ad.IsClosed(e.fence, t) {
        Ad.AdmissibleIff(e.fence, t, presented);
      }
      assert BoundOpen(e.fence, draft.(admittedAt := now, admissionGeneration := presented));
    }
  }

  lemma ReportProgress(e: State, report: Report, now: Time)
    ensures ObligationsProgress(e, ReportObligation(e, report, now).state)
  {
    if report.obligation in e.obligations {
      var o := e.obligations[report.obligation];
      if Ob.ApplyState(o, report.expected, report.next, report.evidence, now).Some? {
        Ob.ReportEvolves(o, report.expected, report.next, report.evidence, now);
      }
    }
  }

  /** A request leaves every existing drain as it is and adds fresh ones. */
  ghost predicate OnlyAdds(e: State, e': State) {
    && (forall d :: d in e.drains ==> d in e'.drains && e'.drains[d] == e.drains[d])
    && (forall d :: d in e'.drains && d !in e.drains ==> Fresh(e.drainHighWater, d, e'.drains[d]))
    && e'.fence == e.fence && e'.obligations == e.obligations && e'.fabric == e.fabric
  }

  lemma AddedOnly(e: State, e': State, more: map<DrainId, DrainRecord>, ts: seq<Target>, authority: AuthorityId,
                  now: Time)
    requires RecordsOk(e) && Added(e, more, ts, authority, now) && e'.drains == e.drains + more
    requires e'.fence == e.fence && e'.obligations == e.obligations && e'.fabric == e.fabric
    ensures OnlyAdds(e, e')
  {
    forall d | d in e.drains ensures d in e'.drains && e'.drains[d] == e.drains[d] {
      assert RecordOk(e.fence, e.drainHighWater, d, e.drains[d]);
    }
    forall d | d in e'.drains && d !in e.drains ensures Fresh(e.drainHighWater, d, e'.drains[d]) {
      assert IsNew(e, ts, authority, now, d, more[d]);
    }
  }

  lemma WithSetOnlyAdds(e: State, ts: seq<Target>, authority: AuthorityId, nonce: nat, now: Time)
    requires RecordsOk(e)
    ensures OnlyAdds(e, WithSet(e, ts, authority, nonce, now))
  {
    NewDrainsFacts(e, ts, authority, now);
    AddedOnly(e, WithSet(e, ts, authority, nonce, now), NewDrains(e, ts, authority, now), ts, authority, now);
  }

  lemma RequestOnlyAdds(e: State, targets: seq<Target>, authority: AuthorityId, nonce: nat, now: Time)
    requires RecordsOk(e)
    ensures OnlyAdds(e, RequestSet(e, targets, authority, nonce, now).state)
  {
    WithSetOnlyAdds(e, Normalize(targets), authority, nonce, now);
  }

  lemma AddsProgress(e: State, e': State)
    requires OnlyAdds(e, e')
    ensures DrainsProgress(e, e')
  {
  }

  lemma DrainProgress(e: State, e': State, d: DrainId)
    requires DrainEffect(e, e', d)
    ensures DrainsProgress(e, e') && ObligationsProgress(e, e')
  {
    forall o | o in e.obligations ensures Ob.Evolves(e.obligations[o], e'.obligations[o]) {
      assert Settles(e.obligations[o], e'.obligations[o]);
    }
  }

  lemma SameDrainsProgress(e: State, e': State)
    requires e'.drains == e.drains
    ensures DrainsProgress(e, e')
  {
  }

  lemma SameObligationsProgress(e: State, e': State)
    requires e'.obligations == e.obligations
    ensures ObligationsProgress(e, e')
  {
  }

  /** Every event moves the drains along the lifecycle and adds new ones at the end. */
  lemma ApplyDrainsProgress(e: State, v: Event)
    requires Inv(e) && Roomy(e)
    ensures DrainsProgress(e, Apply(e, v))
  {
    match v
    case RequestEvent(ts, authority, nonce, now) =>
      RequestOnlyAdds(e, ts, authority, nonce, now);
      AddsProgress(e, RequestSet(e, ts, authority, nonce, now).state);
    case DrainEvent(d, op, now) =>
      if d in e.drains {
        ApplyDrainEffect(e, d, op, now);
        DrainProgress(e, ApplyDrain(e, d, op, now), d);
      } else {
        SameDrainsProgress(e, e);
      }
    case SetupEvent(op, now) => SameDrainsProgress(e, ApplySetup(e, op, now));
    case AdmitEvent(draft, presented, authority, now) =>
      SameDrainsProgress(e, Admit(e, draft, presented, authority, now).state);
    case ReportEvent(report, now) => SameDrainsProgress(e, ReportObligation(e, report, now).state);
  }

  /** Every event only moves obligations on, and adds them on open targets. */
  lemma ApplyObligationsProgress(e: State, v: Event)
    requires Inv(e) && Roomy(e)
    ensures ObligationsProgress(e, Apply(e, v))
  {
    match v
    case AdmitEvent(draft, presented, authority, now) => AdmitProgress(e, draft, presented, authority, now);
    case ReportEvent(report, now) => ReportProgress(e, report, now);
    case DrainEvent(d, op, now) =>
      if d in e.drains {
        ApplyDrainEffect(e, d, op, now);
        DrainProgress(e, ApplyDrain(e, d, op, now), d);
      } else {
        SameObligationsProgress(e, e);
      }
    case SetupEvent(op, now) => SameObligationsProgress(e, ApplySetup(e, op, now));
    case RequestEvent(ts, authority, nonce, now) =>
      SameObligationsProgress(e, RequestSet(e, ts, authority, nonce, now).state);
  }

  /** A restart keeps every position, obligation and generation of its snapshot. */
  lemma RecoverProgress(e: State, now: Time)
    requires Inv(e)
    ensures DrainsProgress(e, Recover(e, now)) && ObligationsProgress(e, Recover(e, now))
    ensures Recover(e, now).fence == e.fence && Recover(e, now).obligations == e.obligations
  {
    forall d | d in e.drains ensures Motion(e.drains[d], Recover(e, now).drains[d]) {
      RecoveredRecord(e.fence, e.drainHighWater, d, e.drains[d], now);
    }
    SameObligationsProgress(e, Recover(e, now));
  }
}
