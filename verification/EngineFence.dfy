/** The fence and its owner: which drain stands behind a closed target, and exactly
    which events break that correspondence. */
module EngineFence {
  import opened Identity
  import opened Lifecycle
  import opened Engine
  import opened EngineInvariant
  import opened EngineSteps
  import opened EngineOperations
  import opened EngineGuards
  import opened EngineRuns
  import Au = Authority
  import Ad = Admission

  predicate Unrestored(e: State, d: DrainId, t: Target) {
    d in e.drains && e.drains[d].target == t && !IsDone(e.drains[d])
  }

  /** The drain of the target that should stand behind a closed fence. */
  predicate Holder(e: State, d: DrainId, t: Target) {
    && d in e.drains && e.drains[d].target == t
    && (IsHolding(Phase(e.drains[d])) || Phase(e.drains[d]) == Drained
        || (Phase(e.drains[d]) == Cancelled && e.drains[d].restoredAt == 0 && e.drains[d].generation > 0))
  }

  /** The target's entry is the drain's own, at its generation, above everything
      bound to the target. */
  ghost predicate Fenced(e: State, d: DrainId, t: Target) {
    && d in e.drains && t in e.fence && e.fence[t] == Ad.FenceEntry(true, e.drains[d].generation, d)
    && forall o :: o in e.obligations && t in e.obligations[o].dependencies ==>
         e.obligations[o].admissionGeneration < e.drains[d].generation
  }

  /** The fence of the target is closed exactly when it has a holder, and then in
      that drain's name. */
  ghost predicate Corresponds(e: State, t: Target) {
    && (Ad.IsClosed(e.fence, t) <==> exists d :: Holder(e, d, t))
    && (forall d :: Holder(e, d, t) ==> Fenced(e, d, t))
  }

  // ---- One state -------------------------------------------------------------------------

  /** An unrestored cancelled record behind an open fence. */
  predicate Stranded(e: State, d: DrainId) {
    && d in e.drains && e.drains[d].state == Cancelled && e.drains[d].restoredAt == 0
    && e.drains[d].generation > 0 && !Ad.IsClosed(e.fence, e.drains[d].target)
  }

  ghost predicate NoneStranded(e: State, t: Target) {
    forall d :: d in e.drains && e.drains[d].target == t ==> !Stranded(e, d)
  }

  lemma OneUnrestored(e: State, t: Target)
    requires Inv(e)
    ensures forall x, y :: Unrestored(e, x, t) && Unrestored(e, y, t) ==> x == y
  {
  }

  lemma RestoringIsOpen(e: State, d: DrainId, t: Target)
    requires Inv(e) && d in e.drains && e.drains[d].target == t && Phase(e.drains[d]) == Restoring
    ensures !Ad.IsClosed(e.fence, t) && Ad.GenerationOf(e.fence, t) > e.drains[d].generation
  {
    assert RecordOk(e.fence, e.drainHighWater, d, e.drains[d]);
  }

  lemma HolderOwns(e: State, d: DrainId, t: Target)
    requires Inv(e) && Holder(e, d, t) && !Stranded(e, d)
    ensures Fenced(e, d, t)
  {
    assert RecordOk(e.fence, e.drainHighWater, d, e.drains[d]);
    assert Owns(e.fence, e.drains[d]);
    forall o | o in e.obligations && t in e.obligations[o].dependencies
      ensures e.obligations[o].admissionGeneration < e.drains[d].generation
    {
      assert BindingsOk(e.fence, e.obligations[o]);
      assert BindingOk(e.fence, e.obligations[o], t);
    }
  }

  lemma ClosedHasHolder(e: State, t: Target)
    requires Inv(e) && Ad.IsClosed(e.fence, t)
    ensures Holder(e, e.fence[t].drain, t)
  {
    ClosedHasOwner(e, t);
    var d := e.fence[t].drain;
    assert RecordOk(e.fence, e.drainHighWater, d, e.drains[d]);
  }

  /** Under the invariant only a stranded record breaks the correspondence. */
  lemma CorrespondsIff(e: State, t: Target)
    requires Inv(e)
    ensures Corresponds(e, t) <==> NoneStranded(e, t)
  {
    if NoneStranded(e, t) {
      forall d | Holder(e, d, t) ensures Fenced(e, d, t) {
        HolderOwns(e, d, t);
      }
      if Ad.IsClosed(e.fence, t) {
        ClosedHasHolder(e, t);
      }
    } else {
      var d :| d in e.drains && e.drains[d].target == t && Stranded(e, d);
      assert Holder(e, d, t) && !Fenced(e, d, t);
    }
  }

  // ---- One operation ---------------------------------------------------------------------

  /** A drain past admission closure is cancelled while it restores, or completes
      its restoration at the zero instant, which reads as not restored. */
  predicate Strands(e: State, d: DrainId, op: DrainOp, now: Time)
    requires d in e.drains
  {
    && e.drains[d].generation > 0 && Phase(e.drains[d]) == Restoring
    && ((op.CancelOp? && Au.Authorizes(e.authority, op.authority, now))
        || (op.StepOp? && op.digest != 0 && now == 0 && FinishesRestoring(e, d, now)))
  }

  lemma StepStrands(e: State, e': State, d: DrainId, now: Time, digest: nat)
    requires Ready(e, d) && !Stranded(e, d) && digest != 0
    requires e' == StepDrain(e, d, now, digest) && d in e'.drains
    ensures Stranded(e', d) <==> Strands(e, d, StepOp(digest), now)
  {
    if Phase(e.drains[d]) == Restoring {
      StepRestores(e, d, now, digest);
      StepDrainEffect(e, d, now, digest);
    } else if IsSettled(e.drains[d].state) {
      SettledStays(e, d, now, digest);
    } else {
      StepBranch(e, d, now, digest);
    }
  }

  lemma CancelStrands(e: State, d: DrainId, authority: AuthorityId, now: Time)
    requires Ready(e, d) && !Stranded(e, d)
    ensures var e' := Cancel(e, d, authority, now).state;
            d in e'.drains && (Stranded(e', d) <==> Strands(e, d, CancelOp(authority), now))
  {
    var r := e.drains[d];
    if Au.Authorizes(e.authority, authority, now) && r.state != Drained && r.state != Cancelled {
      CancelledRecord(e.fence, e.drainHighWater, d, r, now);
      CancelledStrands(e, d, Transition(r, Cancelled, now).value);
    } else {
      assert Put(e, d, r).drains == e.drains;
    }
  }

  lemma CancelledStrands(e: State, d: DrainId, r: DrainRecord)
    requires Ready(e, d) && !IsSettled(e.drains[d].state)
    requires r.state == Cancelled && r.restoredAt == e.drains[d].restoredAt
    requires r.target == e.drains[d].target && r.generation == e.drains[d].generation
    ensures Stranded(Put(e, d, r), d) <==> Phase(e.drains[d]) == Restoring && r.generation > 0
  {
  }

  lemma RestoreStrandsNone(e: State, d: DrainId, authority: AuthorityId, now: Time)
    requires Inv(e) && Roomy(e) && d in e.drains && !Stranded(e, d)
    ensures var e' := Restore(e, d, authority, now).state;
            d in e'.drains && !Stranded(e', d)
  {
    InvIsReady(e, d);
    var r := e.drains[d];
    if r.state == Drained || (r.state == Cancelled && !IsDone(r)) {
      ReopenForEffect(e, d);
      RestoringStrandsNone(e, d, ReopenFor(e, d), now);
    }
  }

  lemma RestoringStrandsNone(e: State, d: DrainId, reopened: Ad.FenceResult, now: Time)
    requires d in e.drains && !Stranded(e, d)
    requires e.drains[d].state == Drained || e.drains[d].state == Cancelled
    requires reopened.generation.None? ==> reopened.fence == e.fence
    ensures var e' := EnterRestoring(e, d, reopened, now).state;
            d in e'.drains && !Stranded(e', d)
  {
    if reopened.generation.None? {
      assert EnterRestoring(e, d, reopened, now).state == e;
    } else {
      assert EnterRestoring(e, d, reopened, now).state.drains[d].state == Restoring;
    }
  }

  lemma ResumeStrandsNone(e: State, d: DrainId, authority: AuthorityId, now: Time)
    requires Ready(e, d) && !Stranded(e, d)
    ensures var e' := Resume(e, d, authority, now).state;
            d in e'.drains && !Stranded(e', d)
  {
    if e.drains[d].state == Blocked {
      JudgedEffect(e, d, StateBlockers(e, e.drains[d], Phase(e.drains[d]), now), now);
    }
  }

  lemma GrantStrandsNone(e: State, e': State, d: DrainId)
    requires d in e.drains && !Stranded(e, d) && GrantEffect(e, e', d)
    ensures !Stranded(e', d)
  {
  }

  /** An operation leaves its own drain stranded exactly when it strands it. */
  lemma OpStrands(e: State, d: DrainId, op: DrainOp, now: Time)
    requires Inv(e) && Roomy(e) && d in e.drains && !Stranded(e, d)
    ensures var e' := ApplyDrain(e, d, op, now);
            d in e'.drains && (Stranded(e', d) <==> Strands(e, d, op, now))
  {
    InvIsReady(e, d);
    match op
    case CancelOp(authority) => CancelStrands(e, d, authority, now);
    case RestoreOp(authority) => RestoreStrandsNone(e, d, authority, now);
    case ResumeOp(authority) => ResumeStrandsNone(e, d, authority, now);
    case GrantOp(o, extension, authority) =>
      GrantOpEffect(e, d, o, extension, authority, now);
      GrantStrandsNone(e, GrantException(e, d, o, extension, authority, now).state, d);
    case StepOp(digest) =>
      if digest != 0 {
        StepDrainEffect(e, d, now, digest);
        StepStrands(e, StepDrain(e, d, now, digest), d, now, digest);
      }
  }

  /** Another drain's record and its fence stay as they were. */
  lemma OtherNotStranded(e: State, e': State, d: DrainId, x: DrainId)
    requires Inv(e) && DrainEffect(e, e', d) && x in e.drains && x != d
    ensures Stranded(e', x) ==> Stranded(e, x)
  {
    assert Compatible(e.drains[x], e.drains[d]);
  }

  // ---- One event -------------------------------------------------------------------------

  /** The event strands a drain of the target. */
  predicate StrandingEvent(e: State, v: Event, t: Target) {
    && v.DrainEvent? && v.drain in e.drains && e.drains[v.drain].target == t
    && Strands(e, v.drain, v.call, v.now)
  }

  lemma DrainStrands(e: State, d: DrainId, op: DrainOp, now: Time, t: Target)
    requires Inv(e) && Roomy(e) && d in e.drains && NoneStranded(e, t)
    ensures NoneStranded(ApplyDrain(e, d, op, now), t) <==> !(e.drains[d].target == t && Strands(e, d, op, now))
  {
    var e' := ApplyDrain(e, d, op, now);
    ApplyDrainEffect(e, d, op, now);
    if e.drains[d].target == t {
      OpStrands(e, d, op, now);
    }
    forall x | x in e'.drains && x != d && e'.drains[x].target == t ensures !Stranded(e', x) {
      OtherNotStranded(e, e', d, x);
    }
  }

  /** The fence and every existing drain stay as they are; what is added is new. */
  ghost predicate Quiet(e: State, e': State) {
    && e'.fence == e.fence
    && (forall d :: d in e.drains ==> d in e'.drains && e'.drains[d] == e.drains[d])
    && (forall d :: d in e'.drains && d !in e.drains ==> e'.drains[d].state == Requested)
  }

  lemma SameIsQuiet(e: State, e': State)
    requires e'.fence == e.fence && e'.drains == e.drains
    ensures Quiet(e, e')
  {
  }

  lemma AddsAreQuiet(e: State, e': State)
    requires OnlyAdds(e, e')
    ensures Quiet(e, e')
  {
  }

  lemma QuietEvent(e: State, v: Event)
    requires Inv(e) && !(v.DrainEvent? && v.drain in e.drains)
    ensures Quiet(e, Apply(e, v))
  {
    match v
    case RequestEvent(ts, authority, nonce, now) =>
      RequestOnlyAdds(e, ts, authority, nonce, now);
      AddsAreQuiet(e, RequestSet(e, ts, authority, nonce, now).state);
    case SetupEvent(op, now) =>
      SetupEffect(e, op, now);
      SameIsQuiet(e, ApplySetup(e, op, now));
    case AdmitEvent(draft, presented, authority, now) =>
      SameIsQuiet(e, Admit(e, draft, presented, authority, now).state);
    case ReportEvent(report, now) => SameIsQuiet(e, ReportObligation(e, report, now).state);
    case DrainEvent(d, op, now) => SameIsQuiet(e, e);
  }

  lemma QuietStrandsNone(e: State, e': State, t: Target)
    requires Quiet(e, e') && NoneStranded(e, t)
    ensures NoneStranded(e', t)
  {
    forall d | d in e'.drains && e'.drains[d].target == t ensures !Stranded(e', d) {
      assert d in e.drains ==> !Stranded(e, d);
    }
  }

  /** From a state with none stranded on the target, an event leaves one stranded
      exactly when it strands it. */
  lemma ApplyStrands(e: State, v: Event, t: Target)
    requires Inv(e) && Roomy(e) && NoneStranded(e, t)
    ensures NoneStranded(Apply(e, v), t) <==> !StrandingEvent(e, v, t)
  {
    if v.DrainEvent? && v.drain in e.drains {
      DrainStrands(e, v.drain, v.call, v.now, t);
    } else {
      QuietEvent(e, v);
      QuietStrandsNone(e, Apply(e, v), t);
    }
  }

  lemma RecoverStrandsNone(e: State, now: Time, t: Target)
    requires Inv(e) && NoneStranded(e, t)
    ensures NoneStranded(Recover(e, now), t)
  {
    var e' := Recover(e, now);
    forall d | d in e'.drains && e'.drains[d].target == t ensures !Stranded(e', d) {
      assert RecordOk(e.fence, e.drainHighWater, d, e.drains[d]);
      RecoveredRecord(e.fence, e.drainHighWater, d, e.drains[d], now);
      assert !Stranded(e, d);
    }
  }

  // ---- Whole runs ------------------------------------------------------------------------

  predicate StrandsAt(run: seq<RunEvent>, states: seq<State>, m: nat, t: Target)
    requires m < |run| < |states|
  {
    run[m].Do? && StrandingEvent(states[m], run[m].event, t)
  }

  /** No event before state i strands a drain of the target. */
  ghost predicate NoStrandBefore(run: seq<RunEvent>, states: seq<State>, i: nat, t: Target)
    requires i <= |run| < |states|
  {
    forall m :: 0 <= m < i ==> !StrandsAt(run, states, m, t)
  }

  lemma {:induction false} RunStrandsNone(p: Policy, run: seq<RunEvent>, states: seq<State>, i: nat, t: Target)
    requires IsRun(p, run, states) && i < |states| && NoStrandBefore(run, states, i, t)
    ensures NoneStranded(states[i], t)
    decreases i
  {
    if i > 0 {
      SourceBefore(p, run, states, i);
      var k := Source(run, i);
      RunStrandsNone(p, run, states, k, t);
      RunKeepsInv(p, run, states, k);
      if run[i - 1].Do? {
        assert !StrandsAt(run, states, i - 1, t);
        ApplyStrands(states[k], run[i - 1].event, t);
      } else {
        RecoverStrandsNone(states[k], run[i - 1].now, t);
      }
    }
  }

  lemma StrandedThen(p: Policy, run: seq<RunEvent>, states: seq<State>, m: nat, t: Target)
    requires IsRun(p, run, states) && m < |run| && NoneStranded(states[m], t) && NoneStranded(states[m + 1], t)
    ensures !StrandsAt(run, states, m, t)
  {
    SourceBefore(p, run, states, m + 1);
    RunKeepsInv(p, run, states, m);
    if run[m].Do? {
      ApplyStrands(states[m], run[m].event, t);
    }
  }

  /** Fence and owner. In every reachable state a target has at most one unrestored
      drain, and a restoring drain's target is open above its generation. Up to any
      state of a run, the fence is closed exactly when the target has a holder, in
      that drain's name and above every binding, if and only if no event so far
      cancelled a drain of the target while it restored, or finished restoring one at
      the zero instant. */
  lemma FenceOwner(p: Policy, run: seq<RunEvent>, states: seq<State>, i: nat, t: Target)
    requires IsRun(p, run, states) && i < |states|
    ensures forall x, y :: Unrestored(states[i], x, t) && Unrestored(states[i], y, t) ==> x == y
    ensures (forall j :: 0 <= j <= i ==> Corresponds(states[j], t)) <==> NoStrandBefore(run, states, i, t)
    ensures var e := states[i];
            forall d :: d in e.drains && e.drains[d].target == t && Phase(e.drains[d]) == Restoring ==>
              !Ad.IsClosed(e.fence, t) && Ad.GenerationOf(e.fence, t) > e.drains[d].generation
  {
    RunKeepsInv(p, run, states, i);
    OneUnrestored(states[i], t);
    forall j | 0 <= j <= i ensures Corresponds(states[j], t) <==> NoneStranded(states[j], t) {
      RunKeepsInv(p, run, states, j);
      CorrespondsIff(states[j], t);
    }
    if NoStrandBefore(run, states, i, t) {
      forall j | 0 <= j <= i ensures NoneStranded(states[j], t) {
        RunStrandsNone(p, run, states, j, t);
      }
    } else if forall j :: 0 <= j <= i ==> Corresponds(states[j], t) {
      forall m | 0 <= m < i ensures !StrandsAt(run, states, m, t) {
        StrandedThen(p, run, states, m, t);
      }
    }
    forall d | d in states[i].drains && states[i].drains[d].target == t && Phase(states[i].drains[d]) == Restoring
      ensures !Ad.IsClosed(states[i].fence, t) && Ad.GenerationOf(states[i].fence, t) > states[i].drains[d].generation
    {
      RestoringIsOpen(states[i], d, t);
    }
  }
}
