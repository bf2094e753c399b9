/** Safety over whole runs: what a drained target can still have outstanding, and
    what removals do to the fabric's commitments. */
module EngineSafety {
  import opened Identity
  import opened Lifecycle
  import opened Engine
  import opened EngineInvariant
  import opened EngineSteps
  import opened EngineOperations
  import opened EngineGuards
  import opened EngineRuns
  import opened EngineAudit
  import Ob = Obligations
  import Ad = Admission
  import To = Topology

  /** From index `from` on, restarts only recover snapshots taken since. */
  predicate RestartsSince(run: seq<RunEvent>, from: nat) {
    forall m :: from <= m < |run| && run[m].Restart? ==> run[m].snapshot >= from
  }

  lemma SourceSince(p: Policy, run: seq<RunEvent>, states: seq<State>, from: nat, j: nat)
    requires IsRun(p, run, states) && RestartsSince(run, from) && from < j < |states|
    ensures from <= Source(run, j) < j
  {
    SourceBefore(p, run, states, j);
  }

  // ---- Drained stays drained of old work --------------------------------------------------

  /** Past completion: never active again. */
  predicate Past(r: DrainRecord) {
    Phase(r) == Drained || Phase(r) == Restoring || Phase(r) == Cancelled
  }

  lemma PastStays(r: DrainRecord, r': DrainRecord)
    requires Motion(r, r') && Past(r)
    ensures Past(r') && (Phase(r') == Drained ==> Phase(r) == Drained)
  {
  }

  /** Every obligation on the target was already there, and moved on from there. */
  ghost predicate OnlyOldWork(base: State, e: State, t: Target) {
    forall o :: o in e.obligations && t in e.obligations[o].dependencies ==>
      o in base.obligations && Ob.Evolves(base.obligations[o], e.obligations[o])
  }

  ghost predicate StillGuarded(base: State, e: State, d: DrainId) {
    && d in base.drains && d in e.drains && e.drains[d].target == base.drains[d].target && Past(e.drains[d])
    && (Phase(e.drains[d]) == Drained ==> OnlyOldWork(base, e, base.drains[d].target))
  }

  /** While the target is closed, one more event adds no work to it. */
  lemma OldWorkStays(base: State, e: State, e': State, t: Target)
    requires OnlyOldWork(base, e, t) && ObligationsProgress(e, e') && Ad.IsClosed(e.fence, t)
    ensures OnlyOldWork(base, e', t)
  {
    forall o | o in e'.obligations && t in e'.obligations[o].dependencies
      ensures o in base.obligations && Ob.Evolves(base.obligations[o], e'.obligations[o])
    {
      assert o !in e.obligations ==> BoundOpen(e.fence, e'.obligations[o]);
      assert Ob.Evolves(e.obligations[o], e'.obligations[o]);
      Ob.EvolvesTransitive(base.obligations[o], e.obligations[o], e'.obligations[o]);
    }
  }

  lemma GuardStays(base: State, e: State, e': State, d: DrainId)
    requires Inv(e) && StillGuarded(base, e, d) && DrainsProgress(e, e') && ObligationsProgress(e, e')
    ensures StillGuarded(base, e', d)
  {
    assert Motion(e.drains[d], e'.drains[d]);
    PastStays(e.drains[d], e'.drains[d]);
    if Phase(e'.drains[d]) == Drained {
      assert RecordOk(e.fence, e.drainHighWater, d, e.drains[d]);
      OldWorkStays(base, e, e', base.drains[d].target);
    }
  }

  lemma RunProgress(p: Policy, run: seq<RunEvent>, states: seq<State>, j: nat)
    requires IsRun(p, run, states) && 0 < j < |states|
    ensures Source(run, j) < j && Inv(states[Source(run, j)])
    ensures DrainsProgress(states[Source(run, j)], states[j]) && ObligationsProgress(states[Source(run, j)], states[j])
  {
    SourceBefore(p, run, states, j);
    RunKeepsInv(p, run, states, Source(run, j));
    if run[j - 1].Do? {
      ApplyDrainsProgress(states[j - 1], run[j - 1].event);
      ApplyObligationsProgress(states[j - 1], run[j - 1].event);
    } else {
      RecoverProgress(states[Source(run, j)], run[j - 1].now);
    }
  }

  /** The drain completes with the event that leads to state i. */
  ghost predicate CompletesAt(run: seq<RunEvent>, states: seq<State>, d: DrainId, i: nat)
    requires 0 < i < |states| == |run| + 1
  {
    && run[i - 1].Do? && d in states[i - 1].drains && d in states[i].drains
    && states[i - 1].drains[d].state != Drained && states[i].drains[d].state == Drained
  }

  lemma CompletionIsProven(p: Policy, run: seq<RunEvent>, states: seq<State>, d: DrainId, i: nat)
    requires IsRun(p, run, states) && 0 < i < |states| && CompletesAt(run, states, d, i)
    ensures run[i - 1].event.DrainEvent? && run[i - 1].event.drain == d
    ensures ProvenDrained(states[i], d, run[i - 1].event.now)
  {
    SourceBefore(p, run, states, i);
    var e := states[Source(run, i)];
    RunKeepsInv(p, run, states, Source(run, i));
    EventCompletes(e, run[i - 1].event, states[i], d);
  }

  lemma EventCompletes(e: State, v: Event, e': State, d: DrainId)
    requires Inv(e) && Roomy(e) && e' == Apply(e, v) && d in e.drains && d in e'.drains
    requires e.drains[d].state != Drained && e'.drains[d].state == Drained
    ensures v.DrainEvent? && v.drain == d && ProvenDrained(e', d, v.now)
  {
    if v.DrainEvent? && v.drain == d {
      InvIsReady(e, d);
      DrainedOnProof(e, e', d, v.call, v.now);
    } else {
      OthersUntouched(e, v, d);
    }
  }

  /** An event changes no existing drain but the one it names. */
  lemma OthersUntouched(e: State, v: Event, d: DrainId)
    requires Inv(e) && Roomy(e) && d in e.drains && !(v.DrainEvent? && v.drain == d)
    ensures d in Apply(e, v).drains && Apply(e, v).drains[d] == e.drains[d]
  {
    match v
    case RequestEvent(ts, authority, nonce, now) => RequestOnlyAdds(e, ts, authority, nonce, now);
    case DrainEvent(x, op, now) =>
      if x in e.drains {
        ApplyDrainEffect(e, x, op, now);
      }
    case _ =>
  }

  /** State i is on the history that leads to state j: the chain of states each was
      made from, which a restart continues from its snapshot. */
  ghost predicate OnHistory(run: seq<RunEvent>, i: nat, j: nat)
    decreases j
  {
    i == j || (0 < j <= |run| && Source(run, j) < j && OnHistory(run, i, Source(run, j)))
  }

  lemma RecoverDrainsNone(e: State, now: Time, d: DrainId)
    requires d in Recover(e, now).drains && Recover(e, now).drains[d].state == Drained
    ensures d in e.drains && e.drains[d].state == Drained
  {
  }

  /** A drained record leads back to the event that completed it, however many
      restarts lie between, and its target was guarded ever since. */
  lemma {:induction false} DrainedSince(p: Policy, run: seq<RunEvent>, states: seq<State>, d: DrainId, j: nat)
    returns (i: nat)
    requires IsRun(p, run, states) && j < |states|
    requires d in states[j].drains && states[j].drains[d].state == Drained
    ensures 0 < i <= j && OnHistory(run, i, j)
    ensures CompletesAt(run, states, d, i) && StillGuarded(states[i], states[j], d)
    decreases j
  {
    RunProgress(p, run, states, j);
    SourceBefore(p, run, states, j);
    var k := Source(run, j);
    assert d !in states[k].drains ==> Fresh(states[k].drainHighWater, d, states[j].drains[d]);
    if states[k].drains[d].state == Drained {
      i := DrainedSince(p, run, states, d, k);
      GuardStays(states[i], states[k], states[j], d);
    } else {
      if run[j - 1].Restart? {
        RecoverDrainsNone(states[k], run[j - 1].now, d);
      }
      i := j;
      JustGuarded(states[j], d);
    }
  }

  lemma JustGuarded(e: State, d: DrainId)
    requires d in e.drains && e.drains[d].state == Drained
    ensures StillGuarded(e, e, d)
  {
  }

  /** What the drained state e owes to its completion at base: every protected
      obligation outstanding on the target was known there, Retired, and has
      reappeared since. */
  ghost predicate OnlyReappeared(base: State, e: State, d: DrainId) {
    && d in base.drains && d in e.drains && e.drains[d].target == base.drains[d].target
    && forall o :: o in Outstanding(e, base.drains[d].target) ==>
         && o in base.obligations && base.obligations[o].state == Ob.Retired
         && e.obligations[o].reappearances > base.obligations[o].reappearances
  }

  /** Drained safety, over every run. Whenever a drain is Drained it completed by an
      event on the very history that leads there, not on one a restart abandoned, and
      every protected obligation outstanding on its target was already known, and
      Retired, at that completion, and has reappeared since; none was admitted later. */
  lemma DrainedSafety(p: Policy, run: seq<RunEvent>, states: seq<State>, d: DrainId, j: nat)
    requires IsRun(p, run, states) && j < |states|
    requires d in states[j].drains && states[j].drains[d].state == Drained
    ensures exists i :: 0 < i <= j && OnHistory(run, i, j)
                        && CompletesAt(run, states, d, i) && OnlyReappeared(states[i], states[j], d)
  {
    var i := DrainedSince(p, run, states, d, j);
    CompletionIsProven(p, run, states, d, i);
    GuardedOutstanding(states[i], states[j], d);
  }

  lemma GuardedOutstanding(base: State, e: State, d: DrainId)
    requires StillGuarded(base, e, d) && e.drains[d].state == Drained
    requires Outstanding(base, base.drains[d].target) == {}
    ensures OnlyReappeared(base, e, d)
  {
    var t := base.drains[d].target;
    forall o | o in Outstanding(e, t)
      ensures o in base.obligations && base.obligations[o].state == Ob.Retired
      ensures e.obligations[o].reappearances > base.obligations[o].reappearances
    {
      assert Ob.Evolves(base.obligations[o], e.obligations[o]);
      assert o !in Outstanding(base, t);
    }
  }

  // ---- Removals keep the commitments ------------------------------------------------------------

  predicate LeavesFabric(v: Event) {
    !(v.SetupEvent? && (v.setup.FabricOp? || v.setup.PolicyOp?))
  }

  /** No event from index `from` on changes topology or policy from outside. */
  predicate FabricLeft(run: seq<RunEvent>, from: nat) {
    forall m :: from <= m < |run| && run[m].Do? ==> LeavesFabric(run[m].event)
  }

  predicate Committed(e: State) {
    To.CommitmentsHold(e.fabric, e.policy.headroom)
  }

  lemma MoveCommits(e: State, e': State, id: ResourceId)
    requires FabricMove(e, e'.fabric, id) && e'.policy == e.policy
    ensures e'.fabric == e.fabric || Committed(e')
  {
    if e'.fabric != e.fabric {
      To.OneOutHolds(e.fabric, id, e.policy.headroom);
    }
  }

  /** An event of the engine leaves the fabric alone or leaves it committed. */
  lemma ApplyCommits(e: State, v: Event)
    requires Inv(e) && Roomy(e) && LeavesFabric(v)
    ensures Apply(e, v).policy == e.policy
    ensures Apply(e, v).fabric == e.fabric || Committed(Apply(e, v))
  {
    match v
    case DrainEvent(d, op, now) =>
      if d in e.drains {
        InvIsReady(e, d);
        ApplyDrainEffect(e, d, op, now);
        OpKeepsFabric(e, d, op, now);
        MoveCommits(e, ApplyDrain(e, d, op, now), e.drains[d].target.id);
      }
    case _ =>
  }

  /** A removal step leaves every capacity, diversity and route commitment standing. */
  lemma RemovalCommits(p: Policy, run: seq<RunEvent>, states: seq<State>, i: nat)
    requires IsRun(p, run, states) && 0 < i < |states|
    requires run[i - 1].Do? && LeavesFabric(run[i - 1].event)
    requires states[i].fabric != states[i - 1].fabric
    ensures Committed(states[i])
  {
    SourceBefore(p, run, states, i);
    var e := states[Source(run, i)];
    RunKeepsInv(p, run, states, Source(run, i));
    ApplyCommits(e, run[i - 1].event);
  }

  /** And as long as topology and policy change only through drains, commitments
      that hold keep holding, whatever the drains do. */
  lemma {:induction false} CommitmentsKeepHolding(p: Policy, run: seq<RunEvent>, states: seq<State>, from: nat, j: nat)
    requires IsRun(p, run, states) && from <= j < |states|
    requires RestartsSince(run, from) && FabricLeft(run, from) && Committed(states[from])
    ensures Committed(states[j])
    decreases j
  {
    if j > from {
      SourceSince(p, run, states, from, j);
      var k := Source(run, j);
      SourceBefore(p, run, states, j);
      CommitmentsKeepHolding(p, run, states, from, k);
      if run[j - 1].Do? {
        RunKeepsInv(p, run, states, k);
        assert LeavesFabric(run[j - 1].event);
        ApplyCommits(states[k], run[j - 1].event);
      }
    }
  }

  predicate ChangedOutside(run: seq<RunEvent>, m: nat)
    requires m < |run|
  {
    run[m].Do? && !LeavesFabric(run[m].event)
  }

  /** Over every run and through every restart: if each outside change of topology or
      policy leaves the commitments standing, they stand in every state. */
  lemma {:induction false} CommitmentsStand(p: Policy, run: seq<RunEvent>, states: seq<State>, j: nat)
    requires IsRun(p, run, states) && j < |states|
    requires forall m :: 0 <= m < |run| && ChangedOutside(run, m) ==> Committed(states[m + 1])
    ensures Committed(states[j])
    decreases j
  {
    if j > 0 {
      SourceBefore(p, run, states, j);
      var k := Source(run, j);
      CommitmentsStand(p, run, states, k);
      if run[j - 1].Do? {
        if !ChangedOutside(run, j - 1) {
          RunKeepsInv(p, run, states, k);
          ApplyCommits(states[k], run[j - 1].event);
        }
      }
    }
  }
}
