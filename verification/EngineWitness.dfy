/** Runs that really happen: one port, one protected flow, one drain. They show that
    each exception of the theorems about runs is taken by some run. */
module EngineWitness {
  import opened Identity
  import opened Lifecycle
  import opened Engine
  import opened EngineInvariant
  import opened EngineOperations
  import opened EngineGuards
  import opened EngineRuns
  import opened EngineAudit
  import opened EngineProgress
  import opened EngineLedger
  import Ob = Obligations
  import Ev = Evidence
  import Au = Authority
  import Ad = Admission
  import To = Topology

  // ---- Replaying a list of events ---------------------------------------------------------

  /** A policy within the bounds of the source, as tight as they allow. */
  const POLICY: Policy :=
    Policy(1, 1, 1, true, 1, 1, 1, 0, 0, 10, 0, 0, 10, map[], To.Headroom(1, 1), true, true, true)

  /** The state a list of events leads to. */
  function After(run: seq<RunEvent>): State
    decreases |run|
  {
    if run == [] then Empty(POLICY)
    else
      var before := run[..|run| - 1];
      match run[|run| - 1]
      case Do(event) => Apply(After(before), event)
      case Restart(k, now) => if k < |run| then Recover(After(run[..k]), now) else After(before)
  }

  function Replay(run: seq<RunEvent>): seq<State> {
    seq(|run| + 1, i requires 0 <= i <= |run| => After(run[..i]))
  }

  lemma ReplayAt(run: seq<RunEvent>, i: nat)
    requires i <= |run|
    ensures Replay(run)[i] == After(run[..i]) && (i == |run| ==> Replay(run)[i] == After(run))
  {
    assert i == |run| ==> run[..i] == run;
  }

  /** One more event leaves the states before it alone. */
  lemma ReplayPrefix(run: seq<RunEvent>, event: RunEvent, i: nat)
    requires i <= |run|
    ensures Replay(run + [event])[i] == Replay(run)[i]
  {
    assert (run + [event])[..i] == run[..i];
  }

  ghost predicate AllRoomy(run: seq<RunEvent>) {
    forall i :: 0 <= i <= |run| ==> Roomy(Replay(run)[i])
  }

  ghost predicate AllClean(run: seq<RunEvent>) {
    forall i :: 0 <= i <= |run| ==> AuditClean(Replay(run)[i])
  }

  predicate Numbered(run: seq<RunEvent>) {
    forall m :: 0 <= m < |run| && run[m].Restart? ==> run[m].snapshot <= m
  }

  /** A list of events, restarts numbered within it, is a run. */
  lemma ReplayIsRun(run: seq<RunEvent>)
    requires AllRoomy(run) && Numbered(run)
    ensures IsRun(POLICY, run, Replay(run))
  {
    forall i | 0 <= i < |run| ensures Follows(run, Replay(run), i) {
      ReplayFollows(run, i);
    }
  }

  lemma ReplayFollows(run: seq<RunEvent>, i: nat)
    requires i < |run| && (run[i].Restart? ==> run[i].snapshot <= i)
    ensures Follows(run, Replay(run), i)
  {
    assert run[..i + 1][..i] == run[..i];
    assert run[i].Restart? ==> run[..i + 1][..run[i].snapshot] == run[..run[i].snapshot];
  }

  lemma AfterDo(run: seq<RunEvent>, event: Event)
    ensures After(run + [Do(event)]) == Apply(After(run), event)
  {
    assert (run + [Do(event)])[..|run|] == run;
  }

  lemma AfterRestart(run: seq<RunEvent>, k: nat, now: Time)
    requires k <= |run|
    ensures After(run + [Restart(k, now)]) == Recover(After(run[..k]), now)
  {
    assert (run + [Restart(k, now)])[..k] == run[..k];
  }

  /** The run leads to e, and every audit on the way is clean. */
  ghost predicate Leads(run: seq<RunEvent>, e: State) {
    && AllRoomy(run) && Numbered(run) && After(run) == e
    && Inv(e) && DrainedKnown(e) && AllCalm(e)
    && AllClean(run)
  }

  lemma RoomyNext(run: seq<RunEvent>, event: RunEvent, e: State)
    requires AllRoomy(run) && e == After(run + [event]) && Roomy(e)
    ensures AllRoomy(run + [event])
  {
    forall i | 0 <= i <= |run + [event]| ensures Roomy(Replay(run + [event])[i]) {
      if i <= |run| {
        ReplayPrefix(run, event, i);
      } else {
        ReplayAt(run + [event], i);
      }
    }
  }

  lemma CleanNext(run: seq<RunEvent>, event: RunEvent, e: State)
    requires AllClean(run) && e == After(run + [event]) && AuditClean(e)
    ensures AllClean(run + [event])
  {
    forall i | 0 <= i <= |run + [event]| ensures AuditClean(Replay(run + [event])[i]) {
      if i <= |run| {
        ReplayPrefix(run, event, i);
      } else {
        ReplayAt(run + [event], i);
      }
    }
  }

  lemma LeadsRoomy(run: seq<RunEvent>, e: State)
    requires AllRoomy(run) && After(run) == e
    ensures Roomy(e)
  {
    ReplayAt(run, |run|);
  }

  lemma Starts()
    ensures Leads([], Empty(POLICY))
  {
    AuditExact(Empty(POLICY));
    assert Replay([]) == [Empty(POLICY)];
  }

  lemma LeadsOn(run: seq<RunEvent>, event: RunEvent, e: State)
    requires AllRoomy(run) && Numbered(run + [event]) && AllClean(run) && e == After(run + [event])
    requires Inv(e) && DrainedKnown(e) && AllCalm(e) && Roomy(e)
    ensures Leads(run + [event], e)
  {
    AuditExact(e);
    RoomyNext(run, event, e);
    CleanNext(run, event, e);
  }

  /** A permitted event goes on. */
  lemma Then(run: seq<RunEvent>, e: State, event: Event, e': State)
    requires Leads(run, e) && e' == Apply(e, event) && Permitted(e, event) && Roomy(e')
    ensures Leads(run + [Do(event)], e')
  {
    LeadsRoomy(run, e);
    AfterDo(run, event);
    ApplyKeepsInv(e, event);
    ApplyKeepsKnown(e, event);
    ApplyCalm(e, event);
    LeadsOn(run, Do(event), e');
  }

  lemma RecoverSound(e: State, now: Time, e': State)
    requires Inv(e) && DrainedKnown(e) && AllCalm(e) && e' == Recover(e, now)
    ensures Inv(e') && DrainedKnown(e') && AllCalm(e')
  {
    RecoverKeepsInv(e, now);
    RecoverKeepsKnown(e, now);
    RecoverCalm(e, now);
  }

  /** A restart from a state on the way goes on too. */
  lemma ThenRestart(run: seq<RunEvent>, e: State, k: nat, early: State, now: Time)
    requires Leads(run, e) && k <= |run| && Leads(run[..k], early)
    ensures Leads(run + [Restart(k, now)], Recover(early, now))
  {
    LeadsRoomy(run[..k], early);
    AfterRestart(run, k, now);
    RecoverSound(early, now, Recover(early, now));
    LeadsOn(run, Restart(k, now), Recover(early, now));
  }

  lemma StepActs(e: State, at: Time)
    requires 1 in e.drains && e.drains[1].state != Blocked
    ensures Apply(e, Step(at)) == Act(e, 1, at, DIGEST)
  {
  }

  lemma StepPermitted(e: State, at: Time)
    requires 1 in e.drains && Phase(e.drains[1]) != Restoring
    ensures Permitted(e, Step(at))
  {
  }

  /** A step of a drain that is neither blocked nor restoring is the act of its state. */
  lemma ThenStep(run: seq<RunEvent>, e: State, at: Time, e': State)
    requires Leads(run, e) && 1 in e.drains && Roomy(e')
    requires e.drains[1].state != Blocked && e.drains[1].state != Restoring && e' == Act(e, 1, at, DIGEST)
    ensures Leads(run + [Do(Step(at))], e')
  {
    StepActs(e, at);
    StepPermitted(e, at);
    Then(run, e, Step(at), e');
  }

  // ---- The story --------------------------------------------------------------------------

  const PORT: Target := Target(Port, "port", "rack")

  function Node(status: To.ResourceStatus): To.ResourceNode {
    To.ResourceNode(PORT, 1, 0, status)
  }

  function Flow(at: Time): Ob.Obligation {
    Ob.Obligation(Ob.ActiveFlow, true, {PORT}, 0, at, 0, Ob.Admitted, 1, 0, 0, 0)
  }

  /** The flow after its first report. */
  function Reported(at: Time, next: Ob.ObligationState): Ob.Obligation {
    if next == Ob.Retired then Flow(at).(state := Ob.Retired, revision := 2, clearedAt := at)
    else Flow(at).(state := Ob.Evacuating, revision := 2)
  }

  const DIGEST: nat := 7

  function Record(at: Time): DrainRecord {
    NewRecord(1, 1, PORT, 1, at)
  }

  function ClosedRecord(at: Time, s: DrainState): DrainRecord {
    Record(at).(state := s, generation := 1, admissionClosedAt := at)
  }

  function DrainedRecord(at: Time): DrainRecord {
    ClosedRecord(at, Drained).(completedAt := at, completionDigest := DIGEST, completionEvidence := 1)
  }

  function Removal(at: Time): Ev.Observation {
    Ev.Observation(1, RemovalKey(Record(at)), 1, 1, 1, 1, at, SaturatingAdd(at, 10), true, 0, true)
  }

  function Observed(at: Time): Ev.Ledger {
    Ev.Ledger(map[Ev.RecordKey(RemovalKey(Record(at)), 1) := Removal(at)], map[RemovalKey(Record(at)) := 1], 1, 1)
  }

  function Step(at: Time): Event {
    DrainEvent(1, StepOp(DIGEST), at)
  }

  /** Line, token, port, flow and the flow's report. */
  function Opening(at: Time, next: Ob.ObligationState): seq<RunEvent> {
    [] + [Do(SetupEvent(LineOp(1, 1), at))] + [Do(SetupEvent(IssueOp("rack", 0), at))]
    + [Do(SetupEvent(FabricOp(To.AddResource(Node(To.InService))), at))] + [Do(AdmitEvent(Flow(at), 0, 1, at))]
    + [Do(ReportEvent(Report(1, 1, next, 0, 0, 0), at))]
  }

  /** The request, and the steps until admission has been closed and has settled. */
  function Closing(at: Time, next: Ob.ObligationState): seq<RunEvent> {
    Opening(at, next) + [Do(RequestEvent([PORT], 1, 0, at))] + [Do(Step(at))] + [Do(Step(at))] + [Do(Step(at))]
  }

  /** With the flow retired: removal and completion. */
  function Completing(at: Time): seq<RunEvent> {
    Closing(at, Ob.Retired) + [Do(Step(at))] + [Do(Step(at))]
  }

  function Restoration(at: Time): seq<RunEvent> {
    Completing(at) + [Do(DrainEvent(1, RestoreOp(1), at))]
  }

  function Equipped(at: Time): State {
    Empty(POLICY).(
      authority := Au.Registry(map[1 := Au.Token(1, "rack", 0, 1, 1, at, 0, false)], map[], 1, 1, 1),
      fabric := To.EMPTY.(resources := map["port" := Node(To.InService)]))
  }

  function Requested(at: Time, next: Ob.ObligationState, r: DrainRecord): State {
    Equipped(at).(
      obligations := map[1 := Reported(at, next)], obligationHighWater := 1,
      drains := map[1 := r], sets := map[1 := DrainSet([PORT], [1])], drainHighWater := 1, setHighWater := 1)
  }

  function Closed(at: Time, next: Ob.ObligationState, r: DrainRecord): State {
    Requested(at, next, r).(fence := map[PORT := Ad.FenceEntry(true, 1, 1)])
  }

  function Removed(at: Time, r: DrainRecord): State {
    Closed(at, Ob.Retired, r).(
      fabric := To.EMPTY.(resources := map["port" := Node(To.Unavailable)]), evidence := Observed(at))
  }

  function Restored(at: Time, r: DrainRecord): State {
    Removed(at, r).(fence := map[PORT := Ad.FenceEntry(false, 2, 1)])
  }

  // ---- Line, token, port, flow ------------------------------------------------------------

  predicate Answer(next: Ob.ObligationState) {
    next == Ob.Retired || next == Ob.Evacuating
  }

  lemma NoToken(r: Au.Registry)
    requires r.tokens == map[]
    ensures Au.RevokeAll(r) == r
  {
    assert Au.RevokeAll(r).tokens == r.tokens;
  }

  lemma NoRecord(l: Ev.Ledger)
    requires l.records == map[]
    ensures Ev.QuarantineAll(l) == l
  {
    assert Ev.QuarantineAll(l).records == l.records;
  }

  lemma LineEvent(e: State, at: Time)
    ensures Apply(e, SetupEvent(LineOp(1, 1), at)) == InstallLine(e, 1, 1).state
  {
  }

  lemma Lined(at: Time, e: State)
    requires e.authority.tokens == map[] && e.authority.incarnation == 0 && e.authority.epoch == 1
    requires e.evidence.records == map[]
    ensures InstallLine(e, 1, 1).state == e.(authority := e.authority.(incarnation := 1))
  {
    NoToken(e.authority.(incarnation := 1));
    NoRecord(e.evidence);
  }

  lemma Issued(at: Time, e: State)
    requires e.authority == Au.EMPTY.(incarnation := 1)
    ensures Apply(e, SetupEvent(IssueOp("rack", 0), at)) == e.(authority := Equipped(at).authority)
  {
  }

  lemma Ported(at: Time, e: State)
    requires e.fabric == To.EMPTY
    ensures Apply(e, SetupEvent(FabricOp(To.AddResource(Node(To.InService))), at))
         == e.(fabric := To.EMPTY.(resources := map["port" := Node(To.InService)]))
  {
  }

  lemma Authorized(at: Time)
    ensures Au.Authorizes(Equipped(at).authority, 1, at)
  {
  }

  lemma Answered(at: Time, next: Ob.ObligationState, e: State)
    requires e.obligations == map[1 := Flow(at)] && Answer(next)
    ensures Apply(e, ReportEvent(Report(1, 1, next, 0, 0, 0), at)) == e.(obligations := map[1 := Reported(at, next)])
  {
    assert Ob.ApplyState(Flow(at), 1, next, 0, at) == Some(Reported(at, next));
  }

  /** What the story's states have in common from the request on. */
  predicate Staged(e: State, r: DrainRecord, at: Time) {
    && e.policy == POLICY && e.drains == map[1 := r] && e.sets == map[1 := DrainSet([PORT], [1])]
    && r.id == 1 && r.set_ == 1 && r.target == PORT && r.authority == 1 && r.stateSince == at
    && r.blockers == {} && r.blockedFrom == None
    && Au.Authorizes(e.authority, 1, at) && e.authority.incarnation == 1 && e.authority.epoch == 1
  }

  predicate InPlace(f: To.Fabric) {
    f == To.EMPTY.(resources := map["port" := Node(To.InService)])
  }

  lemma FlowAdmitted(e: State, at: Time)
    requires e.policy == POLICY && e.obligations == map[] && e.obligationHighWater == 0 && e.fence == map[]
    requires Au.Authorizes(e.authority, 1, at)
    ensures Apply(e, AdmitEvent(Flow(at), 0, 1, at)) == e.(obligations := map[1 := Flow(at)], obligationHighWater := 1)
  {
    assert |Flow(at).dependencies| == 1;
    assert Admissible(e, Flow(at), 0, 1, at);
  }

  /** Nothing but the port itself stands in the way of its removal. */
  lemma PortRemovable(f: To.Fabric)
    requires InPlace(f)
    ensures To.Validate(f, {"port"}, POLICY.headroom) == To.Fine
  {
    To.ValidateIff(f, {"port"}, POLICY.headroom);
  }

  lemma OnePort()
    ensures Normalize([PORT]) == [PORT] && InDomain([PORT], "rack") == 1
    ensures (set i | 0 <= i < |[PORT]| :: [PORT][i].id) == {"port"}
  {
    assert [PORT][1..] == [] && [PORT][..0] == [];
    assert [PORT][0].id in set i | 0 <= i < |[PORT]| :: [PORT][i].id;
  }

  lemma OneDrain(e: State, at: Time)
    requires e.drainHighWater == 0 && e.setHighWater == 0
    ensures NewMembers(e, 1) == [1] && NewDrains(e, [PORT], 1, at) == map[1 := Record(at)]
  {
    assert [PORT][..0] == [];
    assert NewDrains(e, [], 1, at) == map[];
  }

  lemma PortGrantable(e: State)
    requires e.policy == POLICY && InPlace(e.fabric) && e.drains == map[]
    ensures Grantable(e, [PORT])
  {
    OnePort();
    PortRemovable(e.fabric);
  }

  lemma PortRequested(e: State, at: Time)
    requires e.policy == POLICY && InPlace(e.fabric) && e.drains == map[] && e.sets == map[] && e.nonces == map[]
    requires e.drainHighWater == 0 && e.setHighWater == 0 && Au.Authorizes(e.authority, 1, at)
    ensures RequestSet(e, [PORT], 1, 0, at).state
         == e.(drains := map[1 := Record(at)], sets := map[1 := DrainSet([PORT], [1])],
               drainHighWater := 1, setHighWater := 1)
  {
    OnePort();
    OneDrain(e, at);
    PortGrantable(e);
    assert WellFormedRequest(e, [PORT], 1, at);
  }

  lemma Validates(e: State, r: DrainRecord, at: Time)
    requires Staged(e, r, at) && r.state == DrainState.Requested
    ensures Act(e, 1, at, DIGEST) == e.(drains := map[1 := r.(state := Validating)])
  {
  }

  lemma StartClear(e: State, r: DrainRecord, at: Time)
    requires Staged(e, r, at) && InPlace(e.fabric) && e.fence == map[]
    ensures StartBlockers(e, r, at) == {}
  {
    assert OthersHolding(e, r) == {} && OthersWaiting(e, r) == {};
    PortRemovable(e.fabric);
    assert SetBlockers(e, r) == {};
  }

  lemma PortCloses(f: Ad.Fence)
    requires f == map[]
    ensures Ad.Close(f, PORT, 1) == Ad.FenceResult(map[PORT := Ad.FenceEntry(true, 1, 1)], Some(1))
  {
    assert |f.Keys + {PORT}| == 1;
  }

  lemma ActCloses(e: State, at: Time)
    requires 1 in e.drains && e.drains[1].state == Validating && StartBlockers(e, e.drains[1], at) == {}
    ensures Act(e, 1, at, DIGEST) == CloseAdmission(e, 1, at)
  {
  }

  lemma ClosesTo(e: State, at: Time)
    requires Staged(e, Record(at).(state := Validating), at) && e.fence == map[]
    ensures CloseAdmission(e, 1, at)
         == e.(fence := map[PORT := Ad.FenceEntry(true, 1, 1)], drains := map[1 := ClosedRecord(at, AdmissionClosed)])
  {
    PortCloses(e.fence);
    assert Transition(Record(at).(state := Validating, generation := 1), AdmissionClosed, at)
        == Some(ClosedRecord(at, AdmissionClosed));
  }

  lemma Closes(e: State, at: Time)
    requires Staged(e, Record(at).(state := Validating), at) && InPlace(e.fabric) && e.fence == map[]
    ensures Act(e, 1, at, DIGEST)
         == e.(fence := map[PORT := Ad.FenceEntry(true, 1, 1)], drains := map[1 := ClosedRecord(at, AdmissionClosed)])
  {
    StartClear(e, e.drains[1], at);
    ActCloses(e, at);
    ClosesTo(e, at);
  }

  lemma FlowOutstanding(e: State, at: Time, next: Ob.ObligationState)
    requires e.obligations == map[1 := Reported(at, next)] && Answer(next)
    ensures Outstanding(e, PORT) == if next == Ob.Retired then {} else {1}
  {
  }

  lemma Settles(e: State, at: Time, next: Ob.ObligationState)
    requires Staged(e, ClosedRecord(at, AdmissionClosed), at) && 0 <= at <= 1000 && Answer(next)
    requires e.obligations == map[1 := Reported(at, next)]
    ensures Act(e, 1, at, DIGEST)
         == e.(drains := map[1 := ClosedRecord(at, if next == Ob.Retired then DrainState.Quiescing
                                                   else DrainState.Evacuating)])
  {
    FlowOutstanding(e, at, next);
  }

  lemma RemovalClear(e: State, r: DrainRecord, at: Time)
    requires e.policy == POLICY && r.target == PORT && InPlace(e.fabric)
    requires e.obligations == map[1 := Reported(at, Ob.Retired)]
    ensures !SomeMoving(e, PORT) && QuiescenceBlockers(e, r, at) == {} && Retirable(e, r, at) == {}
    ensures RemovalBlockers(e, r) == {}
  {
    FlowOutstanding(e, at, Ob.Retired);
    assert Retirable(e, r, at) == {} && ReleaseBlockers(e, r, at) == {};
    PortRemovable(e.fabric);
  }

  lemma PortObserved(e: State, at: Time)
    requires Staged(e, ClosedRecord(at, DrainState.Quiescing), at) && 0 <= at <= 1000
    requires e.evidence == Empty(POLICY).evidence
    ensures ObserveRemoval(e, 1, at) == Some(e.(evidence := Observed(at)))
  {
    assert RemovalDraft(e, e.drains[1], at) == Removal(at).(attested := false);
    assert Ev.Record(e.evidence, Removal(at).(attested := false), LineAt(e, at), true)
        == Ev.Recorded(Observed(at), Removal(at));
  }

  lemma Finishes(e: State, at: Time)
    requires Staged(e, ClosedRecord(at, DrainState.Quiescing), at) && 0 <= at <= 1000
    requires e.evidence == Empty(POLICY).evidence
    ensures FinishRemoval(e, 1, at) == e.(evidence := Observed(at), drains := map[1 := ClosedRecord(at, Verifying)])
  {
    PortObserved(e, at);
  }

  lemma QuiescingRemoves(e: State, at: Time)
    requires 1 in e.drains && e.drains[1].state == DrainState.Quiescing && e.drains[1].target == PORT
    requires !SomeMoving(e, PORT) && QuiescenceBlockers(e, e.drains[1], at) == {}
    requires Retirable(e, e.drains[1], at) == {}
    ensures Act(e, 1, at, DIGEST) == Remove(e, 1, at)
  {
    assert Act(e, 1, at, DIGEST) == ActQuiescing(e, 1, at);
  }

  lemma RemoveTakesOut(e: State, at: Time)
    requires 1 in e.drains && e.drains[1].target == PORT && RemovalBlockers(e, e.drains[1]) == {}
    ensures Remove(e, 1, at) == FinishRemoval(TakenOut(e, "port"), 1, at)
  {
  }

  lemma PortOut(e: State, out: To.Fabric)
    requires InPlace(e.fabric) && out == To.EMPTY.(resources := map["port" := Node(To.Unavailable)])
    ensures TakenOut(e, "port") == e.(fabric := out)
  {
  }

  lemma Removes(e: State, at: Time, out: To.Fabric)
    requires Staged(e, ClosedRecord(at, DrainState.Quiescing), at) && InPlace(e.fabric) && 0 <= at <= 1000
    requires e.obligations == map[1 := Reported(at, Ob.Retired)] && e.evidence == Empty(POLICY).evidence
    requires out == To.EMPTY.(resources := map["port" := Node(To.Unavailable)])
    ensures Act(e, 1, at, DIGEST)
         == e.(fabric := out, evidence := Observed(at), drains := map[1 := ClosedRecord(at, Verifying)])
  {
    RemovalClear(e, e.drains[1], at);
    QuiescingRemoves(e, at);
    RemoveTakesOut(e, at);
    PortOut(e, out);
    Finishes(e.(fabric := out), at);
  }

  lemma VerificationClear(e: State, r: DrainRecord, at: Time)
    requires Staged(e, r, at) && r == ClosedRecord(at, Verifying) && 0 <= at <= 1000
    requires e.fabric == To.EMPTY.(resources := map["port" := Node(To.Unavailable)])
    requires e.fence == map[PORT := Ad.FenceEntry(true, 1, 1)] && e.evidence == Observed(at)
    requires Outstanding(e, PORT) == {}
    ensures VerificationBlockers(e, r, at) == {} && CompletionProof(e, r, at) == 1
  {
    assert RemovalEvidence(e, r, at) == Some(Removal(at));
  }

  lemma ActCompletes(e: State, r: DrainRecord, at: Time)
    requires 1 in e.drains && e.drains[1] == r && r.state == Verifying && VerificationBlockers(e, r, at) == {}
    ensures Act(e, 1, at, DIGEST) == Complete(e, 1, at, DIGEST)
  {
  }

  lemma CompletesTo(e: State, at: Time)
    requires Staged(e, ClosedRecord(at, Verifying), at) && Outstanding(e, PORT) == {}
    requires CompletionProof(e, ClosedRecord(at, Verifying), at) == 1
    ensures Complete(e, 1, at, DIGEST) == e.(drains := map[1 := DrainedRecord(at)])
  {
  }

  lemma Completes(e: State, at: Time)
    requires Staged(e, ClosedRecord(at, Verifying), at) && 0 <= at <= 1000
    requires e.fabric == To.EMPTY.(resources := map["port" := Node(To.Unavailable)])
    requires e.fence == map[PORT := Ad.FenceEntry(true, 1, 1)] && e.evidence == Observed(at)
    requires Outstanding(e, PORT) == {}
    ensures Act(e, 1, at, DIGEST) == e.(drains := map[1 := DrainedRecord(at)])
  {
    VerificationClear(e, e.drains[1], at);
    ActCompletes(e, e.drains[1], at);
    CompletesTo(e, at);
  }

  lemma Restores(e: State, at: Time)
    requires Staged(e, DrainedRecord(at), at) && e.fence == map[PORT := Ad.FenceEntry(true, 1, 1)]
    ensures Apply(e, DrainEvent(1, RestoreOp(1), at))
         == e.(fence := map[PORT := Ad.FenceEntry(false, 2, 1)],
               drains := map[1 := DrainedRecord(at).(state := Restoring, restoreGeneration := 2)])
  {
    RestoreCalled(e, at);
    RestoreEnters(e, at);
    Reopens(e, at);
    EntersRestoring(e, at, Ad.FenceResult(map[PORT := Ad.FenceEntry(false, 2, 1)], Some(2)));
  }

  lemma RestoreCalled(e: State, at: Time)
    requires 1 in e.drains
    ensures Apply(e, DrainEvent(1, RestoreOp(1), at)) == Restore(e, 1, 1, at).state
  {
  }

  lemma RestoreEnters(e: State, at: Time)
    requires Staged(e, DrainedRecord(at), at)
    ensures Restore(e, 1, 1, at) == EnterRestoring(e, 1, ReopenFor(e, 1), at)
  {
  }

  lemma Reopens(e: State, at: Time)
    requires Staged(e, DrainedRecord(at), at) && e.fence == map[PORT := Ad.FenceEntry(true, 1, 1)]
    ensures ReopenFor(e, 1) == Ad.FenceResult(map[PORT := Ad.FenceEntry(false, 2, 1)], Some(2))
  {
  }

  lemma EntersRestoring(e: State, at: Time, reopened: Ad.FenceResult)
    requires Staged(e, DrainedRecord(at), at) && reopened.generation == Some(2)
    ensures EnterRestoring(e, 1, reopened, at).state
         == e.(fence := reopened.fence,
               drains := map[1 := DrainedRecord(at).(state := Restoring, restoreGeneration := 2)])
  {
  }

  // ---- The run ----------------------------------------------------------------------------

  lemma OpeningLeads(at: Time, next: Ob.ObligationState)
    requires Answer(next)
    ensures Leads(Opening(at, next),
                  Equipped(at).(obligations := map[1 := Reported(at, next)], obligationHighWater := 1))
  {
    var e0 := Empty(POLICY);
    var e1 := e0.(authority := e0.authority.(incarnation := 1));
    var e2 := e0.(authority := Equipped(at).authority);
    var e3 := Equipped(at);
    var e4 := e3.(obligations := map[1 := Flow(at)], obligationHighWater := 1);
    Starts();
    LineEvent(e0, at);
    Lined(at, e0);
    Then([], e0, SetupEvent(LineOp(1, 1), at), e1);
    Issued(at, e1);
    var run := [] + [Do(SetupEvent(LineOp(1, 1), at))];
    Then(run, e1, SetupEvent(IssueOp("rack", 0), at), e2);
    OpeningGoesOn(at, next, run + [Do(SetupEvent(IssueOp("rack", 0), at))], e2);
  }

  lemma OpeningGoesOn(at: Time, next: Ob.ObligationState, run: seq<RunEvent>, e: State)
    requires Answer(next) && Leads(run, e) && e == Empty(POLICY).(authority := Equipped(at).authority)
    ensures Leads(run + [Do(SetupEvent(FabricOp(To.AddResource(Node(To.InService))), at))]
                  + [Do(AdmitEvent(Flow(at), 0, 1, at))] + [Do(ReportEvent(Report(1, 1, next, 0, 0, 0), at))],
                  Equipped(at).(obligations := map[1 := Reported(at, next)], obligationHighWater := 1))
  {
    var e3 := Equipped(at);
    var e4 := e3.(obligations := map[1 := Flow(at)], obligationHighWater := 1);
    var port := SetupEvent(FabricOp(To.AddResource(Node(To.InService))), at);
    Ported(at, e);
    Then(run, e, port, e3);
    Authorized(at);
    FlowAdmitted(e3, at);
    Then(run + [Do(port)], e3, AdmitEvent(Flow(at), 0, 1, at), e4);
    Answered(at, next, e4);
    Then(run + [Do(port)] + [Do(AdmitEvent(Flow(at), 0, 1, at))], e4,
         ReportEvent(Report(1, 1, next, 0, 0, 0), at), e4.(obligations := map[1 := Reported(at, next)]));
  }

  lemma ThenRequest(run: seq<RunEvent>, e: State, at: Time, e': State)
    requires Leads(run, e) && Roomy(e') && e' == RequestSet(e, [PORT], 1, 0, at).state
    ensures Leads(run + [Do(RequestEvent([PORT], 1, 0, at))], e')
  {
    Then(run, e, RequestEvent([PORT], 1, 0, at), e');
  }

  lemma Stages(at: Time, next: Ob.ObligationState, r: DrainRecord)
    requires r.id == 1 && r.set_ == 1 && r.target == PORT && r.authority == 1 && r.stateSince == at
    requires r.blockers == {} && r.blockedFrom == None
    ensures Staged(Requested(at, next, r), r, at) && Staged(Closed(at, next, r), r, at)
    ensures InPlace(Requested(at, next, r).fabric) && InPlace(Closed(at, next, r).fabric)
  {
    Authorized(at);
  }

  lemma ClosingLeads(at: Time, next: Ob.ObligationState)
    requires 0 <= at <= 1000 && Answer(next)
    ensures Leads(Closing(at, next), Settled(at, next))
  {
    var e5 := Equipped(at).(obligations := map[1 := Reported(at, next)], obligationHighWater := 1);
    OpeningLeads(at, next);
    Authorized(at);
    PortRequested(e5, at);
    ThenRequest(Opening(at, next), e5, at, Requested(at, next, Record(at)));
    ClosingGoesOn(at, next, Opening(at, next) + [Do(RequestEvent([PORT], 1, 0, at))]);
  }

  /** Quiescing with the flow retired, evacuating while it has to move. */
  function Settled(at: Time, next: Ob.ObligationState): State {
    Closed(at, next, ClosedRecord(at, if next == Ob.Retired then DrainState.Quiescing else DrainState.Evacuating))
  }

  lemma ClosingGoesOn(at: Time, next: Ob.ObligationState, run: seq<RunEvent>)
    requires 0 <= at <= 1000 && Answer(next) && Leads(run, Requested(at, next, Record(at)))
    ensures Leads(run + [Do(Step(at))] + [Do(Step(at))] + [Do(Step(at))], Settled(at, next))
  {
    var r7, r8 := Record(at).(state := Validating), ClosedRecord(at, AdmissionClosed);
    Stages(at, next, Record(at));
    Stages(at, next, r7);
    Stages(at, next, r8);
    Validates(Requested(at, next, Record(at)), Record(at), at);
    ThenStep(run, Requested(at, next, Record(at)), at, Requested(at, next, r7));
    Closes(Requested(at, next, r7), at);
    ThenStep(run + [Do(Step(at))], Requested(at, next, r7), at, Closed(at, next, r8));
    Settles(Closed(at, next, r8), at, next);
    ThenStep(run + [Do(Step(at))] + [Do(Step(at))], Closed(at, next, r8), at, Settled(at, next));
  }

  lemma ThenRemoves(run: seq<RunEvent>, at: Time, e: State, e': State)
    requires 0 <= at <= 1000 && Leads(run, e)
    requires e == Settled(at, Ob.Retired) && e' == Removed(at, ClosedRecord(at, Verifying))
    ensures Leads(run + [Do(Step(at))], e')
  {
    Stages(at, Ob.Retired, ClosedRecord(at, DrainState.Quiescing));
    Removes(e, at, To.EMPTY.(resources := map["port" := Node(To.Unavailable)]));
    ThenStep(run, e, at, e');
  }

  lemma RemovedStages(at: Time, r: DrainRecord, e: State)
    requires r.id == 1 && r.set_ == 1 && r.target == PORT && r.authority == 1 && r.stateSince == at
    requires r.blockers == {} && r.blockedFrom == None && e == Removed(at, r)
    ensures Staged(e, r, at) && Outstanding(e, PORT) == {} && Roomy(e)
  {
    Authorized(at);
    FlowOutstanding(e, at, Ob.Retired);
  }

  lemma RemovedCompletes(at: Time, e: State, e': State)
    requires 0 <= at <= 1000
    requires e == Removed(at, ClosedRecord(at, Verifying)) && e' == Removed(at, DrainedRecord(at))
    ensures e' == Act(e, 1, at, DIGEST) && Roomy(e')
  {
    RemovedStages(at, ClosedRecord(at, Verifying), e);
    RemovedStages(at, DrainedRecord(at), e');
    Completes(e, at);
  }

  lemma ThenCompletes(run: seq<RunEvent>, at: Time, e: State, e': State)
    requires 0 <= at <= 1000 && Leads(run, e)
    requires e == Removed(at, ClosedRecord(at, Verifying)) && e' == Removed(at, DrainedRecord(at))
    ensures Leads(run + [Do(Step(at))], e')
  {
    RemovedCompletes(at, e, e');
    ThenStep(run, e, at, e');
  }

  lemma CompletingLeads(at: Time)
    requires 0 <= at <= 1000
    ensures Leads(Completing(at), Removed(at, DrainedRecord(at)))
  {
    var closing, removed := Closing(at, Ob.Retired), Removed(at, ClosedRecord(at, Verifying));
    ClosingLeads(at, Ob.Retired);
    ThenRemoves(closing, at, Settled(at, Ob.Retired), removed);
    ThenCompletes(closing + [Do(Step(at))], at, removed, Removed(at, DrainedRecord(at)));
  }

  function RestoringRecord(at: Time): DrainRecord {
    DrainedRecord(at).(state := Restoring, restoreGeneration := 2)
  }

  lemma ThenRestore(run: seq<RunEvent>, e: State, at: Time, e': State)
    requires Leads(run, e) && 1 in e.drains && Roomy(e') && e' == Apply(e, DrainEvent(1, RestoreOp(1), at))
    ensures Leads(run + [Do(DrainEvent(1, RestoreOp(1), at))], e')
  {
    Then(run, e, DrainEvent(1, RestoreOp(1), at), e');
  }

  lemma RemovedRestores(at: Time, e: State, e': State)
    requires e == Removed(at, DrainedRecord(at)) && e' == Restored(at, RestoringRecord(at))
    ensures e' == Apply(e, DrainEvent(1, RestoreOp(1), at)) && Roomy(e')
  {
    RemovedStages(at, DrainedRecord(at), e);
    Restores(e, at);
  }

  lemma DrainedRestores(run: seq<RunEvent>, at: Time, e: State, e': State)
    requires 0 <= at <= 1000 && Leads(run, e)
    requires e == Removed(at, DrainedRecord(at)) && e' == Restored(at, RestoringRecord(at))
    ensures Leads(run + [Do(DrainEvent(1, RestoreOp(1), at))], e')
  {
    RemovedRestores(at, e, e');
    ThenRestore(run, e, at, e');
  }

  lemma RestorationLeads(at: Time)
    requires 0 <= at <= 1000
    ensures Leads(Restoration(at), Restored(at, RestoringRecord(at)))
  {
    CompletingLeads(at);
    DrainedRestores(Completing(at), at, Removed(at, DrainedRecord(at)), Restored(at, RestoringRecord(at)));
  }

  // ---- Every guard of the audit theorem is met by a run -------------------------------------

  /** The run with one more event: clean audits all the way, and then not. */
  ghost predicate Breaks(run: seq<RunEvent>, event: Event) {
    var whole := run + [Do(event)];
    && IsRun(POLICY, whole, Replay(whole))
    && (forall i :: 0 <= i < |whole| ==> AuditClean(Replay(whole)[i]))
    && !AuditClean(Replay(whole)[|whole|])
  }

  lemma UncleanAfter(e: State, event: Event, e': State)
    requires Inv(e) && Roomy(e) && DrainedKnown(e) && AllCalm(e) && !Permitted(e, event) && e' == Apply(e, event)
    ensures !AuditClean(e')
  {
    AuditBreaks(e, event);
  }

  lemma BreaksAudit(run: seq<RunEvent>, e: State, event: Event, e': State)
    requires Leads(run, e) && !Permitted(e, event) && e' == Apply(e, event) && e'.fence == e.fence
    ensures Breaks(run, event)
  {
    LeadsRoomy(run, e);
    AfterDo(run, event);
    UncleanAfter(e, event, e');
    RunsOn(run, event, e');
    BreaksAtEnd(run, event, e');
  }

  lemma RunsOn(run: seq<RunEvent>, event: Event, e: State)
    requires AllRoomy(run) && Numbered(run) && e == After(run + [Do(event)]) && Roomy(e)
    ensures IsRun(POLICY, run + [Do(event)], Replay(run + [Do(event)]))
  {
    RoomyNext(run, Do(event), e);
    ReplayIsRun(run + [Do(event)]);
  }

  lemma BreaksAtEnd(run: seq<RunEvent>, event: Event, e: State)
    requires IsRun(POLICY, run + [Do(event)], Replay(run + [Do(event)])) && AllClean(run)
    requires e == After(run + [Do(event)]) && !AuditClean(e)
    ensures Breaks(run, event)
  {
    forall i | 0 <= i < |run| + 1 ensures AuditClean(Replay(run + [Do(event)])[i]) {
      ReplayPrefix(run, Do(event), i);
    }
    ReplayAt(run + [Do(event)], |run| + 1);
  }

  lemma CancelForbidden(e: State, at: Time)
    requires e.drains == map[1 := RestoringRecord(at)] && Au.Authorizes(e.authority, 1, at)
    ensures !Permitted(e, DrainEvent(1, CancelOp(1), at))
    ensures Apply(e, DrainEvent(1, CancelOp(1), at)).fence == e.fence
  {
  }

  /** Cancelling a drain while it restores. */
  lemma CancelWhileRestoringBreaksAudit(at: Time)
    requires 0 <= at <= 1000
    ensures Breaks(Restoration(at), DrainEvent(1, CancelOp(1), at))
  {
    var e := Restored(at, RestoringRecord(at));
    RestorationLeads(at);
    Authorized(at);
    CancelForbidden(e, at);
    BreaksAudit(Restoration(at), e, DrainEvent(1, CancelOp(1), at), Apply(e, DrainEvent(1, CancelOp(1), at)));
  }

  lemma ZeroForbidden(e: State)
    requires e.drains == map[1 := RestoringRecord(0)] && e.policy == POLICY
    ensures !Permitted(e, Step(0))
  {
  }

  lemma ZeroFence(run: seq<RunEvent>, e: State)
    requires Leads(run, e) && e.drains == map[1 := RestoringRecord(0)]
    ensures Apply(e, Step(0)).fence == e.fence
  {
    LeadsRoomy(run, e);
    InvIsReady(e, 1);
    StepActs(e, 0);
    ActRestores(e, 1, 0);
  }

  /** Finishing a restoration at the zero instant. */
  lemma RestoringAtZeroBreaksAudit()
    ensures Breaks(Restoration(0), Step(0))
  {
    var e := Restored(0, RestoringRecord(0));
    RestorationLeads(0);
    ZeroForbidden(e);
    ZeroFence(Restoration(0), e);
    BreaksAudit(Restoration(0), e, Step(0), Apply(e, Step(0)));
  }

  lemma ReawakeningForbidden(e: State, at: Time, event: Event)
    requires e.drains == map[1 := DrainedRecord(at)] && e.obligations == map[1 := Reported(at, Ob.Retired)]
    requires event == ReportEvent(Report(1, 2, Ob.Admitted, 0, 0, 0), at)
    ensures !Permitted(e, event) && Apply(e, event).fence == e.fence
  {
    assert e.drains[1].state == Drained && PORT in e.obligations[1].dependencies;
    assert Reawakens(e, event.report);
  }

  /** Reporting a retired flow of a drained port admitted again. */
  lemma ReawakeningBreaksAudit(at: Time)
    requires 0 <= at <= 1000
    ensures Breaks(Completing(at), ReportEvent(Report(1, 2, Ob.Admitted, 0, 0, 0), at))
  {
    var e := Removed(at, DrainedRecord(at));
    var event := ReportEvent(Report(1, 2, Ob.Admitted, 0, 0, 0), at);
    CompletingLeads(at);
    ReawakeningForbidden(e, at, event);
    BreaksAudit(Completing(at), e, event, Apply(e, event));
  }

  lemma ReturnForbidden(e: State, at: Time, event: Event)
    requires e.drains == map[1 := DrainedRecord(at)]
    requires event == SetupEvent(FabricOp(To.ReportStatus("port", To.InService)), at)
    ensures !Permitted(e, event) && Apply(e, event).fence == e.fence
  {
    assert e.drains[1].state == Drained && e.drains[1].target.id == "port";
    assert ReturnsDrained(e, To.ReportStatus("port", To.InService));
  }

  /** Reporting a drained port back in service from outside. */
  lemma OutsideReturnBreaksAudit(at: Time)
    requires 0 <= at <= 1000
    ensures Breaks(Completing(at), SetupEvent(FabricOp(To.ReportStatus("port", To.InService)), at))
  {
    var e := Removed(at, DrainedRecord(at));
    var event := SetupEvent(FabricOp(To.ReportStatus("port", To.InService)), at);
    CompletingLeads(at);
    ReturnForbidden(e, at, event);
    BreaksAudit(Completing(at), e, event, Apply(e, event));
  }

  // ---- More rounds than one budget ------------------------------------------------------------

  lemma FlowMoves(e: State, r: DrainRecord, at: Time)
    requires e.policy == POLICY && e.obligations == map[1 := Reported(at, Ob.Evacuating)] && e.exceptions == map[]
    requires r.target == PORT && r.evacuationRequests == 0 && 0 <= at <= 1000
    ensures SomeMoving(e, PORT) && EvacuationBlockers(e, r, at) == {}
  {
    FlowOutstanding(e, at, Ob.Evacuating);
    assert 1 in Outstanding(e, PORT) && Ob.NeedsMoving(e.obligations[1]);
    assert !GraceExpired(e, r, 1, at);
  }

  lemma FirstRound(e: State, at: Time)
    requires e == Settled(at, Ob.Evacuating) && 0 <= at <= 1000
    ensures Issues(e, Step(at), 1)
  {
    FlowMoves(e, e.drains[1], at);
  }

  lemma RecoveredEvacuating(at: Time, e: State, r: DrainRecord)
    requires e == Recover(Settled(at, Ob.Evacuating), at) && 0 <= at <= 1000
    requires r == ClosedRecord(at, DrainState.Evacuating).(
                    state := Blocked, blockedFrom := Some(DrainState.Evacuating),
                    blockers := {Blocker(RestartRecoveryPending, OnDrain(1))})
    ensures e.drains == map[1 := r] && e.policy == POLICY && e.exceptions == map[]
    ensures e.obligations == map[1 := Reported(at, Ob.Evacuating)]
  {
  }

  lemma SecondRound(e: State, r: DrainRecord, at: Time)
    requires 0 <= at <= 1000 && e.drains == map[1 := r] && e.policy == POLICY && e.exceptions == map[]
    requires e.obligations == map[1 := Reported(at, Ob.Evacuating)]
    requires r.state == Blocked && r.blockedFrom == Some(DrainState.Evacuating) && r.id == 1
    requires r.target == PORT && r.evacuationRequests == 0
    ensures RoundIssued(e, 1, at)
  {
    FlowMoves(e, r, at);
    var resumed := Revalidate(e, 1, at);
    assert resumed.ok && resumed.state == e.(drains := resumed.state.drains);
    FlowMoves(resumed.state, resumed.state.drains[1], at);
  }

  /** Closing, one round, a restart from the state before it, and the round again. */
  function TwoRounds(at: Time): seq<RunEvent> {
    Closing(at, Ob.Evacuating) + [Do(Step(at))] + [Restart(9, at)] + [Do(Step(at))]
  }

  lemma FirstRoundLeads(at: Time, e: State, e': State)
    requires 0 <= at <= 1000 && e == Settled(at, Ob.Evacuating) && e' == Act(e, 1, at, DIGEST)
    ensures Leads(Closing(at, Ob.Evacuating), e) && |Closing(at, Ob.Evacuating)| == 9
    ensures Leads(Closing(at, Ob.Evacuating) + [Do(Step(at))], e')
  {
    ClosingLeads(at, Ob.Evacuating);
    RoundLeads(Closing(at, Ob.Evacuating), at, e, e');
  }

  lemma RoundLeads(run: seq<RunEvent>, at: Time, e: State, e': State)
    requires Leads(run, e) && e == Settled(at, Ob.Evacuating) && e' == Act(e, 1, at, DIGEST) && 0 <= at <= 1000
    ensures Leads(run + [Do(Step(at))], e')
  {
    RoundKeepsFence(e, at);
    ThenStep(run, e, at, e');
  }

  lemma AgainLeads(run: seq<RunEvent>, e: State, at: Time, e': State)
    requires Leads(run, e) && |run| == 9 && Leads(run + [Do(Step(at))], e')
    ensures Leads(run + [Do(Step(at))] + [Restart(9, at)], Recover(e, at))
  {
    assert (run + [Do(Step(at))])[..9] == run;
    ThenRestart(run + [Do(Step(at))], e', 9, e, at);
  }

  lemma TwoRoundsRun(at: Time, e: State)
    requires 0 <= at <= 1000 && e == Settled(at, Ob.Evacuating)
    ensures var run := TwoRounds(at);
            && IsRun(POLICY, run, Replay(run)) && |run| == 12
            && Replay(run)[9] == e && Replay(run)[11] == Recover(e, at)
  {
    var closing := Closing(at, Ob.Evacuating);
    FirstRoundLeads(at, e, Act(e, 1, at, DIGEST));
    AgainLeads(closing, e, at, Act(e, 1, at, DIGEST));
    EvacuationHeld(e, at);
    StepIsRun(at, closing + [Do(Step(at))] + [Restart(9, at)], Recover(e, at));
    PlacesOf(closing, at);
    ReplayAt(TwoRounds(at), 9);
    ReplayAt(TwoRounds(at), 11);
  }

  lemma PlacesOf(closing: seq<RunEvent>, at: Time)
    requires |closing| == 9
    ensures var run := closing + [Do(Step(at))] + [Restart(9, at)] + [Do(Step(at))];
            |run| == 12 && run[..9] == closing && run[..11] == closing + [Do(Step(at))] + [Restart(9, at)]
  {
  }

  lemma RoundKeepsFence(e: State, at: Time)
    requires 1 in e.drains && e.drains[1].state == DrainState.Evacuating
    ensures Act(e, 1, at, DIGEST).fence == e.fence
  {
    ActBranch(e, 1, at, DIGEST);
  }

  lemma EvacuationHeld(e: State, at: Time)
    requires 1 in e.drains && e.drains[1].state == DrainState.Evacuating
    ensures 1 in Recover(e, at).drains && Phase(Recover(e, at).drains[1]) == DrainState.Evacuating
  {
  }

  /** A step of a drain past closure and short of restoration makes a run longer. */
  lemma StepIsRun(at: Time, run: seq<RunEvent>, e: State)
    requires Leads(run, e) && 1 in e.drains && IsHolding(Phase(e.drains[1]))
    ensures IsRun(POLICY, run + [Do(Step(at))], Replay(run + [Do(Step(at))]))
  {
    LeadsRoomy(run, e);
    AfterDo(run, Step(at));
    StepFence(e, at);
    RoomyNext(run, Do(Step(at)), Apply(e, Step(at)));
    ReplayIsRun(run + [Do(Step(at))]);
  }

  lemma StepFence(e: State, at: Time)
    requires Inv(e) && Roomy(e) && 1 in e.drains && IsHolding(Phase(e.drains[1]))
    ensures Apply(e, Step(at)).fence == e.fence
  {
    InvIsReady(e, 1);
    StepBranch(e, 1, at, DIGEST);
    StepEvent(e, 1, at, DIGEST);
  }

  lemma RoundCounted(run: seq<RunEvent>, states: seq<State>, m: nat)
    requires |states| == |run| + 1 && m < |run|
    ensures AllRounds(run, states, 1, m + 1) >= AllRounds(run, states, 1, m)
    ensures run[m].Do? && Issues(states[m], run[m].event, 1) ==>
              AllRounds(run, states, 1, m + 1) == AllRounds(run, states, 1, m) + 1
  {
    assert Marks(run, states, 1)[m] == (run[m].Do? && Issues(states[m], run[m].event, 1));
  }

  /** A restart that abandons a round lets a run issue more than one budget. */
  lemma AbandonedRoundIsIssuedAgain(at: Time)
    requires 0 <= at <= 1000
    ensures var run := TwoRounds(at);
            && IsRun(POLICY, run, Replay(run)) && BudgetFixed(POLICY, run)
            && AllRounds(run, Replay(run), 1, |run|) > POLICY.maxAttempts * (1 + POLICY.maxExtensions)
  {
    TwoRoundsRun(at, Settled(at, Ob.Evacuating));
    TwoCounted(at, TwoRounds(at), Replay(TwoRounds(at)), Settled(at, Ob.Evacuating));
    SetupKept(at);
  }

  lemma SetupKept(at: Time)
    ensures BudgetFixed(POLICY, TwoRounds(at))
  {
  }

  lemma TwoCounted(at: Time, run: seq<RunEvent>, states: seq<State>, e: State)
    requires 0 <= at <= 1000 && e == Settled(at, Ob.Evacuating)
    requires |run| == 12 && |states| == 13 && run[9] == Do(Step(at)) && run[11] == Do(Step(at))
    requires states[9] == e && states[11] == Recover(e, at)
    ensures AllRounds(run, states, 1, 12) >= 2
  {
    FirstRound(e, at);
    SecondIssued(at, Recover(e, at));
    CountTwo(run, states, at);
  }

  lemma SecondIssued(at: Time, e: State)
    requires 0 <= at <= 1000 && e == Recover(Settled(at, Ob.Evacuating), at)
    ensures Issues(e, Step(at), 1)
  {
    var r := ClosedRecord(at, DrainState.Evacuating).(
               state := Blocked, blockedFrom := Some(DrainState.Evacuating),
               blockers := {Blocker(RestartRecoveryPending, OnDrain(1))});
    RecoveredEvacuating(at, e, r);
    SecondRound(e, r, at);
  }

  lemma CountTwo(run: seq<RunEvent>, states: seq<State>, at: Time)
    requires |run| == 12 && |states| == 13 && run[9] == Do(Step(at)) && run[11] == Do(Step(at))
    requires Issues(states[9], Step(at), 1) && Issues(states[11], Step(at), 1)
    ensures AllRounds(run, states, 1, 12) >= 2
  {
    RoundCounted(run, states, 9);
    RoundCounted(run, states, 10);
    RoundCounted(run, states, 11);
  }

  // ---- A full ledger ----------------------------------------------------------------------------

  const PATH: Ev.EvidenceKey := Ev.EvidenceKey(Ev.PathAvailable, 0, 0, "path")

  /** An observation of something else. */
  function Foreign(at: Time): Ev.Observation {
    Ev.Observation(1, PATH, 0, 1, 1, 1, at, SaturatingAdd(at, 10), true, 0, false)
  }

  function Filled(at: Time, attested: bool): Ev.Ledger {
    Ev.Ledger(map[Ev.RecordKey(PATH, 1) := Foreign(at).(attested := attested)], map[PATH := 1], 1, 1)
  }

  lemma ForeignRecorded(e: State, at: Time)
    requires e.policy == POLICY && e.evidence == Empty(POLICY).evidence && 0 <= at <= 1000
    requires e.authority.incarnation == 1 && e.authority.epoch == 1
    ensures Apply(e, SetupEvent(RecordOp(Foreign(at)), at)) == e.(evidence := Filled(at, true))
  {
    assert Ev.Record(e.evidence, Foreign(at), LineAt(e, at), true)
        == Ev.Recorded(Filled(at, true), Foreign(at).(attested := true));
  }

  /** What a restart makes of the quiescing drain and the filled ledger. */
  lemma QuiescenceHeld(e: State, at: Time)
    requires e == Settled(at, Ob.Retired).(evidence := Filled(at, true))
    ensures var e' := Recover(e, at);
            && 1 in e'.drains && e'.drains[1].state == Blocked
            && e'.drains[1].blockedFrom == Some(DrainState.Quiescing) && e'.drains[1].target == PORT
            && e'.evidence == Filled(at, false) && e'.policy == POLICY && InPlace(e'.fabric)
            && e'.obligations == map[1 := Reported(at, Ob.Retired)]
  {
    LedgerHeld(e, at);
    RecordHeld(e, ClosedRecord(at, DrainState.Quiescing), at);
  }

  lemma LedgerHeld(e: State, at: Time)
    requires e.policy == POLICY && e.evidence == Filled(at, true)
    ensures Recover(e, at).evidence == Filled(at, false)
  {
    assert Ev.QuarantineAll(e.evidence).records == Filled(at, false).records;
  }

  lemma RecordHeld(e: State, r: DrainRecord, at: Time)
    requires e.drains == map[1 := r] && r.state == DrainState.Quiescing
    ensures var e' := Recover(e, at);
            && 1 in e'.drains && e'.drains[1].state == Blocked && e'.drains[1].target == r.target
            && e'.drains[1].blockedFrom == Some(DrainState.Quiescing)
  {
  }

  lemma FilledIsFull(at: Time, key: Ev.EvidenceKey)
    requires key != PATH
    ensures LedgerFull(Filled(at, false), key)
  {
  }

  lemma QuiescenceClears(e: State, at: Time)
    requires 1 in e.drains && e.drains[1].state == Blocked && e.drains[1].target == PORT
    requires e.drains[1].blockedFrom == Some(DrainState.Quiescing)
    requires e.policy == POLICY && InPlace(e.fabric) && e.obligations == map[1 := Reported(at, Ob.Retired)]
    ensures Clears(e, Step(at), 1)
  {
    RemovalClear(e, e.drains[1], at);
  }

  lemma QuiescenceRefused(e: State, at: Time)
    requires 1 in e.drains && e.drains[1].state == Blocked && e.drains[1].target == PORT
    requires e.drains[1].blockedFrom == Some(DrainState.Quiescing) && e.evidence == Filled(at, false)
    requires e.policy == POLICY && InPlace(e.fabric) && e.obligations == map[1 := Reported(at, Ob.Retired)]
    ensures Refused(e, 1, at)
  {
    RemovalClear(e, e.drains[1], at);
    FilledIsFull(at, RemovalKey(e.drains[1]));
  }

  /** Closing, a foreign observation, a restart, and the step that clears the drain. */
  function Refusal(at: Time): seq<RunEvent> {
    Closing(at, Ob.Retired) + [Do(SetupEvent(RecordOp(Foreign(at)), at))] + [Restart(10, at)] + [Do(Step(at))]
  }

  lemma FilledLeads(at: Time, e: State)
    requires 0 <= at <= 1000 && e == Settled(at, Ob.Retired).(evidence := Filled(at, true))
    ensures |Closing(at, Ob.Retired)| == 9
    ensures Leads(Closing(at, Ob.Retired) + [Do(SetupEvent(RecordOp(Foreign(at)), at))], e)
  {
    ClosingLeads(at, Ob.Retired);
    ThenForeign(Closing(at, Ob.Retired), at, Settled(at, Ob.Retired), e);
  }

  lemma RecordingGoesOn(e: State, at: Time, e': State)
    requires Roomy(e) && e' == e.(evidence := Filled(at, true))
    ensures Permitted(e, SetupEvent(RecordOp(Foreign(at)), at)) && Roomy(e')
  {
  }

  lemma ThenForeign(run: seq<RunEvent>, at: Time, e: State, e': State)
    requires 0 <= at <= 1000 && Leads(run, e)
    requires e == Settled(at, Ob.Retired) && e' == e.(evidence := Filled(at, true))
    ensures Leads(run + [Do(SetupEvent(RecordOp(Foreign(at)), at))], e')
  {
    ForeignRecorded(e, at);
    LeadsRoomy(run, e);
    RecordingGoesOn(e, at, e');
    Then(run, e, SetupEvent(RecordOp(Foreign(at)), at), e');
  }

  lemma ThenRestartHere(run: seq<RunEvent>, e: State, at: Time)
    requires Leads(run, e) && |run| == 10
    ensures Leads(run + [Restart(10, at)], Recover(e, at))
  {
    assert run[..10] == run;
    ThenRestart(run, e, 10, e, at);
  }

  lemma RefusalRun(at: Time, e: State)
    requires 0 <= at <= 1000 && e == Settled(at, Ob.Retired).(evidence := Filled(at, true))
    ensures var run := Refusal(at);
            |run| == 12 && IsRun(POLICY, run, Replay(run)) && Replay(run)[11] == Recover(e, at)
  {
    var filled := Closing(at, Ob.Retired) + [Do(SetupEvent(RecordOp(Foreign(at)), at))];
    FilledLeads(at, e);
    ThenRestartHere(filled, e, at);
    QuiescenceHeld(e, at);
    StepIsRun(at, filled + [Restart(10, at)], Recover(e, at));
    ReplayPrefix(filled + [Restart(10, at)], Do(Step(at)), 11);
    ReplayAt(filled + [Restart(10, at)], 11);
  }

  /** The refusal that theorem NoOscillation excepts does happen: the step clears the
      drain and leaves it Blocked, because the ledger has no room. */
  lemma FullLedgerBlocks(at: Time)
    requires 0 <= at <= 1000
    ensures var run := Refusal(at);
            && |run| == 12 && IsRun(POLICY, run, Replay(run)) && run[11] == Do(Step(at))
            && Clears(Replay(run)[11], Step(at), 1) && Refused(Replay(run)[11], 1, at)
            && 1 in Replay(run)[12].drains && Replay(run)[12].drains[1].state == Blocked
  {
    var e := Settled(at, Ob.Retired).(evidence := Filled(at, true));
    RefusalRun(at, e);
    HeldIsRefused(at, e, Recover(e, at));
    RefusalBlocks(Refusal(at), Replay(Refusal(at)), at);
  }

  lemma HeldIsRefused(at: Time, e: State, e': State)
    requires e == Settled(at, Ob.Retired).(evidence := Filled(at, true)) && e' == Recover(e, at)
    ensures 1 in e'.drains && Clears(e', Step(at), 1) && Refused(e', 1, at)
  {
    QuiescenceHeld(e, at);
    QuiescenceClears(e', at);
    QuiescenceRefused(e', at);
  }

  lemma RefusalBlocks(run: seq<RunEvent>, states: seq<State>, at: Time)
    requires |run| == 12 && IsRun(POLICY, run, states) && run[11] == Do(Step(at))
    requires Clears(states[11], Step(at), 1) && Refused(states[11], 1, at)
    ensures 1 in states[12].drains && states[12].drains[1].state == Blocked
  {
    RunNoOscillation(POLICY, run, states, 1, 11);
  }
}
