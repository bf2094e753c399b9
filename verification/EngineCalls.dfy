/** What each operator call asks for before it is accepted, and what it leaves, told in
    the fields of the state. */
module EngineCalls {
  import opened Identity
  import opened Lifecycle
  import opened Engine
  import opened EngineInvariant
  import opened EngineOperations
  import Ob = Obligations
  import Ev = Evidence
  import Au = Authority
  import Ad = Admission
  import To = Topology
  import Ordering

  // ---- Requests --------------------------------------------------------------------------------

  ghost function Asked(targets: seq<Target>): set<Target> {
    set t | t in targets
  }

  ghost function InOneDomain(asked: set<Target>, domain: DomainId): set<Target> {
    set t | t in asked && t.domain == domain
  }

  /** A drain of the target that was not cancelled and restored. */
  ghost predicate Taken(e: State, t: Target) {
    exists d :: d in e.drains && e.drains[d].target == t
                && !(e.drains[d].state == Cancelled && e.drains[d].restoredAt != 0)
  }

  /** With everything asked for gone at once no commitment breaks and nothing that goes
      is promised beyond its capacity. Not asked when a target is not in the fabric. */
  ghost predicate Spared(e: State, asked: set<Target>) {
    || (exists t :: t in asked && t.id !in e.fabric.resources)
    || (&& (forall t :: t in asked && t.id in e.fabric.resources ==>
              e.fabric.resources[t.id].reserved <= e.fabric.resources[t.id].capacity)
        && To.Commitments(e.fabric, To.OutOfService(e.fabric) + (set t | t in asked :: t.id), e.policy.headroom))
  }

  lemma {:induction false} OrderedSize(ts: seq<Target>)
    requires Ordered(ts)
    ensures |Asked(ts)| == |ts|
  {
    if ts != [] {
      var n := |ts| - 1;
      OrderedSize(ts[..n]);
      assert ts[n] !in ts[..n] by {
        forall i | 0 <= i < n ensures ts[i] != ts[n] {
          TargetLessTotal(ts[i], ts[n]);
        }
      }
      assert Asked(ts) == Asked(ts[..n]) + {ts[n]};
    }
  }

  lemma {:induction false} DomainCounted(ts: seq<Target>, domain: DomainId)
    requires Ordered(ts)
    ensures InDomain(ts, domain) == |InOneDomain(Asked(ts), domain)|
  {
    if ts != [] {
      var n := |ts| - 1;
      DomainCounted(ts[..n], domain);
      assert ts[n] !in ts[..n] by {
        forall i | 0 <= i < n ensures ts[i] != ts[n] {
          TargetLessTotal(ts[i], ts[n]);
        }
      }
      var before, after := InOneDomain(Asked(ts[..n]), domain), InOneDomain(Asked(ts), domain);
      assert after == if ts[n].domain == domain then before + {ts[n]} else before;
    }
  }

  lemma NormalizedAsked(targets: seq<Target>)
    ensures Ordered(Normalize(targets)) && Asked(Normalize(targets)) == Asked(targets)
    ensures |Normalize(targets)| == |Asked(targets)|
    ensures forall domain :: InDomain(Normalize(targets), domain) == |InOneDomain(Asked(targets), domain)|
  {
    NormalizeFacts(targets);
    OrderedSize(Normalize(targets));
    forall domain ensures InDomain(Normalize(targets), domain) == |InOneDomain(Asked(targets), domain)| {
      DomainCounted(Normalize(targets), domain);
      assert Asked(Normalize(targets)) == Asked(targets);
    }
  }

  lemma SparedIff(e: State, ts: seq<Target>)
    requires ts != []
    ensures SetRemovable(e, ts) <==> Spared(e, Asked(ts))
  {
    var ids := set t | t in Asked(ts) :: t.id;
    assert ids == set i | 0 <= i < |ts| :: ts[i].id by {
      forall i | 0 <= i < |ts| ensures ts[i].id in ids {
        assert ts[i] in Asked(ts);
      }
    }
    if forall i :: 0 <= i < |ts| ==> ts[i].id in e.fabric.resources {
      To.ValidateIff(e.fabric, ids, e.policy.headroom);
      assert ts[0] in Asked(ts);
      forall t | t in Asked(ts) ensures t.id in ids && t.id in e.fabric.resources {
      }
      assert (forall id :: id in ids ==> !To.Objectionable(e.fabric, id)) <==>
             (forall t :: t in Asked(ts) && t.id in e.fabric.resources ==>
                e.fabric.resources[t.id].reserved <= e.fabric.resources[t.id].capacity);
    } else {
      var i :| 0 <= i < |ts| && ts[i].id !in e.fabric.resources;
      assert ts[i] in Asked(ts);
    }
  }

  lemma TakenIff(e: State, ts: seq<Target>)
    ensures (forall i :: 0 <= i < |ts| ==> Free(e, ts[i])) <==> (forall t :: t in Asked(ts) ==> !Taken(e, t))
  {
    forall t | t in Asked(ts) ensures Free(e, t) <==> !Taken(e, t) {
    }
    if forall t :: t in Asked(ts) ==> !Taken(e, t) {
      forall i | 0 <= i < |ts| ensures Free(e, ts[i]) {
        assert ts[i] in Asked(ts);
      }
    }
  }

  lemma LimitIff(ts: seq<Target>, limit: nat)
    requires forall domain :: InDomain(ts, domain) == |InOneDomain(Asked(ts), domain)|
    ensures (forall i :: 0 <= i < |ts| ==> InDomain(ts, ts[i].domain) <= limit) <==>
            (forall t :: t in Asked(ts) ==> |InOneDomain(Asked(ts), t.domain)| <= limit)
  {
    if forall t :: t in Asked(ts) ==> |InOneDomain(Asked(ts), t.domain)| <= limit {
      forall i | 0 <= i < |ts| ensures InDomain(ts, ts[i].domain) <= limit {
        assert ts[i] in Asked(ts);
      }
    }
  }

  /** What a request must meet, as a statement about the set it asks for. */
  ghost predicate MayRequest(e: State, targets: seq<Target>, asked: set<Target>, authority: AuthorityId, now: Time) {
    && Au.Authorizes(e.authority, authority, now)
    && 0 < |targets| <= e.policy.maxTargets && (forall t :: t in asked ==> t.id != "")
    && |asked| <= e.policy.maxDrainsInSet && |e.drains| + |asked| <= MAX_DRAINS && |e.sets| < MAX_DRAIN_SETS
    && (forall t :: t in asked ==> !Taken(e, t))
    && (forall t :: t in asked ==> |InOneDomain(asked, t.domain)| <= e.policy.maxPerDomain)
    && Spared(e, asked)
  }

  /** A request under an unused nonce is accepted exactly when its token is accepted, the
      bounds hold, none of its targets has an unrestored drain, no failure domain occurs
      too often, and its removal as a whole breaks no commitment. */
  lemma RequestAcceptedIff(e: State, targets: seq<Target>, authority: AuthorityId, nonce: nat, now: Time)
    requires nonce == 0 || nonce !in e.nonces
    ensures RequestSet(e, targets, authority, nonce, now).ok <==>
              MayRequest(e, targets, Asked(targets), authority, now)
    ensures !RequestSet(e, targets, authority, nonce, now).ok ==>
              RequestSet(e, targets, authority, nonce, now).state == e
  {
    NormalizedAsked(targets);
    NamesIff(targets);
    if targets != [] {
      GrantableIff(e, Normalize(targets), Asked(targets));
    }
  }

  lemma NamesIff(targets: seq<Target>)
    ensures (forall i :: 0 <= i < |targets| ==> targets[i].id != "") <==>
            (forall t :: t in Asked(targets) ==> t.id != "")
    ensures targets != [] ==> Asked(targets) != {}
  {
    if targets != [] {
      assert targets[0] in Asked(targets);
    }
    if forall t :: t in Asked(targets) ==> t.id != "" {
      forall i | 0 <= i < |targets| ensures targets[i].id != "" {
        assert targets[i] in Asked(targets);
      }
    }
  }

  lemma GrantableIff(e: State, ts: seq<Target>, asked: set<Target>)
    requires asked == Asked(ts) != {}
    requires forall domain :: InDomain(ts, domain) == |InOneDomain(asked, domain)|
    ensures Grantable(e, ts) <==>
              && (forall t :: t in asked ==> !Taken(e, t))
              && (forall t :: t in asked ==> |InOneDomain(asked, t.domain)| <= e.policy.maxPerDomain)
              && Spared(e, asked)
  {
    assert ts != [];
    SparedIff(e, ts);
    TakenIff(e, ts);
    LimitIff(ts, e.policy.maxPerDomain);
  }

  /** One target after another in the order of failure domain, kind and identity, numbered
      without a gap behind all earlier drains. */
  ghost predicate Listed(made: DrainSet, asked: set<Target>, highWater: DrainId) {
    && Ordered(made.targets) && Asked(made.targets) == asked && |made.targets| == |made.members| == |asked|
    && forall i :: 0 <= i < |made.members| ==> made.members[i] == highWater + 1 + i
  }

  /** Each new drain is a fresh record of its own target under the request's token, and
      the earlier ones stay. */
  ghost predicate Enlisted(drains: map<DrainId, DrainRecord>, highWater: DrainId, ts: seq<Target>, set_: DrainSetId,
                           authority: AuthorityId, now: Time, drains': map<DrainId, DrainRecord>) {
    && (forall d :: d in drains' <==> d in drains || highWater < d <= highWater + |ts|)
    && (forall d :: highWater < d <= highWater + |ts| ==>
          drains'[d] == DrainRecord(d, set_, ts[d - highWater - 1], 0, 0, Requested, None, authority, now, now,
                                    0, 0, 0, 0, 0, 0, 0, 0, {}))
    && (forall d :: d in drains && d <= highWater ==> drains'[d] == drains[d])
  }

  ghost predicate Created(e: State, asked: set<Target>, authority: AuthorityId, nonce: nat, now: Time, e': State) {
    var set_ := e.setHighWater + 1;
    && set_ in e'.sets && Listed(e'.sets[set_], asked, e.drainHighWater)
    && Enlisted(e.drains, e.drainHighWater, e'.sets[set_].targets, set_, authority, now, e'.drains)
    && e' == e.(drains := e'.drains, sets := e.sets[set_ := e'.sets[set_]],
                nonces := if nonce != 0 then e.nonces[nonce := set_] else e.nonces,
                drainHighWater := e.drainHighWater + |asked|, setHighWater := set_)
  }

  lemma RequestCreates(e: State, targets: seq<Target>, authority: AuthorityId, nonce: nat, now: Time)
    requires nonce == 0 || nonce !in e.nonces
    requires RequestSet(e, targets, authority, nonce, now).ok
    ensures Created(e, Asked(targets), authority, nonce, now, RequestSet(e, targets, authority, nonce, now).state)
  {
    NormalizedAsked(targets);
    SetCreated(e, Normalize(targets), authority, nonce, now);
  }

  lemma SetCreated(e: State, ts: seq<Target>, authority: AuthorityId, nonce: nat, now: Time)
    requires Ordered(ts) && |Asked(ts)| == |ts|
    ensures Created(e, Asked(ts), authority, nonce, now, WithSet(e, ts, authority, nonce, now))
  {
    NewDrainsFacts(e, ts, authority, now);
    DrainsEnlisted(e, ts, authority, now, NewDrains(e, ts, authority, now));
  }

  lemma DrainsEnlisted(e: State, ts: seq<Target>, authority: AuthorityId, now: Time, more: map<DrainId, DrainRecord>)
    requires Added(e, more, ts, authority, now)
    ensures Enlisted(e.drains, e.drainHighWater, ts, e.setHighWater + 1, authority, now, e.drains + more)
  {
    var all := e.drains + more;
    forall d | e.drainHighWater < d <= e.drainHighWater + |ts| ensures IsNew(e, ts, authority, now, d, all[d]) {
      assert d in more;
    }
  }

  /** The order of a set's drains: failure domains first; within one, ports before links
      before switches before paths before services before other resources; then by id. */
  lemma OrderIs(a: Target, b: Target)
    ensures TargetLess(a, b) <==>
              var kinds := [Port, Link, Switch, Path, Service, Resource];
              || Ordering.StringLess(a.domain, b.domain)
              || (a.domain == b.domain && a.kind == b.kind && Ordering.StringLess(a.id, b.id))
              || (a.domain == b.domain && exists i, j :: 0 <= i < j < 6 && kinds[i] == a.kind && kinds[j] == b.kind)
  {
    var kinds := [Port, Link, Switch, Path, Service, Resource];
    Ordering.StringLessTotal(a.domain, b.domain);
    assert kinds[KindRank(a.kind)] == a.kind && kinds[KindRank(b.kind)] == b.kind;
    assert forall i :: 0 <= i < 6 ==> KindRank(kinds[i]) == i;
  }

  // ---- Admission of work --------------------------------------------------------------------------

  /** An obligation is admitted exactly under an accepted token, with at least one and not
      too many dependencies, every one of them open at the generation the caller
      presents, and while there is room. It then stands as drafted, stamped with the
      instant and that generation, under the next number. */
  lemma AdmitIff(e: State, draft: Ob.Obligation, presented: Generation, authority: AuthorityId, now: Time)
    ensures Admit(e, draft, presented, authority, now).ok <==>
              && Au.Authorizes(e.authority, authority, now)
              && 0 < |draft.dependencies| <= MAX_DEPENDENCIES
              && |e.obligations| < e.policy.maxObligations && e.obligationHighWater + 1 !in e.obligations
              && (forall t :: t in draft.dependencies ==>
                    if t in e.fence then !e.fence[t].closed && e.fence[t].generation == presented else presented == 0)
    ensures !Admit(e, draft, presented, authority, now).ok ==> Admit(e, draft, presented, authority, now).state == e
    ensures Admit(e, draft, presented, authority, now).ok ==>
              var e', o := Admit(e, draft, presented, authority, now).state, e.obligationHighWater + 1;
              && e' == e.(obligations := e'.obligations, obligationHighWater := o)
              && o in e'.obligations && e'.obligations == e.obligations[o := e'.obligations[o]]
              && e'.obligations[o].admittedAt == now && e'.obligations[o].admissionGeneration == presented
              && e'.obligations[o] == draft.(admittedAt := now, admissionGeneration := presented)
  {
    forall t | t in draft.dependencies
      ensures Ad.CheckAdmission(e.fence, t, presented) == Ad.Admissible <==>
              if t in e.fence then !e.fence[t].closed && e.fence[t].generation == presented else presented == 0
    {
      Ad.AdmissibleIff(e.fence, t, presented);
    }
  }

  // ---- Reports ----------------------------------------------------------------------------------------

  /** A report that names a drain carries the generation the drain closed admission at or
      the one it was restored under. */
  predicate Fenced(e: State, report: Report) {
    report.drain == 0
    || (report.drain in e.drains
        && var r := e.drains[report.drain];
           report.generation == r.generation || (r.restoreGeneration != 0 && report.generation == r.restoreGeneration))
  }

  /** A report is accepted exactly for a known obligation, at its current revision, for a
      legal move, and under a generation of the drain it names; it changes that one
      obligation, as `Obligations.Reported` says, and a refused one changes nothing. */
  lemma ReportIff(e: State, report: Report, now: Time)
    ensures ReportObligation(e, report, now).ok <==>
              && report.obligation in e.obligations && Fenced(e, report)
              && report.expected == e.obligations[report.obligation].revision
              && Ob.LegalTransition(e.obligations[report.obligation].state, report.next)
    ensures !ReportObligation(e, report, now).ok ==> ReportObligation(e, report, now).state == e
    ensures ReportObligation(e, report, now).ok ==>
              var o, e' := report.obligation, ReportObligation(e, report, now).state;
              && o in e'.obligations && e' == e.(obligations := e.obligations[o := e'.obligations[o]])
              && Ob.Reported(e.obligations[o], report.next, report.evidence, now, e'.obligations[o])
  {
    if report.obligation in e.obligations {
      Ob.ApplyStateIff(e.obligations[report.obligation], report.expected, report.next, report.evidence, now);
    }
  }

  // ---- Tokens --------------------------------------------------------------------------------------------

  /** Under a token that is not accepted no call changes anything. */
  lemma TokenNeeded(e: State, token: AuthorityId, now: Time)
    requires !Au.Authorizes(e.authority, token, now)
    ensures forall draft, presented :: Admit(e, draft, presented, token, now) == Outcome(e, false)
    ensures forall targets, nonce :: RequestSet(e, targets, token, nonce, now) == Outcome(e, false)
    ensures forall d :: Cancel(e, d, token, now) == Outcome(e, false)
    ensures forall d :: Restore(e, d, token, now) == Outcome(e, false)
    ensures forall d :: Resume(e, d, token, now) == Outcome(e, false)
    ensures forall d, o, extension :: GrantException(e, d, o, extension, token, now) == Outcome(e, false)
  {
  }

  // ---- Cancelling, restoring, granting ------------------------------------------------------------------------

  /** Every drain that is not drained can be cancelled, and nothing but its own record
      changes: it keeps its generations, its owner and its instants. */
  lemma CancelIff(e: State, d: DrainId, token: AuthorityId, now: Time)
    ensures Cancel(e, d, token, now).ok <==>
              Au.Authorizes(e.authority, token, now) && d in e.drains && e.drains[d].state != Drained
    ensures !Cancel(e, d, token, now).ok ==> Cancel(e, d, token, now).state == e
    ensures Cancel(e, d, token, now).ok ==>
              var r, e' := e.drains[d], Cancel(e, d, token, now).state;
              e' == e.(drains := e.drains[d :=
                if r.state == Cancelled then r
                else if r.state == Blocked
                then r.(state := Cancelled, stateSince := now, blockedFrom := None, blockers := {})
                else r.(state := Cancelled, stateSince := now)])
  {
    if d in e.drains {
      LegalMoves(e.drains[d].state, Cancelled);
    }
  }

  /** In every state of a run a settled drain can be restored, unless its target was never
      fenced and the fence table is full; the target then stands open at a generation
      above the drain's own, and the record waits there for the settle window. */
  lemma RestoreIff(e: State, d: DrainId, token: AuthorityId, now: Time)
    requires Inv(e) && Roomy(e)
    ensures Restore(e, d, token, now).ok <==>
              && Au.Authorizes(e.authority, token, now) && d in e.drains
              && (e.drains[d].state == Restoring || IsSettled(e.drains[d].state))
              && (e.drains[d].state == Cancelled && e.drains[d].restoredAt == 0 ==>
                    !Ad.NoRoom(e.fence, e.drains[d].target))
    ensures Restore(e, d, token, now).ok && (e.drains[d].state == Restoring || e.drains[d].restoredAt != 0) ==>
              Restore(e, d, token, now).state == e
    ensures Restore(e, d, token, now).ok && e.drains[d].state != Restoring && e.drains[d].restoredAt == 0 ==>
              var r, e' := e.drains[d], Restore(e, d, token, now).state;
              && r.target in e'.fence && !e'.fence[r.target].closed && e'.fence[r.target].generation > r.generation
              && e' == e.(fence := e'.fence,
                          drains := e.drains[d := r.(state := Restoring, stateSince := now,
                                                     restoreGeneration := e'.fence[r.target].generation)])
  {
    if d in e.drains && Au.Authorizes(e.authority, token, now) {
      assert RecordOk(e.fence, e.drainHighWater, d, e.drains[d]);
      if e.drains[d].state == Drained || (e.drains[d].state == Cancelled && !IsDone(e.drains[d])) {
        LegalMoves(e.drains[d].state, Restoring);
        ReopenedIff(e, d);
      }
    }
  }

  lemma ReopenedIff(e: State, d: DrainId)
    requires Inv(e) && Roomy(e) && d in e.drains
    requires e.drains[d].state == Drained || (e.drains[d].state == Cancelled && !IsDone(e.drains[d]))
    ensures ReopenFor(e, d).generation.Some? <==> !Ad.NoRoom(e.fence, e.drains[d].target)
    ensures e.drains[d].state == Drained ==> !Ad.NoRoom(e.fence, e.drains[d].target)
    ensures ReopenFor(e, d).generation.Some? ==>
              var t, f := e.drains[d].target, ReopenFor(e, d).fence;
              && t in f && !f[t].closed && f[t].generation > e.drains[d].generation
              && ReopenFor(e, d).generation == Some(f[t].generation)
  {
    var r := e.drains[d];
    assert RecordOk(e.fence, e.drainHighWater, d, r);
    ReopenForEffect(e, d);
    Ad.CloseIff(e.fence, r.target, d);
  }

  /** A grant is accepted exactly under an accepted token, for a positive extension, on an
      unsettled drain and a known obligation or all of them, while grants are left. It
      is appended to the drain's grants and gives the drain a fresh round count. */
  lemma GrantIff(e: State, d: DrainId, obligation: ObligationId, extension: int, token: AuthorityId, now: Time)
    ensures GrantException(e, d, obligation, extension, token, now).ok <==>
              && Au.Authorizes(e.authority, token, now) && extension > 0
              && d in e.drains && !IsSettled(e.drains[d].state)
              && (obligation == 0 || obligation in e.obligations)
              && (if d in e.exceptions then |e.exceptions[d]| < e.policy.maxExtensions else 0 < e.policy.maxExtensions)
    ensures GrantException(e, d, obligation, extension, token, now).ok ==>
              var e' := GrantException(e, d, obligation, extension, token, now).state;
              && d in e'.exceptions
              && e' == e.(exceptions := e.exceptions[d := e'.exceptions[d]],
                          drains := e.drains[d := e.drains[d].(evacuationRequests := 0)])
              && e'.exceptions[d]
                 == (if d in e.exceptions then e.exceptions[d] else []) + [Grant(obligation, extension)]
    ensures !GrantException(e, d, obligation, extension, token, now).ok ==>
              var e' := GrantException(e, d, obligation, extension, token, now).state;
              e' == e.(exceptions := e'.exceptions) && forall x :: GrantsOf(e', x) == GrantsOf(e, x)
  {
  }

  // ---- Setting up -------------------------------------------------------------------------------------------------

  /** A line is installed exactly when both numbers are given, the incarnation is later than
      the one in force and the epoch is not earlier. From then on no token is accepted
      and no observation counts as attested; nothing else changes. */
  lemma InstallLineIff(e: State, incarnation: nat, epoch: nat)
    ensures InstallLine(e, incarnation, epoch).ok <==>
              && incarnation != 0 && epoch != 0 && epoch >= e.authority.epoch
              && (e.authority.incarnation == 0 || incarnation > e.authority.incarnation)
    ensures !InstallLine(e, incarnation, epoch).ok ==> InstallLine(e, incarnation, epoch).state == e
    ensures InstallLine(e, incarnation, epoch).ok ==>
              var e' := InstallLine(e, incarnation, epoch).state;
              && e'.authority.incarnation == incarnation && e'.authority.epoch == epoch
              && (forall token, now :: !Au.Authorizes(e'.authority, token, now))
              && e'.evidence.records.Keys == e.evidence.records.Keys
              && (forall k :: k in e'.evidence.records ==>
                    e'.evidence.records[k] == e.evidence.records[k].(attested := false))
              && e'.evidence.latest == e.evidence.latest && e'.evidence.maxRecords == e.evidence.maxRecords
              && e' == e.(authority := e'.authority, evidence := e'.evidence)
  {
  }

  /** An observation is judged on the live line, at the instant, under the policy's skew and
      its rule about producers; a refused one changes nothing. */
  lemma RecordEvidenceIs(e: State, draft: Ev.Observation, now: Time)
    ensures var fence := Ev.EvidenceFence(e.authority.incarnation, e.authority.epoch, now, e.policy.skew);
            var filed := Ev.Record(e.evidence, draft, fence, e.policy.requireLive);
            RecordEvidence(e, draft, now)
            == if filed.Recorded? then Outcome(e.(evidence := filed.ledger), true) else Outcome(e, false)
  {
  }

  /** A stored observation of the live line is attested at the engine's word. */
  lemma AttestEvidenceIff(e: State, key: Ev.EvidenceKey, number: EvidenceSeq, now: Time)
    ensures var rk := Ev.RecordKey(key, number);
            && (AttestEvidence(e, key, number, now).ok <==>
                  && rk in e.evidence.records && e.evidence.records[rk].epoch == e.authority.epoch
                  && e.evidence.records[rk].producer == e.authority.incarnation)
            && (AttestEvidence(e, key, number, now).ok ==>
                  AttestEvidence(e, key, number, now).state
                  == e.(evidence := e.evidence.(records :=
                          e.evidence.records[rk := e.evidence.records[rk].(attested := true)])))
            && (!AttestEvidence(e, key, number, now).ok ==> AttestEvidence(e, key, number, now).state == e)
  {
    Ev.AttestIff(e.evidence, key, number, LineAt(e, now));
  }

  /** What each setup event changes, and nothing beside it. */
  lemma SetupIs(e: State, op: SetupOp, now: Time)
    ensures var e' := ApplySetup(e, op, now);
            match op
            case RecordOp(o) => e' == RecordEvidence(e, o, now).state
            case AttestOp(key, number) => e' == AttestEvidence(e, key, number, now).state
            case FabricOp(change) => e' == e.(fabric := To.Apply(e.fabric, change))
            case PolicyOp(p) => e' == e.(policy := p, evidence := e.evidence.(maxRecords := p.maxEvidence))
            case LineOp(incarnation, epoch) => e' == InstallLine(e, incarnation, epoch).state
            case IncarnationOp(incarnation) =>
              && e' == e.(authority := e'.authority)
              && e'.authority == if incarnation > e.authority.incarnation
                                 then e.authority.(incarnation := incarnation) else e.authority
            case IssueOp(scope, validity) =>
              && e' == e.(authority := e'.authority)
              && e'.authority == if Au.Issue(e.authority, scope, now, validity).Some?
                                 then Au.Issue(e.authority, scope, now, validity).value else e.authority
            case RevokeOp(id) =>
              && e' == e.(authority := e'.authority) && !Au.Stands(e'.authority, id)
              && e'.authority == e.authority.(tokens := e'.authority.tokens)
              && e'.authority.tokens.Keys == e.authority.tokens.Keys
              && forall x :: x in e.authority.tokens && x != id ==> e'.authority.tokens[x] == e.authority.tokens[x]
  {
  }

  /** The ledger's bound is the policy's. */
  predicate Bounded(e: State) {
    e.evidence.maxRecords == e.policy.maxEvidence
  }

  lemma SetupBounded(e: State, op: SetupOp, now: Time)
    requires Bounded(e)
    ensures Bounded(ApplySetup(e, op, now))
  {
  }
}
