/** Obligations: what depends on a target, and how its state may be reported. */
module Obligations {
  import opened Identity

  datatype ObligationKind =
    | ActiveFlow | Reservation | WorkloadNetworkContract | PathDiversityCommitment
    | CapacityGuarantee | Supplied

  datatype ObligationState = Admitted | Evacuating | Quiescing | Released | Retired | Failed

  /** Dependencies are kept sorted and free of duplicates, that is, as a set. */
  datatype Obligation = Obligation(
    kind: ObligationKind, isProtected: bool, dependencies: set<Target>, grace: int,
    admittedAt: Time, admissionGeneration: Generation, state: ObligationState, revision: nat,
    releaseEvidence: EvidenceSeq, clearedAt: Time, reappearances: nat)

  /** `is_legal_obligation_transition`. */
  predicate LegalTransition(from: ObligationState, to: ObligationState) {
    from == to ||
    match from
    case Admitted => to.Evacuating? || to.Quiescing? || to.Released? || to.Retired? || to.Failed?
    case Evacuating => to.Quiescing? || to.Released? || to.Retired? || to.Failed?
    case Quiescing => to.Released? || to.Retired? || to.Failed? || to.Admitted?
    case Released => to.Retired? || to.Failed? || to.Admitted? || to.Quiescing?
    case Retired => to.Admitted?
    case Failed => to.Admitted? || to.Evacuating? || to.Quiescing?
  }

  /** How far along the way out a state is; failure stands aside. */
  function Progress(s: ObligationState): nat {
    match s
    case Admitted => 0
    case Evacuating => 1
    case Quiescing => 2
    case Released => 3
    case Retired => 4
    case Failed => 5
  }

  /** The table in one sentence: work may go any distance forward; from Quiescing on it
      may be admitted again, and a release may fall back to Quiescing; anything but a
      retired obligation may fail, and a failed one starts over short of release. */
  lemma LegalMoves(from: ObligationState, to: ObligationState)
    ensures LegalTransition(from, to) <==>
              || from == to
              || (to == Failed && from != Retired)
              || (from == Failed && Progress(to) <= 2)
              || (from != Failed && to != Failed
                  && (|| Progress(from) < Progress(to)
                      || (to == Admitted && Progress(from) >= 2)
                      || (from == Released && to == Quiescing)))
  {
  }

  predicate BlocksCompletion(o: Obligation) {
    o.isProtected && o.state != Retired
  }

  predicate NeedsMoving(o: Obligation) {
    o.state == Admitted || o.state == Evacuating
  }

  /** `Obligation::apply_state`. None is a refusal that changes nothing. */
  function ApplyState(o: Obligation, expected: nat, next: ObligationState, evidence: EvidenceSeq, at: Time)
    : Option<Obligation>
  {
    if expected != o.revision then None
    else if next == o.state then
      if evidence != 0 && evidence != o.releaseEvidence && (next.Quiescing? || next.Released? || next.Retired?)
      then Some(o.(releaseEvidence := evidence, clearedAt := at, revision := o.revision + 1))
      else Some(o)
    else if !LegalTransition(o.state, next) then None
    else
      var moved := o.(state := next, revision := o.revision + 1);
      if next.Retired? || next.Released? then Some(moved.(releaseEvidence := evidence, clearedAt := at))
      else if next.Admitted? then
        Some(moved.(releaseEvidence := 0, clearedAt := 0, reappearances := o.reappearances + 1))
      else Some(moved)
  }

  /** What every accepted report keeps: identity, protection, dependencies and
      the generation of the binding; counters never go back, and an obligation
      that leaves Retired has reappeared once more. */
  predicate Evolves(o: Obligation, o': Obligation) {
    && o'.kind == o.kind && o'.isProtected == o.isProtected && o'.dependencies == o.dependencies
    && o'.admissionGeneration == o.admissionGeneration
    && o'.revision >= o.revision && o'.reappearances >= o.reappearances
    && (o.state == Retired && o'.state != Retired ==> o'.reappearances > o.reappearances)
  }

  lemma ReportEvolves(o: Obligation, expected: nat, next: ObligationState, evidence: EvidenceSeq, at: Time)
    requires ApplyState(o, expected, next, evidence, at).Some?
    ensures Evolves(o, ApplyState(o, expected, next, evidence, at).value)
    ensures ApplyState(o, expected, next, evidence, at).value.state == next
  {
  }

  /** A report repeats the state and brings evidence that is not yet on record. */
  predicate Renews(o: Obligation, next: ObligationState, evidence: EvidenceSeq) {
    && next == o.state && (next == Quiescing || next == Released || next == Retired)
    && evidence != 0 && evidence != o.releaseEvidence
  }

  /** What an accepted report leaves on record, field by field. */
  predicate Reported(o: Obligation, next: ObligationState, evidence: EvidenceSeq, at: Time, o': Obligation) {
    && o'.state == next
    && o'.kind == o.kind && o'.isProtected == o.isProtected && o'.dependencies == o.dependencies
    && o'.grace == o.grace && o'.admittedAt == o.admittedAt && o'.admissionGeneration == o.admissionGeneration
    && (next != o.state && (next == Released || next == Retired) ==>
          o'.releaseEvidence == evidence && o'.clearedAt == at)
    && (next != o.state && next == Admitted ==> o'.releaseEvidence == 0 && o'.clearedAt == 0)
    && (next != o.state && (next == Evacuating || next == Quiescing || next == Failed) ==>
          o'.releaseEvidence == o.releaseEvidence && o'.clearedAt == o.clearedAt)
    && (Renews(o, next, evidence) ==> o'.releaseEvidence == evidence && o'.clearedAt == at)
    && (next != o.state || Renews(o, next, evidence) <==> o'.revision == o.revision + 1)
    && (next == o.state && !Renews(o, next, evidence) ==> o' == o)
    && o'.reappearances == o.reappearances + (if next != o.state && next == Admitted then 1 else 0)
  }

  /** A report is accepted exactly at the current revision and for a legal move, and
      then leaves its evidence and instant exactly where the new state asks for them. */
  lemma ApplyStateIff(o: Obligation, expected: nat, next: ObligationState, evidence: EvidenceSeq, at: Time)
    ensures ApplyState(o, expected, next, evidence, at).Some? <==>
              expected == o.revision && LegalTransition(o.state, next)
    ensures ApplyState(o, expected, next, evidence, at).Some? ==>
              Reported(o, next, evidence, at, ApplyState(o, expected, next, evidence, at).value)
  {
  }

  lemma EvolvesTransitive(a: Obligation, b: Obligation, c: Obligation)
    requires Evolves(a, b) && Evolves(b, c)
    ensures Evolves(a, c)
  {
  }

  /** A report is accepted at most once: replaying an accepted report that
      changed something is refused by the revision fence. */
  lemma ReplayRefused(o: Obligation, expected: nat, next: ObligationState, evidence: EvidenceSeq, at: Time, at': Time)
    requires ApplyState(o, expected, next, evidence, at).Some?
    requires ApplyState(o, expected, next, evidence, at).value != o
    ensures ApplyState(ApplyState(o, expected, next, evidence, at).value, expected, next, evidence, at').None?
  {
  }

  // ---- Whole report histories --------------------------------------------------------

  datatype Report = Report(expected: nat, next: ObligationState, evidence: EvidenceSeq, at: Time)

  function Replay(o: Obligation, reports: seq<Report>): Obligation
    decreases |reports|
  {
    if reports == [] then o
    else
      var r := reports[0];
      var applied := ApplyState(o, r.expected, r.next, r.evidence, r.at);
      Replay(if applied.Some? then applied.value else o, reports[1..])
  }

  /** Over any history of reports, accepted or refused, an obligation that was
      Retired and is outstanding again has strictly more reappearances. */
  lemma {:induction false} HistoryEvolves(o: Obligation, reports: seq<Report>)
    ensures Evolves(o, Replay(o, reports))
    decreases |reports|
  {
    if reports != [] {
      var r := reports[0];
      var applied := ApplyState(o, r.expected, r.next, r.evidence, r.at);
      if applied.Some? {
        ReportEvolves(o, r.expected, r.next, r.evidence, r.at);
        HistoryEvolves(applied.value, reports[1..]);
      } else {
        HistoryEvolves(o, reports[1..]);
      }
    }
  }
}
