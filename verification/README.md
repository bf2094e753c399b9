# Drain Fabric, verified

Drain Fabric takes network resources out of service: it closes admission on a
target, waits until the protected work bound to it has moved or been released,
checks that no capacity, diversity or connectivity commitment breaks, removes the
resource, proves the removal from fresh evidence, and keeps the target fenced until
somebody restores it. This project models its protocol engine, removal validator,
evidence ledger, codecs and boot line, and proves what they promise over every
input and every run.

A *run* (`EngineRuns.IsRun`) starts at the empty engine. Each event is one locked
section of the engine: admit, report, request, cancel, restore, resume, grant,
one drain's step, a topology, policy, evidence or authority call, or a restart
from the snapshot of any earlier state of the run. `advance` is a pass of drain
steps in ascending id order (`EngineObject.DrainEngine.Advance`).

| files | what they hold |
|---|---|
| `Identity`, `Ordering`, `Bytes` | identifiers, 64-bit bounds, saturating time, least element of a set of strings, little-endian integers |
| `Admission`, `Lifecycle`, `Obligations`, `Authority` | the fence, the drain record, the obligation, the token registry, each with the laws of its own history |
| `Evidence`, `EvidenceObject` | the bounded evidence ledger: specification with its index theorem, and the mutable store that refines it |
| `Capacity`, `Routes`, `Topology` | headroom arithmetic, the explicit-stack route search, the removal validator |
| `Engine`, `EngineObject` | the engine as a state machine on values, and the class whose methods loop over its fields and are proved equal to it |
| `EngineInvariant`, `EngineSteps`, `EngineOperations`, `EngineGuards`, `EngineRuns` | the inductive invariant, what each operation may change, what a step must have checked |
| `EngineCalls`, `EngineStages`, `EngineMoves` | what each call asks for, what stops a drain at each stage, and what each step leaves, told in the fields of the state |
| `EngineFence`, `EngineAudit`, `EngineSafety`, `EngineOrder`, `EngineWaits`, `EngineProgress`, `EngineProof`, `EngineLedger`, `EngineTiming` | the theorems over runs |
| `EngineWitness` | concrete runs from the empty engine that take each exception of those theorems |
| `Crc32c`, `Wire`, `FrameStream`, `Json`, `JsonRoundTrip`, `JsonGrammar`, `JsonLanguage`, `JsonObject`, `Persistence` | checksum, frames, stream reassembly, printer and parser, the language the parser reads, snapshot image |
| `Boot` | boot marker, start sequence, crashes |

Main results:

- Audit closure: the audit is clean in every state of a run if and only if every
  event meets a guard that can be read off the state before it (`EngineAudit.RunCleanIff`).
- Whenever a drain is Drained, through any restarts, it completed by an event of the run, and its target is free of work that was not already retired there (`EngineSafety.DrainedSafety`).
- Fence and owner correspond up to any state of a run if and only if no event so far stranded a drain of that target (`EngineFence.FenceOwner`).
- Removal never breaks a commitment, and commitments keep holding (`EngineSafety.RemovalCommits`, `EngineSafety.CommitmentsStand`).
- Completion and engine-made retirement rest on live evidence only (`EngineProof.DrainedOnLiveEvidence`, `EngineProof.RetiredOnLiveEvidence`).
- Admission is ordered, bounded per domain, and waits never form a cycle (`EngineOrder`, `EngineWaits`).
- A step that clears a drain leaves it Blocked exactly when the fence table or the ledger is full against it (`EngineLedger.RunNoOscillation`); evacuation rounds are bounded, on the surviving history and over the whole run (`EngineProgress`).
- Every operator call is accepted exactly under a stated condition on the state's fields, and under a token that is not accepted none changes anything (`EngineCalls`). A drain is stopped at a stage by exactly the listed objections (`EngineStages.StateBlockersIff`), and what a step does at each stage is stated in full (`EngineMoves`).
- Over every run a drain leaves AdmissionClosed no earlier than the settle window after it entered, rounds keep the retry interval, and a restart leaves no drain on its way (`EngineTiming`).
- The removal verdict is about declared numbers: unreserved capacity in unbounded arithmetic, paths with every hop left, and paths through the graph (`Topology.ValidateJudges`).
- The route search is sound and, when no budget stops it, complete (`Routes`).
- The table CRC is the bit-by-bit CRC, detects every change inside four bytes, and so every damaged frame or snapshot byte is refused (`Crc32c`, `Wire`, `Persistence`).
- A text is parsed as a value exactly when it is a JSON text of it within the limits (`JsonLanguage.ParseIff`), and parsing a dump gives the value back (`JsonRoundTrip.RoundTrip`). No bytes but the image of a frame or snapshot are accepted as one (`Wire.DecodeIff`, `Persistence.LoadIff`).
- The stream reassembler hands out exactly the frames sent, in whatever pieces the socket reports them and with whatever pauses, once all bytes are reported and enough waits are made (`FrameStream`).
- Across starts and crashes the line only advances and old tokens stay dead (`Boot`).

Where the code and its own documentation disagree, the code is modelled:

- `install_line` is documented as demanding a larger epoch; it accepts an equal one. The incarnation must be larger, and that alone kills old tokens.
- A request replayed with its nonce is meant to return the original set; the capacity and authority checks come first and can refuse the replay (`EngineOperations.RequestReplay` gives the exact condition).
- The diversity check of the validator counts a hop that is not a known resource as usable, unlike `path_available`.
- `AdmissionFence::close` erases the entry when the generation space is exhausted (`Admission.ExhaustedCloseForgets` is an if-and-only-if), so runs keep every generation at least two below 2^64 - 1.
- `cancel_drain` is accepted while a drain is Restoring and then leaves an unrestored record behind an open fence; `restored_at == 0` means "not restored", so a restoration that completes at instant zero does the same. Both are guards of `EngineAudit.RunCleanIff`, and runs that do it are given (`EngineWitness`).
- `report_obligation` may retire an obligation without evidence and may take a Retired one back to Admitted; hence the reappearance clause of `EngineSafety.DrainedSafety`.
- `apply_headroom` wraps when `required * numerator` fits and the rounding addend does not (`Capacity.HeadroomExact`, with `Capacity.WrapAdmitsEmptyPool` as a concrete pool).
- `restore_drain` opens the fence before Restoring, and a removal counts as owned only behind a closed fence, so in reachable states the step that ends a restoration never returns the resource to service (`EngineGuards.StepRestores`).
- A wait budget of zero only looks at what is already buffered and never reads the socket (`FrameStream.FrameStream.ReceiveAll` counts only the other waits).
- A restart from an older snapshot forgets evacuation rounds issued since, so a run can issue more rounds than the policy's budget (`EngineProgress.WholeRunBudget`, with `EngineWitness.AbandonedRoundIsIssuedAgain` as a run).
- `AuthorityRegistry::load_from_json` restores the saved line as it is, older or not (`Authority.LineNeverGoesBack`). Every token is read back revoked, so none is accepted right after a load (`Authority.LoadedTokensAreRefused`); but an older line also brings back an older high-water mark, and once a number is issued again the token that first carried it is accepted (`Authority.OldTokensStayDead` is an if-and-only-if, `Authority.ReissuedNumberIsAccepted` a history).
- Resuming a drain that was blocked in AdmissionClosed starts its settle window anew (`EngineMoves.StepRejudges`), so the window is counted from the last entry (`EngineTiming.SettleRespected`); it also holds from the first closure when the clock does not go back (`EngineTiming.SettleSinceClosure`).
- An authority token whose instant of issue and validity add up to zero never expires, because an expiry of zero means none (`Authority.IssuedTokenLives`).
- `EvidenceLedger::record` accepts sequence 0 and the loader refuses it (`Evidence.SaveLoad`, `Evidence.ZeroSequenceIsAcceptedButNotReloadable`).

## Model

| member | source | states |
|---|---|---|
| EngineAudit.RunCleanIff | src/engine.cpp:1822-1961 | over every run, restarts included, the audit is clean in every state if and only if every event is permitted where it happens: no accepted report wakes a retired protected obligation of a drained target, no drained resource is reported in service from outside, no drain past closure is cancelled while restoring or finishes restoring at instant zero |
| EngineAudit.ApplyCalm | src/engine.cpp:1842-1961 | one event keeps a clean state clean if and only if it is permitted |
| EngineAudit.AuditExact | src/engine.cpp:1822-1961 | under the invariant the whole audit reduces to: no stranded cancelled record, and no drained target with outstanding work or in service |
| EngineAudit.RunStaysCalm | src/engine.cpp:2266-2290 | a run of permitted events and restarts stays clean state by state |
| EngineAudit.RecoverCalm | src/engine.cpp:2262-2290 | recovery neither strands a record nor gives a drained target work or service |
| EngineAudit.DrainedOnProof | src/engine.cpp:1728-1758 | any operation that turns a drain Drained is a step that found no outstanding protected work, the resource unavailable and, under the policy, proving evidence recorded as the completion evidence |
| EngineWitness.CancelWhileRestoringBreaksAudit | src/engine.cpp:726-734 | a concrete run from the empty engine whose audits are clean until its last event cancels a restoring drain, and then not |
| EngineWitness.RestoringAtZeroBreaksAudit | src/engine.cpp:1761-1786 | the same when the last event finishes a restoration at instant zero |
| EngineWitness.ReawakeningBreaksAudit | src/obligation.cpp:143-144 | the same when the last event reports a retired obligation of a drained target admitted again |
| EngineWitness.OutsideReturnBreaksAudit | src/engine.cpp:283-295 | the same when the last event reports a drained resource in service from outside |
| EngineSafety.DrainedSafety | src/engine.cpp:1728-1758 | over every run and through every restart, in any state where a drain is Drained there is an event on the history that leads to that state, restarts followed back to their snapshots, that completed it, and every outstanding protected obligation of its target existed and was Retired at that completion and has a strictly larger reappearance counter now |
| EngineSafety.CompletionIsProven | src/engine.cpp:1422-1464 | every entry to Drained in a run is a step of that drain, in a state with no outstanding work, an unavailable resource and proving evidence |
| EngineSafety.OthersUntouched | src/engine.cpp:909-960 | an event that is not an operation on a drain leaves that drain's record exactly as it was |
| EngineSafety.RemovalCommits | src/engine.cpp:1699-1711 | whenever the engine itself changes the fabric, every capacity, diversity and route commitment holds afterwards |
| EngineSafety.CommitmentsKeepHolding | src/engine.cpp:1699-1711 | commitments that hold keep holding as long as topology and headroom change only through the engine and restarts recover later snapshots |
| EngineSafety.CommitmentsStand | src/engine.cpp:1699-1711 | over every run and through every restart, if each outside change of topology or policy leaves the commitments standing, they stand in every state |
| EngineFence.FenceOwner | src/engine.cpp:600-613 | in every reachable state a target has at most one unrestored drain and a restoring drain's target is open above its generation; up to any state, the fence is closed exactly when the target has a holder, the entry then is that drain's at its generation and above every binding on the target, if and only if no event so far stranded a drain of the target |
| EngineFence.ApplyStrands | src/engine.cpp:715-741 | from a state with no stranded record on a target, an event leaves one exactly when it cancels a drain of the target past closure while it restores, or finishes restoring it at instant zero |
| EngineFence.CorrespondsIff | src/engine.cpp:1842-1961 | under the invariant fence and owner of a target correspond exactly when no cancelled record of it is stranded |
| EngineFence.OpStrands | src/engine.cpp:715-907 | an operation leaves its own drain stranded exactly when it strands it |
| EngineRuns.RunKeepsInv | src/engine.cpp:1485-1792 | the invariant holds in every state of every run |
| EngineOperations.ApplyKeepsInv | src/engine.cpp:1485-1792 | every event keeps records, fence, owners, bindings, sets and enrolment in correspondence |
| EngineOperations.RecoverKeepsInv | src/engine.cpp:2262-2290 | so does recovery from a snapshot |
| EngineOperations.RequestKeepsInv | src/engine.cpp:561-713 | so does a drain request, accepted or refused |
| EngineOperations.AdmitKeepsInv | src/engine.cpp:306-352 | so does an admission: a new binding carries the generation in force on an open target |
| EngineOperations.ReportKeepsInv | src/engine.cpp:354-398 | so does an external report |
| EngineOperations.CancelEffect | src/engine.cpp:715-741 | a cancellation moves only that record, along a legal path, and leaves a restored drain alone |
| EngineOperations.RestoreEffect | src/engine.cpp:745-826 | a restoration moves only that record and its fence entry, upwards, and the new record agrees with the new fence |
| EngineOperations.ReopenForEffect | src/engine.cpp:770-796 | below exhaustion the fence part either refuses and changes nothing or leaves the target open strictly above the drain's generation |
| EngineOperations.ResumeOpEffect | src/engine.cpp:828-854 | resuming moves only that record, along the lifecycle and in agreement with the fence, and leaves a restored drain alone |
| EngineOperations.GrantOpEffect | src/engine.cpp:856-907 | a grant touches only the drain's counters and its list of exceptions |
| EngineOperations.SetupEffect | src/engine.cpp:85-145 | policy, topology, evidence and authority calls leave drains, fence, obligations and sets alone |
| EngineOperations.OnlyStepAdvances | src/engine.cpp:715-907 | only a step carries a drain forward; every other operation keeps its phase, cancels or starts restoring |
| EngineOperations.NormalizeFacts | src/drain_set.cpp:86-101 | normalisation gives a strictly ordered list with exactly the same targets |
| EngineOperations.OrderedUnique | src/drain_set.cpp:86-101 | a strictly ordered list is determined by its members |
| EngineOperations.RequestOrderIrrelevant | src/engine.cpp:561-565 | listing the same targets in another order or repeated gives the same outcome and the same state, as long as the raw list is within the policy bound |
| EngineOperations.RequestReplay | src/engine.cpp:583-595 | a used nonce changes nothing; it is answered with the original set exactly when the targets are the same set and the checks in front of the nonce still pass |
| EngineSteps.StepDrainEffect | src/engine.cpp:1485-1792 | a step changes one record, at most its target's fence entry (upwards, closed only for that drain) and retires obligations; the record moves along the lifecycle and agrees with the new fence |
| EngineSteps.SettledStays | src/engine.cpp:1485-1509 | a settled drain is not moved by a step |
| EngineSteps.RevalidateEffect | src/engine.cpp:1485-1509 | revalidation of a blocked drain either restores exactly the state it was blocked from or keeps it Blocked, and changes nothing but that record and the ledger |
| EngineGuards.ClosureGuard | src/engine.cpp:1186-1295 | a drain that closes admission was first in its failure domain's order and below the domain limit |
| EngineGuards.DrainedGuard | src/engine.cpp:1728-1758 | a step that reaches Drained rests on zero outstanding work, an unavailable resource and proving evidence |
| EngineGuards.StepBranch | src/engine.cpp:1511-1758 | before restoration a step at most takes its own target out of service, touches the fence only from Validating, never cancels, and moves the evacuation counter only while Evacuating |
| EngineGuards.StepRestores | src/engine.cpp:1761-1786 | a restoring drain becomes Cancelled with its restoration instant exactly when the restoration's checks pass, and otherwise keeps restoring; fabric and fence stay as they are |
| EngineOrder.RunAdmitsInOrder | src/engine.cpp:1237-1284 | in every reachable state, if a drain of a failure domain has closed admission, no smaller drain id of that domain is still waiting |
| EngineOrder.RunStaysWithinLimit | src/engine.cpp:1095-1109 | under a fixed limit no reachable state, restarts included, has more fence-holding drains in a domain than the limit |
| EngineOrder.ApplyDisciplined | src/engine.cpp:1228-1235 | any event that closes admission for a drain found it first in order and below the limit, and moved no other drain |
| EngineWaits.WaitsNeverCycle | src/engine.cpp:1237-1284 | along any chain of recorded waits the drain ids strictly decrease, so no reachable state holds a cycle |
| EngineWaits.RunPointsBack | src/engine.cpp:674-685 | in every reachable state each recorded wait names a strictly smaller drain |
| EngineProgress.NoOscillation | src/engine.cpp:1394-1420 | a blocked drain whose revalidation clears ends the same step Blocked if and only if the fence table is full without its target, or the target is due to leave service and the ledger is full of current records of other streams (or the skew is negative); cleared from Verifying it is Drained |
| EngineLedger.RunNoOscillation | src/engine.cpp:1485-1509 | the same for every step of every run, without further conditions |
| EngineLedger.RunIndexAgrees | src/evidence.cpp:126-193 | the ledger's index agrees with its records in every state of every run |
| EngineWitness.FullLedgerBlocks | src/engine.cpp:1712-1721 | a concrete run in which a step clears a drain and leaves it Blocked because the ledger is full |
| EngineProgress.StepCount | src/engine.cpp:1577-1631 | the evacuation counter grows by exactly one per issued round, and only below the policy's attempts |
| EngineProgress.RunInBudget | src/engine.cpp:878-897 | on the history that leads to a state, rounds issued are at most attempts times grants plus the current counter |
| EngineProgress.EvacuationBudget | src/engine.cpp:1297-1326 | under fixed limits the history that leads to a state holds at most attempts x (1 + grants), hence at most attempts x (1 + extensions), rounds of a drain |
| EngineProgress.WholeRunBudget | src/engine.cpp:1297-1326 | all rounds issued over a run, abandoned histories included, are within one budget when every restart recovers the state it interrupts, and within one more budget per restart in general |
| EngineWitness.AbandonedRoundIsIssuedAgain | src/engine.cpp:1577-1631 | a concrete run with one restart that issues more rounds than one budget |
| EngineProof.DrainedOnLiveEvidence | src/engine.cpp:1422-1464 | when the line changes only by installation and the policies demand it, every entry to Drained rests on removal evidence written since the last line, in the live incarnation and epoch, at the drain's generation, not observed before closure, inside the freshness window, and recorded as its completion evidence |
| EngineProof.RetiredOnLiveEvidence | src/engine.cpp:1328-1381 | every obligation changed by an operation on a drain satisfies the same for its release evidence |
| EngineProof.RunTrusted | src/engine.cpp:128-145 | no record of an earlier line is live, and every attested record is live, in every reachable state |
| EngineProof.StepDrainBooks | src/engine.cpp:1653-1665 | a step adds only live records to the ledger and changes only obligations whose release is proven |
| EngineObject.DrainEngine.constructor | src/engine.cpp:68-75 | a new engine is the empty state |
| EngineObject.DrainEngine.OutstandingFor | src/obligation.cpp:424-434 | the scan finds exactly the protected unfinished dependents of a target |
| EngineObject.DrainEngine.ActiveInDomain | src/engine.cpp:1095-1109 | the count is the number of other fence-holding drains in the domain |
| EngineObject.DrainEngine.Frontmost | src/engine.cpp:1237-1257 | the drain found is the smallest other waiting drain of the domain, none exactly when there is none |
| EngineObject.DrainEngine.Predecessor | src/engine.cpp:1264-1284 | the first unsettled member of the same domain before this drain in its set |
| EngineObject.DrainEngine.EvaluateStart | src/engine.cpp:1186-1295 | the blockers are exactly those of the specification |
| EngineObject.DrainEngine.EvaluateEvacuation | src/engine.cpp:1297-1326 | blockers of evacuation, and whether something still has to move |
| EngineObject.DrainEngine.EvaluateQuiescence | src/engine.cpp:1328-1420 | blockers of quiescence, and exactly the obligations whose release is proven |
| EngineObject.DrainEngine.EvaluateRemoval | src/engine.cpp:1394-1420 | nothing stands against the removal exactly when the target is known and is in service and removable, or already out under this drain's fence |
| EngineObject.DrainEngine.EvaluateEvidence | src/engine.cpp:1443-1461 | no objection exactly when a fresh removal observation of the drain's generation, not older than closure, exists; its sequence is then the proof, and otherwise the proof is zero and the objection names what is wrong |
| EngineObject.DrainEngine.EvaluateVerification | src/engine.cpp:1422-1464 | verification passes exactly when no protected work is outstanding, the target is out of service under this drain's fence and, where the policy asks, proving removal evidence exists, whose sequence is returned |
| EngineObject.DrainEngine.EvaluateState | src/engine.cpp:1466-1483 | blockers of the state a drain would resume |
| EngineObject.DrainEngine.DeadlineFor | src/engine.cpp:1082-1093 | the grace deadline including granted extensions, saturating |
| EngineObject.DrainEngine.ApplyTransition | src/engine.cpp:1134-1164 | a legal transition replaces the record, an illegal one changes nothing |
| EngineObject.DrainEngine.Block | src/engine.cpp:1166-1184 | blocking remembers the state blocked from and the blockers |
| EngineObject.DrainEngine.RecordRemoval | src/engine.cpp:1001-1024 | the engine's own removal observation enters the ledger or nothing changes |
| EngineObject.DrainEngine.ObserveAgain | src/engine.cpp:1026-1036 | the removal is observed afresh only while fence and resource still show it |
| EngineObject.DrainEngine.Retire | src/engine.cpp:1653-1665 | exactly the obligations given are retired |
| EngineObject.DrainEngine.StepValidating | src/engine.cpp:1516-1536 | the Validating branch: blocked by the start checks or by a full fence table, else admission closed under a new generation |
| EngineObject.DrainEngine.StepEvacuating | src/engine.cpp:1559-1631 | the Evacuating branch, and whether it issued a round |
| EngineObject.DrainEngine.StepQuiescing | src/engine.cpp:1632-1727 | the Quiescing branch: back to evacuation, blocked, retirement of released obligations, or the removal step |
| EngineObject.DrainEngine.StepVerifying | src/engine.cpp:1728-1758 | the Verifying branch: one fresh observation where allowed, then blocked or complete |
| EngineObject.DrainEngine.StepRestoring | src/engine.cpp:1761-1786 | the Restoring branch, including the return to service of a removal still owned |
| EngineObject.DrainEngine.Judge | src/engine.cpp:1499-1508 | revalidation resumes the blocked state or refreshes the blockers |
| EngineObject.DrainEngine.Step | src/engine.cpp:1485-1792 | the whole step equals the step of the state machine, which the `EngineMoves` laws below describe stage by stage |
| EngineObject.DrainEngine.Advance | src/engine.cpp:909-960 | one pass is the steps of all drains in ascending id order |
| EngineObject.DrainEngine.AdmitObligation | src/engine.cpp:306-352 | admission equals the state machine's, refusals included |
| EngineObject.DrainEngine.ReportState | src/engine.cpp:354-398 | an external report equals the report of the state machine, whose acceptance and effect `EngineCalls.ReportIff` states |
| EngineObject.DrainEngine.CancelDrain | src/engine.cpp:715-741 | cancellation, refusals included |
| EngineObject.DrainEngine.RestoreDrain | src/engine.cpp:745-826 | restoration, refusals included |
| EngineObject.DrainEngine.ResumeDrain | src/engine.cpp:828-854 | resume, refusals included |
| EngineObject.DrainEngine.Grant | src/engine.cpp:856-907 | exception grant, refusals included |
| EngineObject.DrainEngine.Load | src/engine.cpp:2262-2310 | loading a snapshot equals recovery of the state machine, which `EngineMoves.RecoveryBlocks` states drain by drain |
| EngineObject.DrainEngine.RequestDrainSet | src/engine.cpp:561-713 | a request equals the request of the state machine, whose acceptance and effect `EngineCalls.RequestAcceptedIff`, `EngineCalls.RequestCreates` and `EngineOperations.RequestReplay` state |
| EngineObject.DrainEngine.Removable | src/engine.cpp:615-641 | the correlated check of a request: the whole set passes the validator, or some target is unknown |
| EngineCalls.RequestAcceptedIff | src/engine.cpp:561-662 | a request under an unused nonce is accepted if and only if its token is accepted, the list and table bounds hold, no named target has an unrestored drain, no failure domain occurs more often than its limit, and either some target is unknown or nothing named is over-reserved and every commitment holds with all of it gone; a refusal changes nothing |
| EngineCalls.RequestCreates | src/engine.cpp:663-712 | an accepted request adds one set and one fresh Requested record per distinct target, in order and numbered without a gap, and changes nothing else |
| EngineCalls.OrderIs | src/drain_set.cpp:86-101 | the order of a set is failure domain, then kind from port to resource, then identity |
| EngineCalls.AdmitIff | src/engine.cpp:306-352 | work is admitted if and only if the token is accepted, it has one to sixty-four dependencies, each open at the generation presented, and there is room; it stands as drafted with instant and generation stamped |
| EngineCalls.ReportIff | src/engine.cpp:354-398 | a report is accepted if and only if the obligation is known, its revision current, the move legal and, if a drain is named, the generation one of that drain's two; it changes that obligation as `Obligations.ApplyStateIff` says, and a refusal changes nothing |
| EngineCalls.TokenNeeded | src/engine.cpp:195-205 | admit, request, cancel, restore, resume and grant change nothing under a token that is not accepted |
| EngineCalls.CancelIff | src/engine.cpp:715-743 | every known drain but a drained one can be cancelled, and only its state, instant and blockers change |
| EngineCalls.RestoreIff | src/engine.cpp:745-826 | in reachable states a settled or restoring drain can be restored unless its target was never fenced and the fence table is full; the target is then open above the drain's generation |
| EngineCalls.GrantIff | src/engine.cpp:856-907 | a grant is accepted if and only if token, extension, drain, obligation and the number of grants allow it; it is appended and resets the round count |
| EngineCalls.InstallLineIff | src/engine.cpp:128-145 | a line is installed if and only if it is later; afterwards no token is accepted and no observation is attested |
| EngineCalls.SetupIs | src/engine.cpp:85-295 | each policy, line, incarnation, token, topology and evidence event is exactly the call it names, and a revoked number no longer stands |
| EngineCalls.AttestEvidenceIff | src/engine.cpp:445-458 | an observation is attested if and only if it is stored and of the live epoch and incarnation |
| EngineStages.StateBlockersIff | src/engine.cpp:1466-1483 | an evaluation reports a blocker if and only if its stage has that objection, each described by its code from the fields of the state |
| EngineStages.StartBlockersIff | src/engine.cpp:1186-1295 | the objections before admission closes: token, foreign closure, service, domain limit, the smallest waiting drain, the earlier set member, capacity, diversity, connectivity |
| EngineStages.EvacuationBlockersIff | src/engine.cpp:1297-1326 | the objections of an evacuation: a failed obligation, one past its deadline, used-up attempts while something still has to move |
| EngineStages.QuiescenceBlockersIff | src/engine.cpp:1328-1420 | the objections of quiescence: per outstanding obligation what its release lacks, and when none is outstanding what the removal would break |
| EngineStages.VerificationBlockersIff | src/engine.cpp:1422-1464 | the objections of verification: outstanding work, a removal not owned, a missing, superseded or too early observation |
| EngineStages.UnsettledBeforeIff | src/engine.cpp:1264-1286 | the set predecessor is the first member listed before the drain that is unsettled in its domain |
| EngineStages.DeadlineIs | src/engine.cpp:1082-1093 | the deadline is admission plus grace plus every extension granted for the obligation or for all |
| EngineStages.GraceOrder | src/policy.cpp:42-53 | an obligation's own grace comes first, then its kind's, then the default |
| EngineMoves.StepValidates | src/engine.cpp:1516-1536 | a validating drain is held on exactly its objections or on a full fence table, and otherwise closes its target one generation up and starts the settle window |
| EngineMoves.StepSettles | src/engine.cpp:1537-1558 | before closure plus settle a step changes nothing; from then on the drain goes to Quiescing if and only if no protected work is outstanding, and to Evacuating otherwise |
| EngineMoves.StepEvacuates | src/engine.cpp:1559-1631 | an evacuating drain goes on if and only if nothing has to move; otherwise it is held on exactly its objections or issues a round exactly when one is due |
| EngineMoves.StepQuiesces | src/engine.cpp:1632-1727 | a quiescing drain falls back, is held on exactly its objections, retires exactly the outstanding obligations, or takes the resource down and records that it is gone |
| EngineMoves.StepVerifies | src/engine.cpp:1728-1758 | a verifying drain completes if and only if nothing objects after a fresh look, with instant, digest and the observation it rests on; otherwise it is held |
| EngineMoves.StepReturns | src/engine.cpp:1761-1786 | a restoring drain waits out the settle window and is then cancelled and restored |
| EngineMoves.StepRejudges | src/engine.cpp:1486-1510 | a blocked drain keeps exactly its present objections, or resumes and goes on in the same step |
| EngineMoves.ResumeIff | src/engine.cpp:828-854 | a resume is accepted if and only if the token is accepted and nothing stops the blocked drain where it is held |
| EngineMoves.ReobserveIs | src/engine.cpp:1001-1036 | a fresh look is taken only when policy, fence, fabric and work allow it, and files the next observation of the drain's own stream |
| EngineMoves.RecoveryBlocks | src/engine.cpp:2262-2290 | after recovery of any state no drain is validating, closed, evacuating, quiescing, verifying or restoring: each that was is Blocked there at that instant on the pending recovery alone, every other record is unchanged, nothing is attested and no token is accepted |
| EngineTiming.RestartBlocks | src/engine.cpp:2262-2290 | the same at every restart of every run |
| EngineTiming.SettleRespected | src/engine.cpp:1537-1545 | over every run a drain leaves AdmissionClosed towards removal only by a step, no earlier than settle after the event of its history that let it enter |
| EngineTiming.SettleSinceClosure | src/engine.cpp:1537-1545 | when the clock does not go back, settle also holds from the event that first closed admission |
| EngineTiming.RoundsSpaced | src/engine.cpp:1559-1631 | over every run a round that is not the first under its grant comes no earlier than the retry interval after the one before it on its history |
| EngineTiming.RunDeadline | src/engine.cpp:1082-1093 | in every state of every run the deadline is admission, plus own, kind's or default grace, plus everything granted |
| EngineTiming.RunBounded | src/engine.cpp:85-100 | in every state of every run the ledger's bound is the one of the policy in force |
| Lifecycle.DrainedOnlyFromVerifying | src/lifecycle.cpp:65-109 | every legal path from Requested to Drained passes Verifying and enters Drained from it |
| Lifecycle.RetiredIsClosed | src/lifecycle.cpp:65-109 | a legal path that avoids Blocked never leaves Drained, Restoring, Cancelled and Failed |
| Lifecycle.LegalMoves | src/lifecycle.cpp:65-109 | the table in words: one place on, evacuation may be skipped, one place back from Quiescing and Verifying, block and resume, cancel or fail unless drained, restore what is settled |
| Lifecycle.TransitionIff | src/lifecycle.cpp:199-230 | a move is made if and only if it is legal, and what it stamps, remembers and forgets |
| Obligations.LegalMoves | src/obligation.cpp:125-150 | the table in words: any distance forward, admitted again from Quiescing on, failure unless retired, a fresh start short of release |
| Obligations.ApplyStateIff | src/obligation.cpp:186-233 | accepted if and only if the revision is current and the move legal; Released and Retired take the report's evidence and instant, Admitted clears both, a repeat with other evidence replaces them, anything else keeps both |
| Obligations.ReportEvolves | src/obligation.cpp:186-233 | an accepted report keeps identity, dependencies and admission generation, never lowers revision or reappearances, and raises reappearances when it leaves Retired |
| Obligations.ReplayRefused | src/obligation.cpp:186-233 | a report that changed something cannot be applied a second time |
| Obligations.HistoryEvolves | src/obligation.cpp:186-233 | the same over any history of reports |
| Admission.AdmissibleIff | src/admission.cpp:114-134 | a binding is admitted exactly when it presents the generation in force and the target is open |
| Admission.GenerationsNeverDecrease | src/admission.cpp:55-97 | below exhaustion no history of closes and reopens lowers a target's generation |
| Admission.StaleGenerationStaysRefused | src/admission.cpp:114-134 | a generation admitted before a closure is refused after it, whatever follows |
| Admission.ExhaustedCloseForgets | src/admission.cpp:55-76 | a close lowers a generation if and only if the generation space was exhausted |
| Admission.CloseIff | src/admission.cpp:55-76 | a close succeeds if and only if it names a drain, the generation is not exhausted and the table has room, and then closes one generation up |
| Admission.AdmissionFence.CloseTarget | src/admission.cpp:55-76 | closing changes only the target's entry, to the next generation, or is refused |
| Admission.AdmissionFence.ReopenTarget | src/admission.cpp:78-97 | reopening opens a closed entry under the next generation, or is refused |
| Authority.LineNeverGoesBack | src/authority.cpp:137-184 | over any history of registry calls, loads and clears included, and from any place in it on, incarnation and epoch never go down if and only if no load and no clear brings back an older line |
| Authority.OldTokensStayDead | src/authority.cpp:221-242 | over any history, once the line has passed a token's incarnation the token is accepted again if and only if it fits the line in force and a load or a clear later brought the line back, a call after that issued its number anew on the token's epoch, and nothing since voided it |
| Authority.AcceptedIff | src/authority.cpp:221-242 | over any history a presented token is accepted if and only if its own fields fit the live line, scope generation and clock, and its number was issued by a call that no call since has voided |
| Authority.StandsIff | src/authority.cpp:186-282 | over any history a number is stored and not revoked if and only if some call issued it and no later installed line, new epoch, revocation, load or clear voided it |
| Authority.AuthorizesIff | src/engine.cpp:195-205 | an id is accepted if and only if its token stands, is of the live line and its scope's generation, and has not expired |
| Authority.IssuedTokenLives | src/authority.cpp:186-203 | over any history a token whose number nothing voided is accepted if and only if incarnation and scope generation are still those of its issue and its validity has not run out |
| Authority.IssueIff | src/authority.cpp:186-203 | a token is issued if and only if a line is installed and there is room, under the next number on the live line |
| Authority.AdvanceScopeIff | src/authority.cpp:205-214 | a scope moves on by one and every token of its earlier generations is refused |
| Authority.LoadedTokensAreRefused | src/authority.cpp:321-369 | right after a load no token is accepted, whatever was saved and whatever is presented |
| Authority.ReissuedNumberIsAccepted | src/authority.cpp:321-369 | a history from a new registry: a token is accepted, a later line refuses it, the registry saved before it is loaded and refuses it too, and when the number is issued again the old token is accepted |
| Authority.AuthorityRegistry.LoadFrom | src/authority.cpp:321-369 | a load of epoch zero, of a zero id or of too many entries is refused and changes nothing; any other takes the registry's place, every token revoked and the mark raised to the largest id |
| Authority.AuthorityRegistry.Staged | src/authority.cpp:348-363 | the loop keeps every saved token, revoked, and ends with the least mark at or above the saved one and every id |
| Authority.ReloadedTokensAreRevoked | src/engine.cpp:2264-2265 | recovery revokes what it loads, so no saved token is accepted |
| Authority.InstallLineRevokesEverything | src/authority.cpp:167-184 | an installed line revokes every token and moves the incarnation up |
| Authority.AuthorityRegistry.Install | src/authority.cpp:167-184 | install succeeds exactly for a larger incarnation and a non-smaller epoch, and a refusal changes nothing |
| Authority.AuthorityRegistry.IssueToken | src/authority.cpp:186-203 | an issued token carries the live line and the next number |
| Authority.AuthorityRegistry.RevokeEvery | src/authority.cpp:274-282 | the loop revokes every token |
| Evidence.IndexIsLargestAccepted | src/evidence.cpp:126-193 | over every history the index of a stream is the largest sequence ever accepted on it, accepted sequences only grow, and that record is still stored |
| Evidence.HistoryConsistent | src/evidence.cpp:126-161 | over every history index and records agree and the store stays within its largest bound |
| Evidence.RecordKeepsIndex | src/evidence.cpp:126-161 | an accepted record moves only its own stream's index, forward, and respects the bound |
| Evidence.RecordRefusal | src/evidence.cpp:126-161 | a record that passes the screens is refused exactly when the store is full and holds nothing retirable |
| Evidence.RecordIff | src/evidence.cpp:126-161 | an observation is taken if and only if it is not from beyond the skew, of the live epoch and, if asked, incarnation, newer than its whole stream, and there is room or something to give up |
| Evidence.RecordStores | src/evidence.cpp:126-161 | it is stored as drafted and attested; nothing else changes, except that a full store gives up the oldest of the stream or a superseded record |
| Evidence.AttestIff | src/evidence.cpp:170-184 | a record is attested if and only if it is stored and of the live line |
| Evidence.LoadIff | src/evidence.cpp:280-321 | a ledger loads if and only if it fits, no sequence is zero, every stream is listed in growing order and the declared mark covers them; it then holds exactly those records, quarantined |
| Evidence.VictimFacts | src/evidence.cpp:248-266 | the record retired is the oldest of the incoming stream or a superseded one, and none is found exactly when there is none |
| Evidence.AttestKeepsIndex | src/evidence.cpp:170-184 | attestation changes neither the index nor which records are stored |
| Evidence.QuarantineKeepsIndex | src/evidence.cpp:163-168 | quarantine keeps every record and attests none |
| Evidence.SaveLoad | src/evidence.cpp:268-321 | loading a saved ledger succeeds exactly when no record has sequence zero and the bound suffices, and gives back the same records and index with everything quarantined |
| Evidence.ReplayStaysRefused | src/evidence.cpp:126-161 | a replay refused before a restart is refused after it |
| Evidence.ZeroSequenceIsAcceptedButNotReloadable | src/evidence.cpp:140-145 | a record with sequence zero is accepted and makes the saved ledger unloadable |
| EvidenceObject.EvidenceLedger.Accept | src/evidence.cpp:126-161 | the store's record equals the specification and keeps index and records consistent |
| EvidenceObject.EvidenceLedger.RetireOneFor | src/evidence.cpp:248-266 | the two scans remove exactly the victim of the specification |
| EvidenceObject.EvidenceLedger.Quarantine | src/evidence.cpp:163-168 | the loop clears every attestation |
| EvidenceObject.EvidenceLedger.AttestRecord | src/evidence.cpp:170-184 | attestation of one stored live record, or no change |
| EvidenceObject.EvidenceLedger.LoadFrom | src/evidence.cpp:280-321 | the loading loop equals the specification and a refusal leaves the store alone |
| Capacity.HeadroomExact | src/topology.cpp:58-67 | when the product fits, headroom is the exact ceiling if and only if the rounding addend fits too, and otherwise it is zero |
| Capacity.HeadroomSaturates | src/topology.cpp:58-67 | when the product overflows, headroom is 2^64 - 1 |
| Capacity.SaturatingSumIsCappedSum | src/topology.cpp:506-521 | the saturating sum is the true sum capped at 2^64 - 1 |
| Capacity.PoolComparisonExact | src/topology.cpp:640-651 | within the rounding bound the pool check agrees with unbounded integer arithmetic |
| Capacity.WrapAdmitsEmptyPool | src/topology.cpp:66-66 | a concrete pool that the wrapped headroom lets through empty |
| Capacity.MulChecked | include/drain/checked.hpp:43-99 | the division test detects exactly the products that do not fit |
| Routes.FoundAreRoutes | src/topology.cpp:523-592 | every route found is a simple path over edges, from origin to terminus, through usable resources, within the depth budget |
| Routes.ExhaustiveFindsAll | src/topology.cpp:523-592 | when the search stops on an empty stack it has found exactly all such paths |
| Routes.SeveredIsExact | src/topology.cpp:682-693 | a route reported severed short of the expansion budget has no path at all |
| Routes.EnumerateRoutes | src/topology.cpp:523-592 | the enumeration returns those routes, and all of them when exhaustive |
| Routes.SearchLoop | src/topology.cpp:541-589 | the loop over stack, cursor and on-path set computes the search |
| Routes.Turn | src/topology.cpp:553-588 | one turn of the loop is one step of the search, and the on-path set is the stack's members |
| Topology.ValidateIff | src/topology.cpp:601-695 | a removal passes exactly when it is non-empty, names known resources whose reservations fit their capacity, and every pool, group and route holds without them |
| Topology.ValidateJudges | src/topology.cpp:601-695 | every verdict in declared numbers: pools by unreserved capacity at the headroom ratio in unbounded arithmetic, groups by the number of paths with every hop left, routes by a path through the graph unless the search was cut short |
| Topology.MemberContributes | src/topology.cpp:90-93 | a member contributes capacity minus reserved when it is in service, not excluded and not over-reserved, and nothing otherwise |
| Topology.PoolHoldsIff | src/topology.cpp:640-652 | a pool holds if and only if the unreserved capacity that stays covers the requirement |
| Topology.PathsLeftCounted | src/topology.cpp:654-682 | the diversity count is the number of listed paths with every hop left |
| Topology.RouteHoldsIff | src/topology.cpp:683-694 | a found route connects its ends, and one not found does not exist unless the search was cut short |
| Topology.FirstObjectionDecides | src/topology.cpp:610-626 | the first bad id in order decides which of the two objections is reported |
| Topology.AcceptsIff | src/topology.cpp:314-449 | a declaration is taken if and only if its name is new and the fabric with it is well declared |
| Topology.BuiltIsWellDeclared | src/topology.cpp:314-449 | whatever is declared and reported in whatever order, every bound, name and graph condition holds |
| Topology.SequentialIsJoint | src/topology.cpp:601-695 | validating one more resource with a set already out gives the same commitment verdict as validating them together |
| Topology.SmallerSetPasses | src/topology.cpp:639-680 | for capacity and diversity every smaller set passes when the larger one does |
| Topology.TakenOutHolds | src/topology.cpp:601-695 | after a validated removal every commitment holds |
| Topology.EdgeNeighbors | src/topology.cpp:341-359 | adding an edge adds exactly the two directions and keeps neighbours sorted without repetition |
| Topology.ApplyKeepsGraph | src/topology.cpp:314-449 | every topology call keeps the adjacency symmetric, sorted and over known resources |
| Topology.AvailablePoolCapacity | src/topology.cpp:506-521 | the loop computes the unreserved capacity of the members in service and not excluded, added up and capped at 2^64 - 1 |
| Topology.CheckPools | src/topology.cpp:639-651 | the loop passes exactly when every pool holds |
| Topology.CheckGroups | src/topology.cpp:653-680 | the loop passes exactly when every diversity group holds |
| Topology.CheckRoutes | src/topology.cpp:682-693 | the loop passes exactly when every protected route is found |
| Topology.ValidateRemovalMany | src/topology.cpp:601-695 | the validator returns the first violation in the order it looks: an unknown or over-reserved resource, a pool whose unreserved capacity falls short, a group with too few paths left, a route without a path |
| Crc32c.Compute | src/crc32c.cpp:27-34 | the table-driven loop equals the bit-by-bit reflected CRC-32C, for every input and seed |
| Crc32c.BuildTable | src/crc32c.cpp:8-23 | the nested loops fill the table with eight shifts of each index |
| Crc32c.TableStep | src/crc32c.cpp:27-34 | one table look-up equals feeding eight bits |
| Crc32c.Continues | src/crc32c.cpp:27-34 | continuing from a checksum as seed equals the checksum of the concatenation |
| Crc32c.BurstDetected | src/crc32c.cpp:27-34 | two messages that differ within four consecutive bytes have different checksums |
| Crc32c.SingleByteDetected | src/crc32c.cpp:27-34 | so do two messages that differ in one byte |
| Bytes.LittleRound | src/wire.cpp:11-33 | reading back a written little-endian integer gives it |
| Wire.DecodeEncode | src/wire.cpp:104-165 | decoding an encoded frame gives the frame as received, exactly when type and payload are acceptable |
| Wire.DecodeIff | src/wire.cpp:126-165 | bytes decode to a frame if and only if they are the image of its kind and sequence over a payload within the bound that parses to its own |
| Wire.ImageBytes | src/wire.cpp:104-124 | which byte of an image is which |
| Wire.SingleByteRejected | src/wire.cpp:126-165 | any single-byte change to an accepted image is refused |
| Wire.EncodeFrame | src/wire.cpp:104-124 | the byte-pushing encoder builds the specified image, or refuses an oversized payload |
| FrameStream.FrameStream.TryDecode | src/wire.cpp:193-214 | a decision is reached exactly when the buffer holds one; a frame consumes exactly its bytes; without a decision there is always room left in the buffer |
| FrameStream.FrameStream.ReceiveFrame | src/wire.cpp:178-252 | a frame comes only from the head of the stream and every other outcome loses no byte; a timeout has waited out the budget, a failure follows a broken read, a close follows the peer leaving, an empty read or the end; as long as the reports before any such end cover the bytes still to come, a stream whose head is decidable yields a frame, a protocol error or a timeout |
| FrameStream.FrameStream.TakeArrival | src/wire.cpp:219-250 | one wait on the socket and one read: no byte is lost, the stream ends only for the reasons the socket reports, and never while reported bytes are unread |
| FrameStream.FrameStream.TakeReady | src/wire.cpp:236-250 | one read of what was reported: no byte is lost, it closes exactly when zero bytes were reported or none are left and otherwise takes some, and what was reported and did not fit stays readable |
| FrameStream.FrameStream.Await | src/wire.cpp:215-250 | one turn of the wait loop: it ends for a reason the socket reported or brings the receiver closer to the end of the script, counts its pauses, and never ends while a decidable head is still coming |
| FrameStream.FrameStream.ReceiveNext | src/wire.cpp:178-252 | the next frame is the head of the stream; while the reports cover the bytes to come only a used-up budget holds it back, and a budget that is not zero uses up a pause |
| FrameStream.FrameStream.ReceiveAll | src/wire.cpp:178-252 | any number of calls yields a prefix of the frames sent, in order, with exactly the rest still to come; if the counts reported before any close or failure add up to the bytes sent, in whatever pieces, one wait that is not zero per frame and per pause yields every frame sent |
| FrameStream.FrameStream.Shift | src/wire.cpp:209-210 | consuming bytes shifts the buffer and nothing else |
| FrameStream.HeadOfRest | src/wire.cpp:193-214 | a stream of encoded frames is never malformed and its head is the first frame's image |
| JsonRoundTrip.RoundTrip | src/json.cpp:55-460 | parsing the compact or indented dump of any real-free value succeeds exactly when depth, strings, entries, distinct keys, nodes and size are within the limits, and gives the value back with non-negative integers unsigned |
| JsonLanguage.ParseIff | src/json.cpp:165-460 | a text is accepted as a value if and only if it is a JSON text of it between blanks, and text, depth, strings, entries, distinct keys and nodes are within the limits |
| JsonLanguage.ValueSound | src/json.cpp:165-189 | every value read is shown by the text it was read from, and counts its nodes |
| JsonLanguage.ValueComplete | src/json.cpp:165-189 | every JSON text of a value within the limits is read as it |
| JsonGrammar.StringIff | src/json.cpp:318-383 | a string is read if and only if it is spelled up to a closing quote and not too long, and then as what it spells |
| JsonGrammar.UnicodeSound | src/json.cpp:276-316 | an escape or surrogate pair that is read gives bytes that decode to its code point |
| JsonGrammar.Utf8Iff | src/json.cpp:300-316 | the bytes written for a code point are its UTF-8 sequence, and no others decode to it |
| JsonGrammar.NumberIff | src/json.cpp:385-454 | a number is read if and only if its decimal form stands there, without leading zero and within 64 bits, and nothing continues it |
| JsonRoundTrip.DumpParseDump | src/json.cpp:55-109 | dumping what was parsed from a dump gives the same bytes |
| JsonRoundTrip.ValueParsed | src/json.cpp:162-460 | a text that shows a value in any layout of blanks is read as that value, exactly within the limits |
| JsonRoundTrip.ValuePlaced | src/json.cpp:55-109 | the printer's output shows its value, at every nesting and indentation |
| JsonRoundTrip.MembersFitIff | src/json.cpp:200-244 | members fit exactly when keys are short, pairwise distinct and unseen, and values fit |
| JsonObject.Printer.DumpInto | src/json.cpp:55-109 | the appending printer writes the specified text behind what was there |
| JsonObject.Printer.AppendEscaped | src/json.cpp:15-39 | the escaping loop writes the specified string |
| JsonObject.Parser.Run | src/json.cpp:115-133 | the position-moving parser computes the specified result, failures included |
| JsonObject.Parser.ReadValue | src/json.cpp:162-189 | one value, its end and the node count |
| JsonObject.Parser.ReadMembers | src/json.cpp:200-244 | the member loop |
| JsonObject.Parser.ReadItems | src/json.cpp:246-274 | the item loop |
| JsonObject.Parser.ReadString | src/json.cpp:318-383 | the string loop with its escapes |
| JsonObject.Parser.ReadNumber | src/json.cpp:385-460 | an integer token, or failure |
| Persistence.LoadSave | src/persistence.cpp:158-181 | loading a saved image gives the snapshot, its sequence and incarnation, exactly when the value is within the parser's limits |
| Persistence.LoadIff | src/persistence.cpp:216-281 | bytes load as a snapshot if and only if they are the image of its numbers over a payload within the bound that parses to its value |
| Persistence.DamagedSnapshotRejected | src/persistence.cpp:216-263 | any single-byte change to a loadable image is refused |
| Persistence.BuildEnvelope | src/persistence.cpp:169-181 | the appending writer builds the specified image |
| Boot.StartsOnlyAdvance | src/runtime.cpp:132-205 | over any sequence of starts, crashes and snapshots, each installed line has a strictly larger incarnation and epoch than all before it |
| Boot.EarlierTokensStayDead | src/authority.cpp:221-242 | a token of an earlier start never validates under a later one, whatever its number |
| Boot.LineInstalls | src/runtime.cpp:169-196 | the computed line is always accepted by the registry it meets |
| Boot.MarkerRound | src/runtime.cpp:59-130 | reading a written boot marker gives it back |
| Boot.MarkerIff | src/runtime.cpp:59-110 | a marker is read if and only if prefix, two decimals and their checksum stand on its first four lines |
| Boot.NextLineIff | src/runtime.cpp:140-178 | the next line is one above the highest number seen in boot id, marker and snapshot, and there is none exactly when a number space is used up |
| Boot.TornMarkerRefused | src/runtime.cpp:59-110 | every proper prefix of a marker is refused |
| Boot.ParseDecimal | src/runtime.cpp:24-45 | the accumulator loop reads exactly the 64-bit decimals |
| Boot.Maxima | src/runtime.cpp:136-168 | the running maxima are the maxima of all inputs |
| Boot.Runtime.Begin | src/runtime.cpp:132-205 | a start installs the next line and writes its marker, or refuses and changes nothing |

## Left out

- Decision log, explanations, accounting text, labels, reasons and statistics: text without effect on the protocol; a blocker is its code and the kind of thing it names.
- Truncation of the blocker list to the policy's maximum: blockers are a set.
- The FNV digest of `authoritative_digest`: a step takes a non-zero value in its place.
- Dispatch of pending actions to the evacuation sink and server sessions, sockets, threads and agents: a step reports whether it issued a round; a socket is a scripted byte source.
- Mutexes and atomics: each locked section is one atomic event. `request_drain_set` reads one policy bound before it takes the lock; the model reads it inside.
- Exhaustion of drain, set, exception, revision, obligation and evidence counters: they are unbounded naturals. Fence generations are bounded, and runs stay two below the bound.
- Policy parsing and fingerprint: policy values are parameters.
- Field-by-field reading and writing of domain records: a snapshot is a copy of the state, so the revision that `DrainRecord::from_json` does not restore is kept. The ledger's record-level load is modelled.
- Fence entry timestamps and reasons, and the order inside an obligation's dependency list (a set here).
- Real numbers in JSON: a number token that is not a 64-bit integer makes the model's parser fail.
- File-system calls of `src/persistence.cpp` and `src/runtime.cpp`: only the byte images. `reset_state`, `stop` and `tick` of the runtime.
- `begin_new_epoch` of the engine: the runtime installs lines with `install_authority_line`.
- `remove_resource` of the topology: the engine never calls it.
- Obligation and DrainRecord are values stored in the engine's maps; their in-place field updates are functional updates of those values.
- EngineObject.DrainEngine: keeps the fence, ledger and registry as values updated by the functions that `AdmissionFence`, `EvidenceLedger` and `AuthorityRegistry` are proved equal to, so the engine as an owner of those three objects is not covered.
- The clamp of a route query's budget to `kMaxRoutesPerQuery`: the budget is a parameter, and the search is proved for every budget.
- EngineObject.DrainEngine.ObserveAgain: does not distinguish why a fresh observation was refused, because the caller ignores it.
- EngineObject.DrainEngine.Load: takes the snapshot as a state, so rejection of malformed snapshot text is not covered.
- Boot.Runtime.Begin: covers persistent starts whose snapshot, if there is one, loads; a start without a state file has no marker to advance, and the policy set after the line is installed is not part of it.
- FrameStream.FrameStream.ReceiveFrame: the socket is a script of arrivals, and the end of the script reads as the peer closing.
- JsonObject.Parser.Run: a failure is one value, without the message and position of the error.
