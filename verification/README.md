# RX Platform: proofs about its execution-authority core

RX Platform decides when a command may be sent to a machine, remembers what was sent, and never lets a crash,
a retry or a stale record turn one execution into two. This project models the parts of the repository where
that is decided by code rather than by I/O, and proves what they promise over every input, every run and every
reachable state. `dafny verify dfyconfig.toml` checks all of it.

| module | models |
|---|---|
| `Base`, `Operations` | checked counters; the life of one native operation, as the mutable object the engines hold and as the snapshot they store |
| `Process`, `Planner`, `Predecessors`, `ProcessRuns`, `FrontierRuns` | compiled process trees, the planner, what its answer means and when it has one, and the static predecessor analysis of process review, proved against every run the planner allows |
| `WireBytes`, `Wire`, `WireScalars`, `WireGrammar`, `WireEncoder` | the strict protobuf validator of the C++ client: UTF-8, varints, scalars as values, the schema-directed scanner against a grammar, and an encoder whose output it accepts |
| `Store`, `RunIndex`, `Checkpoints`, `Journal`, `UnitOfWork`, `JournaledStore`, `JournalChanges`, `JournaledRepository` | the transactional store, the live-run index, content-addressed run snapshots, and the control journal that every unit of work extends |
| `Skills`, `SkillSteps`, `SkillHistory`, `SkillResults`, `SkillEngine` | the local simulation skill engine: submit, claim, finish, abandon, restart |
| `Conditions` | bounded three-valued conditions with evidence and expiry |
| `Masking` | the scanner that blanks comments and literals in Rust source text |
| `Requalification` | check coverage and artifact accounting of a requalification report |
| `LoginWindow`, `Sessions` | the sliding login window and the browser session table |

Code that changes state is a class or a method with the loops of the original, proved against a specification
function or predicate; code made of expressions is a function. What the original promises is then proved about
those specifications. Four patterns recur. A *run* (`ProcessRuns.Runs`, `SkillHistory.History`, `Operations.After`)
is any sequence of steps. An *invariant* (`Skills.Consistent`, `UnitOfWork.Healthy`) holds before and after every
call. A *later* relation (`Skills.Later`, `Checkpoints.ArtifactsKept`, `Operations.Evolves`) says what is never taken
back. A *meaning* (`Conditions.Value`, `WireGrammar.Reads`, `Predecessors.Must`) is what a bounded or streaming
algorithm is compared with.

Findings worth knowing:

- `Operation::dispute` is the one change that can keep its revision: repeated on an operation that was seen running
  after its first dispute, it silently resets the knowledge to Unknown (`Operations.RepeatedDisputeIsSilent`).
- A quarantine, a dispute or a different conclusion takes a finished operation back. If a sequence around it has
  moved on, the planner has no frontier for the whole process any more, only a contradiction; this is the only way
  to lose it (`FrontierRuns.FrontierAfterEveryRun`, `FrontierRuns.LateDisputeRun`).
- The live-run index stays right exactly as long as no write takes a live run to another cell
  (`RunIndex.RecordKeepsAgreement`, `RunIndex.MovingARunBreaksTheIndex`).
- The login window reads its instant before it takes the lock. A reading that is overtaken by s shortens the window
  by at most s, and can shorten it by all of s (`LoginWindow.SkewShortensTheWindow`,
  `LoginWindow.OvertakingBreaksTheBound`).

## Model

| member | source | states |
|---|---|---|
| `Operations.CallEvolves` | crates/rx-domain/src/operation.rs:177-292 | one call on a decodable operation leaves it decodable and takes nothing back; a change keeps its revision if and only if it is a repeated dispute of an unsettled operation that is not already being reconciled as unknown |
| `Operations.EveryLifeDecodes` | crates/rx-domain/src/operation.rs:67-120 | between any two moments of one life the phase rank does not fall, a settled outcome and knowledge stay, evidence only grows and a dispute is permanent; at both the operation passes its own decode check |
| `Operations.SettledAsFirstConcluded` | crates/rx-domain/src/operation.rs:233-267 | over any life from admission the operation is settled exactly when a conclusion has succeeded, and with the outcome of the first that did |
| `Operations.DisputedAsCalled` | crates/rx-domain/src/operation.rs:184-262 | it is disputed exactly when a dispute, or a conclusion other than the first, has succeeded |
| `Operations.ReleasedWasHandedOver` | crates/rx-domain/src/operation.rs:268-286 | it is released only if some call handed it over: settled, undisputed, under all three conditions and with evidence |
| `Operations.KnownAsSaidLast` | crates/rx-domain/src/operation.rs:184-232 | while it is not settled, what is known is what the last successful call said: nothing sent, sent, seen running, or lost track of |
| `Operations.SettledKnowledge` | crates/rx-domain/src/operation.rs:258-266 | once it is settled, what is known follows from the outcome, and there is evidence |
| `Operations.HeldUntilReleased` | crates/rx-domain/src/operation.rs:177-286 | quarantine, dispute, loss before settlement, an unresolved first and a differing later conclusion quarantine; apart from a release and new evidence of being unresolved nothing else changes how it is held |
| `Operations.ReleaseNeedsEverything` | crates/rx-domain/src/operation.rs:268-277 | a release succeeds exactly for a settled, undisputed operation, under all three conditions and with evidence |
| `Operations.SentAtMostOnce` | crates/rx-domain/src/operation.rs:197-207 | two positions of one life at which `sent` succeeds are the same position |
| `Operations.RepeatedDisputeIsSilent` | crates/rx-domain/src/operation.rs:184-195 | a concrete life whose next dispute changes the operation without raising the revision |
| `Operations.CleanLifeReleases` | crates/rx-domain/src/operation.rs:268-286 | sent, concluded and handed over under all three conditions ends released, valid and succeeded |
| `Operations.AddAllCollects` | crates/rx-domain/src/operation.rs:287-292 | adding evidence collects exactly the union and never repeats an entry |
| `Operations.Operation.Quarantine` | crates/rx-domain/src/operation.rs:177-183 | the object reaches the specified next state, or fails and is unchanged |
| `Operations.Operation.Dispute` | crates/rx-domain/src/operation.rs:184-195 | the object reaches the specified next state, or fails and is unchanged |
| `Operations.Operation.Sent` | crates/rx-domain/src/operation.rs:197-207 | dispatch is entered only from the untouched admitted state; a refusal changes nothing |
| `Operations.Operation.LoseContinuity` | crates/rx-domain/src/operation.rs:208-217 | an unsettled operation becomes unknown and quarantined; a settled one is untouched |
| `Operations.Operation.ObservedRunning` | crates/rx-domain/src/operation.rs:218-232 | running is recorded with its evidence without ending a reconciliation; a settled operation refuses it unchanged |
| `Operations.Operation.Conclude` | crates/rx-domain/src/operation.rs:233-267 | the first conclusion settles, a known one is idempotent, a different one disputes; a failure changes nothing |
| `Operations.Operation.Release` | crates/rx-domain/src/operation.rs:268-286 | release needs a settled, undisputed operation, all three conditions and evidence; a failure changes nothing |
| `Process.EvaluateFrame` | crates/rx-process-contract/src/frontier.rs:187-327 | the planner's answer depends only on progress recorded for identities inside the tree |
| `Planner.EvaluateAnswers` | crates/rx-process-contract/src/frontier.rs:187-300 | on every progress the planner's answer is read off the nodes the process stands at: what may begin, what is decided or waited for, whose handover is due, what is outstanding, in tree order; and its state: completed, blocked, failed only if nothing is outstanding, ready, or running |
| `Planner.TroubleHoldsBack` | crates/rx-process-contract/src/frontier.rs:249-281 | while a parallel node stands, however deep, at an operation to reconcile, an intervention, an operation that ended badly or a wait that timed out, it offers no operation, decision or wait, and is blocked or has failed |
| `Planner.EverythingNewIsOpen` | crates/rx-process-contract/src/frontier.rs:249-281 | and without such trouble it offers everything new that it stands at |
| `Planner.NothingBeginsBesideTrouble` | crates/rx-process-contract/src/frontier.rs:264-281 | in every run, when an operation starts, a branch is chosen or a wait ends, no parallel node around it stands at such trouble |
| `Planner.RefusesContradictions` | crates/rx-process-contract/src/frontier.rs:226-300 | on any progress whatsoever the planner has no answer exactly when it comes to progress behind an unfinished part of a sequence, on the branch not chosen, or on a branch before the choice |
| `Planner.ProgressIsARecord` | crates/rx-process-contract/src/frontier.rs:302-327 | a part of the tree has moved exactly when something is recorded under a name of it |
| `Predecessors.CheckPredecessors` | crates/rx-application/src/process_review.rs:523-566 | the recursive checker with its local sets computes the analysis `Check`, refusals included |
| `Predecessors.CheckReturnsMust` | crates/rx-application/src/process_review.rs:542-565 | what an accepted tree returns is what was given plus the steps every completed run has finished |
| `Predecessors.CheckMonotone` | crates/rx-application/src/process_review.rs:523-566 | a tree accepted after some steps is accepted after more |
| `Predecessors.AcceptedTreeIsSafe` | crates/rx-application/src/process_review.rs:523-566 | in every progress view of an accepted tree, each operation the planner offers has all predecessors of its step finished, and a completed tree has finished its must-set |
| `ProcessRuns.AcceptedRunsStartInOrder` | crates/rx-application/src/process_review.rs:523-566 | in every run of an accepted tree, over all branch choices and interleavings, an operation starts only after all predecessors of its step |
| `ProcessRuns.CompletedRunsFinishTheSet` | crates/rx-application/src/process_review.rs:542-565 | every completed run has finished at least the returned set |
| `ProcessRuns.AcceptedExactlyWhenNoRunIsEarly` | crates/rx-application/src/process_review.rs:470-475 | with every binding resolvable, a tree is accepted if and only if no run starts an operation too early: each refusal is a real schedule |
| `ProcessRuns.ReturnedSetIsTheIntersection` | crates/rx-application/src/process_review.rs:547-562 | a step is in the returned set if and only if every completed run has finished it |
| `FrontierRuns.FrontierAfterEveryRun` | crates/rx-process-contract/src/frontier.rs:187-300 | after every run whatsoever of a tree with unique identities the planner refuses if and only if an operation that is started but not, or no longer, finished was overtaken by a later part of a sequence around it; the two branch contradictions never occur |
| `FrontierRuns.SteadyRunsKeepAFrontier` | crates/rx-process-contract/src/frontier.rs:187-300 | a run in which no event takes a finished operation back always leaves the planner with an answer |
| `FrontierRuns.TakingBackRefusesExactlyWhenOvertaken` | crates/rx-process-contract/src/frontier.rs:226-240 | the step that takes a finished operation back makes the planner refuse if and only if a later part of a sequence around it has moved |
| `FrontierRuns.CallsThatTakeBack` | crates/rx-process-contract/src/frontier.rs:187-224 | exactly a quarantine, a dispute and a different conclusion take a finished operation back |
| `FrontierRuns.LateDisputeRun` | crates/rx-process-contract/src/frontier.rs:226-240 | a whole run from no progress, ending with a dispute of the first of two operations after the second began, that ends in the refusal |
| `WireBytes.Utf8` | clients/rxclcpp/src/wire.cpp:18-37 | accepts a byte string if and only if it is a concatenation of the UTF-8 characters of section 4 of RFC 3629 |
| `WireBytes.WellFormedIsOctets` | clients/rxclcpp/src/wire.cpp:18-37 | cutting by leading byte finds a decomposition exactly when one exists |
| `WireBytes.ScalarRangeIsTheTable` | clients/rxclcpp/src/wire.cpp:23-35 | shortest form, no surrogates and at most U+10FFFF is exactly the second-byte table of the ABNF |
| `WireBytes.Varint` | clients/rxclcpp/src/wire.cpp:38-48 | reads at most ten bytes, succeeds exactly on a 64-bit varint, never wraps, and never falls out of its loop |
| `WireBytes.VarintExact` | clients/rxclcpp/src/wire.cpp:38-48 | the reader stops after n bytes if and only if those n bytes are a varint |
| `WireBytes.VarintInvertsEncode` | clients/rxclcpp/src/wire.cpp:38-48 | every 64-bit value is read back from its base-128 encoding, whatever follows |
| `WireBytes.VarintIs64Bit` | clients/rxclcpp/src/wire.cpp:43-47 | an accepted varint never denotes more than 64 bits |
| `Wire.ScalarExact` | clients/rxclcpp/src/wire.cpp:68-102 | a scalar read ends after n bytes if and only if those bytes are one allowed scalar of the field's type |
| `WireScalars.ScalarsAreValues` | clients/rxclcpp/src/wire.cpp:58-102 | the scalars of each field kind are exactly the encodings of its values: booleans, unsigned and ZigZag numbers of their width, declared non-zero enumeration values, finite IEEE 754 words, chunks of their length, and UTF-8 texts |
| `WireScalars.KeysOpenFields` | clients/rxclcpp/src/wire.cpp:110-119 | a key opens a field exactly when it is eight times a declared number plus a wire type, and the field is neither a map nor a group |
| `Wire.TakeScalar` | clients/rxclcpp/src/wire.cpp:68-102 | the cursor version stays in bounds and agrees with the specification |
| `Wire.TakePacked` | clients/rxclcpp/src/wire.cpp:121-128 | the packed loop charges one unit per value and agrees with the specification |
| `Wire.ScanMessage` | clients/rxclcpp/src/wire.cpp:103-139 | the scanner with its cursor, sets and budget agrees with the recursive specification on every byte string |
| `WireGrammar.AcceptsExactlyTheGrammar` | clients/rxclcpp/src/wire.cpp:103-139 | the scanner accepts with a given remainder if and only if the bytes have a reading in the grammar that costs exactly the rest of the budget |
| `WireGrammar.MessageAccepted` | clients/rxclcpp/src/wire.cpp:103-139 | the rendering of any well-formed message is accepted when the budget covers its cost, and otherwise refused for resources |
| `WireGrammar.OneReading` | clients/rxclcpp/src/wire.cpp:103-139 | no byte string has two readings |
| `WireGrammar.FitsIsDeclared` | clients/rxclcpp/src/wire.cpp:118-119 | checking fields one after the other against what was seen is the declared rule: singular at most once, each oneof at most once |
| `WireGrammar.Validate` | clients/rxclcpp/src/wire.cpp:141-148 | acceptance is a size of at most 1 MiB and a reading from depth 0 of cost at most 65536; a readable message is refused only for resources |
| `WireEncoder.EncodedMessage` | clients/rxclcpp/src/wire.cpp:103-139 | what an encoder of typed fields writes for a valid message is a message of the grammar |
| `WireEncoder.EncodedMessageIsAccepted` | clients/rxclcpp/src/wire.cpp:103-139 | so the scanner accepts it whenever the budget covers its cost |
| `WireEncoder.ValidateEncoded` | clients/rxclcpp/src/wire.cpp:141-148 | and the validator accepts it if and only if it is within the limits of size and work |
| `Store.ReplayLast` | crates/rx-storage/src/lib.rs:423-461 | replay shows the last event of a key |
| `Store.WritesCountUp` | crates/rx-storage/src/lib.rs:505-569 | a write succeeds exactly against the revision that is there, or none, and stores the next one, starting at 1 |
| `Store.Transaction.Put` | crates/rx-storage/src/lib.rs:505-569 | a write happens only against the expected revision and raises it by one |
| `Store.Transaction.Scan` | crates/rx-storage/src/lib.rs:462-484 | exactly the rows of a family in key order |
| `RunIndex.RecordRun` | crates/rx-application/src/run_index.rs:31-57 | the index write after a run write, in place |
| `RunIndex.IndexListsUnfinishedRuns` | crates/rx-application/src/run_index.rs:26-57 | an agreeing index lists exactly the runs of the cell that are prepared, executing, paused or in need of recovery |
| `RunIndex.RecordKeepsAgreement` | crates/rx-application/src/run_index.rs:31-57 | after a run is written and recorded the index agrees if and only if the write did not take a live run out of its cell; only an exhausted revision can make the recording fail |
| `RunIndex.MovingARunBreaksTheIndex` | crates/rx-application/src/run_index.rs:31-57 | a concrete move of a live run to another cell after which the index is wrong |
| `RunIndex.LiveRuns` | crates/rx-application/src/run_index.rs:60-86 | under agreement no integrity error occurs and the answer is the scan of runs filtered to the live runs of the cell, in key order |
| `RunIndex.Wanted` | crates/rx-application/src/run_index.rs:88-97 | exactly the cells with live runs, each with all of them |
| `RunIndex.Stored` | crates/rx-application/src/run_index.rs:98-108 | succeeds exactly on decodable rows under their own keys |
| `RunIndex.Verify` | crates/rx-application/src/run_index.rs:111-124 | succeeds if and only if the runs decode and the index agrees with them |
| `RunIndex.Rebuild` | crates/rx-application/src/run_index.rs:128-147 | succeeds on every index that decodes and has room, establishes agreement, writes no row twice and touches nothing but index rows |
| `Checkpoints.ReadArtifact` | crates/rx-application/src/checkpoint_artifact.rs:94-128 | returns exactly the canonical bytes stored under the reference for that run, with the digest and size it names |
| `Checkpoints.ReadableExactly` | crates/rx-application/src/checkpoint_artifact.rs:94-128 | a reference is readable for a run exactly when the run owns it, it names a stored state, and the state is one of that run |
| `Checkpoints.ValidateSnapshot` | crates/rx-application/src/checkpoint_artifact.rs:131-156 | decides whether view, run and content are of one cut |
| `Checkpoints.ValidStaysValid` | crates/rx-application/src/checkpoint_artifact.rs:55-156 | a valid snapshot stays valid, and reads the same, in every state that keeps the stored artifacts |
| `Checkpoints.SubstitutedContentIsRefused` | crates/rx-application/src/checkpoint_artifact.rs:145-154 | a view paired with content of another revision, run or activation list is never valid |
| `Checkpoints.PayloadNamesItsView` | crates/rx-application/src/checkpoint_artifact.rs:131-156 | two valid snapshots with one payload are equal |
| `Checkpoints.SnapshotActivation` | crates/rx-application/src/checkpoint_artifact.rs:158-192 | succeeds exactly when every slot matches the work it names, and lists all of them |
| `Checkpoints.CollectActivations` | crates/rx-application/src/checkpoint_artifact.rs:15-23 | succeeds if and only if every activation row decodes and the slots of this run match their works; the result is in order and one to one with the rows of the run |
| `Checkpoints.CollectCheckpoints` | crates/rx-application/src/checkpoint_artifact.rs:24-31 | succeeds if and only if every checkpoint row decodes; the result is by visit and one to one with the rows of the run |
| `Checkpoints.StoreState` | crates/rx-application/src/checkpoint_artifact.rs:56-92 | stores content once under its digest, keeps every earlier artifact, and the result reads back |
| `Checkpoints.CaptureRun` | crates/rx-application/src/checkpoint_artifact.rs:13-54 | on sound artifacts it succeeds if and only if the run and what it reads decode and match and the current row has a revision left; the snapshot validates, holds the activations and process checkpoints of the run one to one, becomes current, and disturbs no other run |
| `Journal.SeededFamiliesAreTheControlFamilies` | crates/rx-application/src/control_journal.rs:139-153 | the seeding list is exactly the key families that can hold control entities |
| `Journal.FamiliesOfKinds` | crates/rx-application/src/control_journal.rs:78-97 | each kind of control entity has just its key families |
| `Journal.SchemasOfKinds` | crates/rx-application/src/control_journal.rs:59-77 | and just its schemas |
| `Journal.AdmissionsAreDistinct` | crates/rx-application/src/control_journal.rs:273-304 | no two journalled admissions name the same operation |
| `Journal.CommitAgrees` | crates/rx-application/src/control_journal.rs:230-272 | journalling the changed entities makes replay equal to the current control entities again, from a kept journal, from a seed, or from a log older than run snapshots |
| `UnitOfWork.Tracking.Put` | crates/rx-application/src/control_journal.rs:310-339 | refuses what does not fit its key family or does not decode; otherwise it is the plain write, noted and followed by the index, which stays right exactly when no live run leaves its cell; it succeeds whenever the write applies and the index decodes with room |
| `UnitOfWork.Tracking.Preserve` | crates/rx-application/src/engine/checkpoint_change.rs:122-123 | storing an executor state inside a unit of work always succeeds, reads back, and touches nothing the journal or the index knows |
| `UnitOfWork.Tracking.Reindex` | crates/rx-application/src/engine/mod.rs:164-164 | rebuilding the index inside a unit of work makes it agree, from any index that decodes, and touches nothing the journal knows |
| `UnitOfWork.Tracking.JournalOne` | crates/rx-application/src/control_journal.rs:231-305 | succeeds if and only if the record can be journalled: works decode, a new work is admissible, a run can be captured; then one event per control entity, a run by its snapshot, a receipt exactly for an admission |
| `UnitOfWork.Tracking.RecordAdmission` | crates/rx-application/src/control_journal.rs:273-304 | a receipt is given if and only if the work is in its admitted first revision, the installation is set up and its operation has none yet; it names the installed journal, the sequence, the intent and the operation |
| `UnitOfWork.Tracking.Finish` | crates/rx-application/src/control_journal.rs:230-307 | succeeds if and only if every changed record can be journalled and no operation is admitted twice; receipts and admissions stay one to one, every journalled snapshot validates, each event's receipt or current snapshot goes with it, and all other receipts and current snapshots are as they were |
| `UnitOfWork.ReceiptKeeps` | crates/rx-application/src/control_journal.rs:273-304 | an admission and its receipt, naming each other by sequence and operation, extend the one-to-one correspondence |
| `UnitOfWork.SnapshotsStay` | crates/rx-application/src/control_journal.rs:259-263 | every run snapshot ever journalled still validates after later events |
| `JournaledStore.Committed` | crates/rx-application/src/control_journal.rs:128-184 | a unit of work leaves one event for each control entity that is due and none for any other, with its final record and change kind, and replay agrees, also for the first unit that seeds older records |
| `JournalChanges.ChangesAreTold` | crates/rx-application/src/control_journal.rs:230-272 | each new event of each committed unit tells its change: a work whose integrity differs from the old row's is disputed, else evidenced if the unit wrote native evidence for its operation, else received if it appended a host receipt; otherwise a seed if the unit seeds and no command wrote it, changed if it was there before, created if not; and it names exactly the evidence written |
| `JournaledStore.AdmissionsOfAUnit` | crates/rx-application/src/control_journal.rs:236-275 | the admissions of a unit of work are exactly the works it wrote that did not exist before and came with neither evidence nor host receipt |
| `JournaledStore.CurrentFollows` | crates/rx-application/src/control_journal.rs:259-272 | after a unit of work, the first of an older store included, the current snapshot row of every run holds what the last event of that run logged |
| `JournaledStore.CurrentSnapshotIsOfTheRun` | crates/rx-application/src/checkpoint_artifact.rs:13-54 | in every repository past its first unit of work the current snapshot of a run names the very record and revision of its run row, validates, and its stored state reads back as one of the same record |
| `JournaledStore.UnfitAdmissionRefusesTheUnit` | crates/rx-application/src/control_journal.rs:273-304 | a new work left in any but its admitted first revision, without an installation, or for an operation that has its receipt, refuses the unit of work |
| `JournaledStore.Execute` | crates/rx-application/src/control_journal.rs:164-164 | with an index that decodes and has room the callback succeeds if and only if every command fits and every write applies; its effect is that of the plain writes, and the bookkeeping holds exactly the touched keys with their first records, the host receipts and the evidence |
| `JournaledStore.Perform` | crates/rx-application/src/control_journal.rs:128-184 | one whole transaction on its private copy: the same promises as a committed unit of work |
| `JournaledRepository.Journaled.Transact` | crates/rx-application/src/control_journal.rs:123-186 | commits if and only if the commands apply and what they leave can be journalled; then the rows are those of the plain writes, the log grew by exactly one event per due control entity, each telling how it changed and on what evidence, replay gives the control entities, receipts are never rewritten and new ones name the installed journal, every snapshot ever journalled is intact, the current snapshot of each run is that of its last event, and an index that agreed, or was rebuilt, is right unless a command took a live run out of its cell since; a refusal changes nothing |
| `JournaledRepository.Journaled.Boot` | crates/rx-application/src/engine/mod.rs:107-186 | the first unit after a start, on a store of any age and with any index that decodes, ends with the log replaying to the rows, and with the index agreeing unless a command after the rebuild takes a live run out of its cell |
| `SkillSteps.StepKeeps` | crates/rx-application/src/software_skill.rs:221-445 | every step of every call keeps the store consistent and takes back no skill, receipt, settled run or event |
| `SkillHistory.HistoryKeeps` | crates/rx-application/src/software_skill.rs:221-445 | so does every history of calls, in any order, with repeats and restarts |
| `SkillHistory.NeverHandedOutTwice` | crates/rx-application/src/software_skill.rs:325-357 | over every history no run is handed to a worker twice |
| `SkillHistory.OneAtATime` | crates/rx-application/src/software_skill.rs:330-338 | when a run is handed out, every run handed out earlier has settled |
| `SkillHistory.HandedOutInOrder` | crates/rx-application/src/software_skill.rs:329-342 | a run is handed out at its turn: not started, none waiting was submitted before it, and the smallest identity among equals |
| `SkillHistory.LogShowsHandedOut` | crates/rx-application/src/software_skill.rs:198-217 | the starts in the log are exactly the runs handed out, with multiplicity |
| `SkillHistory.OpenTwice` | crates/rx-application/src/software_skill.rs:241-265 | opening leaves no run in flight, and opening again changes nothing |
| `SkillHistory.SettlementIsFinal` | crates/rx-application/src/software_skill.rs:358-428 | a settled run never changes and never gains or loses a receipt |
| `SkillHistory.ReceiptMeansSettled` | crates/rx-application/src/software_skill.rs:367-374 | a receipt exists only for a run settled with that very result |
| `SkillHistory.RepeatedReport` | crates/rx-application/src/software_skill.rs:364-379 | repeating a recorded result returns the same run, any other result is refused, and neither changes the store |
| `SkillHistory.GivingUpSettles` | crates/rx-application/src/software_skill.rs:241-265 | opening, or abandoning its worker, settles the run in flight as unresolved and without a receipt |
| `SkillHistory.LateReportIsRefused` | crates/rx-application/src/software_skill.rs:375-379 | once a restart or an abandonment in the history has given a run up, every later result for it is refused and changes nothing |
| `SkillHistory.UnreceiptedStaysClosed` | crates/rx-application/src/software_skill.rs:375-379 | a run that is settled without a receipt is out of reach of every later result |
| `SkillHistory.RepeatedSubmit` | crates/rx-application/src/software_skill.rs:162-168 | repeating a request returns its own run, a different request under its identity conflicts, and neither changes the store |
| `SkillResults.EveryRunIsTold` | crates/rx-application/src/software_skill.rs:358-428 | in every reachable store each run's input has exactly the fields its skill declares, each of its kind; a success has such an output and no error, any other end a non-empty error and no output, an unfinished run neither |
| `SkillResults.FirstResultIsRecordedWhenAcceptable` | crates/rx-application/src/software_skill.rs:380-428 | the owner's first result is recorded exactly when it is within the limits and of that form, and the run ends with its outcome, output and error |
| `SkillResults.NewRequestIsAdmittedWhenFit` | crates/rx-application/src/software_skill.rs:169-197 | a request under a new identity is admitted exactly when its skill is registered, its input is of the declared form and there is room |
| `SkillResults.NewPackageIsTakenWhenFit` | crates/rx-application/src/software_skill.rs:266-296 | a package new in name and version is registered exactly when it is well-formed and there is room |
| `SkillResults.EverySkillIsAPackage` | crates/rx-application/src/software_skill.rs:266-296 | in every reachable store each skill is a well-formed package under its own name and version |
| `SkillResults.VersionsAreThreeNumbers` | crates/rx-application/src/software_skill.rs:98-104 | a version is three numbers with dots between them |
| `SkillResults.ShapeIsDeclared` | crates/rx-application/src/software_skill.rs:113-141 | the shape check takes exactly the objects with the declared fields, each of its kind, of at most 64 KiB |
| `SkillEngine.ClaimNeverFails` | crates/rx-application/src/software_skill.rs:343-351 | the skill of a queued run is always there with the run's digest: both errors are unreachable |
| `SkillEngine.Engine.Open` | crates/rx-application/src/software_skill.rs:241-265 | only a marked or pristine store is opened; the run in flight becomes unresolved on new evidence and nothing else changes |
| `SkillEngine.Engine.Register` | crates/rx-application/src/software_skill.rs:266-296 | a package is registered once per name and version within the limits; the same package is idempotent, another conflicts |
| `SkillEngine.Engine.Submit` | crates/rx-application/src/software_skill.rs:156-217 | a fitting request is queued at revision 1 in the admitted state; every refusal leaves the store as it was |
| `SkillEngine.Engine.Claim` | crates/rx-application/src/software_skill.rs:325-357 | hands out the earliest submitted queued run, the smaller key first among equals, and only while nothing executes; it never refuses |
| `SkillEngine.Engine.Finish` | crates/rx-application/src/software_skill.rs:358-428 | the owner's first acceptable result, and no other, is recorded with receipt, evidence and settled operation in one step; every other call changes nothing |
| `SkillEngine.Engine.AbandonWorker` | crates/rx-application/src/software_skill.rs:429-445 | exactly the run the worker was executing becomes unresolved, and the count says so |
| `Conditions.EvaluatesExactlyWithinLimits` | crates/rx-domain/src/condition.rs:75-90 | evaluation succeeds if and only if there are at most 1024 nodes, a height of at most 32, no empty group and no reversed range, and then gives the unbounded meaning |
| `Conditions.VerdictIsMeaning` | crates/rx-domain/src/condition.rs:75-233 | through any nesting a condition passes exactly when the facts bear it out and fails exactly when they speak against it: a fact counts only if it is good, bounded, undisputed, of the current generation, in schema and units, and with its uncertainty young enough on a shared clock; equality and difference are of one kind, a range includes its ends |
| `Conditions.EvaluatedVerdictIsMeaning` | crates/rx-domain/src/condition.rs:75-141 | the same for the bounded evaluator |
| `Conditions.LeafEvidenceAndExpiry` | crates/rx-domain/src/condition.rs:182-233 | a leaf names its fact's evidence, and its pass lasts until the fact is as old as it may be, if 64 bits hold that instant |
| `Conditions.SilentFactsDecideNothing` | crates/rx-domain/src/condition.rs:199-207 | a fact that is disputed, poor, unbounded, of another generation or too old decides nothing |
| `Conditions.RefusalIsStructural` | crates/rx-application/src/device_binding.rs:279-290 | a refusal and its kind are the same in every context, so an empty context finds all structural faults |
| `Conditions.PassLastsUntilExpiry` | crates/rx-domain/src/condition.rs:109-129 | a pass with an expiry stays a pass, with no earlier expiry, at every later time up to it, through any nesting |
| `Conditions.PassEndsAfterExpiry` | crates/rx-domain/src/condition.rs:182-233 | on facts from the past whose life fits 64 bits every pass has an expiry, nothing passes after it, and nothing starts to pass by waiting |
| `Conditions.InformationIsMonotone` | crates/rx-domain/src/condition.rs:92-108 | more facts at the same instant never flip a pass or a fail |
| `Conditions.EvidenceSuffices` | crates/rx-domain/src/condition.rs:109-135 | the facts named as evidence alone give the same pass or fail |
| `Conditions.GroupEvidence` | crates/rx-domain/src/condition.rs:130-135 | a group names exactly the evidence of its supporting results, in order and once each |
| `Conditions.AnyPasses` | crates/rx-domain/src/condition.rs:97-129 | an any-group passes when a child does and lasts as long as its longest passing child |
| `Conditions.AllPasses` | crates/rx-domain/src/condition.rs:97-129 | an all-group passes when all children do and lasts as long as its shortest child |
| `Conditions.EvaluatedPassLasts` | crates/rx-domain/src/condition.rs:75-141 | the same expiry promise for the bounded evaluator |
| `Conditions.EvaluatedEvidenceSuffices` | crates/rx-domain/src/condition.rs:75-141 | the same evidence promise for the bounded evaluator |
| `Masking.RustCode` | tools/check_invariant_traceability.py:34-75 | the scanner over a list of characters: equal length and line breaks, each character kept or blanked, nothing left that would open a comment or literal, and a second pass changes nothing |
| `Masking.MaskingIsFaithfulAndIdempotent` | tools/check_invariant_traceability.py:34-75 | the same of the specification, for every text that masks |
| `Masking.MaskedIsClean` | tools/check_invariant_traceability.py:69-74 | blanking never makes a kept character open a comment or a character literal |
| `Masking.BalancedCommentsAreOneToken` | tools/check_invariant_traceability.py:45-57 | a block comment is blanked as a whole, and nothing after it, if and only if its inside is balanced, to any depth and wherever it stands |
| `Masking.LineCommentsAreOneToken` | tools/check_invariant_traceability.py:42-44 | a line comment is one token exactly when it reaches up to the next line break or to the end of the text |
| `Masking.StringsAreOneToken` | tools/check_invariant_traceability.py:63-68 | a string literal is blanked as a whole, and nothing after it, if and only if its inside is plain characters and backslashes each with the character it hides |
| `Masking.RawStringsAreOneToken` | tools/check_invariant_traceability.py:58-62 | a raw string with any number of hashes is one token if and only if its inside does not hold its closing quote and hashes |
| `Masking.SkipToken` | tools/check_invariant_traceability.py:41-73 | the cursor loops find the end of the token, or the fault, that the specification gives |
| `Requalification.CheckCoverage` | crates/rx-application/src/requalification.rs:433-467 | succeeds if and only if the checks answer the required pairs once each in the required shape; ready if and only if all pass |
| `Requalification.CountingCovers` | crates/rx-application/src/requalification.rs:444-467 | comparing two counts decides coverage |
| `Requalification.ExpectedIsRequired` | crates/rx-application/src/requalification.rs:433-443 | a check is expected exactly when a criterion of a cell asks for it |
| `Requalification.ExpectedIsLastAsked` | crates/rx-application/src/requalification.rs:433-443 | the schema expected of a check is the evidence schema of the last criterion of that cell and identity |
| `Requalification.AcceptedEvidence` | crates/rx-application/src/requalification.rs:446-463 | in an accepted report each check was asked for, has a note within bounds, and if it was run has evidence, all of it of the evidence schema of the last criterion that asks for it |
| `Requalification.AcceptedArtifacts` | crates/rx-application/src/requalification.rs:468-490 | in an accepted report each reference points to bytes that are there, of the named size within the bound and with the named digest |
| `Requalification.ReferencesAreAll` | crates/rx-application/src/requalification.rs:314-323 | the collected references are everything profiles and checks point to |
| `Requalification.CheckArtifacts` | crates/rx-application/src/requalification.rs:468-490 | succeeds if and only if exactly the referenced blobs are present, each whole and bounded, and together within the total counted once each |
| `Requalification.CheckReport` | crates/rx-application/src/requalification.rs:433-497 | both together, with the readiness of the report |
| `LoginWindow.Auth.Attempt` | crates/rx-api/src/auth.rs:107-122 | the popping loop prunes, admits or refuses as specified |
| `LoginWindow.QueueCountsHistory` | crates/rx-api/src/auth.rs:107-122 | in lock order the pruned queue admits exactly when fewer than 30 earlier admitted attempts are less than 60 seconds old |
| `LoginWindow.SkewShortensTheWindow` | crates/rx-api/src/auth.rs:107-122 | in whatever order calls take the lock: if no reading is more than s behind an earlier one, any 31 consecutive admitted attempts span at least 60 seconds less s |
| `LoginWindow.ThirtyOneSpanTheWindow` | crates/rx-api/src/auth.rs:107-122 | in lock order any 31 consecutive admitted attempts span at least 60 seconds |
| `LoginWindow.OvertakingBreaksTheBound` | crates/rx-api/src/auth.rs:108-121 | the bound is tight: for every skew up to the window a history with just that skew admits 31 attempts in 60 seconds less the skew |
| `Sessions.SessionTable.Insert` | crates/rx-api/src/auth.rs:146-166 | a session opens exactly when fewer than the limit are live in the full history, pruned or not |
| `Sessions.SessionTable.Resolve` | crates/rx-api/src/auth.rs:167-179 | a token stands for its identity exactly while its session was opened, not removed and not expired |
| `Sessions.SessionTable.Remove` | crates/rx-api/src/auth.rs:180-188 | a removed session is gone and no other is affected |
| `Sessions.SessionsLastAnHour` | crates/rx-api/src/auth.rs:146-179 | a token stands for its identity for an hour from its opening, and not from then on |

## Left out

- JournaledRepository.Journaled.Transact: when the run index does not decode, or a revision is within the length of the unit of its last value, a commit is only said to imply its conditions, not to follow from them; the store's own failures are not part of this model.
- JournaledStore.Execute: a callback is a sequence of writes, audit events, stored executor states and index rebuilds; callers stop at their first error, keep control schemas under their own key family, write index, snapshot, receipt and marker rows in no other way, and keep a run under its own key. What they read is not recorded.
- UnitOfWork.Tracking.Finish: journals the changed records in any order; the source takes them in key order.
- ProcessRuns.AcceptedRunsStartInOrder: a run starts an operation where the planner offers it (crates/rx-application/src/engine/process.rs:92-108); the engine's own gate on predecessors, leases and permits can only forbid more.
- Stores that the skill engine has not written itself, starting from an empty one, and rows that do not decode; its calls are modelled on consistent stores.
- RunIndex.LiveRuns: sorts keys and reads rows in one insertion loop; the answer, not the number of reads, is modelled.
- SkillEngine.Engine.Submit: runs have no parent process, so the run limit counts all runs and reserved child identities do not exist.
- SkillEngine.Engine.Claim: the sort by submission time is modelled by the entry it puts first, and advancing parent processes before a claim is not part of this model.
- SkillEngine.Engine.Open: the event identities other than evidence, and the installation identity, are not kept.
- Process composition of skills, its child runs, blocking issues and metrics (crates/rx-application/src/software_skill/process.rs).
- Process.EvaluateFrame: the planner's texts for people are not modelled.
- Conditions.PassLastsUntilExpiry: real-valued facts are real numbers; the conditions only compare them.
- Requalification.CheckReport: signatures, policy and request digests are compared before this part and not modelled.
- Masking.RustCode: characters are Dafny characters; decoding the file is not modelled.
- Store.Transaction.Scan: the order of keys is an arbitrary injective order, given as a parameter.
- Digests and canonical encodings are injective constructors; a canonical length is some function of the content.
- Names are compared only; their own syntax checks, except those of skills, are left to the types.
- Bit masks and shifts of the wire validator are written as arithmetic; descriptors are tables whose message types refer to each other.
- Protobuf decoding after validation, and re-encoding, which the client documents as not byte-exact.
- Password hashing, token generation and the worker limit of the login path.
- HTTP routes, gRPC and TLS clients, the operator interface, host dispatch, recovery and readmission engines, and requalification activation: plumbing around, or users of, the parts above.
