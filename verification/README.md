# Verified models of OpenSquilla's durable state

This project models the parts of OpenSquilla whose correctness spans several files or several
runs, and proves what they keep. `dafny verify dfyconfig.toml` checks everything.

| files | what they model |
|---|---|
| `MetaSchema`, `MetaRebuild`, `MetaMigrations`, `MetaSteps`, `MetaChain`, `MetaRuns`, `MetaCrash`, `MetaHazards`, `MetaValues` | the meta-skill ledger and its rebuild chain V010 to V016: SQLite tables with CHECK sets, a cascading reference and a partial unique index; each step as a function and as a sequence of statements on a connection with a foreign-key flag; histories of steps, re-runs, rollbacks and runtime writes |
| `Retirement`, `RetirementLaws`, `RetirementRows` | V041, which retires HTML editing sessions with ordered bulk updates over change sets, attempts, sessions and leases |
| `UsageLedger`, `UsageStore`, `UsageLaws`, `UsageRows` | the usage ledger of V021, V024, V049 and V050: a cascade tree, and an accounting revision that triggers keep |
| `Utf16`, `Sorting`, `BackfillEvents`, `BackfillTranscript`, `BackfillStore`, `BackfillRaw`, `TranscriptRaw`, `StoreRaw` | the fail-closed activity backfill: evidence, transcript references, and the guarded write |
| `Common` | `Option`, `Max` and `Min` |
| `Relay`, `Listing`, `Resume`, `ResumeProgress`, `ResumeGroups`, `ResumeDurable` | the acceptance runner: the bounded request counter, the paging loop, and the crash and resume protocol |

Conventions. A statement that raises is `None`, an `Err` or a `Refusal`. Clocks, fresh
identifiers, hashes and the answers of other processes are parameters. Class methods run the
source's statements and loops in their order and are proved equal to a function of the state
before; the theorems are about those functions. `MetaValues`, `RetirementRows`, `UsageRows`, the
three `Raw` files, `ResumeGroups` and `ResumeDurable` say what those functions do to single rows,
keys and requests without speaking of the functions they are built from.

Results that differ from what one would expect of the code:

- `MetaHazards.RefusedRollbackLosesTheGuard`: the rollback of V013 drops the unique awaiting
  index before it looks for rows that forbid the rollback. In a transaction the refusal undoes
  that; outside one, the guard is gone while the schema is still V013, and a second parked run
  of a session is accepted. So "a refused rollback changes nothing" is false in general;
  `MetaRuns.RollBack` proves when it holds: in a transaction, or for V014 and V016, or with
  enforcement on for any step but V013, and in no other case.
- `MetaCrash.RetryRepairsIff`: outside a transaction, a crash inside a rebuild is repaired by running
  the step again only if no statement had run yet or all had. After CREATE or INSERT the scratch table
  blocks every attempt; after DROP the step and all later ones on that table report success while the
  rows stay under the scratch name; after RENAME the indexes not built yet are never built, for V013
  the unique awaiting index among them.
- `RetirementLaws.CommitNeedsUniqueTurn`: V041 files a verified commit under the first change
  set of the turn. Without V037's unique index that can be another one, against V039's CHECK;
  `CommitPassesCheckIff` gives the exact condition.
- `UsageLaws.RollbackLosesNoRow`, `UsageStore.Store.RollBackBoth`: rolling back V050 and then V049
  changes nothing exactly when an attribution row exists. With a metering or settlement row but no
  attribution row, V050 is gone when V049 refuses; no row is lost. The rollback of V049 discards
  price snapshots without asking, and no remaining row refers to one.
- `UsageLaws.TwoLivesCollide`: equal revisions mean equal rows within one life of the counter only.
  Rolling V049 back, writing any row and applying V049 again brings the first life's revision back.
- `BackfillStore.SpellingCanChange`: the guard compares as Python does, so without `--replace` a
  stored 2.0 can be overwritten by 2; nothing else of a stored snapshot can change.
- `BackfillStore.Database.Backfill`: a failure after the commit leaves the write in place, so
  "it failed" does not always mean "nothing changed"; `Unconfirmed` marks these outcomes. It
  happens exactly when the transaction went through and the rows the readback sees do not hold a
  snapshot of the requested digest; `LosesRace` is a run that ends so.
- `Listing.ListedArtifacts`: the test for a repeated first id is never what stops the loop; the
  duplicate test fires before it.

## Model

| member | source | states |
|---|---|---|
| `MetaRebuild.CopyFitsIff` | migrations/V013__meta_skill_runs_clarify.py:89-112 | a copy by column name is accepted by the new table exactly when no row holds a value its CHECK sets forbid |
| `MetaMigrations.RecipeIsInPlace` | migrations/V011__meta_skill_runs_triggered_by_auto.py:147-177 | build under a scratch name, copy, drop, rename is the same as changing the table's schema in place, references included |
| `MetaMigrations.Connection.PragmaForeignKeys` | migrations/V011__meta_skill_runs_triggered_by_auto.py:147-177 | the pragma sets the flag outside a transaction and does nothing inside one |
| `MetaMigrations.Connection.CreateAll` | migrations/V013__meta_skill_runs_clarify.py:179-203 | the index loop creates all indexes or reports the first that cannot be built |
| `MetaMigrations.Connection.SwapTable` | migrations/V016__meta_skill_runs_triggered_by_manual_command.py:167-191 | the four statements of a rebuild succeed exactly when the copy fits, and then equal the in-place change; no step row is lost either way |
| `MetaMigrations.Connection.RebuildStatements` | migrations/V014__meta_skill_run_steps_allow_user_input.py:130-158 | the whole try block equals the rebuild's meaning, and keeps every step row even when it stops half way |
| `MetaMigrations.Connection.Recreate` | migrations/V012__meta_skill_run_steps_allow_llm_chat.py:104-130 | live enforcement refuses without a change; otherwise the rebuild runs and the flag ends on, unless in a transaction |
| `MetaMigrations.Connection.ApplyV010` | migrations/V010__meta_skill_runs.py:97-104 | creates both tables and all indexes, or does nothing when the runs table exists |
| `MetaMigrations.Connection.RollbackV010` | migrations/V010__meta_skill_runs.py:107-110 | drops child and parent table if they exist |
| `MetaMigrations.Connection.ApplyRebuild` | migrations/V016__meta_skill_runs_triggered_by_manual_command.py:194-203 | guard, then rebuild: equals the step's meaning, and states the flag it leaves |
| `MetaMigrations.Connection.ApplyV015` | migrations/V015__meta_skill_step_usage.py:92-100 | adds usage_json with its default once |
| `MetaMigrations.Connection.RollbackRebuild` | migrations/V013__meta_skill_runs_clarify.py:206-240 | equals the rollback's meaning, and states what a refusal leaves behind: for V013 without its unique index, after a failed copy with an empty scratch table |
| `MetaMigrations.Connection.RunStep` | migrations/V011__meta_skill_runs_triggered_by_auto.py:122-200 | any step in either direction: success, the state after a refusal in and outside a transaction, the flag, and the step rows |
| `MetaMigrations.Connection.RunChain` | migrations/V011__meta_skill_runs_triggered_by_auto.py:10-24 | any sequence of steps in any order and mode loses no step row |
| `MetaSteps.RebuildIff` | migrations/V012__meta_skill_run_steps_allow_llm_chat.py:104-130 | a faithful rebuild of a consistent database succeeds exactly when no row holds a forbidden value, and is consistent again |
| `MetaSteps.AwaitingUniqueAfterCopy` | migrations/V016__meta_skill_runs_triggered_by_manual_command.py:64-76 | the unique awaiting index can be rebuilt after the copy |
| `MetaSteps.PlansFaithful` | migrations/V014__meta_skill_run_steps_allow_user_input.py:35-49 | every rebuild of the chain, both directions, moves columns by name, `SELECT *` included |
| `MetaChain.RebuildAtVersion` | migrations/V013__meta_skill_runs_clarify.py:179-203 | the closed form of a rebuild at its version: outcome and version reached, or refusal |
| `MetaChain.BackwardForbidsIff` | migrations/V014__meta_skill_run_steps_allow_user_input.py:174-184 | the older CHECK sets forbid a row exactly when it holds a word the step introduced |
| `MetaRuns.GuardIff` | migrations/V013__meta_skill_runs_clarify.py:167-178 | the re-run guards recognise exactly the steps already applied |
| `MetaRuns.RerunIsInvisible` | migrations/V011__meta_skill_runs_triggered_by_auto.py:180-191 | re-running an applied step changes nothing, whatever the flag |
| `MetaRuns.EnforcementRefuses` | migrations/V011__meta_skill_runs_triggered_by_auto.py:122-144 | with enforcement on, every rebuild that is due refuses |
| `MetaRuns.EnforcementRefusesRollback` | migrations/V016__meta_skill_runs_triggered_by_manual_command.py:134-156 | with enforcement on, every rebuild rollback refuses |
| `MetaRuns.ForwardSucceeds` | migrations/V013__meta_skill_runs_clarify.py:179-203 | every in-order forward step succeeds on every consistent database and keeps every row and value |
| `MetaRuns.RollbackIff` | migrations/V016__meta_skill_runs_triggered_by_manual_command.py:206-216 | an in-order rollback after arbitrary writes succeeds exactly when no row holds a value the step introduced |
| `MetaRuns.RefusalIsFreeIff` | migrations/V013__meta_skill_runs_clarify.py:206-228 | what a refused rollback leaves behind without a transaction equals the state before exactly for V014 and V016, or with enforcement on and not V013 |
| `MetaRuns.RollBack` | migrations/V012__meta_skill_run_steps_allow_llm_chat.py:104-148 | one in-order rollback on a connection: succeeds exactly when enforcement is off and no row holds a newer value, and a refusal is free of effects exactly under the stated condition |
| `MetaRuns.RollbackUndoes` | migrations/V015__meta_skill_step_usage.py:92-137 | a rollback right after its step restores schema, indexes and rows, for every step from V010 on |
| `MetaRuns.V010Undone` | migrations/V010__meta_skill_runs.py:107-110 | the rollback of V010 leaves the empty database, whatever rows there were |
| `MetaRuns.HistoryKeepsVersion` | migrations/V010__meta_skill_runs.py:29-85 | every state reachable by steps, re-runs, rollbacks and writes satisfies all constraints of its version |
| `MetaRuns.OneAwaitingRunPerSession` | migrations/V016__meta_skill_runs_triggered_by_manual_command.py:64-76 | in every reachable state a session has at most one run awaiting the user |
| `MetaRuns.RerunsAreInvisible` | migrations/V013__meta_skill_runs_clarify.py:167-203 | a history with re-runs anywhere equals the history with each step applied once |
| `MetaRuns.UpgradeKeepsEverything` | migrations/V015__meta_skill_step_usage.py:92-100 | forward steps and re-runs lose or reset no value of any row |
| `MetaRuns.UpgradeInTransaction` | migrations/V011__meta_skill_runs_triggered_by_auto.py:147-177 | in a transaction with enforcement off, the whole chain goes through and keeps everything |
| `MetaRuns.UpgradeAutocommit` | migrations/V011__meta_skill_runs_triggered_by_auto.py:122-177 | outside one, from any version and flag, the upgrade reaches exactly `Stop`: past V010 and V015, one rebuild at most, which leaves enforcement on; there it is refused, with every row kept |
| `MetaCrash.ScratchBlocks` | migrations/V011__meta_skill_runs_triggered_by_auto.py:159-162 | a crash after CREATE or INSERT leaves the table as it was and makes every later attempt fail |
| `MetaCrash.DropStrands` | migrations/V011__meta_skill_runs_triggered_by_auto.py:163-164 | a crash after DROP leaves all rows under the scratch name, and this and every later step on the table reports success |
| `MetaCrash.MissingIndexStays` | migrations/V013__meta_skill_runs_clarify.py:188-195 | a crash after RENAME and before the last index: the guard takes the step for applied, and that index is never built |
| `MetaCrash.CompleteIsApplied` | migrations/V013__meta_skill_runs_clarify.py:167-203 | all statements one by one give the step's meaning, and running the step again then changes nothing |
| `MetaCrash.RetryRepairsIff` | migrations/V013__meta_skill_runs_clarify.py:167-203 | running the step again after a crash reaches its version exactly when no statement or every statement had run |
| `MetaHazards.LiveEnforcementWouldWipeSteps` | migrations/V011__meta_skill_runs_triggered_by_auto.py:10-24 | dropping the parent with enforcement on would delete every step row, unnoticed by the check |
| `MetaHazards.RenamingOldTableOrphansSteps` | migrations/V011__meta_skill_runs_triggered_by_auto.py:10-24 | renaming the old table away first would leave the child pointing at a dropped table, and the check fails exactly when there is a step row |
| `MetaHazards.RefusedRollbackLosesTheGuard` | migrations/V013__meta_skill_runs_clarify.py:206-222 | outside a transaction a refused rollback of V013 lets any parked run be doubled |
| `MetaValues.ClarifyStartsEmpty` | migrations/V013__meta_skill_runs_clarify.py:28-102 | after V013 every run row awaits nothing (five columns NULL, no parse failure counted) and keeps all its other values |
| `MetaValues.UsageStartsEmpty` | migrations/V015__meta_skill_step_usage.py:92-100 | after V015 every step row reads {} as its usage and keeps all its other values |
| `MetaValues.RollbackKeepsValues` | migrations/V013__meta_skill_runs_clarify.py:206-240 | a rollback keeps every row in order, every value of the columns that stay, and the other table |
| `MetaValues.AcceptedRunWords` | migrations/V016__meta_skill_runs_triggered_by_manual_command.py:80-112 | which trigger and status words a run may hold at each version |
| `MetaValues.AcceptedStepWords` | migrations/V014__meta_skill_run_steps_allow_user_input.py:35-80 | which kind and status words a step may hold at each version |
| `MetaValues.RollbackRefusedBy` | migrations/V014__meta_skill_run_steps_allow_user_input.py:174-184 | a rollback is refused exactly when some row uses one of the words the step brought, written out for each step |
| `MetaValues.RunDeleteTakesItsSteps` | migrations/V010__meta_skill_runs.py:53-56 | at every version a run can be deleted, and takes exactly its own steps along |
| `MetaValues.WriteGoesThrough` | migrations/V010__meta_skill_runs.py:29-85 | a write of one row is performed whenever what it asks for satisfies every constraint; `WriteIsAllOrNothing` is the other direction |
| `MetaValues.IndexLoopTwice` | migrations/V013__meta_skill_runs_clarify.py:188-195 | the index loop raises on an index that is there, but for the unique one |
| `Retirement.Store.AnnounceRetirements` | migrations/V041__retire_html_editor.py:19-43 | one retirement event per legacy change set unless it exists |
| `Retirement.Store.ApplyVerified` | migrations/V041__retire_html_editor.py:44-89 | exactly the reserved or ambiguous attempts with a verified revision become applied |
| `Retirement.Store.FailUnsettledSets` | migrations/V041__retire_html_editor.py:90-109 | exactly the open legacy change sets become failed |
| `Retirement.Store.FailStranded` | migrations/V041__retire_html_editor.py:110-136 | exactly the reserved attempts with a dead legacy change set become failed |
| `Retirement.Store.CloseSessions` | migrations/V041__retire_html_editor.py:137-143 | active sessions are closed and their expiry is not extended |
| `Retirement.Store.ExpireLeases` | migrations/V041__retire_html_editor.py:144-149 | live leases are expired |
| `Retirement.Store.RecordVersions` | migrations/V041__retire_html_editor.py:181-187 | one source version per working file with a source; existing ones win |
| `Retirement.Store.Apply` | migrations/V041__retire_html_editor.py:153-187 | the statements in their order do to each row what the state before the migration decides |
| `Retirement.StrandedIsDoomed` | migrations/V041__retire_html_editor.py:90-136 | after the change sets are failed, an attempt has a dead legacy change set exactly when it had a dead or open one before |
| `RetirementLaws.UniqueTurnFindsIt` | migrations/V037__artifact_sessions.py:171-175 | with the unique turn index, the subquery finds the one change set of the attempt |
| `RetirementLaws.AppliedIsBacked` | migrations/V041__retire_html_editor.py:45-88 | each attempt newly marked applied points to its change set and to an existing revision with matching parent, artifact id and hash |
| `RetirementLaws.CommitPassesCheckIff` | migrations/V039__artifact_mutation_attempts.py:44-52 | a commit passes the status CHECK exactly when the first change set of its turn has an applied revision |
| `RetirementLaws.CommitNeedsUniqueTurn` | migrations/V037__artifact_sessions.py:171-175 | a state without the unique index on which the migration would break the CHECK |
| `RetirementLaws.ConstraintsSurvive` | migrations/V039__artifact_mutation_attempts.py:26-66 | every constraint that held before holds afterwards |
| `RetirementLaws.OnePassSettles` | migrations/V041__retire_html_editor.py:90-149 | afterwards no legacy change set is open, no reserved attempt waits on a dead one, no verified attempt is unsettled, no session is active, no lease is live |
| `RetirementLaws.VerifiedNeverFails` | migrations/V041__retire_html_editor.py:45-88 | a verified attempt is never reported as failed |
| `RetirementLaws.OthersUntouched` | migrations/V041__retire_html_editor.py:90-136 | rows that do not belong to a legacy change set keep every column; revisions and old audit events stay |
| `RetirementLaws.RevisionsCountTransitions` | migrations/V041__retire_html_editor.py:44-136 | state_revision moves by one exactly when the status moves |
| `RetirementLaws.OrderMatters` | migrations/V041__retire_html_editor.py:90-136 | in the migration's order no reserved attempt stays on a dead change set; in the other order one does exactly when its legacy change sets were open and none was dead |
| `RetirementLaws.WrongOrderLeavesOneBehind` | migrations/V041__retire_html_editor.py:90-136 | such a state: the wrong order leaves its attempt reserved, the right one fails it |
| `RetirementLaws.RetirementIsIdempotent` | migrations/V041__retire_html_editor.py:44-149 | a second run at any clock, on any state, changes no row |
| `RetirementRows.EveryLegacySetIsAnnounced` | migrations/V041__retire_html_editor.py:19-43 | every change set of the old editor has a retirement event under its own id |
| `RetirementRows.NewEventsAreRetirements` | migrations/V041__retire_html_editor.py:19-43 | the old trail stays; every new event carries the document, change set, kind and time of one such change set, and no event id twice |
| `RetirementRows.AttemptOutcome` | migrations/V041__retire_html_editor.py:44-136 | what becomes of each attempt: applied exactly on a proved commit, else failed exactly if reserved on a dead or open change set, else untouched |
| `RetirementRows.CommitIsFiled` | migrations/V041__retire_html_editor.py:45-88 | with one change set a turn, a proved commit is filed under the very change set and revision that prove it |
| `RetirementRows.SetOutcome` | migrations/V041__retire_html_editor.py:90-109 | an open change set of the old editor is failed and keeps its other columns; any other stays |
| `RetirementRows.SessionOutcome` | migrations/V041__retire_html_editor.py:137-143 | an active session is closed, with the earlier of its expiry and the clock; any other stays |
| `RetirementRows.LeaseOutcome` | migrations/V041__retire_html_editor.py:144-149 | a live lease expires at once and keeps its fencing number; any other stays |
| `RetirementRows.NewVersionsDescribe` | migrations/V041__retire_html_editor.py:181-187 | every new version row describes one working file and its source column by column |
| `RetirementRows.EveryWorkingFileHasVersion` | migrations/V041__retire_html_editor.py:181-187 | every working file with a source has a version |
| `UsageLedger.PruningShrinks` | migrations/V021__usage_ledger.py:61-84 | a cascading delete that changes anything removes at least one row |
| `UsageLedger.PruningKeepsConstraints` | migrations/V021__usage_ledger.py:19-136 | a cascading delete of any row keeps every CHECK, UNIQUE and FOREIGN KEY constraint |
| `UsageLedger.EventDeleteIsExact` | migrations/V049__usage_metering_settlements.py:14-33 | deleting an event takes exactly its items, receipts, metering rows, settlements and observations, changes no other row, and leaves no orphan |
| `UsageStore.Store.RemoveRow` | migrations/V049__usage_metering_settlements.py:42-45 | one row goes, its delete trigger fires, and revision plus number of rows stays the same |
| `UsageStore.Store.DeleteLeaf` | migrations/V024__usage_native_billing_receipts.py:19-42 | deleting a row nothing refers to raises the revision by one, or by nothing when it is not there |
| `UsageStore.Store.DeleteSettlement` | migrations/V049__usage_metering_settlements.py:22-33 | a settlement takes its observation with it |
| `UsageStore.Store.DeleteSettlementsOf` | migrations/V049__usage_metering_settlements.py:22-33 | the cascade of an item removes exactly its settlements and observations |
| `UsageStore.Store.DeleteItem` | migrations/V049__usage_metering_settlements.py:14-33 | an item takes its receipt, metering row, settlements and observations |
| `UsageStore.Store.DeleteEvent` | migrations/V049__usage_metering_settlements.py:14-57 | the row by row cascade of an event equals the exact subtree removal, one revision a row |
| `UsageStore.Store.Delete` | migrations/V049__usage_metering_settlements.py:34-141 | any delete equals the specification: rows pruned, revision raised by the number of rows removed |
| `UsageStore.Store.CreateTriggers` | migrations/V050__usage_task_attribution.py:26-33 | the trigger loop creates exactly the three triggers of each table |
| `UsageStore.Store.ApplyV049` | migrations/V049__usage_metering_settlements.py:145-147 | creates what is missing and seeds the counter only if it is absent |
| `UsageStore.Store.ApplyV050` | migrations/V050__usage_task_attribution.py:36-38 | creates the attribution tables and their triggers if missing |
| `UsageStore.Store.RollbackV049` | migrations/V049__usage_metering_settlements.py:150-167 | refuses unchanged exactly when metering or settlement rows exist or their tables are missing, else drops triggers, tables and counter |
| `UsageStore.Store.RollbackV050` | migrations/V050__usage_task_attribution.py:41-48 | refuses unchanged exactly when attribution rows exist or their tables are missing, else drops both tables and their triggers |
| `UsageStore.Store.RollBackBoth` | migrations/V050__usage_task_attribution.py:41-48 | both guarded rollbacks in sequence: succeeds exactly when both guards pass, and states the ledger in every case |
| `UsageLaws.StepTracks` | migrations/V049__usage_metering_settlements.py:34-141 | as long as the counter is there, every statement or migration keeps the constraints, and raises the revision if it changes a tracked row |
| `UsageLaws.StepKeepsStage` | migrations/V049__usage_metering_settlements.py:145-167 | with or without the counter, every reachable ledger satisfies all constraints |
| `UsageLaws.CounterIsLostIff` | migrations/V049__usage_metering_settlements.py:150-167 | only an unrefused, in-order rollback of V049 ends the counter |
| `UsageLaws.EqualRevisionsMeanEqualRows` | migrations/V049__usage_metering_settlements.py:34-141 | within one life of the counter, two points of a run that show the same revision hold the same rows, and the revision never falls |
| `UsageLaws.TwoLivesCollide` | migrations/V049__usage_metering_settlements.py:145-167 | across two lives it fails, for every ledger of V024 and every row that can be added to it |
| `UsageLaws.ReapplyingChangesNothing` | migrations/V050__usage_task_attribution.py:36-38 | re-applying V049 or V050 neither resets nor raises the revision |
| `UsageLaws.UpgradeRoundTrip` | migrations/V049__usage_metering_settlements.py:145-167 | applying V049, or V049 and V050, keeps every charge and starts at revision zero; undone at once it leaves no trace |
| `UsageLaws.RollbackLosesNoRow` | migrations/V049__usage_metering_settlements.py:150-167 | rolling back V050 then V049 keeps every row in every case, changes nothing exactly when an attribution row exists, completes exactly when no attribution, metering or settlement row exists, and leaves no trigger that writes a dropped counter |
| `UsageLaws.OutOfOrderRollbackDangles` | migrations/V050__usage_task_attribution.py:26-33 | rolling back V049 first would leave triggers that write the dropped counter |
| `UsageRows.EventDelete` | migrations/V049__usage_metering_settlements.py:14-57 | deleting an event removes exactly the rows whose key names it, and raises the revision by their number |
| `UsageRows.ItemDelete` | src/opensquilla/session/storage.py:4211 | deleting an item removes exactly it, its receipt, metering row, settlements and observations, and raises the revision by their number |
| `UsageRows.SettlementDelete` | migrations/V049__usage_metering_settlements.py:22-33 | deleting a settlement removes exactly it and its observation, and raises the revision by their number |
| `UsageRows.LeafDelete` | migrations/V024__usage_native_billing_receipts.py:19-42 | deleting any other row removes it alone, and counts it if it was there |
| `UsageRows.DeleteRemoves` | migrations/V049__usage_metering_settlements.py:34-141 | the delete of a run does this with or without the counter, and touches nothing else |
| `UsageRows.InsertOutcome` | migrations/V021__usage_ledger.py:19-136 | an insert goes through exactly when its key is free and the constraints written out allow the row; then that row alone changes and the revision rises by one |
| `UsageRows.UpdateOutcome` | migrations/V021__usage_ledger.py:19-136 | an update goes through exactly when the row is there and the new one is allowed; then that row alone changes and the revision rises by one |
| `UsageRows.SnapshotOutcome` | migrations/V049__usage_metering_settlements.py:12-13 | a price snapshot is stored once; no row and no revision moves |
| `UsageRows.AttributionComes` | migrations/V050__usage_task_attribution.py:36-38 | applying V050 brings both tables and all their triggers, and changes nothing else |
| `UsageRows.AttributionGoes` | migrations/V050__usage_task_attribution.py:41-48 | its rollback takes all of that, or nothing when a row is attributed |
| `UsageRows.AttributionRoundTrip` | migrations/V050__usage_task_attribution.py:36-48 | applied and rolled back at once, V050 leaves no trace |
| `UsageRows.ReachableBooksBalance` | migrations/V021__usage_ledger.py:61-84 | in every reachable ledger each cost is billed plus estimated, and no row is an orphan |
| `Utf16.LengthCountsUnits` | scripts/backfill_activity_snapshot.py:148-149 | the length is the number of UTF-16 code units of section 2.1 of RFC 2781, and fails exactly on lone surrogates |
| `Utf16.LengthAdds` | scripts/backfill_activity_snapshot.py:148-149 | lengths of parts add up to the length of the whole |
| `Utf16.DecodeUndoesEncode` | scripts/backfill_activity_snapshot.py:148-149 | decoding by section 2.2 of RFC 2781 undoes encoding |
| `Utf16.EncodeUndoesDecode` | scripts/backfill_activity_snapshot.py:148-149 | every well-formed unit sequence is the encoding of what it decodes to |
| `Sorting.SortForgetsOrder` | scripts/backfill_activity_snapshot.py:190-199 | a sort without ties between different elements does not depend on the input order |
| `BackfillEvents.ScanEvents` | scripts/backfill_activity_snapshot.py:54-83 | the one-pass scan accepts exactly the streams without a fault, and reports the first fault |
| `BackfillEvents.EventsFromExport` | scripts/backfill_activity_snapshot.py:41-83 | an export is accepted exactly when it lists events, numbers strictly increase and named generations agree |
| `BackfillEvents.FaultlessIffWellOrdered` | scripts/backfill_activity_snapshot.py:57-75 | fault-free is the same as: all pairs increase and no two named generations differ |
| `BackfillEvents.ValidateEvidence` | scripts/backfill_activity_snapshot.py:94-119 | accepts exactly when all identities match and the last commit is numbered after the last terminal event |
| `BackfillEvents.LastNumbersDecide` | scripts/backfill_activity_snapshot.py:112-119 | on a stream in order that comparison means: some commit follows every terminal event |
| `BackfillEvents.AcceptReplay` | scripts/backfill_activity_snapshot.py:243-244 | both checks together, as one if-and-only-if about the raw document |
| `BackfillRaw.EvidenceIff` | scripts/backfill_activity_snapshot.py:41-119 | on the raw document: a replay is accepted exactly when the events it lists rise in number, name one generation at most, none names another task or turn, and a commit follows every terminal event |
| `BackfillRaw.ListsIff` | scripts/backfill_activity_snapshot.py:41-52 | where the events stand: the document, else its events, else those of its replay |
| `BackfillRaw.NamesOtherIff` | scripts/backfill_activity_snapshot.py:86-91 | an identity is the non-empty string under the first key, else the one under the second |
| `BackfillRaw.ParsedIsRaw` | scripts/backfill_activity_snapshot.py:57-82 | an event is read with its own name, number and payload |
| `BackfillTranscript.AssistantFromHistory` | scripts/backfill_activity_snapshot.py:122-145 | returns a message exactly when exactly one matches, and that one |
| `BackfillTranscript.TranscriptTools` | scripts/backfill_activity_snapshot.py:206-223 | succeeds exactly when identities are stable and no id has two names; the map names exactly the tools |
| `BackfillTranscript.CompareTexts` | scripts/backfill_activity_snapshot.py:200-204 | the sorted entries measure the texts one for one |
| `BackfillTranscript.ValidateReferences` | scripts/backfill_activity_snapshot.py:163-232 | accepts exactly the snapshots whose lengths and tools agree with the message |
| `BackfillTranscript.NormalPositions` | src/opensquilla/gateway/terminal_activity.py:1203-1204 | in a snapshot the normaliser lets through, text entry number i stands at position i of the sorted view |
| `BackfillTranscript.NormalIsUnambiguous` | src/opensquilla/gateway/terminal_activity.py:1203-1204 | such a snapshot has no two different entries with one text index or one tool id |
| `BackfillTranscript.ReferencesAreDescriptions` | scripts/backfill_activity_snapshot.py:190-232 | on normal snapshots the sorting check equals the plain statement: each entry measures the text of its index, and the tool entries are exactly the transcript's tools |
| `BackfillTranscript.OrderIsIrrelevant` | scripts/backfill_activity_snapshot.py:190-232 | reordering the entries of a normal snapshot never changes the verdict |
| `BackfillTranscript.LengthsCoverAnswer` | scripts/backfill_activity_snapshot.py:178-204 | the text lengths of an accepted snapshot add up to the length of the whole answer |
| `TranscriptRaw.MatchesIff` | scripts/backfill_activity_snapshot.py:131-142 | which message answers a turn, field by field |
| `TranscriptRaw.OneAnswerIff` | scripts/backfill_activity_snapshot.py:122-145 | the answer is the one message of the history that does |
| `TranscriptRaw.ReasoningIff` | scripts/backfill_activity_snapshot.py:170-175 | where the reasoning stands in the message |
| `TranscriptRaw.SegmentsIff` | scripts/backfill_activity_snapshot.py:152-160 | the segments are the non-empty tool calls, else the non-empty timeline, all of them objects |
| `TranscriptRaw.AnswerTextsIff` | scripts/backfill_activity_snapshot.py:178-189 | the texts are, in order, what the text segments say, else the text of the message |
| `TranscriptRaw.ReferenceIff` | scripts/backfill_activity_snapshot.py:206-221 | which segments use a tool under which id and name, and which are passed over |
| `TranscriptRaw.DescribesIff` | scripts/backfill_activity_snapshot.py:163-232 | a normal snapshot passes exactly when it fits the raw message: reasoning and texts measured, tools listed |
| `BackfillTranscript.BuildValidated` | scripts/backfill_activity_snapshot.py:235-263 | a snapshot is produced exactly when the replay is evidence, the built snapshot is complete and normal, one message matches, and the snapshot describes it |
| `BackfillStore.Database.Update` | scripts/backfill_activity_snapshot.py:358-366 | changes the details of the matching rows only, and counts them |
| `BackfillStore.Database.Transact` | scripts/backfill_activity_snapshot.py:346-374 | all or nothing: the verdict decides, and a refusal changes nothing |
| `BackfillStore.Database.Backfill` | scripts/backfill_activity_snapshot.py:309-396 | every outcome with the state it leaves, other writers between commit and readback included; after a commit it is applied exactly when the readback agrees |
| `BackfillStore.QuietReadback` | scripts/backfill_activity_snapshot.py:376-389 | without another writer the readback agrees exactly when the snapshot survives the normaliser with its digest |
| `BackfillStore.LosesRace` | scripts/backfill_activity_snapshot.py:369-389 | a run whose write is committed and whose command fails |
| `BackfillStore.WrittenReads` | scripts/backfill_activity_snapshot.py:357-366 | success changes one key of the one matching row, and is read back |
| `BackfillStore.RepeatIsInvisible` | scripts/backfill_activity_snapshot.py:354-366 | writing the same snapshot again is accepted and changes nothing |
| `BackfillStore.FirstSnapshotWins` | scripts/backfill_activity_snapshot.py:354-356 | over any run of backfills without replace, a task keeps its row and its first snapshot, up to values Python holds equal |
| `BackfillStore.SpellingCanChange` | scripts/backfill_activity_snapshot.py:354-357 | a stored 2.0 is overwritten by 2 without replace |
| `StoreRaw.SameValueIff` | scripts/backfill_activity_snapshot.py:354-356 | documents compare equal exactly when they are one document but for the spelling of numbers |
| `StoreRaw.WritesIff` | scripts/backfill_activity_snapshot.py:346-368 | a request is written exactly when its one row is terminal, readable, and holds no other snapshot or replace is given |
| `StoreRaw.WriteOutcome` | scripts/backfill_activity_snapshot.py:357-366 | what is written: the snapshot into that row, nothing anywhere else |
| `StoreRaw.RefusalOutcome` | scripts/backfill_activity_snapshot.py:369-374 | any other request leaves every row |
| `StoreRaw.RefusalReason` | scripts/backfill_activity_snapshot.py:284-306 | the reason for a refusal is that of the first matching row |
| `Relay.BoundedRelay.constructor` | scripts/live_deliverable_acceptance.py:1392-1394 | a new process takes the larger of the logged and the reported number of calls |
| `Relay.BoundedRelay.CheckOutput` | scripts/live_deliverable_acceptance.py:155-165 | the loops accept exactly the requests with one agreed limit between 1 and 8192 and at most one choice |
| `Relay.BoundedRelay.Admit` | scripts/live_deliverable_acceptance.py:150-166 | a request is admitted and counted exactly when a slot is free, the model matches and its output is bounded; it is the machine's arrival step |
| `Relay.BoundedRelay.Refund` | scripts/live_deliverable_acceptance.py:170-175 | gives back the thread's slot; it is the machine's rejection step |
| `Relay.BoundedRelay.Dispatched` | scripts/live_deliverable_acceptance.py:168-176 | an accepted request keeps its slot; it is the machine's dispatch step |
| `Relay.CounterIsExact` | scripts/live_deliverable_acceptance.py:149-176 | for any interleaving the counter is start plus in flight plus dispatched, never above the larger of 90 and its start, and 90 holds over restarts |
| `Relay.LogCountsSends` | scripts/live_deliverable_acceptance.py:168-176 | over any run and all restarts the log grows by one for each request sent |
| `Relay.SendsAreBounded` | scripts/live_deliverable_acceptance.py:149-176 | so no more than 90 requests leave in all, those logged before included |
| `Relay.RestartCounts` | scripts/live_deliverable_acceptance.py:1392-1394 | a new process starts from the larger of what was logged and what was reported |
| `Relay.BoundedIff` | scripts/live_deliverable_acceptance.py:155-165 | the output limit of a request, spelled out |
| `Relay.ThreadMoves` | scripts/live_deliverable_acceptance.py:150-176 | a thread holds a slot from its admitted arrival to its dispatch or refusal |
| `Listing.AddPage` | scripts/live_deliverable_acceptance.py:195-199 | a page is added exactly when it repeats no id and belongs to the session |
| `Listing.HonestStep` | src/opensquilla/artifacts.py:1974-1989 | one honest page extends what is read and repeats nothing |
| `Listing.ListedArtifacts` | scripts/live_deliverable_acceptance.py:187-204 | ends against any store with finitely many ids, without duplicates or foreign refs; against an honest one returns the whole catalog in order, for every page size |
| `Listing.RefLeIff` | scripts/live_deliverable_acceptance.py:202 | artifacts are ordered by creation time, and by id where those are equal, both as text |
| `Listing.HonestPageIs` | src/opensquilla/artifacts.py:1974-1989 | an honest page is the newest refs before the cursor, and says whether older ones exist |
| `Resume.RestoredSessions` | scripts/live_deliverable_acceptance.py:1268-1277 | the loop restores the session keys, the pending case last |
| `Resume.Restored` | scripts/live_deliverable_acceptance.py:1274-1276 | the pending case's group gets the pending case's key |
| `Resume.NextKeepsInv` | scripts/live_deliverable_acceptance.py:1531-1735 | every step, crash and resume keeps the invariant of report, file and server |
| `Resume.OneRequestPerCase` | scripts/live_deliverable_acceptance.py:1534-1575 | everything ever sent for a case is one and the same request, and different cases use different ids |
| `Resume.OneTurnPerCase` | migrations/V020__turn_ingress_receipts.py:52-55 | at most one turn is admitted for each case |
| `Resume.RecordedOnce` | scripts/live_deliverable_acceptance.py:1697-1705 | a saved report records each case once, and each recorded case had its turn |
| `Resume.RecordsAreFinal` | scripts/live_deliverable_acceptance.py:1531-1533 | however the run goes on, a recorded case is never sent again, and stays recorded while the file can be read |
| `ResumeGroups.OneSessionPerGroup` | scripts/live_deliverable_acceptance.py:1534-1536 | over all crashes and resumes, everything sent for the cases of one group carries one session key |
| `ResumeGroups.RecordsOfOneGroup` | scripts/live_deliverable_acceptance.py:1268-1277 | and so does everything recorded for them |
| `ResumeDurable.SavedBeforeSent` | scripts/live_deliverable_acceptance.py:1541-1566 | a request is sent with the message of its case, and only while the file holds its ticket as pending |
| `ResumeDurable.AcceptanceIsSaved` | scripts/live_deliverable_acceptance.py:1573-1575 | the acceptance is in the file before the turn is waited for |
| `ResumeDurable.AcceptedIsFinal` | scripts/live_deliverable_acceptance.py:1552-1575 | once the file says that a case was accepted, no continuation sends it again |
| `ResumeDurable.RecordWrite` | scripts/live_deliverable_acceptance.py:1697-1705 | a record replaces its pending case in the file as a whole; a crash before the write leaves the case pending and accepted, one during it a file cut short |
| `ResumeDurable.EndSaves` | scripts/live_deliverable_acceptance.py:1726-1735 | an orderly end leaves all the process knew in the file |
| `ResumeProgress.EveryCaseCanBeRecorded` | scripts/live_deliverable_acceptance.py:1531-1705 | from every reachable world whose file is not cut short, some continuation records every case |
| `Resume.TornFileStops` | scripts/live_deliverable_acceptance.py:1280-1288 | a report cut short stops every later start |
| `Resume.ResendHappens` | scripts/live_deliverable_acceptance.py:1552-1575 | a crash after sending does send the case twice, and one turn is admitted |

## Left out

- SQL text: the guards that search a table's SQL for a literal are membership in its CHECK sets, the only place those literals occur; type affinity and collation are not modelled.
- Orphans of unrelated tables: `PRAGMA foreign_key_check` looks at the ledger's own tables only.
- Out-of-order rollbacks of V010 to V016 as a property; `RunChain` covers them for the step rows only.
- Columns no statement of V041 reads, and the CREATE TABLE statements in it, which only add easy members.
- Per-column CHECKs of the usage tables beyond costs, receipts, keys and revision numbers; rows are otherwise opaque.
- Updates that change a usage row's primary key, and `INSERT OR REPLACE`.
- usage_price_snapshots in the revision claim: it has no trigger, so only tracked tables are covered.
- The snapshot builder and normaliser of the backfill: `BuildValidated` takes the builder as a parameter, and of the normaliser only what the check relies on is kept: indices that are 0 to n-1, non-empty texts, distinct tool ids, completeness.
- Crashes between the statements of V010, of a rollback, and of V041, V049 and V050; NaN in JSON documents.
- JSON text layout, encodings of the details column and SHA-256; stored details are decoded documents, digests an arbitrary function.
- Task status text: a row says only whether its lower-cased status is terminal.
- Relay.CounterIsExact: a request that fails in transport counts as dispatched, as in the source; the parent relay's own limits are only the choice between dispatch and rejection.
- Relay.BoundedRelay.Admit: a body that is not a JSON object raises before it is counted and is not modelled.
- Listing.ListedArtifacts: which refs the store hides (corrupt metadata, internal markers) is left to the store.
- Resume.NextKeepsInv: the server's admission is modelled from the unique receipt key alone; downloads, content checks, budgets and the plan suite do not take part, and a mismatching model or suite at resume is not modelled.
- V007, the plan suite bookkeeping and the compaction gateway script, which would only add easy members.
