# aws-bench: a verified model of trials, accounts and the registry

aws-bench runs agent benchmarks against real AWS accounts. This project models the parts of it
where order, failure and repetition matter, in Dafny 4.11, and proves what those parts are for:

- **Trial admission** (`Admission`, `Retry`, `QueueProtocol`, `QueueTheorems`, `QueueOutcomes`): each
  scenario has a readers-writer gate, the queue has a global pool of slots taken inside the gate, and
  a trial holds both through its attempts, backoff sleeps and post-trial resets. Any number of trials over any
  scenarios run as a step relation - a step is what happens between two awaits - and cancels may
  land while waiting for the gate, for a slot, or anywhere in the body. Results are about every
  reachable state and every run: exclusion, exact counters, no lost wake-up, no deadlock, a bound on
  every run, a reset between a mutating attempt and whatever follows it on the scenario, and what a
  trial may do next after each outcome of an attempt.
- **Accounts** (`Accounts`, `Exclusivity`): the `<scenario>/<tag>` tag value, provisioning cut short
  between any two of its calls and run again, and resolution of the organizational unit. Joined with
  the gates: a mutating trial shares its AWS accounts with no other trial.
- **Scenario and task trials** (`Clouds`, `ScenarioTrials`, `ScenarioTheorems`, `ScenarioOutcomes`,
  `TrialRunner`, `TaskTrials`, `TaskTheorems`): the four phases with every call into AWS, docker, the
  resource managers and the hooks as an oracle that returns, raises or is where a cancellation lands. A
  manager that returns gives exactly one record for each mapped account
  (aws_bench/resource_management/manager.py:234-267, 325-357, 392-427;
  aws_bench/resource_management/snapshot/manager.py:646-686). A cloud carries the contamination
  flags, the stored baselines and the history of everything that matters; an invariant ties them
  together and gives contamination safety and baseline safety over every session of phases, task
  trials and init captures. What one run leaves and records, and exactly when it succeeds, is told
  from its oracles and the cloud it started on.
- **Export merge** (`Exports`): fetches folded into per-account namespaces in completion order,
  proved against a specification with no order in it.
- **Registry** (`SemVer`, `Registry`, `RegistryTheorems`, `RegistryContents`, `RegistryUpdater`): the
  updater's whole run, what each entry of the new registry holds, when running it twice changes
  nothing, and the version arithmetic and lookup around it.
- **Container text and time** (`Heredoc`, `Credentials`): the here-document that a shell must undo,
  and the timed credential refresher with its exact failure budget.
- **Provisioning, quotas, jobs** (`Provisioning`, `Quotas`, `Jobs`): conservation of accounts,
  events, quotas and results, with a cancellation landing in any provisioning task; bounded polling
  and retries.

Objects the program updates in place are classes whose methods are proved against functions on
values; the theorems are about those functions. `dafny verify dfyconfig.toml` checks everything.

## Where the code does not do what one might expect

Each of these is a lemma, with a concrete input where a claim fails and the exact condition under
which it holds.

- The tag parser undoes the tag printer only for non-empty, slash-free scenario names and non-empty
  tags (`Accounts.ParseUndoesFormat`). Repeating a completed run creates one more account for each
  tag of any other pair, so none exactly if every pair is printable
  (`Accounts.RerunDuplicatesUnprintable`; `Accounts.SlashedScenarioIsDuplicated` is an instance).
- An account that lacks the second tag is reused as it is. After a completed run every returned
  account carries that tag exactly if every account found for a wanted tag before the run already
  did (`Accounts.SecondTagsAreComplete`); a run cut between the two tag calls leaves one that never
  gets it (`Accounts.SecondTagStaysMissing`).
- A cancellation that lands in the container stop is recorded and never reaches the caller
  (`ScenarioTheorems.RecordedByPrecedence`).
- A mutating task refused for contamination counts as settled, so it is still reset
  (`TaskTheorems.RefusedTaskTouchesNothing`).
- Running the registry updater twice differs from once exactly when the unified name is itself a
  scenario on disk, reconciled for the first time, and excluded from the union
  (`RegistryTheorems.SecondRunChangesNothing`, `RegistryTheorems.ShadowedRunDiffers`). A nameless
  entry makes a run that adds the unified dataset fail
  (`RegistryTheorems.NamelessEntriesFailTheUnion`).
- A pair whose account came back but whose lifecycle never began, because a cancellation ended
  phase 1, the wait after it, or phase 2 first, has a START event and no END; every other pair that
  began has exactly one (`Provisioning.EachLogCloses`, `Provisioning.SiblingCancelLeavesOpen`).
- The path pattern of `write_file` lets one trailing newline through. A write that returns then ran
  a command that did not feed the content to the file; any other write that returns did
  (`Heredoc.WriteFile`, `Heredoc.CommandDelivers`).
- The credential files' budget is exact: with minted credentials that last at least the skew, the
  minimum sleep and a pass, passes of at most D seconds, at most k failing in a row, and a refresher
  that first wakes `lag` seconds later than a pass and the minimum sleep after the start, no file
  expires while k * (D + 60) + D + lag <= 900; beyond it, for every start, D and k, a run with an
  expired file exists (`Credentials.NeverExpired`, `Credentials.BoundIsExact`).

## Model

| member | source | states |
|---|---|---|
| `Admission.AdmissionGate.constructor` | aws_bench/task/queue.py:48-51 | a fresh gate counts no reader, holds no writer and parks nobody |
| `Admission.AdmissionGate.TryEnter` | aws_bench/task/queue.py:62-69 | a read-only trial enters iff no writer holds, a mutating one iff nobody holds; the other field and every other waiter are untouched, a refused task parks |
| `Admission.AdmissionGate.Release` | aws_bench/task/queue.py:71-77 | drops exactly the leaver's hold and notifies every parked waiter |
| `Admission.AdmissionGate.Abandon` | aws_bench/task/queue.py:53-60 | a waiter cancelled in the wait leaves no trace of itself |
| `Admission.GateTable.GateFor` | aws_bench/task/queue.py:111-116 | one gate per scenario, never replaced, and two scenarios never share one |
| `Retry.BackoffIsBounded` | aws_bench/scenario/queue.py:213-216 | every delay is non-negative and capped at the policy's maximum |
| `Retry.BackoffFollowsTheDelays` | aws_bench/scenario/queue.py:213-216 | the delay is the minimum wait, then each time the multiplier times the one before, cut to the maximum wait |
| `Retry.TotalBackoffIsBounded` | aws_bench/scenario/queue.py:138-167 | before attempt k the loop slept at most k times the maximum wait |
| `Retry.AttemptsStartClean` | aws_bench/scenario/queue.py:152-167 | every attempt but the first starts after the directory of the one before was removed and its delay slept |
| `Retry.ExecuteWithRetries` | aws_bench/scenario/queue.py:132-171 | returns the first result that is clean or failed with an exception that is excluded or not allowed, or the last one allowed; every result before it failed otherwise; at most max_retries * max_wait_sec of sleep |
| `QueueProtocol.InitialInv` | aws_bench/task/queue.py:88-98 | a new queue's gates and slots tell the truth about its trials |
| `QueueProtocol.StandingTells` | aws_bench/task/queue.py:53-77 | entering, parking, releasing and abandoning keep a gate's counters equal to its holders and waiters |
| `QueueProtocol.StepKeepsInv` | aws_bench/task/queue.py:100-147 | every step of any trial, cancels included, keeps all gates and the slot count exact |
| `QueueProtocol.ReachableInv` | aws_bench/task/queue.py:100-147 | so does every run of every batch |
| `QueueTheorems.HoldersAreReaders` | aws_bench/task/queue.py:35-37 | two trials inside one scenario's gate at once are both read-only |
| `QueueTheorems.WritersAreAlone` | aws_bench/task/queue.py:33-42 | in every reachable state a mutating trial inside its gate is alone inside it |
| `QueueTheorems.GateAndSlotsAreExact` | aws_bench/task/queue.py:48-77 | in every reachable state the reader count is the number of read-only holders, the writer flag is set iff exactly one mutating trial holds, never both, and at most n_concurrent trials execute |
| `QueueTheorems.NoLostWakeup` | aws_bench/task/queue.py:62-77 | a waiter whose predicate holds has been notified and enters when it wakes |
| `QueueTheorems.EmptyGateParksNobody` | aws_bench/task/queue.py:43-45 | with no holder anywhere, a waiting trial can move |
| `QueueTheorems.NoDeadlock` | aws_bench/task/queue.py:43-45 | a reachable state has a step other than a cancel iff some trial is unfinished |
| `QueueTheorems.StepLowersTotal` | aws_bench/task/queue.py:111-147 | every step, cancels included, lowers a measure over program points and remaining retries |
| `QueueTheorems.EveryBatchFinishes` | aws_bench/task/queue.py:43-45 | every run of n trials has at most n * (n + 8 + 3 * max_retries) steps, and one that cannot be extended has finished every trial |
| `QueueTheorems.StepKeepsResetInv` | aws_bench/task/aws_trial.py:105-118 | while a mutating trial's reset is under way, no other trial's event can come next on the scenario |
| `QueueTheorems.CancelFreeIsUninterrupted` | aws_bench/task/queue.py:116-147 | without a cancel no body is interrupted |
| `QueueTheorems.ResetComesFirst` | aws_bench/task/aws_trial.py:105-148 | after a settled attempt of a mutating trial the next events on its scenario are its reset's start and, in a cancel-free run, its end, before the next attempt or any other trial |
| `QueueOutcomes.RetriesAreEarned` | aws_bench/task/queue.py:119-147 | over every run a later attempt begins only right after the one before, its reset included, ended with a failure that is not excluded and is allowed, within max_retries |
| `QueueOutcomes.LeavingIsEarned` | aws_bench/task/queue.py:119-147 | over every run a trial leaves once and last, and only after it raised, was interrupted, or settled clean, with a failure outside the retry filter, or at attempt max_retries |
| `QueueOutcomes.OutcomeDecidesTheNext` | aws_bench/task/queue.py:119-147 | what follows a finished attempt: leaving after those outcomes, else the next attempt, unless a cancel interrupts the backoff |
| `QueueOutcomes.FinishedTrialsSettled` | aws_bench/task/queue.py:119-147 | in a run without cancels a finished trial attempted from 0 on and ended by raising or on such an outcome |
| `QueueOutcomes.StepKeepsStory` | aws_bench/task/queue.py:111-147 | every step keeps each trial's own events in order and its program point in step with them |
| `QueueOutcomes.EntersUnlessExcluded` | aws_bench/task/queue.py:62-69 | in every reachable state a trial enters its gate iff every trial inside is read-only and so is it; readers share, and no other scenario keeps it out |
| `Exclusivity.MutatingTrialsOwnTheirAccounts` | aws_bench/task/queue.py:111-117 | while a mutating trial holds its gate no other trial holding any gate shares an AWS account with it |
| `Accounts.ParseUndoesFormat` | aws_bench/account_management/manager.py:73-86 | parsing undoes printing iff the scenario is non-empty and slash-free and the tag non-empty |
| `Accounts.FormatUndoesParse` | aws_bench/account_management/manager.py:78-86 | printing undoes every successful parse |
| `Accounts.ExistingIsTheCarriers` | aws_bench/account_management/manager.py:234-248 | the scan maps exactly the wanted tags to their ACTIVE carriers, and raises only if a pair is carried twice |
| `Accounts.CreatedKeepsUnique` | aws_bench/account_management/manager.py:261-285 | cutting create, move and tag anywhere leaves every pair unique, and a carrier iff the tag call took effect |
| `Accounts.CutsLeaveOnePart` | aws_bench/account_management/manager.py:261-285 | a run cut anywhere leaves every new account whole but at most the last, which is as far as its effective calls got it |
| `Accounts.EnsureKeepsUnique` | aws_bench/account_management/manager.py:215-259 | a run cut anywhere keeps pairs unique; completed, it returns one carrier per tag |
| `Accounts.RerunReturnsTheSame` | aws_bench/account_management/manager.py:215-259 | running again after a completed run, however cut, returns the same ids and creates nothing |
| `Accounts.AlwaysUnique` | aws_bench/account_management/manager.py:215-285 | over every history of interrupted and repeated provisioning no pair is ever carried twice |
| `Accounts.RerunDuplicatesUnprintable` | aws_bench/account_management/manager.py:73-86 | on any organization and for any tags, repeating a completed run creates one more account per unprintable tag, so none iff every pair is printable |
| `Accounts.SlashedScenarioIsDuplicated` | aws_bench/account_management/manager.py:125-140 | a concrete slashed scenario name provisioned twice |
| `Accounts.SecondTagsAreComplete` | aws_bench/account_management/manager.py:215-285 | after any completed run every returned account carries the second tag iff every account that carried a wanted tag before the run already did |
| `Accounts.SecondTagStaysMissing` | aws_bench/account_management/manager.py:275-285 | an input where it is missing: a run cut between the two tag calls is not repaired by any number of further calls |
| `Accounts.AccountManager.EnsureScenarioAccounts` | aws_bench/account_management/manager.py:215-259 | the loops leave the organization and the outcome the specification gives for every cut |
| `Accounts.AccountManager.IndexAccounts` | aws_bench/account_management/manager.py:171-188 | indexes exactly the kept accounts, and fails iff one pair is kept twice |
| `Accounts.AccountManager.Select` | aws_bench/account_management/manager.py:189-213 | answers with exactly the required tags iff no requirement is unmet |
| `Accounts.AccountManager.ResolveTestEnvironment` | aws_bench/account_management/manager.py:142-213 | fails on a duplicate pair, else on an unmet requirement, and for no other reason; otherwise answers exactly |
| `Accounts.DistinctKeysDistinctAccounts` | aws_bench/account_management/manager.py:171-213 | distinct (scenario, tag) keys resolve to distinct accounts |
| `Accounts.EnsureAllFulfils` | aws_bench/account_management/manager.py:215-259 | completed runs for any number of scenarios, one after another, leave pairs unique and every returned account still carrying its tag |
| `Accounts.ResolvesWhatWasEnsured` | aws_bench/account_management/manager.py:142-213 | after completed runs for any number of scenarios, resolving all of them meets no duplicate and no unmet requirement, and answers with the ids those runs returned |
| `Clouds.FlaggedStaysClosed` | aws_bench/scenario/trial.py:354-363 | in a sound history a start on an account after it was flagged has in between a successful reset of that account, or a wholly clean cleanup that reported that very account clean |
| `Clouds.FlagsAreLiftedAfterRestoring` | aws_bench/scenario/trial.py:887-928 | a flag is lifted only right after that account was so restored, deletions and other lifted flags aside |
| `Clouds.OnlyResetsAreExempt` | aws_bench/scenario/trial.py:343-345 | a deploy.sh exempt from the flag was launched by a reset trial of its scenario, with no other trial begun since |
| `Clouds.DeploysAreGuarded` | aws_bench/scenario/trial.py:350-363 | deploy.sh starts only right after the region guardrail and with every mapped account's init baseline captured and not deleted |
| `Clouds.VerdictsRestOnReports` | aws_bench/scenario/trial.py:1008-1029 | in a sound history a cleanup judged wholly clean had reported each of its accounts clean, that one included |
| `Clouds.BaselinesAreSafe` | aws_bench/scenario/trial.py:533-600 | at every position of a sound history: snapshots right after a deploy.sh that exited 0, deploys guarded, deletions right after a wholly clean cleanup that reported that very account clean |
| `Clouds.InitIsCapturedOnce` | aws_bench/resource_management/snapshot/manager.py:632-644 | in a sound history an init baseline is captured again only after it was deleted |
| `ScenarioTheorems.GatesKeepInv` | aws_bench/scenario/trial.py:354-363 | the deploy gates let a script through only on unflagged accounts with all init baselines under the guardrail |
| `ScenarioTheorems.ExecuteKeepsInv` | aws_bench/scenario/trial.py:380-408 | a script run behind those gates keeps the history sound, and returns only on exit code 0 |
| `ScenarioTheorems.CaptureKeepsInv` | aws_bench/scenario/trial.py:554-581 | snapshots taken right after a deploy.sh that exited 0 keep the history sound |
| `ScenarioTheorems.RedeployKeepsInv` | aws_bench/scenario/trial.py:930-964 | so does the redeploy loop, whatever its attempts meet |
| `ScenarioTheorems.TagAllKeepsInv` | aws_bench/scenario/trial.py:887-928 | flagging and clearing by result keeps flags no weaker than the history demands |
| `ScenarioTheorems.ResetKeepsInv` | aws_bench/scenario/trial.py:828-885 | the whole reset keeps the invariant for every oracle |
| `ScenarioTheorems.CleanupKeepsInv` | aws_bench/scenario/trial.py:987-1067 | so does cleanup: baselines are deleted and flags lifted only after every mapped account was reported clean |
| `ScenarioTheorems.RunKeepsInv` | aws_bench/scenario/trial.py:185-270 | every run of every phase keeps the invariant, whatever its oracles answer |
| `ScenarioTheorems.LifecycleCloses` | aws_bench/scenario/trial.py:202-270 | START first; one container stop, one persisted result and one END, in that order and last; CANCEL at most once, just before, iff the body was cancelled, and then the cancellation reaches the caller |
| `ScenarioTheorems.RecordedByPrecedence` | aws_bench/scenario/trial.py:303-330 | the recorded exception is the body's cancel, else the resource-management error, else the script error, else the container-stop error |
| `ScenarioTheorems.SuccessIsCleanBody` | aws_bench/scenario/trial.py:185-270 | a successful trial was cancelled nowhere and both its parts came back |
| `ScenarioTheorems.SuccessMeansAllGatesPassed` | aws_bench/scenario/trial.py:554-885 | a successful trial's script exited 0 and, for every mapped account, the record gating its phase succeeded: snapshot stored, verification passed, reset restored with its redeploy, cleanup clean |
| `ScenarioTheorems.SuccessfulDeployBaselines` | aws_bench/scenario/trial.py:567-581 | a successful deploy leaves every mapped account a POST_SETUP baseline |
| `ScenarioTheorems.CleanupJudgesItsRecords` | aws_bench/scenario/trial.py:1008-1029 | the wholly clean verdict falls iff every record is clean and cleanup.sh did not fail; short of it no baseline and no flag goes |
| `ScenarioTheorems.CleanupActsOnCleanRecords` | aws_bench/scenario/trial.py:987-1067 | an account that loses a baseline or its flag to a cleanup is a mapped one whose own record was clean |
| `ScenarioTheorems.UnnamedFlagIsKept` | aws_bench/scenario/trial.py:887-928 | an account no reset result names keeps its flag as it was |
| `ScenarioTheorems.FlagsFollowTheResults` | aws_bench/scenario/trial.py:887-928 | an account named once ends flagged iff its reset failed, provided its tag call took effect |
| `ScenarioTheorems.EveryFlagFollowsItsRecord` | aws_bench/scenario/trial.py:846-928 | after an uncancelled reset every mapped account whose tag call took effect is flagged iff its own record still fails once the redeploy is judged |
| `ScenarioOutcomes.SucceedsExactly` | aws_bench/scenario/trial.py:185-270 | a run succeeds iff nothing cancelled it, its script started behind open gates and exited 0, every record its phase needs was good, and the container stopped |
| `ScenarioOutcomes.ResetJudgesEveryAccount` | aws_bench/scenario/trial.py:828-928 | an uncancelled reset, reset.sh failed or not, judges every mapped account in the history by its own record and the redeploy; where its tag call lands, it is flagged iff that verdict fails |
| `ScenarioOutcomes.ResetLeaves` | aws_bench/scenario/trial.py:828-964 | its baselines are those there were and those captured after a redeploy, which works iff one of three attempts does; other flags stay; a failing record is recorded first, then the last failed untagging |
| `ScenarioOutcomes.CleanupLeaves` | aws_bench/scenario/trial.py:987-1067 | an uncancelled cleanup, cleanup.sh failed or not, notes every account's report and fails on an unclean one; it takes exactly the flags and baselines its calls take, and none short of a clean verdict |
| `ScenarioOutcomes.CleanedAccountIsOpen` | aws_bench/scenario/trial.py:1027-1067 | after a wholly clean cleanup each account is unflagged if its untag call took effect, and rid of each baseline whose deletion works; other scenarios' baselines stay |
| `ScenarioOutcomes.VerifyLeaves` | aws_bench/scenario/trial.py:805-826 | a verification changes no flag and no baseline, and fails on an account that did not pass, verify.sh failed or not |
| `ScenarioOutcomes.DeployLeaves` | aws_bench/scenario/trial.py:533-581 | a deploy touches no flag and stores exactly the captured baselines, behind a script that worked; a failed capture is recorded |
| `ScenarioOutcomes.DeployBeginsExactly` | aws_bench/scenario/trial.py:332-363 | an operator's deploy.sh begins iff the run gets to it and every gate is open |
| `ScenarioOutcomes.DeployRefusals` | aws_bench/scenario/trial.py:354-361 | flagged accounts are refused first and missing init baselines next, each by name, leaving the cloud as it was |
| `ScenarioOutcomes.ScriptErrorIsRecorded` | aws_bench/scenario/trial.py:236-246 | a script that started and failed is the recorded failure if resource management has none, with its exit code |
| `ScenarioOutcomes.OnlyCancelsCancel` | aws_bench/scenario/trial.py:185-270 | without a cancellation anywhere a run is not cancelled; a cancelled one records it and lets it through |
| `ScenarioOutcomes.ReachedCancelsCut` | aws_bench/scenario/trial.py:202-246 | an uncancelled run reached no cancellation in its hooks, its script, its managers or its untagging |
| `ScenarioOutcomes.EventsTellTheRun` | aws_bench/scenario/trial.py:332-363 | the whole trace of an uncancelled run other than a reset: each event is there iff the run got to it |
| `TrialRunner.ScenarioTrial.RecordException` | aws_bench/scenario/trial.py:303-330 | the first exception recorded wins |
| `TrialRunner.ScenarioTrial.PassDeployGates` | aws_bench/scenario/trial.py:354-361 | flag check, init baselines, guardrail and best-effort tidying in order, stopping at the first refusal |
| `TrialRunner.ScenarioTrial.ExecutePhase` | aws_bench/scenario/trial.py:380-408 | exit code recorded, a non-zero one raised, a timeout named |
| `TrialRunner.ScenarioTrial.RunPhaseInContainer` | aws_bench/scenario/trial.py:332-363 | starts the container only if it is not running, gates a deploy, runs the script |
| `TrialRunner.ScenarioTrial.RunSnapshot` | aws_bench/scenario/trial.py:554-581 | stores each successful capture and raises if any failed |
| `TrialRunner.ScenarioTrial.RedeployWithRetry` | aws_bench/scenario/trial.py:930-964 | at most three attempts, never after a cancellation, the last error propagating |
| `TrialRunner.ScenarioTrial.ApplyContaminationTags` | aws_bench/scenario/trial.py:887-928 | flags failures, clears successes, skips nameless results, returns the last clear failure |
| `TrialRunner.ScenarioTrial.RunResetPhase` | aws_bench/scenario/trial.py:828-885 | redeploys if a result needs it, fails those results if it did not come back, tags, then raises by severity |
| `TrialRunner.ScenarioTrial.CollectFailures` | aws_bench/scenario/trial.py:1008-1029 | stores every record and tells whether any account is not clean |
| `TrialRunner.ScenarioTrial.RunCleanupPhase` | aws_bench/scenario/trial.py:987-1067 | raises on any unclean result; else, unless cleanup.sh failed, deletes both baselines and lifts the flags |
| `TrialRunner.ScenarioTrial.RunResourceManagement` | aws_bench/scenario/trial.py:533-552 | the deploy snapshot is skipped after a failed script, recovery phases run regardless |
| `TrialRunner.ScenarioTrial.RunBody` | aws_bench/scenario/trial.py:202-246 | a script failure is held until resource management is done |
| `TrialRunner.ScenarioTrial.CloseRun` | aws_bench/scenario/trial.py:248-269 | records what the body ended with and closes the lifecycle |
| `TrialRunner.ScenarioTrial.Run` | aws_bench/scenario/trial.py:185-270 | leaves exactly the specified report and a sound cloud |
| `TaskTrials.TaskTrial.Prepare` | aws_bench/task/aws_trial.py:311-344 | refuses a flagged account before anything starts, then container, then pre-invoke |
| `TaskTrials.TaskTrial.StopAgentEnvironment` | aws_bench/task/aws_trial.py:433-467 | post-invoke only if the container came up and it has not run; its failure or cancellation is recorded and not raised; the base teardown always follows and its outcome is the caller's |
| `TaskTrials.TaskTrial.ResetScenarioAccount` | aws_bench/task/aws_trial.py:120-148 | only a cancellation gets out of the reset |
| `TaskTrials.TaskTrial.Run` | aws_bench/task/aws_trial.py:105-118 | resets after a settled mutating run only |
| `TaskTheorems.PostInvokeRunsOnce` | aws_bench/task/aws_trial.py:433-467 | over any number of stops the base teardown runs each time and post-invoke on the first alone if it may run, else never; recorded is how that one run went |
| `TaskTheorems.TaskRunsExactly` | aws_bench/task/aws_trial.py:311-344 | a task runs pre-invoke iff the container was prepared, the agent iff moreover pre-invoke came back, then post-invoke once if the container is up, and a teardown per stop, in that order |
| `TaskTheorems.TaskBeginsExactly` | aws_bench/task/aws_trial.py:311-344 | the start of a task's scripts is noted iff the flag check passed and the container was prepared |
| `TaskTheorems.SettlesExactly` | aws_bench/task/aws_trial.py:105-118 | a run settles iff the first of its steps not to come back was no cancellation and its finalization returned |
| `TaskTheorems.RefusedTaskTouchesNothing` | aws_bench/task/aws_trial.py:295-318 | a verifying task on a flagged account runs no pre-invoke, agent or post-invoke and notes no start; a mutating one is still reset |
| `TaskTheorems.ResetFollowsSettledRuns` | aws_bench/task/aws_trial.py:105-148 | a reset trial begins iff the task is mutating, its run settled and the trial could be built; a failed reset never fails the task |
| `TaskTheorems.ResetRunAppends` | aws_bench/scenario/trial.py:828-928 | a reset run only appends to the history, beginning with its own start |
| `TaskTheorems.TaskKeepsInv` | aws_bench/task/aws_trial.py:105-148 | every task trial, reset included, keeps the cloud's invariant |
| `TaskTheorems.SessionKeepsInv` | aws_bench/scenario/trial.py:185-270 | so does every sequence of scenario phases, task trials and init captures |
| `TaskTheorems.SessionAppends` | aws_bench/scenario/trial.py:185-270 | whatever a session does, its history only grows |
| `TaskTheorems.ContaminatedAccountsStayClosed` | aws_bench/scenario/trial.py:354-363 | over every session, between a failed reset's flag taking effect and a later operator deploy.sh or verifying task on that account there is a successful reset of it, or a wholly clean cleanup that reported that very account clean |
| `TaskTheorems.LiftedFlagsAreEarned` | aws_bench/scenario/trial.py:887-928 | over every session, a flag, whenever it was set, is lifted only right after its account was so restored |
| `TaskTheorems.NothingStartsOnFlagged` | aws_bench/task/aws_trial.py:295-318 | over every session, no operator deploy.sh and no verifying task starts on an account flagged just then, by a reset or from the beginning |
| `TaskTheorems.OnlyResetsDeployOnFlagged` | aws_bench/scenario/trial.py:343-345 | over every session, a deploy.sh that starts on a flagged account is the redeploy of a reset under way |
| `TaskTheorems.BaselinesStaySafe` | aws_bench/scenario/trial.py:846-882 | over every session, snapshots only right after a deploy.sh that exited 0, deploys only guarded and with init baselines, deletions only right after a wholly clean cleanup that reported that very account clean |
| `TaskTheorems.InitBaselinesAreKept` | aws_bench/resource_management/snapshot/manager.py:632-644 | over every session, between two captures of an account's init baseline a wholly clean cleanup deleted it |
| `TaskTheorems.InitBaselinesAreAsNoted` | aws_bench/resource_management/snapshot/manager.py:632-644 | over every session, an init baseline is stored iff it was captured and not deleted since |
| `TaskTheorems.CloudIsAsNoted` | aws_bench/scenario/trial.py:887-928 | over every session, the flags and the deploy baselines are exactly those the history last set or captured: none comes or goes unnoted |
| `Exports.Namespace.Put` | aws_bench/resource_management/export_collector.py:57-67 | accepts iff the namespace stays functional; a refusal changes nothing |
| `Exports.FlattenJsonExports` | aws_bench/resource_management/export_collector.py:70-90 | in any iteration order, succeeds iff no raw or synthetic name clashes, and gives exactly their union |
| `Exports.CollectOne` | aws_bench/resource_management/export_collector.py:93-120 | CloudFormation and SSM entries, the latter by last path segment; fails iff two clash |
| `Exports.MergeOne` | aws_bench/resource_management/export_collector.py:199-206 | folds one pair in or fails, leaving at most part of it behind |
| `Exports.Collector.MergeInto` | aws_bench/resource_management/export_collector.py:199-206 | a merge into a namespace that exists moves no other account's entries |
| `Exports.Collector.Merge` | aws_bench/resource_management/export_collector.py:199-206 | touches only the pair's own account |
| `Exports.FoldStep` | aws_bench/resource_management/export_collector.py:190-212 | each completion keeps the fold exact so far or failed for good, partial namespaces included |
| `Exports.FoldIsOwed` | aws_bench/resource_management/export_collector.py:190-215 | a finished fold is exactly what a collection owes its caller |
| `Exports.CollectAccountExports` | aws_bench/resource_management/export_collector.py:123-215 | for every completion order, succeeds iff every role was granted, every fetch came back and no two entries of one account clash; returns the union; a failure lists every refused account and broken fetch |
| `Exports.AnyTwoOrdersAgree` | aws_bench/resource_management/export_collector.py:190-215 | two collections of the same work both fail or return the same namespaces |
| `Exports.CollectableMeans` | aws_bench/resource_management/export_collector.py:47-54 | success spelled out pair by pair: no clash within a pair or across an account's regions |
| `Exports.NamespacesHoldTheExports` | aws_bench/resource_management/export_collector.py:70-120 | a returned name stands for a value iff a region of the account exports it so: CloudFormation, SSM by last path part, or a part of a JSON object under both names |
| `SemVer.ParseUndoesPrint` | scripts/update_registry.py:321-322 | printed numbers are canonical and parse back |
| `SemVer.PrintUndoesParse` | aws_bench/dataset/registry.py:41-50 | a digit string prints back iff it has no leading zero |
| `SemVer.PrefixSelectsTheBand` | aws_bench/dataset/registry.py:219-226 | a SemVer text starts with "M.m." iff its parsed major and minor are M and m |
| `SemVer.BumpIsCanonical` | scripts/update_registry.py:313-322 | whatever is bumped, the result is a canonical core version with the patch successor |
| `SemVer.BumpOfSemVer` | scripts/update_registry.py:313-322 | of the SemVer texts exactly the core ones can be bumped; the bump is the patch successor and strictly later |
| `SemVer.BandLookup` | aws_bench/dataset/registry.py:194-238 | a MAJOR.MINOR query finds a dataset iff a row of that name has that major and minor, and finds such a row; else it tells an unknown name from an empty band |
| `SemVer.ExactLookup` | aws_bench/dataset/registry.py:230-238 | a full version finds the last row of that name and exact text, if there is one; else it tells an unknown name from an unknown version |
| `SemVer.LatestLookup` | aws_bench/dataset/registry.py:194-238 | without a version, any known name resolves among all its version texts |
| `RegistryTheorems.RefreshKeepsMembership` | scripts/update_registry.py:329-366 | a refresh moves each pin to its path's latest commit or leaves it, and changes nothing else |
| `RegistryTheorems.RenewedIsSettled` | scripts/update_registry.py:593-613 | renewing a renewed entry gives it back without a bump |
| `RegistryTheorems.VersionFollowsContent` | scripts/update_registry.py:369-393 | a version changes iff the content did and bumping is on, then to the patch successor; the run exits iff such a version is not a core one |
| `RegistryTheorems.WalkFollows` | scripts/update_registry.py:580-613 | the walk keeps every entry but the unified one, in order |
| `RegistryTheorems.AppendedAreNew` | scripts/update_registry.py:615-627 | only reconciled scenarios the registry did not name are appended, and all of those still on disk are |
| `RegistryTheorems.UnifiedAmongReal` | scripts/update_registry.py:629-648 | an entry of the unified name is among the sources iff its scenario was just appended |
| `RegistryTheorems.SecondRunChangesNothing` | scripts/update_registry.py:575-648 | a second run gives the same registry and no bumps iff the unified name is not shadowed |
| `RegistryTheorems.ShadowedRunDiffers` | scripts/update_registry.py:184-218 | a concrete shadowed run whose repetition differs |
| `RegistryTheorems.NamelessEntriesFailTheUnion` | scripts/update_registry.py:629-643 | once walked and appended, a run that adds the unified dataset fails on a missing name iff some existing entry has none |
| `RegistryTheorems.NothingIsDropped` | scripts/update_registry.py:580-648 | the new registry opens with every existing entry but the unified one, in order and under its name, then new scenarios, then the unified entry, which appears once and last |
| `RegistryContents.EveryEntryIsCurrent` | scripts/update_registry.py:580-613 | nameless entries stay; a reconciled scenario on disk is built from its directory, every list path by path at its commit; any other entry keeps all but its pins; the version follows the content |
| `RegistryContents.RenewsExactly` | scripts/update_registry.py:593-613 | a named entry is renewed iff there is something for it to become, and becomes just that |
| `RegistryContents.NewcomersInOrder` | scripts/update_registry.py:615-627 | between the old entries and the unified one come exactly the reconciled scenarios on disk that no entry named, in order, built from their directories |
| `RegistryContents.UnionIsExact` | scripts/update_registry.py:184-218 | the unified entry lists, in registry order and as often as there, exactly the task and scenario pins of the discovered entries before it that are not excluded; it names and counts them and names the excluded ones |
| `RegistryContents.UnionIsVersioned` | scripts/update_registry.py:629-648 | its version follows its content since the last entry of its name; its metric is pinned to the given or the latest commit |
| `RegistryContents.BumpsAreTheChanges` | scripts/update_registry.py:369-393 | a run without the union reports, in order, one bump for each entry whose content moved while bumping is on |
| `RegistryContents.RunSucceedsExactly` | scripts/update_registry.py:575-627 | a run without the union goes through iff there is something to do, every named entry can be renewed, and every new scenario on disk can be built |
| `RegistryUpdater.Updater.RefreshEntryCommits` | scripts/update_registry.py:329-366 | the in-place loops refresh every pinned list and report exactly the unresolved paths |
| `RegistryUpdater.Updater.ResolveVersion` | scripts/update_registry.py:369-393 | settles the version and logs exactly the bumps |
| `RegistryUpdater.Updater.Walk` | scripts/update_registry.py:580-613 | the walk leaves the specified registry, log and seen names, or its first error |
| `RegistryUpdater.Updater.AppendDiscovered` | scripts/update_registry.py:615-627 | appends what the specification says |
| `RegistryUpdater.Updater.AddUnified` | scripts/update_registry.py:629-648 | rebuilds the unified entry from the directory-backed ones and moves it last; a nameless entry is an error |
| `RegistryUpdater.Updater.Run` | scripts/update_registry.py:408-669 | one run is the specified one, and repeating it changes nothing iff the unified name is not shadowed |
| `Heredoc.PaddedTestFindsLines` | aws_bench/scenario/container.py:471-477 | the newline-padded substring test holds iff the candidate is a line of the content |
| `Heredoc.HeredocRoundTrip` | aws_bench/scenario/container.py:459-463 | a shell reads back exactly the content and a newline iff the sentinel is no line of it |
| `Heredoc.CommandDelivers` | aws_bench/scenario/container.py:455-463 | for every accepted path, content and sentinel that is no line of it, the command's redirection feeds the file the content iff the path does not end in a newline |
| `Heredoc.CommandTargets` | aws_bench/scenario/container.py:455-463 | the command redirects into the file of the given path |
| `Heredoc.UniqueHeredocSentinel` | aws_bench/scenario/container.py:471-477 | returns the first candidate that is no line, within (number of lines) + 1 tries for pairwise distinct candidates |
| `Heredoc.WriteFile` | aws_bench/scenario/container.py:443-468 | refuses exactly the unsafe paths; a write that returns ran a command that exited 0 and, iff the path does not end in a newline, fed the content - to that path; any other exit code is an error |
| `Credentials.PassKeepsFresh` | aws_bench/scenario/container.py:309-329 | one pass, failed or not, keeps every file good for the skew less what failures have cost |
| `Credentials.RunKeepsFresh` | aws_bench/scenario/container.py:309-329 | so does every run |
| `Credentials.StartedFilesAreFresh` | aws_bench/scenario/container.py:219-266 | the files minted by start are good for the skew at the refresher's first wake-up, less what it wakes later than a pass and the minimum sleep |
| `Credentials.NeverExpired` | aws_bench/scenario/container.py:56-61 | from start's mint loop on, under the budget no file is expired at any instant of any run, with the slack that is left |
| `Credentials.BoundIsExact` | aws_bench/scenario/container.py:56-61 | beyond the budget, for every start, pass time and failure count, a run with an expired file exists |
| `Credentials.Refresher.Refresh` | aws_bench/scenario/container.py:309-329 | one pass rewrites the files up to its first failure and sleeps as specified |
| `Credentials.WakesAtTheSkew` | aws_bench/scenario/container.py:309-329 | after a full pass the refresher wakes when the first file has the skew left, no sooner than the minimum sleep; after a failed one in a minute |
| `Quotas.CountQuotasToVerify` | aws_bench/scenario/provisioning.py:823-834 | counts every declared quota whose tag is mapped |
| `Quotas.BuildWorkUnits` | aws_bench/scenario/job.py:184-209 | the loops build the specified (tag, region) units |
| `Quotas.GroupsAreKeyed` | aws_bench/scenario/provisioning.py:837-845 | each group holds only its own quotas and no two groups share a key |
| `Quotas.GroupingConserves` | aws_bench/scenario/job.py:184-209 | the quotas verified through the grouping are, each as often as declared, those of the direct count |
| `Quotas.VerifyQuotas` | aws_bench/resource_management/quota_manager.py:342-393 | one result per requested increase in order, met iff the current value reaches the desired one; raises iff a read fails |
| `Quotas.CheckQuotaSufficiency` | aws_bench/scenario/job.py:166-239 | passes iff every quota is readable and met, else lists exactly the unmet ones |
| `Quotas.ReportedProgressIsMet` | aws_bench/scenario/provisioning.py:781-807 | total minus unmet is the number of declared, mapped quotas currently met |
| `Quotas.AllMetMeansAll` | aws_bench/scenario/provisioning.py:793-803 | an empty unmet list means every declared, mapped quota is met |
| `Quotas.AllVerifiedMeans` | aws_bench/scenario/provisioning.py:823-834 | everything is verified iff each declared quota, in the account its tag is mapped to, reads at least the declared value |
| `Quotas.Poll` | aws_bench/scenario/provisioning.py:781-807 | all met iff every declared, mapped quota is readable and met; the observer is told the number met, or nothing if a read raised |
| `Quotas.AwaitQuotaApprovals` | aws_bench/scenario/provisioning.py:781-820 | returns only on the first poll that finds every declared, mapped quota met, raises only past the deadline and then what that poll found, polls at most ceil(timeout / interval) + 1 times, and reports the number met at each |
| `Quotas.WaitBoundIsReached` | aws_bench/scenario/provisioning.py:781-820 | the poll bound is attained |
| `Quotas.RequestIncrease` | aws_bench/resource_management/quota_manager.py:87-168 | only a disabled region is asked again, up to max_retries times with a sleep between; what each deciding response becomes |
| `Quotas.RequestQuotas` | aws_bench/resource_management/quota_manager.py:170-228 | one result per increase in order, each what its deciding response becomes; an error or no decision is a failed result |
| `Provisioning.OneOutcomePerPair` | aws_bench/scenario/provisioning.py:445-533 | the returned list has exactly one outcome per (scenario, tag) pair |
| `Provisioning.ResultsInOrder` | aws_bench/scenario/provisioning.py:503-533 | pairs whose account came back first, then the others, each in the order of the pairs |
| `Provisioning.EachLogCloses` | aws_bench/scenario/provisioning.py:536-746 | with cancellations anywhere: one START, first, in a log that begins; one END, last, iff the pair was not left between the phases; CANCEL just before it iff the pair was cut; END succeeded iff it went through and was provisioned |
| `Provisioning.EventsTellTheSteps` | aws_bench/scenario/provisioning.py:629-746 | in an uncancelled run each step's event is there iff the steps before it came back |
| `Provisioning.SiblingCancelLeavesOpen` | aws_bench/scenario/provisioning.py:473-533 | a sibling's cancellation in phase 1 leaves each pair whose account came back with a START and no END |
| `Provisioning.SucceededEndsAreProvisioned` | aws_bench/scenario/provisioning.py:163-190 | in an uncancelled run the END events with succeeded set are as many as n_provisioned |
| `Provisioning.SubmittedKeepsKey` | aws_bench/scenario/provisioning.py:678-716 | every region's submit is recorded or counted as failed, and the pair's identity is kept |
| `Provisioning.SubmitsItsQuotas` | aws_bench/scenario/provisioning.py:678-716 | a pair submits, one group a region, exactly the quotas its manifest declares for its tag, as often as declared; it records in order the batches whose submit came back and counts the rest; provisioned iff all did and the baseline was captured |
| `Provisioning.FailedPairsSubmitNothing` | aws_bench/scenario/provisioning.py:650-676 | a pair without its account or one of its roles submits nothing and is not provisioned |
| `Provisioning.ManifestIsTheLast` | aws_bench/scenario/provisioning.py:486-493 | a pair's manifest is that of the last pair with its key |
| `Provisioning.Provisioner.CreateAccount` | aws_bench/scenario/provisioning.py:536-586 | phase 1 of one pair under its finally clause: its outcome and events, cancelled anywhere or not |
| `Provisioning.Provisioner.ProvisionAccountLifecycle` | aws_bench/scenario/provisioning.py:629-746 | phase 2 of one pair under its finally clause: its outcome and events, cancelled anywhere or not |
| `Provisioning.Provisioner.ProvisionAll` | aws_bench/scenario/provisioning.py:445-533 | returns iff no task was cancelled, then one outcome per pair with successes conserved; the logs are the specified ones either way |
| `Jobs.NoMoreWonThanRun` | aws_bench/scenario/job.py:363-364 | all trials won iff the win count is the number of trials |
| `Jobs.TaskOutcomes` | aws_bench/scenario/job.py:62-77 | each task becomes its result or an exception value, a shutdown recognisable as such |
| `Jobs.CoerceOutcomesToResults` | aws_bench/scenario/job.py:399-425 | one result per config in order, exceptions as failed results of that config |
| `Jobs.Run` | aws_bench/scenario/job.py:346-369 | the same aggregate whether the run returns or unwinds: one result per config, successes plus failures equal to the total, a success iff the trial itself returned one |

## Left out

- Cancellation inside a gate's release, or a second cancellation while leaving: the condition's lock is never held across an await, so every critical section is one step.
- Harbor's own code: its trial, queue semaphore, finalization and version resolution are oracles or counting slots, and its retry filter and backoff are taken to be those of the scenario queue; `resolve_version` is only assumed to return one of its arguments.
- Emulator mode, which maps every scenario to one account.
- Account ids are positions in the organization and are never reused; concurrent provisioning of one scenario and account suspension in progress are not modelled.
- AWS, STS, docker, git and file-system calls: each is an oracle or a fixed function; local writes of results and configs never fail.
- Stored snapshots and flags are changed only by the operations modelled here; of the snapshot, cleanup, reset and verify managers only the records they return are modelled, one for each mapped account.
- JSON and TOML parsing: a value is an optional list of (sub-key, text); an entry's description is a structured value and its unread keys one text, so key order and text layout are not modelled.
- Non-ASCII digits and the trailing newline that Python's version patterns also accept.
- RegistryContents.RunSucceedsExactly: covers runs without the unified dataset; for the others `NamelessEntriesFailTheUnion` and `UnionIsVersioned` say what the union adds.
- The working-tree cleanliness check of the updater, and an entry whose name is an explicit null.
- Real time: clocks are parameters; the refresher is measured from the start and from its scheduled wake-ups.
- Provisioning: a cancellation inside an event's own emission, the length of the convergence wait and the account-limit abort; tasks of a phase share only the event stream, so each pair has its own log.
- The parent directory of a written path is a parameter.
- What `mkdir` and `cat` do with an accepted path that is not a file name: only the exit code is known.
- Hooks, display, logging, timing records, metrics, the CLI and agent installers: they would add only easy members.
