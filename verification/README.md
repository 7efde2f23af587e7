# Launch, publication and qualification protocols

A model of the scripts that run the project's one-shot qualification, and of the
properties they are built to keep.

**The launch.** `Launch` models `_launch_exact` as a transition system. Any number of
launchers share one ledger file. A program point stands for one statement that can raise,
be interrupted, or be the last thing a crashing parent did; the forked child and its pipe
take their own steps. The durable ledger image and the ledger in memory are separate, a
ledger write can raise with the old or with the new image in place, and the handshake
reads arbitrary lists of observed processes. An event that is not enabled changes nothing,
so that every sequence of events is a run. `LaunchInvariant` proves one inductive
invariant event by event; `LaunchTheorems` and `LaunchOutcomes` draw the guarantees from
it. `LaunchFollows` ties a run to what the child's own run decided, its code and its
output, and shows that only success completes; `LaunchEnds` that an undisturbed launch ends
as they say. `LaunchRuns` holds concrete runs, one for each result of a child and for each
claim that fails. `LaunchSteps` names single steps, `LaunchFrames` says what each leaves
alone, and `LaunchDurability` adds power cuts. `RunLedger` holds the ledger images. `Receipt`
is the child's payload, the validator and their agreement. `Finalization` writes
`_finalize_child_result` and `_persist_terminal_failure` as methods on the ledger and
proves that they do what the transition system does. `AtomicUpdate` proves where the three
outcomes of a ledger write come from, `ChildWait` the waiting and killing, and `Timing` holds
the measure of the wait loops.

**The publication run.** `Workload` is the synthetic workload, its chunks and the expected
versions; `PublicationRun` is the loop over the chunks with every check in order over a
store whose answers are arbitrary; `PublicationChain` says which of the closing checks can
still fail and exactly when; `PublicationReceipts` is the whole function with its receipt.
`EndToEnd` goes from the stores of two profiles to the durable ends of their launches. `TextOrder`
is the text order of the `ORDER BY`.

**The smaller protocols.** `Bootstrap` (lock, analyse, clean, retry in any number
of processes), `BootstrapSequence` (one of them as methods), `AnalyzerTail`,
`Disposition` (the K2 to K9 transitions), `SchemaValidator`, `History`, `ScaleInsert`,
`PageOrder`, `Maintainability`, `Aggregate` and `StatusPaths`.

`dafny verify dfyconfig.toml` checks the project.

## Where the code differs from what it is for

Each of these is a proved lemma with a concrete run or input, beside a lemma that says
exactly when the code does keep the promise.

- One interrupt at an unguarded statement (`Launch.Unguarded`) ends a launcher with no
  terminal image. Between the wait and the finalization's `try` (lines 1668 to 1673) it
  leaves `launched_consumed`. If the child was forked and not yet reaped, as between the
  release and the second `try`, or at the start of a handler before the signals are
  ignored, it is left behind: never reaped and never mentioned.
- An interrupt on the line of the fork loses the pid, with the same effect on the child.
  `LaunchOutcomes.EveryExit` has the exact condition for both halves.
- An interrupt between the in-memory consumption and its flag gives `prelaunch_failed`
  with a consumed token, so the guarantee is stated about release.
- A child interrupted outside the `try` of `_child_entry` unwinds into the handler of
  `_launch_exact` that it inherited, and can overwrite the image of a launched run with
  `prelaunch_failed`.
- A timed-out child that exits 0 makes the launcher return 0.
- A child that raised wrote no output; its launch fails at the evidence stage, and the
  child's exit code is not recorded.
- The exclusive creation flushes the ledger but not its directory: until the first update
  returns, a power cut can take the ledger away.
- The closing chain check orders publications by commit time and then by id, but all
  requests carry one commit time. Ids sort as texts: chunk 10 sorts before chunk 2, and
  every id of the production profile sorts before the seed. So the check rejects each
  correct production chain, and accepts a standard one up to ten chunks. As `run`
  publishes both profiles, it raises over every store that keeps the requested commit
  time, and no schedule of launches of it, with whatever faults, leaves a completed image
  (`EndToEnd.ActualProfilesNeverComplete`).
- `_status_paths` reports a rename by the second path of its record, which in git's `-z`
  format is the path the file came from; the new path is not reported.
- A bootstrap process that dies during its own analysis releases the lock while the
  analyser runs on: a second analysis can overlap it, and a second one can succeed.

## Assumptions

- Digests are injective: a digest over structured data is the data, and the logical id of
  a tool is its entity ordinal.
- An analysis that exits 0 leaves the index up to date, and nothing but the end of an
  analysis or clean changes it; one that a dead process left running ends once.
- A power cut leaves any part of a file from its flushed beginning on, and as directory
  entry the one shown or any it replaced since the last flush of the directory.
- The library's tail limits are the same at every call.
- Nothing is assumed of the planner, the writer, the pointer or recovery but what the
  script checks. Where more is needed it is a premise with a name: that only publications
  move the pointer and the table holds the seed and the committed chunks with the requested
  commit time (`PublicationReceipts.KeepsTable`), or that a store does everything right
  (`PublicationReceipts.Correct`); `CorrectStoreExists` shows that such stores exist.
- A sleep that is not interrupted lasts at least as long as asked, and the clock never
  goes back.
- A child returns the code and leaves the output that its own `run` decided, or fewer of
  them when a signal ends it (`LaunchFollows.Follows`); an output that was cut short does
  not parse.
- A process reaps only the child it forked, so that a consumed pid is not found again.

## Model

| member | source | states |
|---|---|---|
| `LaunchInvariant.NextKeeps` | scripts/benchmark_ck07r1_lifecycle_scale.py:1531-1688 | Every statement, exception, interrupt, crash and child step of the launcher that created the ledger keeps the invariant: flags set in order, the token consumed in memory only after an exact handshake, the release byte only over a durable consumption, and a durable image that fits the program point |
| `LaunchInvariant.ScanKeeps` | scripts/benchmark_ck07r1_lifecycle_scale.py:978-1014 | One process scan of the handshake, over any list of observed processes, keeps the invariant: only the exact child reaches the consumption, any other matching process raises |
| `LaunchTheorems.RunKeeps` | scripts/benchmark_ck07r1_lifecycle_scale.py:1495-1688 | In every run of any number of launchers exactly the creator of the ledger file satisfies the launch invariant and every other launcher has only moved its program point |
| `LaunchTheorems.AtMostOneForks` | scripts/benchmark_ck07r1_lifecycle_scale.py:1531-1545 | However launchers interleave, fail and crash, at most one ever forks a child or writes a release byte, and it is the one whose exclusive creation succeeded |
| `LaunchTheorems.GateStaysClosed` | scripts/ck07r1_prelaunch_recovery.py:281-285 | Once the ledger file exists no other launcher ever forks, whatever happens afterwards, and each of its remaining checks before the first `try` raises and leaves the file alone |
| `LaunchTheorems.ReleaseFollowsConsumption` | scripts/benchmark_ck07r1_lifecycle_scale.py:1593-1601 | A child that has read the release byte and is about to enter its workload finds a durable image with a consumed token, written by its own launcher after it observed exactly this child: pid, parent, user, both signatures, arguments and directory |
| `LaunchOutcomes.ReleasedIsConsumedExactly` | scripts/benchmark_ck07r1_lifecycle_scale.py:1593-1605 | At every moment the token of a released child is durably consumed exactly unless some escaped child overwrote the ledger and the file has not changed since |
| `LaunchOutcomes.ByChildIsOverwrite` | scripts/benchmark_ck07r1_lifecycle_scale.py:1106-1118 | The file shows a child's image exactly if the schedule has a landing overwrite by an escaped child with no change of the file after it |
| `LaunchDurability.ReleaseSurvivesPowerCuts` | scripts/benchmark_ck07r1_lifecycle_scale.py:1593-1597 | From the release on, whatever ledger a power cut leaves records the consumption or is an escaped child's image; it is never absent, so no other launch can begin |
| `LaunchDurability.UnflushedExactly` | scripts/benchmark_ck07r1_lifecycle_scale.py:319-365 | In every run a power cut can bring the absence of the ledger back exactly until some ledger write has returned, and can leave it torn exactly between its creation and then |
| `LaunchDurability.RunStaysSafe` | scripts/benchmark_ck07r1_lifecycle_scale.py:319-365 | In every run, once the token write has returned, everything that a power cut can leave records the consumption, over all later writes with any outcome |
| `LaunchFrames.OnlyConsumptionPasses` | scripts/benchmark_ck07r1_lifecycle_scale.py:1594-1597 | No event but the returned token write leads to the release |
| `LaunchTheorems.ConsumptionIsPermanent` | scripts/benchmark_ck07r1_lifecycle_scale.py:1370-1492 | A durable consumption survives every continuation without a write of an escaped child: no parent write undoes it |
| `LaunchTheorems.PrelaunchFailedNeverReleases` | scripts/benchmark_ck07r1_lifecycle_scale.py:1622-1640 | A parent's `prelaunch_failed` image means that no child was or ever will be released in any continuation; it shows a consumed token exactly if an interrupt fell between the in-memory update and its flag |
| `LaunchTheorems.CompletedIsSound` | scripts/benchmark_ck07r1_lifecycle_scale.py:1411-1492 | Every durable `completed` image has exit code 0, no timeout, a consumed token, and a receipt with the schema and digests of a payload and the evidence with which the validator accepted it |
| `LaunchFollows.CompletedIsEarned` | scripts/benchmark_ck07r1_lifecycle_scale.py:1411-1492 | For any number of launchers, any schedule and all faults: a completed image belongs to a launcher whose child returned 0 and left the very output that was parsed and accepted; its receipt holds that output's schema and digests and the evidence that was built |
| `LaunchFollows.OnlySuccessCompletes` | scripts/benchmark_ck07r1_lifecycle_scale.py:1446-1492 | If no launcher's child returns 0 and leaves an output the validator accepts, no schedule and no fault ever leaves a completed image |
| `LaunchEnds.EndIsDecided` | scripts/benchmark_ck07r1_lifecycle_scale.py:1495-1688 | Whatever the other launchers do, a launcher that no fault, interrupt or deadline disturbs and that was left after an exact handshake returned a code, and the code and every field of the durable image are exactly those of its child's code and output |
| `LaunchRuns.EveryResultIsMet` | scripts/benchmark_ck07r1_lifecycle_scale.py:1495-1688 | For every code and output of a child, or none, some undisturbed launch follows it to its end after an exact handshake |
| `LaunchRuns.CanCompleteExactly` | scripts/benchmark_ck07r1_lifecycle_scale.py:1411-1492 | A launch can complete, by any schedule with or without faults, exactly if its child returns 0 and leaves an output that the validator accepts |
| `LaunchOutcomes.MarksAreInterrupts` | scripts/benchmark_ck07r1_lifecycle_scale.py:1017-1067 | The interrupt marks of a run hold exactly if the schedule has an interrupt at an unguarded statement, on the fork, or between the consumption and its flag |
| `LaunchOutcomes.MarksAreWrites` | scripts/benchmark_ck07r1_lifecycle_scale.py:1370-1492 | The marks of the terminal writes hold exactly if a last-resort write failed, or a first finalization write landed, in the schedule |
| `LaunchOutcomes.LeftBehindStays` | scripts/benchmark_ck07r1_lifecycle_scale.py:1606-1673 | A child that an interrupt at an unguarded statement left behind, forked and not yet reaped, is never reaped afterwards; and only such a child is unreaped after such an interrupt |
| `LaunchOutcomes.EveryExit` | scripts/benchmark_ck07r1_lifecycle_scale.py:1540-1688 | Every way out of a launcher that created its ledger and whose last-resort write did not fail, in terms of the schedule: the durable state is terminal exactly if no interrupt hit an unguarded statement, or a finalization write landed, or a child wrote last; and unless a child wrote last, the child is never forked, reaped or named in a recorded cleanup failure exactly if no interrupt lost its pid on the fork and none left it behind at an unguarded statement |
| `LaunchOutcomes.ReturnCodeMeaning` | scripts/benchmark_ck07r1_lifecycle_scale.py:1411-1492 | A returned code tells what is durable: 0 means `completed` exactly if the child did not time out and `failed_after_launch` exactly if it did; 70 means a recorded failure |
| `LaunchOutcomes.FinalizationFailureIsRecorded` | scripts/benchmark_ck07r1_lifecycle_scale.py:1411-1492 | From any reachable finalization state, a raise, an interrupt or a failed first write followed by a working fallback leaves `failed_after_launch` at the stage that raised, token consumed, and returns 70 |
| `LaunchOutcomes.LaunchFailureIsRecorded` | scripts/benchmark_ck07r1_lifecycle_scale.py:1606-1640 | Whatever raises in the first `try`, if the handler's write returns then the durable state, stage, token and cleanup note are those of the statement that raised: `failed_after_launch` from the token write on, `prelaunch_failed` before it |
| `LaunchOutcomes.WaitFailureIsRecorded` | scripts/benchmark_ck07r1_lifecycle_scale.py:1652-1673 | Whatever raises in the wait is recorded as `failed_after_launch` at the wait with a consumed token, and says whether the cleanup failed |
| `LaunchOutcomes.EarlyFailureLeaves` | scripts/benchmark_ck07r1_lifecycle_scale.py:1495-1531 | An exception or interrupt before the creation leaves the file alone, and nothing was forked |
| `LaunchOutcomes.ScanExactly` | scripts/benchmark_ck07r1_lifecycle_scale.py:978-1014 | One scan of any list raises exactly if some process has another pid, and else ends the handshake exactly if the process that agrees with the child in everything is in it |
| `LaunchOutcomes.ChildEndsExactly` | scripts/benchmark_ck07r1_lifecycle_scale.py:1068-1118 | Every way in which a child comes to return, to escape into the inherited handler, and to die, with the status of each |
| `LaunchOutcomes.BrokenCreationBlocks` | scripts/benchmark_ck07r1_lifecycle_scale.py:319-335 | A creation that stops after its open leaves a torn file or the initial image, and in no continuation does any launcher ever fork |
| `LaunchRuns.FaultFreeRunCompletes` | scripts/benchmark_ck07r1_lifecycle_scale.py:1495-1688 | For every exact child, valid evidence and accepted payload a calm schedule in which the child returns 0 and leaves that payload reaches `completed` with its receipt and returns 0 |
| `LaunchRuns.FailedChildIsRecorded` | scripts/benchmark_ck07r1_lifecycle_scale.py:1411-1444 | In some schedule a child that leaves an output and returns another code, or is too late, ends `failed_after_launch` with that code recorded and returned |
| `LaunchRuns.UnevidencedChildIsRecorded` | scripts/benchmark_ck07r1_lifecycle_scale.py:1197-1214 | Whatever code a child returns, if it left no output then a schedule that nothing else disturbs ends `failed_after_launch` at the evidence stage with 70 returned and the child's own code not recorded |
| `LaunchRuns.RejectedChildIsRecorded` | scripts/benchmark_ck07r1_lifecycle_scale.py:1446-1492 | A calm schedule in which the child returns 0 and leaves that rejected payload ends `failed_after_launch` at the validation stage with 70 returned |
| `LaunchRuns.OneInterruptLeavesLaunchedConsumed` | scripts/benchmark_ck07r1_lifecycle_scale.py:1668-1673 | A single interrupt between the wait and the finalization's `try` ends the launcher with `launched_consumed` durable, although nothing else failed |
| `LaunchRuns.InterruptedHandoverLeavesTheChild` | scripts/benchmark_ck07r1_lifecycle_scale.py:1597-1650 | One interrupt between the release and the second `try` leaves a released child that is neither reaped nor mentioned, under a state that is not terminal |
| `LaunchRuns.TimedOutZeroReturnsZero` | scripts/benchmark_ck07r1_lifecycle_scale.py:1411-1444 | A timed-out child that exits 0 makes the launcher return 0 over a `failed_after_launch` image |
| `LaunchRuns.EscapedChildHidesTheLaunch` | scripts/benchmark_ck07r1_lifecycle_scale.py:1106-1118 | An interrupted child outside the `try` of its entry runs the handler it inherited and puts its fork-time ledger, as `prelaunch_failed` with an unconsumed token, over a launched run |
| `LaunchRuns.MidRecordInterruptMislabels` | scripts/benchmark_ck07r1_lifecycle_scale.py:1565-1593 | An interrupt between the in-memory consumption and its flag persists `prelaunch_failed` with a consumed token over a child that was never released |
| `LaunchRuns.InterruptedForkLosesTheChild` | scripts/benchmark_ck07r1_lifecycle_scale.py:1543-1547 | An interrupt on the fork leaves a terminal image over a child that is neither reaped nor mentioned |
| `EndToEnd.LaunchEndsExactly` | scripts/benchmark_ck07r1_lifecycle_scale.py:2852-2915 | Over two publication stores that do everything right, every undisturbed launch whose child does what its `run` decided, left after an exact handshake, completes exactly if both profiles' ids sort after the seed's with at most ten chunks, every gate is within budget and the fixtures agree; otherwise it ends `failed_after_launch`, with 1 for a missed budget and else 70 |
| `EndToEnd.CompletedRunIsGood` | scripts/benchmark_ck07r1_lifecycle_scale.py:1331-1367 | Over arbitrary stores, launchers, schedules and faults: a completed image belongs to a launch whose `run` got both receipts, met every budget and saw its launcher's fixtures |
| `EndToEnd.ActualProfilesNeverComplete` | scripts/benchmark_ck07r1_lifecycle_scale.py:2852-2872 | With the two profiles that `run` publishes, if every production store keeps its table: every `run` raises, and no schedule of any number of launchers and no fault ever leaves a completed image |
| `EndToEnd.ReturningRunEnds` | scripts/benchmark_ck07r1_lifecycle_scale.py:1331-1367 | Every undisturbed launch whose child's `run` returned the payload of sound measurements ends, by these measurements alone, completed, with a missed budget, or rejected for other fixtures |
| `EndToEnd.RaisingRunFails` | scripts/benchmark_ck07r1_lifecycle_scale.py:1352-1367 | Every undisturbed launch whose child's `run` raised leaves exactly the image of a failure at the evidence stage and returns 70 |
| `Finalization.LaunchRecord.FinalizeChildResult` | scripts/benchmark_ck07r1_lifecycle_scale.py:1398-1492 | The finalization statement by statement, for every combination of missing evidence, missing or rejected output and failing writes, leaves exactly the ledger, file and exit that are specified field by field |
| `Finalization.LaunchRecord.PersistTerminalFailure` | scripts/benchmark_ck07r1_lifecycle_scale.py:1370-1391 | The in-memory ledger takes the failure and its state whether or not its write works; the file only if the write lands |
| `Finalization.CompletesExactly` | scripts/benchmark_ck07r1_lifecycle_scale.py:1398-1492 | Given a fallback that lands, the file is `completed` exactly for a timely exit 0 whose evidence exists, whose output is accepted and whose first write returns, and otherwise `failed_after_launch` |
| `Finalization.TransitionsAgree` | scripts/benchmark_ck07r1_lifecycle_scale.py:1398-1492 | The finalization method and the transition system end with the same ledger, file and exit under every combination of faults |
| `Receipt.BudgetChecks` | scripts/benchmark_ck07r1_lifecycle_scale.py:2185-2202 | One verdict per gate of the frozen table, and a first failure that is absent exactly if the verdict map is the validator's all-true map |
| `Receipt.FirstFailureIsLeast` | scripts/benchmark_ck07r1_lifecycle_scale.py:2185-2202 | The first failure is absent exactly if every maximum is within its budget, and otherwise names the least failing gate of the frozen order with its observed value |
| `Receipt.VerdictsAllPass` | scripts/benchmark_ck07r1_lifecycle_scale.py:1253-1256 | The validator's all-true map equals the verdicts exactly if there is no first failure |
| `Receipt.ProducedWorkloadPasses` | scripts/benchmark_ck07r1_lifecycle_scale.py:1265-1328 | The validator's independent recomputation accepts the workload part of every payload that `run` builds |
| `Receipt.ProducerValidatorAgree` | scripts/benchmark_ck07r1_lifecycle_scale.py:1236-1262 | A payload built by `run` from returned publication receipts is accepted exactly if the child exits 0 and both sides saw the same fixtures |
| `Receipt.AcceptedExactly` | scripts/benchmark_ck07r1_lifecycle_scale.py:1236-1328 | The validator accepts exactly the receipts that meet a contract stated without any order of checks: bindings, evidence, all gates, five descriptors that describe their measurements, a digest that lists them, and bound publications with the frozen limits |
| `Receipt.ProducedPayload` | scripts/benchmark_ck07r1_lifecycle_scale.py:2852-3010 | The payload of a run, field by field, is what was measured, and it has no first failure exactly within the five budgets |
| `Receipt.AcceptedWorkloadIsDetermined` | scripts/benchmark_ck07r1_lifecycle_scale.py:1265-1328 | Two accepted payloads with the same measurements have the same five descriptors and the same workload digest |
| `Receipt.TamperedDescriptorIsRejected` | scripts/benchmark_ck07r1_lifecycle_scale.py:1265-1328 | An accepted payload is rejected once any one of its descriptors is replaced by another |
| `AtomicUpdate.Directory.Update` | scripts/benchmark_ck07r1_lifecycle_scale.py:333-365 | From any target, flushed or not, for arbitrary short writes and any system call raising before or after its effect: at every step a reader finds the old content or exactly the new one, and a power cut leaves the new one or something it could have left before; the outcome tells which, a normal return leaves everything flushed, a raise before the replacement leaves the target as it was; and the named faults leave one descriptor or temporary file behind |
| `AtomicUpdate.Directory.StageAndReplace` | scripts/benchmark_ck07r1_lifecycle_scale.py:344-359 | The write loop ends because every round makes positive progress, and from any target the replacement happens only over a completely written and flushed file |
| `AtomicUpdate.Directory.ExclusiveWrite` | scripts/benchmark_ck07r1_lifecycle_scale.py:319-330 | An existing file is refused and kept; a new file holds a prefix of the data, and all of it, flushed, exactly on a normal return of every call; its directory is not flushed, so the absence before stays what a power cut can bring back |
| `AtomicUpdate.WritesAllExactly` | scripts/benchmark_ck07r1_lifecycle_scale.py:345-350 | The loop succeeds exactly if a run of positive write results adds up to the length before any result that is not positive |
| `AtomicUpdate.SettledSurvives` | scripts/benchmark_ck07r1_lifecycle_scale.py:350-358 | A power cut leaves a completely flushed entry exactly as it is |
| `AtomicUpdate.UpdateLeaves` | scripts/benchmark_ck07r1_lifecycle_scale.py:333-365 | What a power cut can leave after an update follows from its outcome and from what it could leave before |
| `AtomicUpdate.UpdatesLeave` | scripts/benchmark_ck07r1_lifecycle_scale.py:1193-1194 | Over any number of updates from any start a power cut leaves the last flushed image or one that landed after it, and after a normal return exactly the image just written |
| `AtomicUpdate.CreationCanVanish` | scripts/benchmark_ck07r1_lifecycle_scale.py:319-330 | After the exclusive creation a power cut can take the new file away, and leaves nothing else but it |
| `ChildWait.Kernel.BoundedReap` | scripts/benchmark_ck07r1_lifecycle_scale.py:1121-1137 | With a clock that advances at least by each sleep the poll ends: a result is for the requested positive pid with the status of the last poll, `None` only after the whole timeout, and polls are bounded by it |
| `ChildWait.Kernel.TerminateAndReap` | scripts/benchmark_ck07r1_lifecycle_scale.py:1140-1173 | SIGTERM first, SIGKILL only when that phase reaped nothing, never a signal to a consumed pid unless a wait lost its status; an error means both signals went out and nothing was reaped |
| `ChildWait.Kernel.PollUntilDeadline` | scripts/benchmark_ck07r1_lifecycle_scale.py:1178-1186 | The polling ends by its own measure, at the child's result, past the deadline, or by an error; it raises for a negative sleep exactly if a second clock reading was late |
| `ChildWait.Kernel.WaitForChild` | scripts/benchmark_ck07r1_lifecycle_scale.py:1176-1190 | No signal before the deadline, none without a timeout, at most two, SIGTERM first; a result means the child was reaped; polls are bounded by the three timeouts; it raises for a negative sleep exactly if the second reading of some round passed a deadline that the first was before |
| `ChildWait.Kernel.WaitOrCleanUp` | scripts/benchmark_ck07r1_lifecycle_scale.py:1648-1671 | The wait with the cleanup of its handler: a late reading, as any raise, goes to the cleanup, which sends SIGTERM first; success or a cleanup without error means the child was reaped; at most four signals, none to a consumed pid unless a wait lost its status |
| `Workload.ScaleObservations` | scripts/benchmark_ck07r1_lifecycle_scale.py:1754-1765 | For every entity count the loops give 2n-1 observations (none for 0), each start and end in its place |
| `Workload.ScaleIsOrdered` | scripts/benchmark_ck07r1_lifecycle_scale.py:1716-1751 | Source order equals position, and lines, byte ranges and event times never overlap and only grow |
| `Workload.ScaleByPosition` | scripts/benchmark_ck07r1_lifecycle_scale.py:1716-1765 | Every field of every observation is determined by its position: even ones run, odd ones succeed |
| `Workload.EveryEntityRuns` | scripts/benchmark_ck07r1_lifecycle_scale.py:1754-1765 | Every entity runs once, and every one but the last then succeeds once, at the next position |
| `Workload.ChunksPartition` | scripts/benchmark_ck07r1_lifecycle_scale.py:2311-2312 | For every length and chunk size the chunks in order are the workload |
| `Workload.PairsStayTogether` | scripts/benchmark_ck07r1_lifecycle_scale.py:117 | The even chunk size never splits the two observations of an entity |
| `Workload.ExpectedVersions` | scripts/benchmark_ck07r1_lifecycle_scale.py:2347-2356 | The version counter across chunks gives each observation its rank among those of its entity in the whole run, and each entity the versions 1 to k, whatever the chunk size |
| `Workload.ScaleVersions` | scripts/benchmark_ck07r1_lifecycle_scale.py:2347-2356 | On the scale workload those versions are the transition ordinals plus one, without a gap |
| `PublicationRun.PublishChunk` | scripts/benchmark_ck07r1_lifecycle_scale.py:2311-2540 | One round of the loop returns the chunk record, with the exceeded limits in order, exactly if no check is violated, and otherwise the first violated one in order; the pre-commit identity comparison is never it |
| `PublicationRun.PublishChunks` | scripts/benchmark_ck07r1_lifecycle_scale.py:2311-2551 | For every number of chunks the loop returns all records, events and insertions if every chunk passes against the moving head, and otherwise stops at the first failing check of the first failing chunk |
| `PublicationRun.ValidateSelectedPlan` | scripts/benchmark_ck07r1_lifecycle_scale.py:2050-2068 | A plan is accepted exactly if the tail limits are the frozen ones and it is small, within all limits, with the one small reason, or large, with one reason for each exceeded limit in the order of the limits, and some limit exceeded |
| `PublicationRun.BreachesExactlyInOrder` | scripts/benchmark_ck07r1_lifecycle_scale.py:2050 | The breaches are the one list with one name for each exceeded limit in the order of the limits |
| `PublicationRun.ChunksFormAChain` | scripts/benchmark_ck07r1_lifecycle_scale.py:2457-2478 | If only publications move the pointer, a passed run is one path from the seed: each chunk is a direct child of the one before it and becomes the head |
| `PublicationChain.ClassFollowsLimits` | scripts/benchmark_ck07r1_lifecycle_scale.py:2053-2068 | A passed chunk took the small path exactly if no frozen limit was exceeded |
| `PublicationChain.BindingsFollow` | scripts/benchmark_ck07r1_lifecycle_scale.py:2655-2685 | The closing identity-binding conjunction holds of every record of a passed chunk, whatever moves the pointer in between, so its error cannot occur |
| `PublicationChain.PublishedOnceEach` | scripts/benchmark_ck07r1_lifecycle_scale.py:2653-2654 | After a passed loop the writer count is right exactly if every chunk was published once |
| `PublicationChain.PlannedBeforeLocked` | scripts/benchmark_ck07r1_lifecycle_scale.py:2686-2690 | After a passed loop the closing order check passes exactly if no writer lock was taken before the first plan |
| `PublicationChain.DirectChildrenInOrder` | scripts/benchmark_ck07r1_lifecycle_scale.py:2618-2623 | The parent links admit only the order of the commits: a list of rows that passes the direct-children test is the chain |
| `PublicationChain.OrderedCheckPassesExactly` | scripts/benchmark_ck07r1_lifecycle_scale.py:2612-2623 | For a correct chain the ordered check passes exactly if the profile's ids sort after the seed's and there are at most ten chunks, because all rows carry one commit time and are ordered as texts |
| `PublicationChain.ProductionNeverPasses` | scripts/benchmark_ck07r1_lifecycle_scale.py:2612-2623 | The ordered check rejects every correct chain of the production profile |
| `PublicationChain.StandardPassesExactly` | scripts/benchmark_ck07r1_lifecycle_scale.py:2612-2623 | The ordered check accepts a correct chain of the standard profile exactly up to ten chunks |
| `PublicationChain.StandardLimit` | scripts/benchmark_ck07r1_lifecycle_scale.py:2311-2341 | On the scale workload that is exactly up to forty thousand entities |
| `PublicationReceipts.PublicationReceipt` | scripts/benchmark_ck07r1_lifecycle_scale.py:2205-2752 | The whole function returns a receipt exactly if every chunk passes and every closing check holds; the receipt then reports bound identities and the library's limits; neither the pre-commit comparison nor the closing binding check is ever the reason for an error |
| `PublicationReceipts.ReturnedIsSound` | scripts/benchmark_ck07r1_lifecycle_scale.py:1257-1262 | A returned receipt has the frozen tail limits that the validator wants |
| `PublicationReceipts.CorrectReturnsExactly` | scripts/benchmark_ck07r1_lifecycle_scale.py:2552-2690 | A store that does everything right gets its receipt exactly if the profile's ids sort after the seed's and there are at most ten chunks |
| `PublicationReceipts.ProductionNeverReturns` | scripts/benchmark_ck07r1_lifecycle_scale.py:2612-2623 | Whatever else a store does, if it keeps the table of publications the production profile never gets a receipt |
| `PublicationReceipts.StandardReturnsExactly` | scripts/benchmark_ck07r1_lifecycle_scale.py:2552-2690 | From a store that does everything right the standard profile gets its receipt exactly up to ten chunks |
| `PublicationReceipts.CorrectStoreExists` | scripts/benchmark_ck07r1_lifecycle_scale.py:2311-2551 | For every profile and number of chunks some store does everything right, so that these results are about something |
| `PublicationReceipts.RunReturnsExactly` | scripts/benchmark_ck07r1_lifecycle_scale.py:2852-2872 | `run` returns its payload over two such stores exactly if both profiles pass that guard |
| `PublicationReceipts.ReturnedRunIsSound` | scripts/benchmark_ck07r1_lifecycle_scale.py:2905-2915 | A payload that `run` returns was built from publications that the validator accepts |
| `PublicationReceipts.ReturnedPublications` | scripts/benchmark_ck07r1_lifecycle_scale.py:1352-1367 | A returned payload reports each profile's own limits, and the child's code is 70 exactly if its run raised |
| `TextOrder.SortedUnique` | scripts/benchmark_ck07r1_lifecycle_scale.py:2612-2617 | Two strictly sorted lists with the same members are equal: the query has only one answer |
| `StatusPaths.StatusPathsOf` | scripts/ck07r1_prelaunch_recovery.py:108-136 | The index loop over the NUL-separated entries returns exactly the specified set or the first problem |
| `StatusPaths.ReadsWhatGitWrites` | scripts/ck07r1_prelaunch_recovery.py:108-136 | Reading the rendering of any valid list of changes succeeds and reports each change once, a rename or copy by the path it came from |
| `StatusPaths.CoveredExactlyWithoutMoves` | scripts/ck07r1_prelaunch_recovery.py:130-135 | For a list with each path once and nothing moved from where something else moved to, the reported set covers every changed file exactly if no status has an R or a C |
| `StatusPaths.RenameHidesItsTarget` | scripts/ck07r1_prelaunch_recovery.py:130-135 | A single rename is reported without the file that is now there |
| `Bootstrap.InvKept` | scripts/bootstrap_dev_environment.py:986-1177 | Every step of any number of processes keeps the invariant: one lock holder, counted work per program point, no more running orphans than deaths, and at most one success without a death at work |
| `Bootstrap.AnalysesNeverOverlap` | scripts/bootstrap_dev_environment.py:986-1013 | In every run at most one live process analyses or cleans, and it holds the lock; counting those that dead processes left running, at most one more run at once than processes died at work |
| `Bootstrap.AtMostOneSucceeds` | scripts/bootstrap_dev_environment.py:1032-1080 | In every run in which no process died during its own analysis or clean, at most one process's analysis succeeds, and then the index is up to date |
| `Bootstrap.SuccessesBounded` | scripts/bootstrap_dev_environment.py:1032-1080 | In every run at most one process more succeeds than processes died at work |
| `Bootstrap.SecondSuccessExactly` | scripts/bootstrap_dev_environment.py:1032-1080 | In every world with a free lock, two processes yet to start can both succeed without a further death at work exactly if a dead process's analysis still runs and the index is stale or a second one runs |
| `Bootstrap.OverlapExactly` | scripts/bootstrap_dev_environment.py:986-1013 | Under the same condition, and no other, two analyses can come to run at once |
| `Bootstrap.SpareKept` | scripts/bootstrap_dev_environment.py:986-1080 | Over any continuation successes are paid for by what was spare or by deaths at work |
| `Bootstrap.BoundedWork` | scripts/bootstrap_dev_environment.py:1032-1112 | Per process at most two analyses, the second only after the one clean, the clean only for the exact worktree with recognised corruption, and with check-only no install, analysis or clean |
| `Bootstrap.ReadyIndexIsLeftAlone` | scripts/bootstrap_dev_environment.py:1042-1045 | An index that is up to date with nobody working is never analysed in any run |
| `Bootstrap.SuccessWasSeen` | scripts/bootstrap_dev_environment.py:1141-1177 | A process reports success only in a step that inspects an up-to-date index and passes the compare scope |
| `Bootstrap.FailsExactly` | scripts/bootstrap_dev_environment.py:1032-1177 | Everything that makes a running process fail, by its program point and what it meets; nothing else does |
| `Bootstrap.ToolWasSound` | scripts/bootstrap_dev_environment.py:1093-1130 | In every run a process goes on from the tool check only after it found the tool present with its pinned version, or repaired it without check-only |
| `BootstrapSequence.Host.WaitForLock` | scripts/bootstrap_dev_environment.py:995-1006 | The lock loop ends: the lock is given up only after the whole timeout, a free lock is taken at the first attempt, and attempts are bounded by the timeout |
| `BootstrapSequence.Host.AnalyzeIfNeeded` | scripts/bootstrap_dev_environment.py:1032-1080 | At most two analyses and one clean, the clean only after a failed analysis of the exact worktree with recognised corruption, the second analysis only after it worked; success only over an up-to-date index; nothing is touched unless the index was stale |
| `BootstrapSequence.SequenceAgrees` | scripts/bootstrap_dev_environment.py:1032-1080 | From the lock on, the method and the transition system of interleaved processes end with the same index, counts and result |
| `Bootstrap.OrphanAllowsASecondSuccess` | scripts/bootstrap_dev_environment.py:1000-1013 | The exception is real: a process that dies while analysing releases the lock, and its running analysis can undo the index so that two other processes both succeed |
| `AnalyzerTail.Capture` | scripts/bootstrap_dev_environment.py:897-936 | However the output is cut into chunks, everything is echoed, a short output is captured whole, and of a longer one exactly its last 65,536 characters behind the notice |
| `AnalyzerTail.Extend` | scripts/bootstrap_dev_environment.py:902-923 | Adding a chunk to the bounded deque one character at a time keeps the last characters |
| `AnalyzerTail.SplitDoesNotMatter` | scripts/bootstrap_dev_environment.py:912-931 | Splitting a chunk in two changes nothing |
| `Disposition.Manifest.Apply` | scripts/generate_kernel_manifests.py:529-616 | A task's transition writes exactly the entries of that task, each with the fields of its table row or of the retirement, and a missing key leaves the file as it was |
| `Disposition.WordWrites` | scripts/generate_kernel_manifests.py:780-949 | After the quarantine and any word a decided entry has, field by field, the row of its final task or the retirement, a deferred one the deferral, and any other the base's fields |
| `Disposition.MissingKeyExactly` | scripts/generate_kernel_manifests.py:902-930 | A transition fails exactly for a selected path outside the base, or one of K5 or K6 outside their tables |
| `Disposition.PassesMeans` | scripts/generate_kernel_manifests.py:704-745 | The per-entry checks accept exactly the decided fields, and of an unmanaged entry any status |
| `Disposition.Manifest.ApplyQuarantine` | scripts/generate_kernel_manifests.py:517-526 | Exactly the entries that are not kept become removed |
| `Disposition.Manifest.ApplyK9` | scripts/generate_kernel_manifests.py:619-628 | All entries become verified if every proof holds, and otherwise nothing is written |
| `Disposition.Idempotent` | scripts/generate_kernel_manifests.py:529-616 | Applying a transition twice is applying it once, on every entry |
| `Disposition.CommuteExactly` | scripts/generate_kernel_manifests.py:529-616 | On every entry consistent with the base two transitions commute exactly unless they are K2 and K3 and the entry still awaits its deferral |
| `Disposition.RunIsAfter` | scripts/generate_kernel_manifests.py:529-616 | What any word of transitions makes of an entry depends only on whether it holds the entry's task, or for a deferred path a K2 before a K3 |
| `Disposition.PassesExactly` | scripts/generate_kernel_manifests.py:704-745 | After the quarantine and any word an entry passes the per-entry checks exactly if the word decides it, or if it already passed and was never touched |
| `Disposition.EveryOrderConverges` | scripts/generate_kernel_manifests.py:517-616 | Quarantine, K2, then K3 to K8 in any order bring every entry, the deferred ones included, to the fields of its final task, and all pass the per-entry checks |
| `Disposition.ClosingPassesExactly` | scripts/generate_kernel_manifests.py:619-628 | The closing transition keeps what passes, and makes an entry pass exactly if its other fields are the decided ones |
| `SchemaValidator.SchemaFailures` | scripts/benchmark_agent_outcome.py:1197-1249 | For every nested value and schema, a failure is reported exactly if it names a constraint broken at that place, at any depth; the recursion ends |
| `SchemaValidator.NodeFailures` | scripts/benchmark_agent_outcome.py:1216-1248 | The failures of one node are exactly its broken constraints |
| `SchemaValidator.KeyFailures` | scripts/benchmark_agent_outcome.py:1220-1225 | Exactly the required keys that are absent, and for a closed schema the keys without a property |
| `SchemaValidator.ConformingHasNone` | scripts/benchmark_agent_outcome.py:1197-1249 | Soundness: a value that conforms by the independent relation violates nothing at any depth |
| `SchemaValidator.OtherHasOne` | scripts/benchmark_agent_outcome.py:1197-1249 | Completeness: a value that does not conform violates some constraint that is reported |
| `SchemaValidator.EmptyExactly` | scripts/benchmark_agent_outcome.py:1197-1249 | No failures exactly for a conforming value |
| `SchemaValidator.InvalidTypeExactly` | scripts/benchmark_agent_outcome.py:1197-1216 | An invalid type is reported at a node exactly if its value answers to none of the listed type names |
| `SchemaValidator.PyEqualMeans` | scripts/benchmark_agent_outcome.py:1216-1220 | What constants and enumerations compare: booleans, integers and floats by value, lists by position, objects by key |
| `History.CallLines` | scripts/benchmark_agent_outcome.py:243-257 | The calls of one turn that carry an allowance are as many as there are multiples of the period among their global ordinals |
| `History.SourceLines` | scripts/benchmark_agent_outcome.py:226-263 | One file holds one session and the shape's turns, calls, tools and activities, and the allowances due between its offset and the next file's |
| `History.GenerateHistory` | scripts/benchmark_agent_outcome.py:284-316 | For every shape the lines over all files match the manifest, which computes its counts, the allowances included, without looking at them |
| `ScaleInsert.Publication.InsertRows` | scripts/qualify_ck08r3_evidence_scale.py:457-543 | Whatever the batch boundaries, every ordinal of the share is inserted once and in order in all four tables |
| `ScaleInsert.Publication.Fill` | scripts/qualify_ck08r3_evidence_scale.py:351-576 | The session reaches exactly the target from any start exactly if the stated guards hold, with the exact rows of both shares in all tables; the second capacity error and the count error cannot occur |
| `ScaleInsert.IdsDistinct` | scripts/qualify_ck08r3_evidence_scale.py:493-494 | Call ids and occurrence ids of different profiles or padded ordinals differ, whatever the profile contains, and no call, occurrence or profile id is one of another kind |
| `ScaleInsert.IdentitiesDistinct` | scripts/qualify_ck08r3_evidence_scale.py:512-534 | No identity is registered twice, over calls and occurrences together |
| `ScaleInsert.RegisteredStays` | scripts/qualify_ck08r3_evidence_scale.py:406-446 | Every insertion keeps the registry free of repeated identities and each made identity beside its profile, so that no chain of insertions ever meets the registry's unique key |
| `ScaleInsert.NewRangesAreDisjoint` | scripts/qualify_ck08r3_evidence_scale.py:420-429 | New byte ranges and record ordinals lie past every existing one and do not overlap |
| `ScaleInsert.NewRowsFollowTheMaxima` | scripts/qualify_ck08r3_evidence_scale.py:415-534 | Records, byte ranges and tail ordinals of the new rows are fixed by the greatest existing ones and the ordinal |
| `ScaleInsert.PaddedLength` | scripts/qualify_ck08r3_evidence_scale.py:493-494 | Ordinals of up to seven digits are padded to exactly seven, and longer ones are left alone |
| `ScaleInsert.TailOrdinalsStayWithinCapacity` | scripts/qualify_ck08r3_evidence_scale.py:392-404 | New tail ordinals continue the existing ones without a gap and stay within the capacity |
| `ScaleInsert.EveryOrdinalOnce` | scripts/qualify_ck08r3_evidence_scale.py:545-547 | Over both tables every ordinal up to the target has one call, no two share an id, and each call owns the occurrence of its ordinal |
| `PageOrder.LessIsStrictTotal` | scripts/qualify_ck08r3_evidence_scale.py:604-613 | The seven-part key order is a strict total order |
| `PageOrder.FirstDifferenceDecides` | scripts/qualify_ck08r3_evidence_scale.py:604-613 | Of two keys the smaller one has the smaller value in the first of the seven parts that differs |
| `PageOrder.MonotonicIsStrict` | scripts/qualify_ck08r3_evidence_scale.py:656-659 | The duplicate test and the sorted test together are exactly a strict order |
| `PageOrder.MatchingPagesArePrefix` | scripts/qualify_ck08r3_evidence_scale.py:933-951 | First and deep pages that match the oracle are together a strictly ordered, duplicate-free prefix of all calls without a gap, in either direction |
| `PageOrder.PagesMatchExactly` | scripts/qualify_ck08r3_evidence_scale.py:937-940 | The three tests accept exactly pages that together start the expected list and repeat no call |
| `PageOrder.MatchingPagesByTime` | scripts/qualify_ck08r3_evidence_scale.py:933-951 | In matching forward pages event times never decrease and undated calls come last, and in backward pages the reverse |
| `Maintainability.NormalizedFindings` | scripts/check_kernel_maintainability.py:27-48 | The findings are exactly the blocks above 20, the files above 10 on average and the repository above 10 on average, sorted by id |
| `Maintainability.SomeFileAtLeast` | scripts/check_kernel_maintainability.py:40-47 | For every threshold ratio that the repository exceeds on average some file exceeds it too |
| `Maintainability.RepositoryNeedsAFile` | scripts/check_kernel_maintainability.py:40-47 | The repository finding never stands alone: some file has a finding |
| `Maintainability.DuplicateIdsExactly` | scripts/check_kernel_maintainability.py:75-77 | The size comparison detects exactly two findings with one id |
| `Maintainability.NonRegressionTransitive` | scripts/check_kernel_maintainability.py:80-95 | Two non-regressing steps make a non-regressing step, in exact ratios |
| `Maintainability.RegressedExactly` | scripts/check_kernel_maintainability.py:75-95 | A baseline regresses exactly if an id is repeated in it or the earlier one, or a finding is new or has a higher ratio than the earlier one of its id |
| `Maintainability.ChainNeverRegresses` | scripts/check_kernel_maintainability.py:80-95 | Along any chain of baselines no later one regresses from, or has more findings than, any earlier one |
| `Aggregate.ObservationMap` | scripts/aggregate_performance_qualification.py:80-102 | A map is returned exactly for a non-empty list of well-formed observations with distinct metrics, and it is that list |
| `Aggregate.AggregateMetrics` | scripts/aggregate_performance_qualification.py:105-144 | Summaries of all contract metrics are returned exactly if every report has exactly the contract's metrics and budgets |
| `Aggregate.BreachedExactly` | scripts/aggregate_performance_qualification.py:105-144 | A metric breaches exactly if at least three of its five reported samples exceed the reported budget, and its p95 is its maximum, which no sample exceeds |
| `Aggregate.RoundedIsNearest` | scripts/aggregate_performance_qualification.py:121-138 | A reported value is the nearest millionth, and of two that are as near the even one |
| `Aggregate.RawSamplesDecide` | scripts/aggregate_performance_qualification.py:121-138 | Three raw samples over the budget by more than a millionth make a breach, and three within it prevent one |
| `Aggregate.AggregateReports` | scripts/aggregate_performance_qualification.py:147-231 | The chain of tests gives the classification: a test looks at all reports before the next one starts; regression is reported exactly for some breach, a metric with three raw samples clearly over its budget breaches, and one with three within it does not |
| `Aggregate.OrderDoesNotMatter` | scripts/aggregate_performance_qualification.py:147-231 | The outcome and the breached metrics are the same for every order of the reports |

## Left out

- Launch: `_launch_exact` is a transition system and not a method, because its claims are about crashes, interrupts and other processes between any two statements; only its finalization is also given as methods.
- Launch: the process-table scraping, `lsof` and `ps` parsing, lexical interpreter and argument comparison are one predicate on an observed process list; `launch` fields other than identities, timestamps, usage figures and messages are not part of the ledger.
- Launch: the handshake's own deadline is the event that its statement raises; signals are one interrupt event, and one that is ignored or not yet converted is no event or a crash.
- Receipt: JSON text, SHA-256 and the fields of the payload that the validator never reads.
- Receipt: `run`, `_profile_run` and `_lifecycle_sample` are represented by what they measured; timing samples and memory figures are not modelled.
- AtomicUpdate.Directory.Update: closing the descriptor in the `finally` is taken to free it, and an interrupt between the two assignments of the temporary file's names counts as a failed creation.
- Workload.ScaleObservations: the entity count is a parameter; its rounding of floating-point ratios is not modelled.
- PublicationReceipts.PublicationReceipt: the comparison of the committed lifecycle rows and tool folds with the reference is one answer of the store; the startup-recovery probe before the loop is not modelled.
- Disposition: the file-system proofs of K9 are a parameter, and the checks on whole-file digests, path sets and canonical text are not modelled.
- Bootstrap: the Python environment, versions and status parsing; looking for the tool, the index state and the compare scope are parameters of events; the transition system does not measure the lock wait, which `BootstrapSequence.Host.WaitForLock` does.
- SchemaValidator.SchemaFailures: states which failures are reported, not their order or how often each one is.
- SchemaValidator: NaN and values that are not JSON.
- History: the bytes of the lines, timestamps and the digest; a shape has a positive allowance period.
- ScaleInsert.Publication.Fill: unique keys other than that of the identity registry; a registry that already holds a made identity without its profile is refused by the database, which is not modelled.
- ScaleInsert: the model-profile row, template columns and the query-only pragma.
- PageOrder: the evidence service itself, its SQL, byte limits and timing.
- Maintainability: ratios are exact, where the script divides floating-point numbers; counts of recorded findings are positive.
- Aggregate: medians and rounding are over reals; means and the coefficient of variation are not modelled.
- StatusPaths: UTF-8 decoding errors, and the comparison of the path set with the authority.
- AnalyzerTail: the incremental UTF-8 decoder; chunks are its decoded texts.
- `scorecard_failures`, `stable_scorecard_shape`, `summarize_cli_observation`, `verify_preserved_failure_ledger` and `_observe_child_start`'s message texts: fixed comparisons or counts that would only add easy members.
