# Landing queue, gate and command-line accounting: a verified model

The repository lands reviewed changes through a queue. A landing run claims the
waiting entries, cherry-picks them onto the remote tip, runs the repository's
gate on the combined tree, bounces the entry that breaks it and tries again
with the rest, records a plan, pushes, and reports one outcome per entry. A
later run settles a run that died on the way. This project models that
protocol, the gate that decides it, and four smaller algorithms beside it, and
proves what they promise. `dafny verify dfyconfig.toml` checks everything.

## The parts

- `git.dfy`, `landing_checkout.dfy`, `landing_batch.dfy`, `landing_rounds.dfy`,
  `landing_run.dfy`: the run itself, as methods over a checkout object. Commits are
  trees with a parent, a maker and a stamp, so history is part of the commit.
  Every call out of the program has a number and may fail; what it answers is an
  arbitrary function of that number. The checkout keeps a ghost record of what the run has
  looked at or done: each gate, probe, bundle tip, saved gate and push with its
  calls, its tree and the answer, entered only by the method that makes those
  calls. Whatever a run claims to have seen is in that record.
- `queue.dfy`, `queue_safety.dfy`, `queue_histories.dfy`, `queue_lost_entries.dfy`:
  the server's queue, the remote branch and any number of runners as one state
  machine. A crash is a runner that takes no further step; a call to the server
  may be lost before or after it takes effect; outsiders may push. The same
  automaton of a single runner constrains the run's events in `landing_run.dfy`.
- `landing_histories.dfy`: the two put together. A runner's part in a history is
  what its own events come to (`HistoryPlays`), so what a run guarantees holds of
  it in every history: what it pushes there was cleared by its own gate.
- `gate.dfy`, `gate_rules.dfy`, `gate_verdicts.dfy`, `unhandled_errors.dfy`,
  `landing_culprit.dfy`: the gate with arbitrarily flaky commands, the gate with
  commands that depend only on the tree, the reader of Vitest's unhandled errors,
  and the bounced entry.
- `log_stream.dfy`: following the event stream of the server's log, a subset of
  section 9.2 of the WHATWG HTML Living Standard.
- `cli_latency.dfy`, `cli_summary.dfy`, `takode_latency.dfy`: interval union,
  record splitting, percentiles and histograms.
- `test_selection.dfy`: routing test paths to gate steps.
- `activity.dfy`: which messages an answer answers, as collected, printed and read.
- `text.dfy`, `option.dfy`: shared string operations and the option type.

## Assumptions

- A failed `git push` left the remote unchanged.
- Entry ids are distinct, and every claimed entry has at least one commit.
- The landing branch has a linear first-parent history, new commits differ from
  all earlier ones, and a runner's view of the branch moves only by its own
  fetch at its start.
- The server stores plans and outcomes as given (`web/server/landing-queue-manager.ts`).
- A focused path, a directory and a reported file are resolved paths. Paths in
  failure ids contain no `>` and do not look like an unhandled error's id.

## What turned out to be conditional

- An interrupted run that is still alive and pushes after the next run has
  fetched is told "not pushed" although it pushed: its entries go back to the
  queue while their commits are on the branch (`LatePushLosesAnEntry`).
- `isAncestor` answers "no" when Git itself fails (`web/bin/landing-git.ts:21-26`),
  so a check that fails is recorded as "not pushed", and a run that pushed loses
  its entries in the same way (`BlindVerdictLosesAnEntry`).
- These two are the only ways: `NothingLostIff` proves, for every history, that
  nothing is lost if and only if neither happens.
- A command that fails without printing anything makes the search for the
  culprit end at the last entry; a test runner that cannot start anywhere makes
  it end at the first.
- An answer that names a message twice can be printed as if it named all open
  messages. The server removes repeated ids before it sends an answer
  (`SentAnswerIsDistinct`), so this needs another sender.
- `takode activity` looks up what is answered by a message's index alone, over all
  sessions of the response. An answer in one session hides that a message with
  the same index in another has none (`UnansweredIsHidden`); without such an
  answer the mark is right for every message (`UnansweredIsRightIff`).
- A test file whose path contains the separator of failure ids is not found
  again from its id.

## Model

| member | source | states |
|---|---|---|
| QueueHistories.LandedIsOnRemote | web/bin/landing-run.ts:207-232 | In every history, with crashes, lost replies, overlapping runs and outside pushes, an entry on record as landed is on the remote whole: its recorded commits stand there in a row, one per submitted commit and in order, each the cherry-pick of that commit onto the one before it |
| QueueHistories.VerdictIsRightIff | web/bin/landing-run.ts:80-90 | The ancestor check on what was fetched answers rightly whether an interrupted run pushed exactly when that run has not pushed since the fetch; the answer "pushed" is right in every case |
| QueueHistories.NothingLostIff | web/bin/landing-run.ts:80-90 | Exactly when nothing is lost, for every history: everything that accepted pushes delivered is on record as landed with its own mapping or held by the open run that pushed it, if and only if no settled run pushes after the fetch of the run that settles it and no run that pushes is settled by a check Git did not answer |
| QueueHistories.OnlyLatePushesLose | web/bin/landing-run.ts:80-90 | While Git answers every ancestor check, the same holds if and only if no settled run pushes after that fetch |
| QueueHistories.NothingLost | web/bin/landing-run.ts:80-90 | The half that keeps: under that condition each delivered entry is on record as landed by its run or still held by it, and never back in the queue |
| QueueHistories.WrongVerdictLoses | web/bin/landing-run.ts:83-87 | The other half: a run that pushes at any time and is told "not pushed" loses everything it delivered |
| QueueHistories.NothingLandsTwice | web/bin/landing-run.ts:80-90 | Under the same condition on the history, no entry is delivered by two accepted pushes |
| QueueLostEntries.LatePushLosesAnEntry | web/bin/landing-run.ts:80-90 | A concrete history of nine possible steps, with every check answered, in which a late push leaves an entry both on the remote and waiting in the queue |
| QueueLostEntries.BlindVerdictLosesAnEntry | web/bin/landing-git.ts:21-26 | A concrete history of nine possible steps in which the settling run has fetched the push, Git does not answer its check, "not pushed" is recorded, and the entry is lost |
| QueueHistories.HistoryOnlyGrows | web/bin/landing-run.ts:213-215 | For any number of concurrent runs, the remote history at any earlier point is a prefix of the later one |
| QueueHistories.AcceptedPushIsExact | web/bin/landing-run.ts:207-215 | An accepted push found the remote at exactly the commit its run had fetched and stacked on, and added exactly the planned stack, nothing else |
| QueueHistories.PushIsFirst | web/bin/landing-run.ts:207-232 | A run pushes at most once: before its accepted push the remote holds none of its commits, afterwards it does |
| QueueSafety.AcceptedPush | web/bin/landing-run.ts:211-215 | One accepted push: the remote equals the fetched commit, and the new history is the old one followed by the stack |
| QueueSafety.PushedVerdict | web/bin/landing-run.ts:83-87 | A recorded verdict "pushed" means that run's own push was accepted, with the plan the server holds |
| QueueSafety.PlannedTip | web/server/landing-queue-manager.ts:406-420 | A recorded plan's tip is on the remote exactly when its own run pushed that plan |
| QueueSafety.CloseSlots | web/server/landing-queue-manager.ts:833-865 | Recording a run's outcomes gives each of its entries its own outcome and leaves every other entry alone |
| QueueSafety.VerdictSlots | web/server/landing-queue-manager.ts:449-470 | A recorded verdict decides every entry of the interrupted run: with "pushed" the planned ones are landed with their planned mapping and the others returned, with "not pushed" all wait again; no other entry changes |
| QueueSafety.AbandonSlots | web/server/landing-queue-manager.ts:817-831 | Abandoning a run puts its entries back in the queue, unless it has a plan on record: then they stay with it until it is settled |
| QueueSafety.ReportSlots | web/server/landing-queue-manager.ts:833-865 | A recorded report decides every entry of its run as it says: landed with the reported mapping, returned, or waiting; no other entry changes |
| QueueSafety.SlotsKept | web/server/landing-queue-manager.ts:327-373 | Every step keeps: an entry is held by at most one run, an open one, and that run claims it; the entries of an open run are held by it |
| QueueSafety.InvKept | web/server/landing-queue-manager.ts:406-470 | Every step of the whole system keeps the invariant on slots, runs, runners' views, who made the remote's commits, and "landed" records |
| QueueSafety.InvAlways | web/server/landing-queue-manager.ts:327-470 | The invariant holds after every history from an empty queue |
| Git.NoResidue | web/bin/landing-run.ts:324-364 | The history at a stack's tip is the base's history followed by the stacked entries' commits and nothing else, and its tree is the plain replay of exactly those patches over the base tree, despite aborts and resets |
| Git.OwnStack | web/bin/landing-run.ts:329-361 | Between the base and a stack's tip there are only commits the stacking run made |
| Git.AncestorIsPrefix | web/bin/landing-git.ts:21-26 | A commit is an ancestor of another if and only if its history is a prefix of the other's |
| LandingCheckout.Site.CherryPick | web/bin/landing-run.ts:337-348 | A cherry-pick that succeeds makes a child of HEAD with the applied tree, marked with the number of this very call, so it is new; one that fails leaves HEAD where it was, with files in any state, and fails only on a conflict or a failing call |
| LandingCheckout.Site.PickAll | web/bin/landing-run.ts:335-356 | Cherry-picking an entry is all or nothing in the mapping: one mapped commit per submitted commit, in order; it fails only if plain replay conflicts, the entry is empty, or one of these calls failed |
| LandingCheckout.Site.BuildStack | web/bin/landing-run.ts:324-364 | The result is a stack on the base with HEAD at its tip (the base if empty) and clean files; stacked and conflicting entries are the given ones, each list in order; each conflicting entry does not replay on the entries kept before it, unless one of these calls failed; if none failed the stack is exactly what plain replay admits |
| LandingCheckout.Site.FindCulprit | web/bin/landing-run.ts:371-390 | At most ⌈log2 n⌉ probes, for any answers they give: the search itself probed the prefix without the returned entry and saw it pass, and probed the one with it and saw it fail, except at the two ends that it never probes; it fails only if one of its calls fails |
| LandingCheckout.Site.Halve | web/bin/landing-run.ts:378-388 | One probe half way keeps what was seen and takes one off the number of probes still needed |
| LandingCheckout.CeilLog2IsLeast | web/bin/landing-run.ts:378-389 | The bound on probes is the least k with 2^k at least n |
| LandingRun.GateStack | web/bin/landing-run.ts:178-191 | The gate runs on the tree of the stack's tip from this method's first call on; on failure the search, in the calls after the gate's, ends at the entry to bounce |
| LandingRun.GateTree | web/bin/landing-run.ts:178-179 | The gate's answer is that of the gate on the tree that is checked out, in exactly these calls; a failing one names its step and hands out a probe; it throws only if one of these calls fails |
| LandingRun.FailureHasProbe | web/bin/landing-gate.ts:190-192 | A gate that fails always hands out a probe and names a step |
| LandingRun.Restack | web/bin/landing-run.ts:161-166 | Entries that conflict are bounced for that and no other outcome changes; the stack is the rest in order; every bounce so far has its cause; unless one of these calls fails the stack is what plain replay admits |
| LandingRun.GatePass | web/bin/landing-run.ts:178-204 | A failing gate bounces exactly one entry, which had no outcome, with the failed step, at most thirty of its new failures and whether it was alone, and leaves every other outcome and entry as it was; a stack that passes was passed by the gate that this method ran, in exactly its calls |
| LandingRun.ClearOrGate | web/bin/landing-run.ts:167-204 | The same, and no gate only for a single entry whose full pre-submit run tested the same tree |
| LandingRun.Pass | web/bin/landing-run.ts:161-205 | One pass clears the remaining stack by a gate it runs itself, or by the full test of its only entry, or makes the batch smaller; it keeps every earlier outcome and brings no entry back |
| LandingRun.LandBatch | web/bin/landing-run.ts:160-205 | The loop ends within as many passes as entries fetched, and so runs at most that many gates; refusals are kept; every entry ends up in a stack that a gate run in this loop cleared, or bounced with the cause its reason names; it throws only if one of its calls fails |
| LandingRun.CheckEntry | web/bin/landing-run.ts:301-321 | An entry is admitted only if its base is on the branch and the submitted tip was read back from its bundle; every refusal has its reason in what was read; unless one of these calls fails, exactly the entries are admitted that are based on the branch, not on it yet, and whose tip was read back |
| LandingRun.FetchAll | web/bin/landing-run.ts:137-146 | After admission every claimed entry is in the batch, in queue order, or bounced for a reason that is true |
| LandingRun.TryPush | web/bin/landing-run.ts:207-215 | The plan with the same base, tip and mapping is recorded before the push; the push is not tried exactly if recording or renewing fails or the lease is lost, and then it succeeds exactly if the remote accepts it; each push that is tried goes on record with its call and its answer |
| LandingRun.PushAndSync | web/bin/landing-run.ts:207-232 | A push that is not tried has its cause in these calls; one that is was made after the plan was taken and the lease renewed, and its answer is the remote's at that very call |
| LandingRun.PushBatch | web/bin/landing-run.ts:207-232 | After a push attempt every claimed entry has an outcome: stacked ones landed with their mapping if the push was accepted and requeued if not, all others bounced |
| LandingRun.Prepare | web/bin/landing-run.ts:119-205 | Everything before the push: on any failure no stack; without a gate everything is bounced, for that reason; otherwise the gate that was read cleared the stack in these calls, or there is none; it throws only if one of them fails |
| LandingRun.FetchAndLand | web/bin/landing-run.ts:137-205 | With a gate: every entry is in the cleared stack or bounced with its cause |
| LandingBatch.BatchAfterBounce | web/bin/landing-run.ts:196-204 | Bouncing one entry of the batch leaves a strictly smaller batch |
| LandingBatch.BatchAfterConflicts | web/bin/landing-run.ts:165-166 | Bouncing the conflicting entries leaves a batch of exactly the stacked ones |
| LandingBatch.FillMissingFacts | web/bin/landing-run.ts:237-245 | Filling in after a failure keeps the outcomes there are and gives every other claimed entry one |
| LandingBatch.ReportFits | web/bin/landing-run.ts:266-275 | The report has one outcome per claimed entry, in claim order, and says "landed" exactly for the entries of an accepted push |
| LandingRun.Report | web/bin/landing-run.ts:255-282 | A report is what the protocol allows: a second report after a failed first says the same |
| LandingRun.PushCleared | web/bin/landing-run.ts:207-232 | Whatever was cleared is pushed unless something failed before: afterwards every entry has an outcome decided by that push, or a failed call or a lost lease is on record |
| LandingRun.ReportAll | web/bin/landing-run.ts:234-282 | The report is sent once, and once more exactly if the first attempt fails and the run had not failed before; the second says the same as the first |
| LandingRun.LandClaimed | web/bin/landing-run.ts:112-282 | Whatever fails, the run reports an outcome for every claimed entry, each decided by the push; a bounce has the cause it names, and an entry is requeued as of a failed run only if a call of this run failed or its lease was lost; it runs at most as many gates as it claimed entries; the report stays unsent only if its last call failed and something had gone wrong before that |
| LandingRun.CalmRunIsDecided | web/bin/landing-run.ts:160-232 | When no call of a run fails and its lease is kept, every claimed entry is bounced for a cause that holds, or it is in the stack that was pushed, and it landed or waits again exactly as the remote answered that push: what passes the gate is always pushed |
| LandingRun.SettleRuns | web/bin/landing-run.ts:82-87 | Each interrupted run gets exactly one verdict, in order: "pushed" if its check was answered and its planned tip is an ancestor of what was fetched, and "not pushed" otherwise, also when the check failed; if telling one fails, exactly those before it and that one are told |
| LandingRun.ClaimWork | web/bin/landing-run.ts:80-91 | As long as the server names interrupted runs they are settled and the claim is repeated, three times at most; it ends with the answer to its last claim, or at a call that fails |
| LandingRounds.RoundAdds | web/bin/landing-run.ts:81-89 | A claim answered with interrupted runs, one verdict on each of them in order, and the next claim right after: that is one more round |
| LandingRounds.RoundsAreMade | web/bin/landing-run.ts:81-89 | So between any two claims that follow one another stands exactly one verdict for each run that the first was answered with |
| LandingRounds.StoppedInRounds | web/bin/landing-run.ts:81-89 | A run that ends without a job has told nothing but what it fetched and whole rounds, and breaks off after a claim with the first of the verdicts that it asked for |
| LandingRounds.JobInRounds | web/bin/landing-run.ts:80-253 | With a job a runner claims no more, whatever else it tells |
| LandingRun.SettleRun | web/bin/landing-run.ts:83-87 | One such verdict, told to the server in the next call |
| LandingRun.RunLanding | web/bin/landing-run.ts:65-253 | All that a whole run tells the server and the remote is what the protocol allows. It begins with the commit it fetched. Between two claims it tells exactly one verdict on each run the first claim was answered with, true exactly if that check was answered and the planned tip is on the branch. It finds nothing to land only when its last claim says so, or still names interrupted runs after three such rounds. A run that is given entries reports all of them; what it plans to push was cleared by a gate of its own, or fully tested before; each outcome has the cause it names. It ends in failure only if its last call failed |
| LandingRun.CrashedRunIsSound | web/bin/landing-run.ts:205-232 | A run cut off after any number of its events is a legal history of the protocol, and all it told until then is sound: a plan on record was cleared by this run, a report that was sent names a sound outcome for every entry |
| LandingHistories.HistoryPlays | web/bin/landing-run.ts:65-253 | What a history of the queue says about a runner, after any steps of any runners, is what that runner's own events come to, so a run and its part in a history are the same thing |
| LandingHistories.SoundInHistory | web/bin/landing-run.ts:112-282 | Wherever a run crashes in a history with other runs, what it has planned, pushed and reported there is as sound as on its own |
| LandingHistories.PushedIsCleared | web/bin/landing-run.ts:167-215 | In every history, an accepted push finds the remote at the commit its run had fetched and adds exactly a stack that this run cleared by a gate of its own, or whose only entry was fully tested on that very tree |
| LandingHistories.PushBreaksNothing | web/bin/landing-run.ts:167-215 | No push in any history breaks a step that worked on the branch right before it, if that step depends only on the tree and has readable reports on both, unless its single entry was tested before on that very tree |
| LandingRun.ConflictsFounded | web/bin/landing-run.ts:165-166 | An entry bounced as a conflict does not replay on entries kept before it in the queue, unless a call of this run failed |
| LandingRun.AfterAccepted | web/bin/landing-run.ts:228-231 | After an accepted push the outcomes fit the plan: landed exactly for the stack, with its mapping |
| LandingRun.AfterRejected | web/bin/landing-run.ts:216-227 | After a rejected push nothing is landed and exactly the stacked entries are requeued |
| LandingCulprit.BouncedEntryIsCulprit | web/bin/landing-run.ts:185-204 | When the step that failed depends only on the tree and its reports on the base and on the stack are readable, the stack before the bounced entry passes the failing check, and with the entry fails it, unless it is the last entry of a stack whose command failed silently; whatever other steps do and whatever calls of the run fail, and with no monotonicity |
| LandingCulprit.ReportedCulprit | web/bin/landing-run.ts:190-202 | From a run's report: every entry reported as having broken the gate is itself in a stack of claimed entries that this run gated with the gate it read; if the failed step is dependable, the stack before it passes the check the report names and with it the check fails, with the one exception above |
| LandingCulprit.ReportedReason | web/bin/landing-run.ts:190-202 | What the owner of such an entry is told is true: the step it names is the one that failed, the failures are the first of its new ones and at least one, and when the step named tests each of them failed in the rerun, not on the base, and once more in the confirm run |
| LandingCulprit.SilentFailureBlamesLast | web/bin/landing-run.ts:366-390 | The excluded case: when a command that depends only on the tree and never prints fails the gate, the last entry is bounced whichever entry broke the check |
| LandingCulprit.CannotStartBlamesFirst | web/bin/landing-gate.ts:143-147 | When the gate fails by a test runner that cannot start on any tree, not even on the base, the run bounces its first entry |
| LandingCulprit.PushedTreeIsSound | web/bin/landing-run.ts:169-184 | What is cleared for pushing breaks no step that the base does not break, for every step that depends only on the tree and has readable reports on both, unless its single entry was tested before on that very tree; whatever the other steps do and whatever calls fail |
| Gate.RunGate | web/bin/landing-gate.ts:87-167 | The loop over steps, one result record updated in place, computes what the steps come to one after another, and stops at the first rejected one |
| GateRules.FailuresAreSorted | web/bin/landing-gate.ts:112-141 | With arbitrarily flaky commands, the failures of the first run and the rerun are sorted into flaky, pre-existing and new with nothing lost, invented or in two groups |
| GateRules.BlameNeedsThreeRuns | web/bin/landing-gate.ts:118-141 | A failure is blamed only if it failed again on rerun, did not fail on the base and failed on confirm, unreadable reports counting as the code counts them |
| GateVerdicts.StepRejectsOrNot | web/bin/landing-gate.ts:106-165 | For every lab and every base, flaky or not: a step that does not throw is rejected if and only if something is blamed |
| GateVerdicts.GateFailsOrNot | web/bin/landing-gate.ts:97-167 | The same for the gate: it fails if and only if its list of new failures is not empty |
| GateVerdicts.RejectedIsBlamed | web/bin/landing-gate.ts:112-141 | A gate that fails blames something, and when its step named tests each blamed id failed in the rerun, did not fail on the base and failed in the confirm run |
| GateVerdicts.GateSumsUp | web/bin/landing-gate.ts:97-167 | The gate goes on after every accepted step and stops at the first that is not; its flaky and pre-existing lists are those of all steps in order, its new failures those of the rejecting step alone |
| GateVerdicts.GoneIsFlaky | web/bin/landing-gate.ts:112-121 | Failures that the rerun does not show are flaky, and the step is passed over |
| GateVerdicts.NoBaseBlamesAll | web/bin/landing-gate.ts:122-123 | Without a baseline exactly what the rerun shows is blamed |
| GateVerdicts.WholeStepRerun | web/bin/landing-gate.ts:148-155 | A test step that failed without a failing test is rerun whole: passing then, it is flaky and not rejected |
| GateVerdicts.FirstRunDecides | web/bin/landing-gate.ts:104-147 | What the first run alone decides: a selection without test files and a report that cannot be read are rejected, a passing run is accepted |
| GateVerdicts.OutputVerdict | web/bin/landing-gate.ts:156-165 | A failure without test names is excused exactly if there is a baseline, it fails too, and it printed every line that was printed; the probe then looks for lines the baseline did not print |
| GateVerdicts.GateThrowsIff | web/bin/landing-gate.ts:87-167 | The gate has no answer if and only if one of its calls fails, the dependency install included |
| GateVerdicts.ProbeSees | web/bin/landing-gate.ts:183-188 | A probe of a tree is true exactly if the run fails and shows one of the blamed ids, or a line that the baseline did not print |
| GateVerdicts.RunIsRead | web/bin/landing-gate.ts:194-216 | What is taken from a run: output lines and unhandled errors only of a failed one, a report only of a test step |
| GateVerdicts.FileFails | web/bin/landing-gate.ts:233-238 | A reported file fails by each of its failing tests, and as a file exactly if it failed without one |
| GateVerdicts.NormalizeMember | web/bin/landing-gate.ts:299-311 | Output is compared by its lines: numbers hashed, the space around them cut off, blank ones left out, and no other |
| GateRules.IdsTellApart | web/bin/landing-gate.ts:282-283 | Two unhandled errors have the same id exactly when they blame the same file and say the same up to numbers |
| GateRules.FileRecovered | web/bin/landing-gate.ts:245-247 | The file is read back from an id exactly when no separator starts inside the path or across its end, whatever the test is called; always for a path without ">" |
| GateRules.SeparatorInPath | web/bin/landing-gate.ts:245-247 | A separator in a test name does no harm; one in a path does |
| GateRules.ThrownFile | web/bin/landing-gate.ts:283-283 | The id of an unhandled error that names a file leads back to that file |
| GateRules.RerunIsExact | web/bin/landing-gate.ts:229-253 | The rerun of a report's failures and of unhandled errors runs exactly the files with a failing test or an error from them; if an error names no file, the whole step or selection |
| GateRules.RunIsRerunExactly | web/bin/landing-gate.ts:194-253 | End to end: for a failed test run with a readable report and unhandled errors printed one after the other or amid any other output, the ids read from both make the gate rerun exactly the files behind them, or the whole step or selection |
| GateRules.ScopeShows | web/bin/landing-gate.ts:250-253 | When partial runs agree with whole runs, rerunning the scope of some failures shows exactly which of them the tree has |
| GateRules.SteadyTests | web/bin/landing-gate.ts:112-142 | With tests that depend only on the tree, unless a call of the step fails, nothing is flaky and exactly the failures the base lacks are blamed |
| GateRules.SteadyStep | web/bin/landing-gate.ts:106-165 | A step that depends only on the tree and does not throw is rejected exactly if it fails on the change in a way the base does not |
| GateRules.SteadySteps | web/bin/landing-gate.ts:98-166 | Unless its last call fails, the gate accepts exactly if no step newly fails; otherwise it names the first such step and its new failures are exactly the change's minus the base's |
| GateRules.SteadyGate | web/bin/landing-gate.ts:97-166 | The same for the whole gate, dependency install included, with the exact new failures of the step it names |
| GateRules.ProbeSeparates | web/bin/landing-gate.ts:183-188 | The probe of a rejected step shows nothing on the base, and shows the failure on the change except exactly when the failing command printed nothing and passes on the base |
| GateRules.ProbeAnswers | web/bin/landing-gate.ts:183-188 | With a step that depends only on the tree, a probe of a tree shows the same at every call that does not fail |
| GateRules.ProbeWithoutReport | web/bin/landing-gate.ts:143-147 | Without a readable report the probe shows a failure on the base whenever the base fails with output |
| GateRules.RejectingStep | web/bin/landing-gate.ts:141-164 | A failed gate's probe, failures and step name come from one and the same rejected step |
| UnhandledErrors.ReadBlock | web/bin/landing-gate.ts:275-281 | One block: the first line with text and the first file named before the next rule |
| UnhandledErrors.HeaderForm | web/bin/landing-gate.ts:261-274 | Exactly the lines with a known kind between two rules start a block |
| UnhandledErrors.OriginForm | web/bin/landing-gate.ts:262-280 | Exactly the lines that quote a path without a quote in it between the two fixed texts name a file |
| Text.HashAround | web/bin/landing-gate.ts:283-283 | Hashing keeps every character that is no digit, and treats what is before and after it alone |
| Text.HashNumber | web/bin/landing-gate.ts:283-283 | Hashing turns a whole number into one mark |
| Text.TrimMeans | web/bin/landing-gate.ts:271-271 | Trimming cuts off the space at both ends and nothing else |
| UnhandledErrors.UnhandledErrorIds | web/bin/landing-gate.ts:269-286 | The index loops find exactly the distinct ids of the printed blocks, first seen first |
| UnhandledErrors.ReadsWhatIsPrinted | web/bin/landing-gate.ts:269-286 | Printing any list of unhandled errors in blocks, each ended by a rule of its own, by the next ruled line, such as the next header, or by the end of the output, amid any lines that are no headers, and reading the whole output gives back exactly their distinct ids |
| UnhandledErrors.OneRuleIsEnough | web/bin/landing-gate.ts:275-281 | Errors set directly one after the other need no rules between them: only the last one needs an end |
| VitestFormat.IdsOfRun | web/bin/landing-gate.ts:259-286 | The same for the program's scan with Vitest's own texts |
| UnhandledErrors.NumbersDoNotMatter | web/bin/landing-gate.ts:282-283 | Outputs that differ only in the numbers of message lines give the same ids |
| VitestFormat.VitestIsSound | web/bin/landing-gate.ts:259-262 | Vitest's fixed texts meet the conditions of the two results above |
| LogStream.FollowLog | web/bin/takode-message-commands.ts:1366-1388 | For every way of cutting the text into chunks, the loop emits the entries of the finished blocks of the whole text, in order, up to the first that cannot be parsed |
| LogStream.StreamLogs | web/bin/takode-message-commands.ts:1366-1388 | The same for the server's log and its event blocks |
| Text.SplitGrows | web/bin/takode-message-commands.ts:1373-1375 | Greedy splitting of a text that grows: what was cut off stays, and only the last part is split again |
| Text.SplitMeans | web/bin/takode-message-commands.ts:1373-1375 | Splitting loses nothing and cuts as early as possible |
| LogStream.FinishedGrows | web/bin/takode-message-commands.ts:1373-1375 | Finished blocks of text plus a chunk are those of the text, then those of the kept rest plus the chunk |
| LogStream.LaterChunks | web/bin/takode-message-commands.ts:1386-1388 | After an entry that cannot be parsed, later chunks emit nothing |
| LogStream.ReadFields | web/bin/takode-message-commands.ts:1381-1384 | The line scan keeps the last event type and the last data of a block |
| LogStream.EntryMeans | web/bin/takode-message-commands.ts:1377-1385 | A block is a log entry exactly if its last type line says "entry" and its last data line has text, which is then its data |
| LogStream.ParsedFromFront | web/bin/takode-message-commands.ts:1386-1388 | Blocks without data are passed over, data that cannot be parsed ends it all, and any other data is the next entry |
| LogStream.SentIsFinished | web/bin/takode-message-commands.ts:1374-1375 | Blocks sent with a blank line after each are read back exactly, if no blank line starts inside one |
| LogStream.BlockIsRead | web/bin/takode-message-commands.ts:1381-1385 | An entry's data sent as a block is read back unchanged |
| CliLatency.UnionDuration | web/bin/cli-latency.ts:147-157 | The sweep returns the number of time points covered by at least one request, in whatever order the requests come |
| CliLatency.CoveredMeans | web/bin/cli-latency.ts:147-157 | A time point is covered exactly if it lies in one of the requests |
| CliLatency.Sweep | web/bin/cli-latency.ts:149-156 | The same for requests sorted by start, skipping contained ones |
| CliLatency.ByStartCovered | web/bin/cli-latency.ts:148-148 | Sorting does not change what is covered |
| CliLatency.BuildRecord | web/bin/cli-latency.ts:111-138 | Request time is the covered time, server time its sum capped by it; if every request lies between startup and now, the parts fit: 0 ≤ server ≤ requests ≤ total − startup |
| CliLatency.ServerSumMeans | web/bin/cli-latency.ts:121-121 | The server time of a run adds up the known server times of its requests, and no others |
| CliLatency.Tracker.Start | web/bin/cli-latency.ts:55-63 | A started request counts from now, with no time yet |
| CliLatency.Tracker.Finish | web/bin/cli-latency.ts:64-76 | Finishing, also again when the body is read, stretches that request to now and changes no other |
| CliLatency.Tracker.Exit | web/bin/cli-latency.ts:83-92 | At exit the parts of the record fit, for every sequence of starts, finishes and unfinished requests |
| CliSummary.SummarizeCliLatency | web/bin/takode-latency.ts:80-88 | Every run is in the row of its command and no other, in order; there are no empty rows |
| CliSummary.RunsOfMeans | web/bin/takode-latency.ts:82-88 | The runs of a command in a log are those in its first part and then those in the rest |
| CliSummary.RowTimes | web/bin/takode-latency.ts:89-94 | The times of a row, field by field: total, startup, server and transport are the quotients of the sums of just these times by the number of runs |
| CliSummary.TotalMeans | web/bin/takode-latency.ts:89-89 | Such a sum is what is picked from one run, and adds up over parts of the log |
| CliSummary.RowCounts | web/bin/takode-latency.ts:96-100 | A row counts its runs and those of them that failed, and says whether some request of theirs has no server time |
| CliSummary.FlagMeans | web/bin/takode-latency.ts:110-110 | A row is flagged exactly if every request has a server time and, in the sums over its runs, transport is at least 25 per run and more than server and local time together |
| CliSummary.MeansAddUp | web/bin/takode-latency.ts:89-95 | The four means add up to the total mean if and only if the runs' time outside startup and requests is not negative in sum |
| CliSummary.TrackedRunsAddUp | web/bin/takode-latency.ts:89-110 | For records the tracker makes the means always add up and the clamp is never active; a flag then means transport took more than half of the time after startup |
| CliSummary.PercentilesAreExact | web/bin/takode-latency.ts:101-102 | The reported percentiles are the nearest-rank samples of the runs' total times |
| TakodeLatency.PercentileIsNearestRank | web/bin/takode-latency.ts:238-240 | On sorted totals the index computation gives the nearest-rank sample; the minimum is never needed |
| TakodeLatency.NearestRankUnique | web/bin/takode-latency.ts:238-240 | There is at most one nearest-rank sample, so order does not matter |
| TakodeLatency.HistogramUpperBound | web/bin/takode-latency.ts:242-249 | The scan reports the bound of the first bucket at which the fraction has been seen |
| TakodeLatency.NearestRankBucket | web/bin/takode-latency.ts:242-249 | That bucket is the one that holds the exact nearest-rank duration |
| TakodeLatency.BracketsSome | web/bin/takode-latency.ts:248-249 | A reported bound is the least bound that is not below the exact sample |
| TakodeLatency.BracketsNone | web/bin/takode-latency.ts:246-248 | No bound is reported exactly if the exact sample is past the last bound |
| TakodeLatency.BucketsCount | web/server/latency-log.ts:90-93 | The buckets up to the k-th count exactly the durations up to the k-th bound |
| TakodeLatency.BucketsComplete | web/server/core-action-latency.ts:36-45 | All buckets together, and the count, are the number of durations |
| TakodeLatency.StatsMean | web/server/core-action-latency.ts:36-45 | The sum and the maximum of an aggregate are the sum and the longest of its durations |
| TakodeLatency.BoundsRise | web/server/latency-log.ts:29-29 | The program's bucket bounds rise, as the results on buckets ask |
| TakodeLatency.AddWindow | web/bin/takode-latency.ts:128-131 | One window is added to an entry, bucket by bucket |
| TakodeLatency.MergeWindows | web/bin/takode-latency.ts:120-133 | Each action that has a window gets the sum of its own windows |
| TakodeLatency.SummarizeServerActions | web/bin/takode-latency.ts:119-143 | One row per action with a window, on that action's merged windows |
| TakodeLatency.ActionLatency.Record | web/server/core-action-latency.ts:36-50 | Recording keeps: log and open window together are the aggregate of all calls |
| TakodeLatency.DurationsJoin | web/server/core-action-latency.ts:36-50 | The durations of an action are those of its own calls, all of them and in order |
| TakodeLatency.ActionLatency.Flush | web/server/core-action-latency.ts:53-76 | So does writing the open window to the log, in whatever order of actions |
| TakodeLatency.ReportOf | web/bin/takode-latency.ts:119-143 | However an action's calls were spread over windows, its row counts all of them, with their sum and their longest, and its bound brackets their exact 95th percentile |
| TakodeLatency.AnyWindowsBracket | web/bin/takode-latency.ts:119-143 | The same for windows from any number of recorders in any order |
| TakodeLatency.MergedInAnyOrder | web/bin/takode-latency.ts:120-133 | The merged windows of an action do not depend on the order of the log |
| TakodeLatency.MergedIsAggregate | web/bin/takode-latency.ts:120-133 | Merging windows gives the aggregate of all their durations |
| TestSelection.InsideIsPrefix | web/bin/takode-land.ts:360-363 | The test on the relative path's text is true exactly if the path is the directory or below it, segment by segment |
| TestSelection.LongerIsDeeper | web/bin/takode-land.ts:339-340 | Among directories that contain the same path, the longer text is the deeper directory |
| TestSelection.FindsHome | web/bin/takode-land.ts:350-350 | The first match in the sorted steps is the deepest containing directory, the first configured one among equals; none exactly if no directory contains the path |
| TestSelection.HomeIsUnique | web/bin/takode-land.ts:350-350 | That step is unique |
| TestSelection.SelectTests | web/bin/takode-land.ts:330-358 | Every path goes to its home and no other step, in order; otherwise the first path that has none is reported, with the reason |
| TestSelection.EachPathOnce | web/bin/takode-land.ts:342-356 | All steps together have exactly as many arguments as there are paths |
| TestSelection.ArgumentMeansPath | web/bin/takode-land.ts:355-355 | Run in the step's directory, an argument means exactly the path that was named |
| TestSelection.ArgumentsArePaths | web/bin/takode-land.ts:342-356 | The arguments of a step mean exactly the paths that have their home there, in the order in which they were named |
| TestSelection.GateRunsSelected | web/bin/landing-gate.ts:98-105 | The gate then skips exactly the test steps that are no path's home and gives the others their arguments |
| TestSelection.FocusedGate | web/bin/landing-gate.ts:98-105 | The gate with the selection is the gate on the wanted steps alone, flakiness and failing calls included: test steps without a path make no difference, and no other step is left out |
| Activity.FormatThread | web/bin/takode-activity.ts:99-114 | Read from the printed lines alone: a user message is marked "unanswered" exactly if nothing of the response answers it; an answer that names none is a "new result"; a report has no note; an answer that names messages has none exactly if it names as many as are open and only open ones, and otherwise lists exactly those it names |
| Activity.ObviousMeans | web/bin/takode-activity.ts:110-112 | What is open are the user messages before that no answer has named since, by their places, whatever their numbers |
| Activity.FormatActivity | web/bin/takode-activity.ts:69-116 | The same for every thread of the response, and the counters of the first line are the numbers of user messages, unanswered ones, new results and reports that the lines below show |
| Activity.UnansweredIsRightIff | web/bin/takode-activity.ts:69-105 | From the history to the note: a listed user message is marked "unanswered" exactly if nothing in its session answers it, if and only if no answer of another session names the same index, or it is answered itself |
| Activity.UnansweredIsHidden | web/bin/takode-activity.ts:69-105 | The case that fails: an answer in another session to a message with the same index hides that a message has none |
| Activity.AnswersAreRecoverable | web/bin/takode-activity.ts:99-114 | A reader that follows the open messages rebuilds what every answer names from the printed notes alone, if and only if no note was left out for an answer that names a message twice |
| Activity.DistinctHidesNothing | web/bin/takode-activity.ts:110-113 | Threads whose answers name distinct messages meet that condition |
| Activity.SentAnswerIsDistinct | web/server/activity-stream.ts:265-273 | The server sends each message an answer names once, so what it sends meets that condition |
| Activity.IdNamesLast | web/server/activity-stream.ts:161-172 | An id stands for the last user message that has it, and for none exactly if no message has it |
| Activity.MessagesJoin | web/server/activity-stream.ts:270-272 | The messages an answer names are those of its ids that stand for one, in order |
| Activity.CollectAnswers | web/server/activity-stream.ts:243-280 | The scan of a history collects exactly the answers that its messages name and those that the last reply of each turn gives |
| Activity.TurnIsWhole | web/server/activity-stream.ts:246-253 | At every message the turn under way holds exactly the user messages sent since the last turn ended, in order; its reply is not from before the scan |
| Activity.AnswersAreDistinct | web/server/activity-stream.ts:265-280 | Every answer the scan collects, named or by turn, names some message and none twice, so what the server sends meets that condition |
| Activity.AnswersAreExact | web/server/activity-stream.ts:243-280 | For every message of the history, exactly: the last reply of a turn that ended answers the user messages of that turn, any other reply answers what it names itself if that is any message, and nothing else is an answer |
| Activity.SentIsThread | web/server/activity-stream.ts:297-328 | What is sent of a history, for any window and any thread, is in history order, and no answer in it names a message twice |
| Activity.SentExactly | web/server/activity-stream.ts:312-327 | A thread holds exactly its listed answers, user messages, reports and new results, each in its role and with the messages it names |
| Activity.SelectActivity | web/server/activity-stream.ts:296-310 | A window lists exactly what was sent in it, every answer to that, and every message that was answered in it |
| Activity.AnswerIsListed | web/server/activity-stream.ts:296-310 | So whenever a user message that has an answer is listed, an answer that names it is listed too |
| Activity.SentIsRecoverable | web/server/activity-stream.ts:243-328 | From the history to the reader: whatever was said and whatever part of it is asked for, the printed notes tell a reader exactly what each answer of a thread answers |
| Activity.ScanStart | web/server/activity-stream.ts:174-192 | The binary search finds the first message of the window, and the scan starts right after the last turn that ended before it |
| Activity.WindowIsEnough | web/server/activity-stream.ts:176-177 | Scanning from there finds exactly what scanning the whole history finds, but for the answers given before it |
| Activity.RepeatIsMisread | web/bin/takode-activity.ts:111-113 | Without it a thread is misread: an answer that names one message twice is printed as if it named two |
| Activity.NoteIsReadable | web/bin/takode-activity.ts:113-113 | A printed note determines the note |

## Left out

- LandingCulprit.BouncedEntryIsCulprit: asks that the step that failed depends only on the tree and that its reports on the base and on the stack are readable and agree with its exit code; with a flaky step the search still returns a valid entry (`LandingCheckout.Site.FindCulprit`) but has no proven cause.
- GateRules.SteadySteps: asks that running some files shows no failure that the whole run does not have, and every one it has in those files; a test that depends on its neighbours has no such meaning. Runs may cover more files than they were given.
- GateRules.RerunIsExact: asks for paths without `>`, because with one it is false (`GateRules.SeparatorInPath`), and for paths that do not start like an unhandled error's id.
- LandingRun.CheckEntry: bundles are a tip that is read back; verifying and unpacking them is one call that may fail.
- TakodeLatency.HistogramUpperBound: fractions are exact (95/100), where the program multiplies by a floating-point 0.95.
- CliLatency.BuildRecord: times are whole ticks; rounding to tenths of a millisecond, which can push a record past its own total by one tick, and the host-hop time of remote machines are not modelled.
- CliSummary.SummarizeCliLatency: rows are a map by command; the order in which they are printed and the overhead share are not modelled.
- Activity.CollectAnswers: which messages count as a user's, as replies and as ends of a turn is part of a history's item; which of the listed messages goes to which thread of its session is left open (`Activity.Carries` allows any), and the texts of messages are not modelled.
- Activity.FormatThread: models role, index and note of each line; time, image and character counts and the message text are not modelled.
- Gate.RunGate: timings, logs, phases and output excerpts are not modelled; the baseline checkout is prepared by a call that may fail at each use, where the program prepares it once.
- UnhandledErrors.ReadsWhatIsPrinted: terminal colours are taken to be removed already; an error with a blank message is covered when the rest of its block is blank and names no file.
- Terminal colours and checkout paths are taken to be removed from output already; reading the JSON report and resolving symbolic links is part of a step's result.
- Merge commits, the leases of the queue and their expiry, heartbeats, server restarts, launching of runners, and messages to entry owners.
- Synchronizing the base checkout after a push, and removing worktrees and refs: side effects on no decision.
- The lists of flaky and pre-existing tests that a run's report carries.
- Gate commands that change the checkout they run in.
- A claim takes any waiting entries, at most the batch limit; that it takes the oldest first is not modelled.
- Decoding bytes to characters in the log stream; the model starts from text chunks.
- The cutoff by time and the rotation of latency logs, and lines in them that cannot be read.
- Rebasing, submitting and withdrawing from the command line, and the quest, board, spawn and send commands.
