# A verified model of the ai-whisper engine

This project models the parts of ai-whisper whose correctness spans many functions or many runs, and proves what
they promise. `dafny verify dfyconfig.toml` checks it.

**The workflow engine.** `registry.dfy` holds the five workflow definitions as phase tables. `workflow_tables.dfy`
holds the tables (workflows, phase runs, relay chains, handoffs, collabs) and the invariant of every reachable state.
`workflow_steps.dfy` gives each control transaction and the driver's kickoff as a function on the tables;
`workflow_control.dfy` is the class that rewrites the tables in place, each method proved to compute its transaction,
rollback included. A row's id is its position in its table. `workflow_safety.dfy` proves that every transaction keeps
the invariant, `workflow_history.dfy` what a step never undoes, `workflow_budget.dfy` and `workflow_attempts.dfy` the
termination measures. `workflow_runs.dfy`, `workflow_seeds.dfy`, `workflow_execute.dfy`, `workflow_rounds.dfy` and
`workflow_sweep.dfy` state the results over all runs of all steps from empty tables and the real registry.
`workflow_answers.dfy`, `workflow_kickoff.dfy` and `workflow_operators.dfy` say what each transaction answers and leaves,
read off the rows alone, and `workflow_range.dfy` that a commit range always has its base.
`ralph_marker.dfy` reads the completion marker off a handback.

**The resume seed.** `resume_seed.dfy` composes the text that a resumed phase opens with; `resume_seed_facts.dfy` proves
its character budget and which rounds it keeps, `resume_seed_sections.dfy` reads any seed text off slice by slice, and
`resume_seed_runs.dfy` says what that means for the chains of reachable
states.

**Two scanners.** `frame_parser.dfy` is the chunked parser for framed replies, escape stripping included;
`frame_escapes.dfy` proves what it strips and which lines it takes for markers.
`json_scanner.dfy` recovers JSON objects from prose, with the printer of RFC 8259 sections 2, 4, 5 and 7 as its partner.

**Recovery import.** `recovery_import.dfy` computes the candidates, the two-edge closure and the transaction's plan;
`recovery_ledger.dfy` is the database that runs it row by row; `recovery_facts.dfy` proves closure at every insert,
atomicity, idempotence and the counts, `recovery_guards.dfy` what is refused and why, and what is stored.

**Wall paging.** `wall_paging.dfy` fills pages and proves that the walking and the counting loop agree; `wall_requests.dfy`
proves what each requested page shows and how full it is.

**Evaluation runner.** `eval_manifest.dfy` holds the manifest, `eval_slice.dfy` the slice as a state machine over every
order of completions, retries and crashes, `eval_accounting.dfy`, `eval_schedule.dfy`,
`eval_stop.dfy` and `eval_report.dfy` its results.

**Storage and versions.** `capture_lease.dfy`, `write_queue.dfy`, `semver.dfy` and `semver_precedence.dfy`.

`js_text.dfy` and `wrappers.dfy` hold the JavaScript string operations and the result types that several modules share.

## Where the code and its own words differ

- The digest note names rounds 1 to n, but n counts dropped lines. `ResumeSeedFacts.NoteIsAlwaysRightIff` gives the
  exact condition on the rows and `ResumeSeedFacts.NoteCanBeWrong` an input for which every seed text carries a wrong
  note. No registered workflow meets it: `ResumeSeedRuns.ReachableSeedIsWhole` shows that no line is ever dropped there.
- A call of the frame parser returns at most one frame, so that frames can be lost: exactly when a chunk completes two
  of them, by `FrameParser.AllFramesIff`.
- After a usage limit no new run starts, but first attempts under way may still be retried:
  `EvalStop.BeginsAfterQuota` says exactly which attempts still begin.
- The version comparator does not drop build metadata: `SemverPrecedence.BuildIsIgnoredWhen` gives the exact condition.
- The lease's fencing token is a clock reading, and two grants may share one: `CaptureLease.OldReleaseIff` says exactly
  when a release kept from an earlier grant does no harm.

## Model

| member | source | states |
|---|---|---|
| Registry.RegistryIsOk | packages/broker/src/runtime/workflow-registry.ts:245-705 | every registered definition keeps the conditions the control code relies on: limits of at least one round, two where a phase starts with work, a looping phase is last and starts with work, an execute phase is not first, and no phase before it sets the commit base |
| Registry.RegistryRangesOk | packages/broker/src/runtime/workflow-registry.ts:245-705 | every phase whose texts speak of the commit range establishes the base or follows one that does, and only a first phase anchors it without executing |
| RalphMarker.FinalLineMarker | packages/broker/src/runtime/workflow-registry.ts:20-35 | the backward loop finds the marker of the last line that is not blank |
| RalphMarker.MarkerIffOwnLine | packages/broker/src/runtime/workflow-registry.ts:20-35 | a handback bears the goal or the item marker exactly when it ends in that marker on a line of its own, with nothing but white space after it |
| RalphMarker.ClaimsGoalIffOwnLine | packages/broker/src/runtime/workflow-registry.ts:20-35 | and claims completion exactly when that is the goal marker |
| WorkflowSafety.NextKeepsInv | packages/broker/src/control/workflow-control.ts:179-1720 | every transaction, whether it commits or throws, keeps the strengthened invariant of the tables |
| WorkflowSafety.MoveIsOk | packages/broker/src/control/workflow-control.ts:896-1010 | where an approve may take a workflow: one iteration on, one phase on, done, or halted at the iteration cap, always with a legal row |
| WorkflowHistory.NextEffect | packages/broker/src/control/workflow-control.ts:766-1720 | no step moves an index back or by more than one, rewrites a commit base, leaves done or canceled, or alters a closed run, an ended chain or a given verdict |
| WorkflowRuns.OneLivePerCollab | packages/broker/src/control/workflow-control.ts:214-241 | in every reachable state a collab has at most one running or paused workflow |
| WorkflowRuns.OneOpenRun | packages/broker/src/control/workflow-control.ts:307-374 | in every reachable state a workflow has at most one open phase run, at its current index, and a chain is active iff its run is open |
| WorkflowRuns.OneHolder | packages/broker/src/control/workflow-control.ts:539-705 | an active chain has exactly one handoff without a verdict, in the chain's round, aimed at the reviewer for review and at the implementer otherwise |
| WorkflowRuns.RoundBound | packages/broker/src/control/workflow-control.ts:444-453 | every chain's round stays between 1 and its phase's limit, and a fix or implement step leaves room for one more round |
| WorkflowRuns.AttemptBound | packages/broker/src/control/workflow-control.ts:1011-1178 | each attempt at a phase takes fewer verdicts than twice its round limit, resumed or not |
| WorkflowRuns.BaseWrittenOnce | packages/broker/src/runtime/workflow-driver.ts:157-181 | over every run of steps the commit base, once it has a value, never changes |
| WorkflowRuns.EndedStaysEnded | packages/broker/src/control/workflow-control.ts:1553-1720 | done and canceled absorb, and hold no open run and no active chain ever after |
| WorkflowRuns.NoPhaseSkipped | packages/broker/src/control/workflow-control.ts:971-1010 | an index never goes back, grows by one at most, and every index below it has a run closed as done |
| WorkflowRuns.DoneIsEarned | packages/broker/src/control/workflow-control.ts:896-970 | a verdict answers done only if every phase has a run closed as done, and for a looping workflow only if the newest delivery in the very chain that was approved claimed the goal |
| WorkflowRuns.IterationsBelowCap | packages/broker/src/control/workflow-control.ts:929-960 | in every reachable state the iterations of a looping phase stay below its cap, and other phases count none |
| WorkflowExecute.ExecuteFromCommit | packages/broker/src/control/workflow-control.ts:805-822 | in every reachable state a workflow at an execute phase has a commit hash as its base, and only runs of such phases ask for execution |
| WorkflowRounds.HandoffRounds | packages/broker/src/control/workflow-control.ts:539-582 | in every reachable state a handoff's round lies between 1 and its chain's round and limit, and later handoffs of the chain have no lower round |
| WorkflowRuns.VerdictProgress | packages/broker/src/control/workflow-control.ts:855-1178 | a verdict that continues or advances strictly lowers the budget of phases, iterations and chain steps left |
| WorkflowRuns.WorkflowEnds | packages/broker/src/control/workflow-control.ts:179-245 | a workflow that is never resumed from halted is given no more verdicts than its definition holds |
| WorkflowRuns.RegistryTotals | packages/broker/src/runtime/workflow-registry.ts:245-687 | those totals for the five registered workflows: 27, 800, 20, 54 and 8 |
| WorkflowAnswers.VerdictAnswers | packages/broker/src/control/workflow-control.ts:730-1299 | in every reachable state, each answer to a verdict as an if and only if on the rows: refused, replayed, continued, advanced, done, halted |
| WorkflowAnswers.FindingsSendBack | packages/broker/src/control/workflow-control.ts:1011-1074 | trusted findings with a round left change no row and no chain, and append one fix handoff of the same chain and round from reviewer to implementer |
| WorkflowAnswers.DeliveryGoesToReview | packages/broker/src/control/workflow-control.ts:1075-1178 | a delivery appends one review handoff in the next round, and changes the row in its completion claim only |
| WorkflowAnswers.HaltSaysWhy | packages/broker/src/control/workflow-control.ts:430-460 | a verdict that halts leaves the reason: low confidence, an illegal verdict, the rounds used up, or what the agent gave; its run and chain are closed as escalated |
| WorkflowAnswers.PassCloses | packages/broker/src/control/workflow-control.ts:896-970 | a pass that nothing follows closes the run as done, and the row ends as done or halts at the iteration cap |
| WorkflowAnswers.AdvanceBeginsNext | packages/broker/src/control/workflow-control.ts:945-1010 | an advance closes the run and begins the next iteration or phase, with one chain in round 1, one run, one handoff, and the given head as base of an execute phase |
| WorkflowAnswers.RefusalChangesNothing | packages/broker/src/control/workflow-control.ts:766-822 | a refusal or a replay changes nothing, and a refusal names the first guard that fails |
| WorkflowKickoff.KickoffStartsOrHalts | packages/broker/src/runtime/workflow-driver.ts:63-280 | in every reachable state exactly when a kickoff starts a run and when it halts; a started run leaves the inherited base on a resume, the head just read in another phase that executes or anchors, and else the base as it was |
| WorkflowRange.RangeHasBase | packages/broker/src/runtime/workflow-driver.ts:152-181 | in every state reachable without an empty head, an open run of a phase that speaks of the commit range has a base |
| WorkflowOperators.CreateAnswers | packages/broker/src/control/workflow-control.ts:179-245 | why a workflow is not created, and the row of one that is: its agents in their roles, running, at the first phase |
| WorkflowOperators.HaltAndPauseAnswer | packages/broker/src/control/workflow-control.ts:1301-1396 | halt and pause change a running workflow's status and reason, and nothing else |
| WorkflowOperators.ResumeAnswers | packages/broker/src/control/workflow-control.ts:1398-1551 | why a workflow is not resumed, and the marker of one resumed from halted: its phase, halt reason, failed chain if the newest run there was escalated, and the message unless it is blank |
| WorkflowOperators.EndingsAnswer | packages/broker/src/control/workflow-control.ts:1553-1720 | cancel and mark done supersede exactly the open runs of the workflow and abandon their chains |
| WorkflowOperators.NoticeAnswers | packages/broker/src/control/workflow-control.ts:741-764 | in every reachable state a notice fails and escalates an accepted handoff in play, and changes nothing otherwise |
| WorkflowBudget.SettleSpends | packages/broker/src/control/workflow-control.ts:855-1178 | each committing verdict spends at least one step of its workflow's budget |
| WorkflowBudget.NextSpends | packages/broker/src/control/workflow-control.ts:766-1720 | no step but a resume of the halted workflow lets verdicts given plus verdicts left grow |
| WorkflowAttempts.NextAttempts | packages/broker/src/control/workflow-control.ts:539-705 | every step keeps the verdict allowance of every chain |
| WorkflowSeeds.SeedsTellTheBase | packages/broker/src/runtime/workflow-driver.ts:157-240 | the review base that a resumed handoff states is the workflow's commit base, then and ever after |
| WorkflowSeeds.MarkerIsOneShot | packages/broker/src/control/workflow-control.ts:1398-1451 | a phase run that begins consumes the resume marker, and only a resume from halted writes one |
| WorkflowControl.Control.CreateWorkflow | packages/broker/src/control/workflow-control.ts:179-245 | the guards in order, the scan for another live workflow, and the new row |
| WorkflowControl.Control.BeginPhaseRun | packages/broker/src/control/workflow-control.ts:266-416 | the guards, the three inserts, the consumed marker and the patched base, as the kickoff results above state them |
| WorkflowControl.Control.KickoffCurrentPhase | packages/broker/src/runtime/workflow-driver.ts:63-280 | every guard of the driver in order, each failure halting the workflow, and the inherited or freshly read base |
| WorkflowControl.Control.Sweep | packages/broker/src/runtime/workflow-driver.ts:282-293 | the workflows found running are listed first and then kicked off one after the other |
| WorkflowSweep.SweepLeavesNoneIdle | packages/broker/src/runtime/workflow-driver.ts:282-293 | after a sweep in any reachable state every workflow that was running is halted, or is running with an open run at its index |
| WorkflowControl.Control.CreateContinuationHandoff | packages/broker/src/control/workflow-control.ts:539-582 | the next handoff of the chain, to the other agent, in this round or the next |
| WorkflowControl.Control.KickoffNext | packages/broker/src/control/workflow-control.ts:584-728 | the inserts of the next run, and the failure when an execute phase is given no head |
| WorkflowControl.Control.Advance | packages/broker/src/control/workflow-control.ts:855-1010 | the approve arm, loop, cap, done and next phase, with the tables put back when the next run cannot start |
| WorkflowControl.Control.Settle | packages/broker/src/control/workflow-control.ts:855-1299 | the verdict transaction, arm by arm, is the one whose answers are stated above |
| WorkflowControl.Control.ApplyOrchestratorVerdict | packages/broker/src/control/workflow-control.ts:730-846 | the replay answer, the guards before the transaction, and the transaction |
| WorkflowControl.Control.EscalateNoticeHandoff | packages/broker/src/control/workflow-control.ts:741-764 | only an accepted handoff is failed, and then escalated |
| WorkflowControl.Control.HaltWorkflow | packages/broker/src/control/workflow-control.ts:1301-1338 | only a running workflow is halted, and its open run is left as it is |
| WorkflowControl.Control.PauseWorkflow | packages/broker/src/control/workflow-control.ts:1355-1396 | only a running workflow is paused |
| WorkflowControl.Control.ResumeWorkflow | packages/broker/src/control/workflow-control.ts:1398-1551 | the archive, status and exclusivity guards, the scan for another live workflow, and the marker left by a resume from halted |
| WorkflowControl.Control.CancelWorkflow | packages/broker/src/control/workflow-control.ts:1553-1638 | the open run is superseded, its chain abandoned, the workflow canceled |
| WorkflowControl.Control.MarkWorkflowDone | packages/broker/src/control/workflow-control.ts:1640-1720 | only a halted workflow is marked done, its open run superseded |
| ResumeSeed.GroupByRound | packages/broker/src/control/resume-seed.ts:98-112 | the rows with a handback, one entry for each round in order of first appearance |
| ResumeSeed.AssembleParts | packages/broker/src/control/resume-seed.ts:127-156 | the sections that have source data, in order, joined by blank lines |
| ResumeSeedSections.SeedCanBeRead | packages/broker/src/control/resume-seed.ts:127-156 | any text the loop returns, cut into slices: the preamble; the halt reason up to 500 characters; the terminal row's handback; a line for each kept round with its number, step, verdict and first line; the message up to the kept length; the base; each absent exactly when its source is |
| ResumeSeedSections.MessageIsQuoted | packages/broker/src/control/resume-seed.ts:141-145 | a present message stands in the text right after its heading, verbatim up to the kept length |
| ResumeSeedSections.DigestEntryIs | packages/broker/src/control/resume-seed.ts:99-116 | the entry behind a digest line is its round's latest row with a handback, with the round's latest verdict |
| ResumeSeedSections.DigestHasRound | packages/broker/src/control/resume-seed.ts:99-116 | every round that handed something back has an entry, but for the one the final section shows |
| ResumeSeed.ComposeResumeSeedText | packages/broker/src/control/resume-seed.ts:88-181 | the loop ends on every input and returns a text that fits, or one with nothing left to give up; digest lines, then the handback's tail, its head and the message are given up, each only when the one before was not enough, and each only as far as needed: one line or one kept character more would be too long |
| ResumeSeed.Shortens | packages/broker/src/control/resume-seed.ts:59-75 | giving up x kept characters shortens the text by at most x, since a cut marker never shrinks |
| ResumeSeedFacts.SeedTextIsUnique | packages/broker/src/control/resume-seed.ts:80-88 | the input determines the text: it is the first that fits when things are given up in the loop's order |
| ResumeSeedFacts.TooLongIffNothingFits | packages/broker/src/control/resume-seed.ts:158-180 | the text is too long exactly when no shape in that order fits |
| ResumeSeedFacts.SeedFits | packages/broker/src/control/resume-seed.ts:28-33 | every text fits as long as the commit base has at most 11000 characters |
| ResumeSeedFacts.SeedFitsByDroppingLines | packages/broker/src/control/resume-seed.ts:28-33 | with a commit base of at most 3000 characters the text fits in 24000 by dropping the least number of oldest digest lines alone, the handback keeping its 8000 and 4000 characters and the message its 4000 |
| ResumeSeedFacts.SeedBudget | packages/broker/src/control/resume-seed.ts:28-43 | the same for the real wording of the sections |
| ResumeSeedFacts.NothingIsDropped | packages/broker/src/control/resume-seed.ts:158-166 | up to 20 digest lines and a commit base of 400 characters, the text is the full one |
| ResumeSeedRuns.ReachableSeedIsWhole | packages/broker/src/control/workflow-control.ts:322-341 | whatever chain of a reachable state of the registered workflows a resumed run is seeded from, its seed gives nothing up |
| ResumeSeedFacts.LongCommitBaseBreaksTheBudget | packages/broker/src/control/resume-seed.ts:146-156 | the commit base is rendered twice and uncut, so that one of more than 12000 characters, which no caller passes, would break the budget |
| ResumeSeedFacts.ElisionKeepsEnds | packages/broker/src/control/resume-seed.ts:70-75 | an elided text keeps both its ends and states exactly how much is missing between them |
| ResumeSeedFacts.DigestSplitsBack | packages/broker/src/control/resume-seed.ts:64-68 | each round stays one physical line: the digest splits back into exactly its lines |
| ResumeSeedFacts.EntriesAreLatest | packages/broker/src/control/resume-seed.ts:103-112 | each round has one entry, with its latest handback, that handback's step and the round's latest verdict |
| ResumeSeedFacts.FinalIsTerminal | packages/broker/src/control/resume-seed.ts:94-115 | the final section shows the terminal row's own handback and is absent exactly when that row has none |
| ResumeSeedFacts.SurvivorsAreNewest | packages/broker/src/control/resume-seed.ts:158-166 | every dropped line is about an older round than every line kept and than the final section |
| ResumeSeedFacts.NoteIsRightWhen | packages/broker/src/control/resume-seed.ts:138-141 | the note about omitted rounds is right exactly when the newest dropped line is about the round that the note ends with |
| ResumeSeedFacts.NoteIsAlwaysRightIff | packages/broker/src/control/resume-seed.ts:138-141 | whatever number of lines is dropped the note is right, exactly when the digest's lines are about rounds 1, 2, 3 and so on |
| ResumeSeedFacts.NoteCanBeWrong | packages/broker/src/control/resume-seed.ts:138-141 | 121 rounds of long handbacks after a silent first round: every text the loop may return drops lines and carries a wrong note |
| FrameParser.AppendChunk | packages/shared/src/interactive-broker-protocol.ts:42-96 | one call feeds the complete lines, then looks for an END marker in the open line |
| FrameParser.StripConcat | packages/shared/src/interactive-broker-protocol.ts:22-27 | stripping chunk by chunk is stripping the whole, on streams without escapes |
| FrameEscapes.EscapesAreStripped | packages/shared/src/interactive-broker-protocol.ts:11-27 | of output made of text, operating-system commands and control sequences exactly the text is left, without its carriage returns |
| FrameEscapes.MarkerLinesAre | packages/shared/src/interactive-broker-protocol.ts:29-40 | a marker line is the prefix and one word with blanks around them, and nothing else is |
| FrameEscapes.ReplyComesBack | packages/shared/src/interactive-broker-protocol.ts:14-20 | a reply printed between the protocol's BEGIN and END lines comes back once, as its trimmed body, in whatever chunks it is read |
| FrameParser.RestIsNoBegin | packages/shared/src/interactive-broker-protocol.ts:29-40 | what is left of an END line that closed the frame early never opens another frame, for ids of the work-item form |
| FrameParser.MarkerGrows | packages/shared/src/interactive-broker-protocol.ts:29-40 | a part of an END line that already closes a frame goes on to be a marker as the line is completed |
| FrameParser.EachCallReturnsNewest | packages/shared/src/interactive-broker-protocol.ts:42-96 | however a stream is cut into chunks, each call returns the last frame that its chunk completes, and nothing when it completes none |
| FrameParser.AllFramesIff | packages/shared/src/interactive-broker-protocol.ts:42-96 | the calls together return all frames of the stream exactly when no chunk completes two of them |
| FrameParser.StreamHoweverCut | packages/shared/src/interactive-broker-protocol.ts:42-96 | the same for a stream of n frames with other lines around them: the trimmed bodies, in order |
| FrameParser.OneFrameHoweverCut | packages/shared/src/interactive-broker-protocol.ts:42-96 | a stream with one frame gives exactly one frame, the trimmed body, in whatever chunks it comes |
| FrameParser.NoBeginNoFrame | packages/shared/src/interactive-broker-protocol.ts:42-96 | without a complete BEGIN line no call returns a frame |
| FrameParser.OneChunkKeepsTheLast | packages/shared/src/interactive-broker-protocol.ts:52-85 | of the frames of a stream that arrives in one chunk only the last is returned |
| JsonScanner.ExtractJsonObjectCandidates | packages/shared/src/extract-json-object-candidates.ts:13-65 | the index loop collects the slices that the text-keeping scanner completes |
| JsonScanner.ObjectsAreRecovered | packages/shared/src/extract-json-object-candidates.ts:13-65 | printed objects come back exactly and in order out of prose without an opening brace, whatever their strings hold |
| JsonScanner.StrayBraceHides | packages/shared/src/extract-json-object-candidates.ts:33-39 | one stray opening brace before an object hides it |
| JsonScanner.CandidatesStandAlone | packages/shared/src/extract-json-object-candidates.ts:13-65 | whatever the input, each candidate scanned alone gives itself and nothing else |
| RecoveryLedger.Ledger.PutRows | packages/broker/src/storage/import-recovery.ts:153-166 | rows are inserted one after the other, an existing key is passed over, a missing required cell or a second live workflow fails, and the count is the number of new keys |
| RecoveryLedger.Ledger.InsertRows | packages/broker/src/storage/import-recovery.ts:131-166 | the pinned column layout is checked first |
| RecoveryLedger.Ledger.ComputeClosure | packages/broker/src/storage/import-recovery.ts:219-249 | the rooted rows, the referenced chains and the closed rows |
| RecoveryLedger.Ledger.RunRecoveryImport | packages/broker/src/storage/import-recovery.ts:180-334 | every check before any write, the transaction in parent-first order, its rollback, and the summary |
| RecoveryGuards.ImportChecks | packages/broker/src/storage/import-recovery.ts:180-269 | the import is refused exactly for the first failing check: a live daemon, the raw counts, the distinct counts, the floors of phases, chains and handoffs; nothing is written then |
| RecoveryGuards.ImportedIsComplete | packages/broker/src/storage/import-recovery.ts:131-166 | a successful import has found the pinned columns, and every cell that its column requires |
| RecoveryGuards.ImportKeepsOneLive | packages/broker/src/storage/import-recovery.ts:284-331 | an import never leaves a collab with a second live workflow |
| RecoveryGuards.AddedRowsAreRecovered | packages/broker/src/storage/import-recovery.ts:86-98 | cell by cell, an added row is one of the source's matching records, and an added collab a tombstone archived at the time of the import |
| RecoveryGuards.OneTombstoneEach | packages/broker/src/storage/import-recovery.ts:262-269 | one tombstone for each collab of a recovered workflow, an imported chain or a kept handoff, and for no other |
| RecoveryGuards.ChainsComeAsWanted | packages/broker/src/storage/import-recovery.ts:219-236 | a recovered chain is there afterwards exactly when it was before or a rooted phase or handoff refers to it |
| RecoveryGuards.SummaryIsTrue | packages/broker/src/storage/import-recovery.ts:271-331 | each number of the summary is the count it stands for |
| RecoveryFacts.FirstHasAll | packages/broker/src/storage/import-recovery.ts:86-98 | the candidates are one row for each id of the matching records |
| RecoveryFacts.PlanParentsFirst | packages/broker/src/storage/import-recovery.ts:284-327 | every insert of the transaction finds the rows it refers to already there |
| RecoveryFacts.ClosedAfterEveryInsert | packages/broker/src/storage/import-recovery.ts:284-331 | from a closed database each insert of the transaction leads to a closed one |
| RecoveryFacts.ImportIsSafe | packages/broker/src/storage/import-recovery.ts:180-334 | a failed import changes nothing, a successful one keeps every existing row as it is, and both leave the database closed |
| RecoveryFacts.ImportedExactly | packages/broker/src/storage/import-recovery.ts:296-327 | each table gains exactly its selected candidates |
| RecoveryFacts.ImportedIffBothEdges | packages/broker/src/storage/import-recovery.ts:219-249 | a recovered phase or handoff that was not there before is there afterwards exactly when its workflow and its chain are |
| RecoveryFacts.ImportIsIdempotent | packages/broker/src/storage/import-recovery.ts:125-130 | a second run imports nothing, changes nothing and skips the same rows |
| RecoveryFacts.CountsAddUp | packages/broker/src/storage/import-recovery.ts:271-283 | candidates are the kept ones, those of an unknown workflow and those of a missing chain |
| RecoveryFacts.DistinctIsCandidates | packages/broker/src/storage/import-recovery.ts:78-98 | the distinct count of the second tier is the number of candidates |
| WallPaging.FillGroups | packages/cli/src/runtime/dashboard-state.ts:308-345 | one page filled group by group, with what each group consumed |
| WallPaging.WalkTo | packages/cli/src/runtime/dashboard-state.ts:360-391 | the walking loop reaches the requested page or the last one |
| WallPaging.CountPages | packages/cli/src/runtime/dashboard-state.ts:392-415 | the counting loop counts the same pages |
| WallPaging.AllocateWallSections | packages/cli/src/runtime/dashboard-state.ts:347-417 | the sections of the requested page, clamped to the last, and the number of pages |
| WallRequests.RequestsShowAll | packages/cli/src/runtime/dashboard-state.ts:347-417 | a request is clamped to the pages there are and shows that page, within the rows; the walls of all requests together show every card of every group once and in order |
| WallRequests.NothingToShow | packages/cli/src/runtime/dashboard-state.ts:369-391 | without cards, or on a terminal too small for one, every request shows an empty page 0 |
| WallRequests.LabelCounts | packages/cli/src/runtime/dashboard-state.ts:337-342 | the number in a section's label is that of the group's cards on this page and later ones |
| WallRequests.PageIsFull | packages/cli/src/runtime/dashboard-state.ts:320-343 | when a group has cards left over, one more would not fit below the sections up to it, or an earlier group found no room |
| WallPaging.NoCardIsLost | packages/cli/src/runtime/dashboard-state.ts:278-345 | the pages show every card exactly once, in order within its group, exactly when the terminal has the rows for one card; eight always suffice |
| WallPaging.PagesFit | packages/cli/src/runtime/dashboard-state.ts:323-343 | every page has a section, and its headers and card rows fit in the rows given |
| WallPaging.FillIsEmptyWhen | packages/cli/src/runtime/dashboard-state.ts:323-336 | a page is empty exactly when no card is left or the terminal is too small for the tallest kind left |
| EvalManifest.UpdateRun | eval/runner/manifest.ts:44-73 | the loop computes the update of the whole list, for any list of runs |
| EvalManifest.UpdatedIs | eval/runner/manifest.ts:44-73 | an update fails exactly without the key, or when a run with the key is over and is to be claimed; otherwise it changes every run with the key and keeps every other |
| EvalManifest.BuildRuns | eval/runner/manifest.ts:11-27 | every task in every arm for every trial, all pending |
| EvalManifest.ScheduleIs | eval/runner/manifest.ts:15-21 | each task is scheduled in each arm exactly once for each trial number |
| EvalManifest.ShuffledIsKeyed | eval/runner/manifest.ts:15-26 | however the runs are shuffled, distinct tasks give distinct keys |
| EvalManifest.SelectSlice | eval/runner/manifest.ts:75-89 | the filter loop with its limit checked after a run is taken |
| EvalManifest.SliceInOrder | eval/runner/manifest.ts:75-89 | a slice lists selectable runs, each once, in manifest order: all of them without a limit, and the first min(limit, all) with one |
| EvalManifest.SliceAsks | eval/runner/manifest.ts:79-85 | a run is in the slice without a limit exactly when it is not done, not failed unless asked for, and in the arms and tasks named |
| EvalAccounting.RetryAccounting | eval/runner/run-one.ts:49-112 | over all histories attempts are numbered without reuse, those neither quota-aborted nor crashed are at most two, a run fails only after two failures when it never crashed, a finished run has exactly one ledger row, and a run that is not pending has the directory of its latest attempt |
| EvalAccounting.BeginIsEntry | eval/runner/run-one.ts:49-64 | loading the manifest, claiming by key and saving it whole comes down to changing one entry |
| EvalAccounting.OneUpdateEach | eval/runner/run-one.ts:62-111 | each event makes at most one update of the file, and saves every other entry as it stands |
| EvalAccounting.NoUpdateIsLost | eval/runner/run-one.ts:62-111 | though every save rewrites the whole file, each entry is what its run's own updates make of a fresh one, and agrees with all that has happened to the run |
| EvalAccounting.OverStaysOver | eval/runner/manifest.ts:55-60 | done and failed runs are never touched again |
| EvalAccounting.SecondAttemptIsLast | eval/runner/commands.ts:54-62 | the second attempt never asks for a third |
| EvalSchedule.StartedInOrder | eval/runner/commands.ts:71-92 | runs start in manifest order |
| EvalSchedule.PairRunsAlone | eval/runner/commands.ts:83-91 | a pair run executes only while nothing else does, and solo runs never exceed the limit |
| EvalSchedule.NothingStartsAfterQuota | eval/runner/commands.ts:77-92 | once a usage limit is noted no further run of the slice starts |
| EvalStop.BeginsAfterQuota | eval/runner/commands.ts:54-97 | over all histories and continuations, after the limit each task begins at most one attempt, and exactly when it was live with its harness retry left, its first attempt failed and its retry is not outstanding; it is then the second attempt |
| EvalStop.NothingBeginsIff | eval/runner/commands.ts:54-97 | once all has settled, nothing has begun after the limit exactly if no task with a retry left failed its first attempt |
| EvalStop.RetryAfterQuota | eval/runner/commands.ts:54-62 | there is a history in which an attempt does begin after the limit |
| EvalStop.StaleCopy | eval/runner/run-one.ts:49-64 | there is a reachable state in which changing and saving the copy an attempt still holds would undo another run's claim |
| EvalSchedule.ReturnedMeansAllRan | eval/runner/commands.ts:93-96 | a slice that returns has run all it selected and has nothing left running |
| EvalSchedule.ReturnedIsComplete | eval/runner/commands.ts:93-96 | without pin drift it returns with every run done or failed |
| EvalReport.CountsAreTrue | eval/runner/commands.ts:68-69 | over all histories the slice's done and failed counts are the numbers of its runs that the manifest has as done and failed |
| EvalReport.LimitIsAsked | eval/runner/commands.ts:74 | the pool limit is the one asked for, and one if that is less |
| EvalReport.TurnAnswers | eval/runner/commands.ts:80-92 | when a turn of the loop stops, waits for the pool, waits for one of it, or starts the next run |
| EvalReport.WaitAnswers | eval/runner/commands.ts:83-96 | what follows a wait: a rejection, the end, the next run, or the return |
| EvalReport.BeginsUnlessDrifted | eval/runner/run-one.ts:49-64 | an attempt begins exactly if its run is not over and, in the pair arm, its pins have not drifted |
| CaptureLease.LeaseTable.AcquireLease | packages/broker/src/storage/clipboard-capture-lease.ts:57-93 | the lease is taken when it is free or stale, and then shows the acquirer and its token |
| CaptureLease.LeaseTable.ReleaseLease | packages/broker/src/storage/clipboard-capture-lease.ts:98-109 | cleared only for its holder and its token |
| CaptureLease.LeaseTable.ReleaseLeaseForHolderPid | packages/broker/src/storage/clipboard-capture-lease.ts:115-126 | cleared only for its holder and pid |
| CaptureLease.LeaseTable.SweepStaleLease | packages/broker/src/storage/clipboard-capture-lease.ts:132-151 | cleared only when stale |
| CaptureLease.HeldUntilDisturbed | packages/broker/src/storage/clipboard-capture-lease.ts:42-151 | a lease stays with its holder, and no acquire succeeds, until the holder releases it or is found dead or over time |
| CaptureLease.DisturbedIsLost | packages/broker/src/storage/clipboard-capture-lease.ts:42-151 | the first event that is the holder's release, or finds it dead or over time, does free the lease or hand it on |
| CaptureLease.ReleasesAreFenced | packages/broker/src/storage/clipboard-capture-lease.ts:95-109 | over all histories with an advancing clock a release kept from an earlier grant never disturbs a later lease |
| CaptureLease.OldReleaseIff | packages/broker/src/storage/clipboard-capture-lease.ts:95-109 | over all histories a release kept from an earlier grant does nothing exactly when the lease is free or the last grant differs in collab or token |
| CaptureLease.SameTickDefeatsFencing | packages/broker/src/storage/clipboard-capture-lease.ts:73-82 | a history in which two grants to one collab within one clock tick share a token, so that such a release bites |
| WriteQueue.Connection.RunQueued | packages/broker/src/storage/open-database.ts:25-58 | the retry loop, the capped busy timeout of every attempt, at most one commit, and the configured timeout restored on every exit |
| WriteQueue.Connection.Transaction | packages/broker/src/storage/open-database.ts:92-106 | an outermost call runs under the queue and commits at most once; a call made from inside a body, at any depth, runs once as a savepoint and commits nothing itself |
| WriteQueue.InnerLockRestartsOuter | packages/broker/src/storage/open-database.ts:92-106 | a lock error at any depth restarts the outermost body from its beginning, unless the time is up |
| WriteQueue.CommittedInOneAttempt | packages/broker/src/storage/open-database.ts:18-24 | what is committed is one single attempt in which every level succeeded |
| WriteQueue.LockErrorByDeadline | packages/broker/src/storage/open-database.ts:31-53 | a lock error is rethrown no earlier than the deadline and at most a millisecond after it |
| WriteQueue.OverByDeadline | packages/broker/src/storage/open-database.ts:31-53 | if no attempt overruns its cap, the call is over a millisecond after the deadline, whatever it replies |
| WriteQueue.BeginsByDeadline | packages/broker/src/storage/open-database.ts:31-53 | every attempt begins by the deadline and later than the one before |
| WriteQueue.CallCourse | packages/broker/src/storage/open-database.ts:31-58 | the whole course of a call: every attempt but the last failed on a lock before the deadline under its exact cap, the next began after the exact wait, and the last one's result is the call's |
| WriteQueue.WaitsDouble | packages/broker/src/storage/open-database.ts:32-52 | the i-th wait is the first times 2 to the i, up to 250 milliseconds |
| WriteQueue.AttemptsByBudget | packages/broker/src/storage/open-database.ts:31-53 | at most one attempt for each millisecond of the budget, and one more |
| WriteQueue.AttemptsByBackoff | packages/broker/src/storage/open-database.ts:51-52 | with the doubling wait, all but the last two attempts cost 250 milliseconds, less what the doubling has to make up |
| WriteQueue.DefaultsAreBounded | packages/broker/src/storage/open-database.ts:64-65 | with the default settings at most 125 attempts and 30001 milliseconds |
| Semver.CompareSemver | packages/cli/src/semver-compare.ts:18-49 | the two index loops compute the comparison of the parsed parts |
| Semver.CompareIsATotalPreorder | packages/cli/src/semver-compare.ts:17-49 | on all strings the comparison is three-valued, turned round by swapping, transitive, and its ties are an equivalence |
| SemverPrecedence.ParsePrint | packages/cli/src/semver-compare.ts:7-15 | parsing a printed version gives its numbers and identifiers back |
| SemverPrecedence.LeadingVIgnored | packages/cli/src/semver-compare.ts:9 | one leading v makes no difference on either side |
| SemverPrecedence.DottedNumbers | packages/cli/src/semver-compare.ts:13-14 | of dotted numbers the first three count, missing ones are zero and further ones ignored |
| SemverPrecedence.AgreesWithSemver | packages/cli/src/semver-compare.ts:17-49 | on versions without build metadata the comparison is the precedence of SemVer 2.0.0 section 11 |
| SemverPrecedence.BuildIsIgnoredWhen | packages/cli/src/semver-compare.ts:7-15 | build metadata is ignored exactly after a normal version and without a hyphen before its end |

## Left out

- Turn ownership, the events pushed to subscribers and the outbox: they are written beside the transactions and read by none of them.
- The pause snapshot, the changed-file diff and the resume notice: they depend on git and on how a context patch treats null.
- Commit ranges and lists of commit hashes in the workflow context, and the terminal handoff and reason columns of a chain: bookkeeping that no modelled branch reads.
- Prompt templates and rendered request texts: a handoff keeps its step, round, agents, seed and stated base.
- Random ids and timestamps of the engine: a row's id is its position, insertion order stands for creation time.
- The wait inside kickoff between reading the workflow and beginning the run: kickoff is one step, with the git reading and the directory set-up as its inputs.
- WorkflowControl.Control: the bookkeeping of the evaluator's confidence and reason columns is not modelled, because no branch reads them back.
- ResumeSeedFacts.SeedFitsByDroppingLines: like the other results about lengths, assumes that strings and round numbers have fewer than 21 digits in their sizes, which every JavaScript string and array has.
- FrameParser.OneFrameHoweverCut: holds for streams without escape characters, because a chunk border inside an escape sequence defeats its removal; the stripping itself is modelled for all chunks.
- ResumeSeedSections.SeedCanBeRead: for rows in ascending rounds, the order in which a chain's rows are read.
- RecoveryGuards.ImportChecks: the raw and distinct mismatches name no table, because the source names the first in the order of the caller's keys.
- WorkflowRange.RangeHasBase: assumes that no kickoff reads an empty head, which git never prints.
- FrameParser.EachCallReturnsNewest: assumes what the protocol writes, that inside a frame a line which starts with the END prefix goes on with a work item id; a body line like it with words after it can be cut so that a part of it closes the frame.
- JsonScanner.ObjectsAreRecovered: a scalar stands for any text without braces and quotes, which covers every number and literal name.
- The choice of a row among those of one id in the recovered data is the first one; the query leaves it open.
- Opening and copying the database files, the schema version check before the import, and the wording of its errors.
- Sorting the wall's groups by recency, and drawing the cards.
- EvalSchedule.PairRunsAlone: an error that settles while another completion resumes the loop may go unnoticed by it; the model allows both.
- Preparing workspaces, running the arms, grading, the ledger's contents, and billing checks: an attempt ends as graded, over quota or failed.
- The seeded shuffle of the manifest: any permutation is allowed.
- WriteQueue.Connection.Transaction: a body makes its one nested call before its own work; the order of several nested calls is not modelled.
- WriteQueue.LockErrorByDeadline: assumes that only attempts and waits take time and that an attempt failing on a lock blocks no longer than its cap.
- Semver.CompareIsATotalPreorder: numbers are exact where JavaScript rounds them from 2^53 on, and characters are compared by code point, which for the ASCII of versions is the same order.
- PTY sessions, adapters, sockets, dashboards, CLI wiring and configuration: I/O and UI.
