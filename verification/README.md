# A verified model of the litigation run engine

This project models the journal-driven run engine of the repository and the durable protocols around it, and proves
what holds over every run, every history of crashes and every input. `dafny verify dfyconfig.toml` checks all of it.

**How the pieces fit.** A run's state is the fold of an event log (`Journal`). A compiled stage graph (`Pipeline`)
over a fixed slot layout (`Layout`, `Format`) tells the planner which turns come next (`Stages`); the planner's
whole-run theorems are in `Planner`, `PlannerRuns` and `PlannerReopen`, with judge-panel alignment in `Panels` and
drafting convergence in `Convergence`. `Decisions` is the attorney-gate store. `Engine` gives each verb as the list of
durable writes it makes, in order. `EngineSafety` says when one write is allowed and that every allowed write keeps
the invariant; `EngineVerbs` that every verb makes only allowed writes; `EngineRuns` lifts this to any history in
which each call may die after any of its writes. The histories hold every writer of a run's journal: the
orchestrator's verbs, the provider's calls, the outbox, the decision store, and the citation checks that complete
turns of their own after drafting. `EngineRetry`, `EngineReplay`, `EngineCharges`, `EngineChecks`,
`EngineResolve` and `EngineDrive`
prove the retry invariant, exactly-once recording under crash and replay, that every completion was paid for,
exactly-once resolution, and the end of every drive. `Orchestrator` is the imperative orchestrator and provider
driver, each method tied to the writes `Engine` lists for it. `LineLog` and `JournalReader` are the byte-level log and
its two readers; `Close`, `Facts` and `RunLock` the other crash and contention protocols; `GateLedger`,
`ConfigPolicy`, `BrowserFold`, `SpendCap` and `RateLimit` the derived views and bounds.

**How crashes are modelled.** A verb is a function from the durable state to a list of writes (journal line, turn body,
decision record). A crash keeps a prefix of that list. Because every single allowed write keeps the invariant, it holds
after any crash, and recovery is simply the next call. In `Close` and `Facts` the same shape is used over directories
and over the fact log.

**Inputs.** Provider answers, gate verdicts, the aggregate of a full rubric panel, scores, coverage, text similarity,
clocks, fresh identifiers, usage and prices are arbitrary values. A digest is an injective value
(`JournalReader.Digest`, `Facts.FactId`, `Close.Tombstone`). In `Close` a vault is known by its inode number, and
inode numbers are assumed not to be used again while the matters root lives. Event JSON is an arbitrary partial parser
of stripped lines.

**Where the code and its own text differ, the code is followed.**
- `RunLock` never takes over a live, fresh lock held on the same host, even with the override
  (src/mootloop/vault.py:592-598), although its docstring says the override does.
- The graph check accepts any order of distinct stages ending in `assemble`
  (src/mootloop/models/pipeline.py:44-52); the ownership check orders only part of two strategies. The model states
  exactly which orders make progress, and gives a graph that compiles and never finishes.

## Results that are false as first put, and what holds instead
- *The plan is empty exactly when every request is complete, and planning raises only over an oversized jury draft*:
  holds in every reachable view under every assessment exactly when the graph is `Ordered`
  (`PlannerRuns.ProgressIffOrdered`); `PlannerRuns.CompiledMayStall` is a compiled graph that is not.
- *Completed stages stay complete*: for a completed prefix of the stages, on an ordered graph it holds in every run
  exactly when no stage is followed by one that `Reopens` it, a condition on stage order and caps
  (`PlannerReopen.StaysCompleteIffSettled`). For every completed stage, even one complete ahead of its turn, it holds
  exactly when no stage is reopened by any other, before or after it (`PlannerReopen.StagesStayIffFullySettled`);
  `PlannerReopen.AheadOfItsTurn` is a graph where the first holds and the second does not. Each of the four reopening
  lemmas there drives a run to a landing that opens a completed stage again.
- *A run never completes more turns than its requests times the committed ceiling*: the ceiling bounds the turns of the
  graph (`EngineRuns.CompletedWithinCeiling`), which are exactly the completed turns that are not citation checks
  (`EngineRuns.CompletedAreLocatedOrChecks`). From every reachable run that stopped drafting with a draft, each open
  check within the cap adds one more turn, so enough of them pass the ceiling (`EngineChecks.ChecksPassCeiling`);
  `EngineChecks.OneCheckPassesCeiling` is a run of one draft and one check, two turns over a bound of one.
- *A check that died is completed by making it again*: exactly when it had completed or the run is not over its cap
  (`EngineChecks.CheckAfterCrash`). Its own reservation can put the run over: then no check writes anything any more
  (`EngineChecks.StrandedByItsReservation`).
- *A completed check holds no reservation*: exactly when it books its call; one replayed after its spend was booked, or
  one that reports no usage, leaves the reservation behind (`EngineChecks.CheckLeavesReservation`).
- *Outside needs_attention every turn has retries left*: holds for whole verbs
  (`EngineRetry.WholeHistoriesKeepRetry`); `EngineRetry.CrashedDiscard` says exactly which crash breaks it.
- *A call settles within its reservation*: at the prices of the table exactly when its weighted input plus five times
  its output is at most 520000 (`SpendCap.WithinReservationAtTable`), and at every conceivable price exactly when each
  of the two is within its own limit (`SpendCap.WithinReservation`). `SpendCap.CacheWritesOverrun` is a call within the
  token limits that overruns at every price.
- *The two folds agree on status*: exactly while no reopen is the last event that settled it
  (`BrowserFold.FoldsAgree`), since the browser's schema drops that frame.
- *A merged layer keeps every non-allowlisted structural leaf*: exactly when it agrees in shape along that leaf's path
  (`ConfigPolicy.PolicyKeepsStructure`); over any number of layers exactly when each of them is clean along it, and what
  is lost stays lost (`ConfigPolicy.ResolutionKeepsStructure`). Validation of the result catches every such loss but one
  (`ConfigPolicy.ValidatedKeepsStructure`): the number of jurors falls to zero (`ConfigPolicy.JurorsKeptExactly`), and
  `ConfigPolicy.JurorsSilentlyReset` is a resolution that does it.
- *A close record exists only when both places are empty*: a recovery keeps a new vault put in the old place.
  `Close.RecordBesideVault` is such a history. A close that completes leaves the old place empty unless it was a
  recovery that found a vault there (`Close.CompletedLeaves`), and after the detachment that is the case exactly when a
  new vault was put there and not taken away (`Close.RecordBesideVaultExactly`).
- *A holder keeps the lock it acquired until it releases it*: a holder that acquires again while alive and fresh by its
  own threshold is refused and fenced out of its own file (`RunLock.ReacquireStrandsTheLock`); exactly then, and not
  otherwise, does a second acquire cost it the lock (`RunLock.ReacquireExactly`). Along any stretch a contender can
  still refresh and delete the lock exactly when its last granted acquire was followed by no release of its own, no
  other granted acquire and no refused acquire of its own (`RunLock.UsableExactly`, `RunLock.UsableFromStart`).

## Model

| member | source | states |
|---|---|---|
| Format.Pad4RoundTrip | src/mootloop/stages.py:144-145 | reading a zero-padded sequence number back gives the number, at every width |
| Layout.SlotsTileBlock | src/mootloop/stages.py:98-142 | the slots of a request and the places of its block are in one-to-one correspondence |
| Layout.SeqInjective | src/mootloop/stages.py:111-142 | no two slots, of the same or different requests, share a sequence number |
| Layout.SlotsCoverRun | src/mootloop/stages.py:98-142 | every number below requests times block belongs to a slot of some request |
| Layout.TurnIdsDistinct | src/mootloop/stages.py:78-145 | turn ids are distinct over all slots of all requests of a run |
| Pipeline.WithoutKeepsGraph | src/mootloop/pipeline.py:35-37 | removing stages keeps a graph well formed unless it removes the last stage |
| Pipeline.CompileSound | src/mootloop/pipeline.py:91-213 | every compiled graph is well formed, gives each active persona all the stages it owns, an opponent its bolster and a discovery judge its restructure included, and no bypassed one any, has one draft owner and its exact turn ceiling |
| Panels.AlignRulings | src/mootloop/panels.py:31-68 | the two loops with their claimed set compute the alignment the lemmas below describe |
| Panels.FoldObjectionResults | src/mootloop/panels.py:71-106 | the nested vote loops compute each objection's surviving and total votes over all judges and its first three reasonings |
| Panels.NoRulingUsedTwice | src/mootloop/panels.py:31-68 | no ruling of one judge is aligned with two objections |
| Panels.FirstPassMatches | src/mootloop/panels.py:45-56 | for each basis the first pass matches exactly the smaller of the numbers of objections and rulings |
| Panels.AgreeingListsAlign | src/mootloop/panels.py:31-68 | equally long lists with agreeing bases align to the identity |
| Panels.VotesNeverExceedRulings | src/mootloop/panels.py:71-106 | total votes never exceed rulings cast, surviving votes never exceed votes, and votes on one objection never exceed judges |
| Stages.PlanRequestLoop | src/mootloop/stages.py:817-823 | the loop over stages stops at the first incomplete one and returns its plan or its exception |
| Planner.PlanRoundsMeaning | src/mootloop/stages.py:440-516 | once the first draft is there, the partner loop plans exactly one new slot until the round at which it settles, then none |
| Planner.PlanIsNew | src/mootloop/stages.py:817-823 | every planned turn is a slot of the request, not yet completed, carries its slot's schema, and is planned once |
| Planner.NeverStalls | src/mootloop/stages.py:411-836 | on an ordered graph planning raises only for an oversized jury draft, and is empty exactly when the request is complete |
| PlannerRuns.RunIsTyped | src/mootloop/stages.py:411-836 | in every run each slot holds output of its own schema and each landing fills a new slot |
| PlannerRuns.PlanStaysPlanned | src/mootloop/provider_driver.py:147-172 | of two turns planned together, landing one leaves the other planned, so a driver may work through a stale plan |
| PlannerRuns.RunWithinCeiling | src/mootloop/models/pipeline.py:55-68 | no run of a request completes more turns than the graph's turn ceiling |
| PlannerRuns.DriveToEnd | src/mootloop/stages.py:817-823 | every run of the planner can be driven to a point where nothing more is planned |
| PlannerRuns.UnorderedNeverCompletes | src/mootloop/stages.py:459-516 | a graph that is not ordered never completes a request, whatever the providers answer |
| PlannerRuns.ProgressIffOrdered | src/mootloop/stages.py:411-836 | in every reachable view and under every assessment the planner raises only over an oversized jury draft and is out of work only when done, exactly for ordered graphs |
| PlannerRuns.CompiledMayStall | src/mootloop/pipeline.py:91-213 | a valid adapter compiles to a graph that is not ordered |
| PlannerReopen.LandingKeepsDone | src/mootloop/stages.py:817-836 | on an ordered, settled graph each landing keeps every stage that was complete with all stages before it |
| PlannerReopen.BolsterReopensLoop | src/mootloop/stages.py:288-365 | adversarial-first, with in-loop rubric and three rounds: a later bolster pass undoes a convergence of the partner loop |
| PlannerReopen.BolsterReopensRestructure | src/mootloop/stages.py:297-337 | a bolster pass behind the judges opens again a complete restructure pass, be it earlier or complete ahead of its turn |
| PlannerReopen.FirstDraftReopensRestructure | src/mootloop/stages.py:297-337 | so does a first draft behind the judges, when no bolster came before |
| PlannerReopen.RedraftReopensRestructure | src/mootloop/stages.py:297-337 | so does a partner loop behind the judges that can redraft, when they would read the redraft |
| PlannerReopen.StaysCompleteIffSettled | src/mootloop/stages.py:411-836 | on an ordered graph, a completed prefix of the stages stays complete in every run and under every assessment exactly when no stage is followed by one that can reopen it |
| PlannerReopen.StagesStayIffFullySettled | src/mootloop/stages.py:411-836 | the same of every completed stage, whatever is incomplete before it: it stays complete exactly when no stage can be reopened by any other |
| PlannerReopen.AheadOfItsTurn | src/mootloop/stages.py:297-337 | a graph on which completed prefixes stay complete and a restructure pass complete ahead of its turn does not |
| Journal.Replay | src/mootloop/journal.py:252-308 | the replay loop computes the fold |
| Journal.CompletedFromJournal | src/mootloop/journal.py:268-269 | a folded turn is one the journal carries, under its own id |
| Decisions.LogShape | src/mootloop/decisions.py:40-69 | decisions are numbered 0 to n-1, each opened once, resolved at most once, and never open again after |
| Decisions.DeriveAndStore | src/mootloop/decisions.py:350-384 | the loop with its seen set and counter appends one record per gate not seen before |
| Decisions.DeriveKeys | src/mootloop/decisions.py:350-384 | after a derivation the store holds exactly the gates it had and the gates proposed |
| Decisions.RederiveAfterCrash | src/mootloop/decisions.py:350-384 | a derivation that died anywhere, rerun from any superset of its drafts, ends with the same gates as one that never died, numbered 0 to n-1 |
| Decisions.ResolveOnce | src/mootloop/decisions.py:242-287 | a fresh resolution closes its open decision; the same one later is a retry; no later one is fresh |
| EngineSafety.ViewAfter | src/mootloop/orchestrator.py:176-202 | completing a turn changes its own request's view at its own slot and no other view |
| EngineSafety.KeepsSettled | src/mootloop/orchestrator.py:1112-1161 | once all requests are complete, their gates known and no hard-human gate open, no allowed write changes that, citation checks included |
| EngineSafety.CheckKeepsView | src/mootloop/citations/check.py:34-72 | completing a citation check changes no request's view |
| EngineSafety.KeepsInv | src/mootloop/orchestrator.py:468-711 | every durable write a verb may make keeps the whole run invariant: among it, that completed turns are runs of each request's planner and citation checks and nothing else |
| EngineSafety.InvAfterCrash | src/mootloop/orchestrator.py:468-711 | a crash after any number of allowed writes leaves the invariant in place |
| EngineVerbs.FinalizeAllowed | src/mootloop/orchestrator.py:1112-1161 | finalization journals `finished` only on a settled run, and derives only gates of completed drafts |
| EngineVerbs.CompletionAllowed | src/mootloop/orchestrator.py:668-695 | body, gates, spend and completion are each allowed in that order, and together leave exactly the completed turn |
| EngineVerbs.RecordTurnAllowed | src/mootloop/orchestrator.py:468-532 | every write of a recording call is allowed at the point where it is made |
| EngineVerbs.ResolveAllowed | src/mootloop/decisions.py:224-335 | every write of a resolution is allowed, and one that is not refused never meets a conflicting journal record |
| EngineVerbs.CheckCitationsAllowed | src/mootloop/citations/check_runner.py:218-343 | every write of a run of citation checks, on a run that stopped drafting, is allowed where it is made |
| EngineRuns.HistoryKeepsInv | src/mootloop/orchestrator.py:235-1368 | the invariant holds in every state any history of verbs, citation checks and crashes can reach |
| EngineRuns.TurnsExactlyOnce | src/mootloop/orchestrator.py:468-695 | in every such state a turn, citation checks included, is completed at most once, its record is its write-once body, and an always-accepted call is charged at most once |
| EngineRuns.FinishedIsSafe | src/mootloop/orchestrator.py:1112-1177 | once `finished` is journaled, then and ever after, through citation checks too, all requests are complete, all their gates are in the store and no hard-human gate is open |
| EngineRuns.CompletedWithinCeiling | src/mootloop/models/pipeline.py:55-68 | no history completes more turns of the graph than requests times the graph's ceiling |
| EngineRuns.CompletedAreLocatedOrChecks | src/mootloop/citations/check.py:34-72 | in every history a completed turn is a slot of a request exactly when it is not a citation check |
| EngineRetry.DiscardOutcome | src/mootloop/orchestrator.py:970-1005 | a rejected result spends exactly one retry of its turn, and the last one stops the run |
| EngineRetry.AcceptedOutcome | src/mootloop/orchestrator.py:662-711 | an accepted result completes its turn and nothing else, unless a conflicting body is there, when it changes no turn |
| EngineRetry.ReopenRestores | src/mootloop/orchestrator.py:1313-1368 | a successful reopen leaves the run running with the retry invariant restored |
| EngineRetry.VerbsKeepRetry | src/mootloop/orchestrator.py:964-1368 | every verb taken whole keeps: outside needs_attention every uncompleted turn has retries left |
| EngineRetry.WholeHistoriesKeepRetry | src/mootloop/orchestrator.py:964-1368 | so does every history of whole verbs |
| EngineRetry.AttentionNeedsReopen | src/mootloop/journal.py:299-304 | a write leaves needs_attention exactly when it is a reopen |
| EngineRetry.CrashedDiscard | src/mootloop/orchestrator.py:996-1004 | a crashed discard breaks the retry invariant exactly when it dies between its two appends on the last attempt |
| EngineReplay.CrashBefore | src/mootloop/orchestrator.py:662-695 | dying before the completion leaves the call recordable, with the very same record if its body was written and otherwise with one that differs only in its time |
| EngineReplay.ReplayAfterCrash | src/mootloop/orchestrator.py:468-695 | wherever a recording call died, replaying its result completes the turn with it, once, with its body as its record, and charges it exactly once; it raises at most that the next turns of a gated run cannot be planned |
| EngineCharges.EveryCompletionIsCharged | src/mootloop/orchestrator.py:468-695 | in every history each completed turn, citation checks included, was completed by one call that carried its output, and that call is on the spend ledger, exactly once if its results are always accepted |
| EngineCharges.RecordCharges | src/mootloop/orchestrator.py:662-695 | a recording call that dies anywhere completes no turn but its own, and only after charging it |
| EngineCharges.CheckCharges | src/mootloop/citations/check_runner.py:178-212 | so does a citation check |
| EngineChecks.CheckAfterCrash | src/mootloop/citations/check_runner.py:178-312 | wherever a check died, making it again with the same answer lands it once, with its body as its record, charged once, exactly when it had completed or the run is not over its cap; over the cap it writes nothing |
| EngineChecks.StrandedByItsReservation | src/mootloop/citations/check_runner.py:275-294 | a check that dies in its provider call leaves the run over its cap exactly when its own reservation reaches it, and then no check of the run writes anything |
| EngineChecks.CheckLeavesReservation | src/mootloop/citations/check_runner.py:280-312 | a check that completes leaves its reservation pending exactly when it reports no usage or its call was already booked |
| EngineChecks.ChecksPassCeiling | src/mootloop/citations/check_runner.py:65-72 | from every reachable run that stopped drafting with a draft, a run of checks, each open, within the cap and validly answered, completes exactly that many more turns, past the ceiling if there are more of them than it |
| EngineChecks.UncappedChecksComplete | src/mootloop/citations/check_runner.py:250-312 | without a cap every list of fresh checks of different propositions is such a list |
| EngineChecks.OneCheckPassesCeiling | src/mootloop/citations/check_runner.py:178-212 | a run of one request drafted once, and one check, completes two turns over a ceiling of one |
| EngineResolve.ResolveAfterCrash | src/mootloop/decisions.py:224-335 | wherever a resolution died, the identical request stores it once and journals it once, as stored |
| EngineResolve.ConflictChangesNothing | src/mootloop/decisions.py:262-274 | after that, any request is that same resolution again or is refused and writes nothing |
| EngineDrive.BudgetBound | src/mootloop/orchestrator.py:964-1005 | a run has at most requests times block times retry ceiling records in it |
| EngineDrive.RecordSpendsBudget | src/mootloop/orchestrator.py:609-711 | every recorded result, accepted or not, uses up one of them |
| EngineDrive.RestStaysPlanned | src/mootloop/provider_driver.py:147-172 | after recording one turn of a plan the other turns of that plan, of any request, are still planned |
| EngineDrive.EmptyPlanIsComplete | src/mootloop/provider_driver.py:143-146 | on a graph that can finish, an empty plan of a running run means that every request is complete |
| Orchestrator.Orchestrator.WriteBody | src/mootloop/journal.py:84-121 | writes a body once, keeps one that differs only in its time, and otherwise refuses and changes nothing |
| Orchestrator.Orchestrator.Spend | src/mootloop/orchestrator.py:535-606 | books a call unless it is a replay of one already on the ledger |
| Orchestrator.Orchestrator.ToFinal | src/mootloop/orchestrator.py:1112-1161 | makes exactly the writes of finalization: missing gates, rubric verdicts not yet recorded, then the ending |
| Orchestrator.Orchestrator.EmitRubric | src/mootloop/orchestrator.py:918-961 | records a request's rubric verdict when its panel is full and has none, and otherwise nothing |
| Orchestrator.Orchestrator.ToCheckpoint | src/mootloop/orchestrator.py:1208-1235 | makes exactly the checkpoint write of a gated run poised before a stage or holding open policy gates, and raises exactly when a gated running run cannot be planned |
| Orchestrator.Orchestrator.PlanTurns | src/mootloop/orchestrator.py:176-202 | the loop over requests collects every request's plan, or raises what the first failing one raises |
| Orchestrator.Orchestrator.Reject | src/mootloop/orchestrator.py:970-1005 | makes exactly the writes of a discard |
| Orchestrator.Orchestrator.RecordPlanned | src/mootloop/orchestrator.py:609-711 | validates, gates and records one result, making exactly the writes and raising exactly the error of the specification |
| Orchestrator.Orchestrator.Record | src/mootloop/orchestrator.py:468-532 | records a completed, planned or unschedulable turn exactly as the specification does |
| Orchestrator.Orchestrator.StartRun | src/mootloop/orchestrator.py:235-387 | opens a run once and finalizes one with no work; a second start is refused unless it is idempotent and its launch is the one committed |
| Orchestrator.Orchestrator.NextTurns | src/mootloop/orchestrator.py:393-422 | gives the plan, and writes nothing, except that a running run over its cap is moved to `capped` and given nothing |
| Orchestrator.Orchestrator.PauseRun | src/mootloop/orchestrator.py:1238-1249 | pauses any run that is not complete for good |
| Orchestrator.Orchestrator.ResumeRun | src/mootloop/orchestrator.py:1252-1260 | resumes exactly a paused run |
| Orchestrator.Orchestrator.ContinueRun | src/mootloop/orchestrator.py:1263-1276 | clears the last checkpoint the journal reached |
| Orchestrator.Orchestrator.RaiseCapTo | src/mootloop/orchestrator.py:1086-1090 | journals the new cap |
| Orchestrator.Orchestrator.ReopenRun | src/mootloop/orchestrator.py:1282-1368 | reopens a blocked run exactly when there is a reason besides white space and the grant clears every spent turn |
| Orchestrator.Orchestrator.ResolveDecision | src/mootloop/decisions.py:224-335 | stores, journals and finalizes a resolution exactly as the specification does |
| Orchestrator.Orchestrator.CheckCitation | src/mootloop/citations/check_runner.py:250-312 | makes exactly the writes of one check; it ends completed, or left open by the cap with nothing written, or raised |
| Orchestrator.Orchestrator.RunCitationChecks | src/mootloop/citations/check_runner.py:218-343 | refuses before drafting is complete; otherwise makes exactly the writes of its checks and two gates, and each check ends completed or listed unresolved unless one raised |
| Orchestrator.Orchestrator.RecordAll | src/mootloop/provider_driver.py:147-172 | works through one plan, skipping the rest once the run stops; each record uses up budget |
| Orchestrator.Orchestrator.Drive | src/mootloop/provider_driver.py:97-173 | ends within requests times block times ceiling records, keeps every invariant, and on a graph that can finish ends with the run stopped unless something raised |
| LineLog.CommittedIs | src/mootloop/persistence.py:41-61 | a boundary with no newline after it is where the committed part ends |
| LineLog.AppendIsAtomic | src/mootloop/persistence.py:22-38 | an append that dies after any byte leaves the committed lines as they were or extended by that one line, and what was committed stays a prefix |
| LineLog.LogFile.RepairTornTail | src/mootloop/persistence.py:41-61 | the backward scan truncates just after the last newline, for every chunk size, and says whether it changed anything |
| LineLog.LogFile.AppendLine | src/mootloop/persistence.py:22-38 | repairs, then writes the line up to the byte at which it dies |
| LineLog.CompleteLines | src/mootloop/persistence.py:75-85 | yields exactly the complete lines, decoded, without the blank ones, up to the first that does not decode, which raises |
| JournalReader.ParseLoop | src/mootloop/journal.py:196-209 | parses exactly the complete lines, fails exactly when one of them does, and consumes up to the last newline |
| JournalReader.CachedReadIsFull | src/mootloop/journal.py:148-214 | from any sound cache and any file contents the cached read answers what a full parse answers, and leaves a sound cache |
| JournalReader.EveryReadIsFull | src/mootloop/journal.py:169-214 | over any history of contents and any interleaving of calls, evictions included, every answer is the full parse |
| JournalReader.Reader.ReadEvents | src/mootloop/journal.py:169-214 | the reader with its module-level cache returns the full parse and keeps the cache sound |
| JournalReader.TailEvents | src/mootloop/journal.py:217-246 | returns the events after an offset and the offset after the last complete line |
| JournalReader.PollKeepsFaith | src/mootloop/journal.py:217-246 | a poll keeps what was seen equal to the parse of the bytes before the offset, and fails only when the full parse fails |
| JournalReader.PollsSeeCommitted | src/mootloop/journal.py:217-246 | through any appends, crashes and repairs the concatenated polls are the committed events, none lost, repeated or taken back |
| Close.KeepsInv | src/mootloop/close.py:583-785 | every durable write of the protocol keeps: one place per vault, nothing destroyed before clearance, records and tombstones in order |
| Close.DestroysOnlyTheOriginal | src/mootloop/close.py:503-516 | a write that destroys anything destroys only the vault a durable, detached intent names, and never the active one |
| Close.AttemptAllowed | src/mootloop/close.py:583-785 | every write of every attempt is allowed where it is made, retention being checked in the attempt that detaches |
| Close.RecoveryCompletes | src/mootloop/close.py:597-620 | once the vault has left its place the next attempt completes the prepared close, whatever now holds, and leaves a new vault alone |
| Close.RetryRechecks | src/mootloop/close.py:613-633 | before that, the next attempt closes the vault exactly when the lock, the retention of that moment and the backup allow it |
| Close.EveryHistoryIsSafe | src/mootloop/close.py:583-785 | after any attempts dying anywhere and any interference the whole invariant holds |
| Close.CompletedLeaves | src/mootloop/close.py:597-785 | every close that completes leaves its record and no quarantine, and leaves the old place empty exactly unless it was a recovery that found a vault there |
| Close.RecordBesideVaultExactly | src/mootloop/close.py:597-620 | from the detachment on, through crashed attempts and interference, the recovery that completes leaves its record beside a vault exactly when a new one was put in the old place and not taken away |
| Close.RecordBesideVault | src/mootloop/close.py:597-620 | a history that ends with a record beside an active vault |
| Close.MattersRoot.PurgeVault | src/mootloop/close.py:503-516 | removes the files one by one and the root last |
| Close.MattersRoot.CloseAttempt | src/mootloop/close.py:542-785 | makes exactly the writes and gives exactly the refusal of the specification |
| RunLock.LockObject.AcquireLock | src/mootloop/vault.py:493-532 | takes, creates or is refused the lock exactly as specified, forgetting its token when refused |
| RunLock.LockObject.Beat | src/mootloop/vault.py:534-566 | refreshes only a lock whose token is its own |
| RunLock.LockObject.ReleaseLock | src/mootloop/vault.py:568-584 | deletes only a lock whose token is its own |
| RunLock.RunsAreFenced | src/mootloop/vault.py:486-609 | in every run the lock file carries the token of the latest successful acquirer that has not deleted it |
| RunLock.DisplacedIsHarmless | src/mootloop/vault.py:534-584 | a displaced holder can neither refresh nor delete its successor's lock |
| RunLock.FreshLockIsKept | src/mootloop/vault.py:587-602 | while the owner is alive and fresh an acquire succeeds exactly with the override and from another host |
| RunLock.OwnerChanges | src/mootloop/vault.py:493-584 | ownership changes only by the owner's own release or by a successful acquire |
| RunLock.ExclusiveWhileFresh | src/mootloop/vault.py:493-602 | without the override nobody takes the lock while its owner stays alive, fresh and does not release it |
| RunLock.ReacquireStrandsTheLock | src/mootloop/vault.py:509-530 | an owner refused its own lock can no longer refresh or delete it |
| RunLock.ReacquireExactly | src/mootloop/vault.py:493-532 | an owner that acquires again keeps its lock exactly unless its process is alive and its lock fresh by its own threshold |
| RunLock.UsableMeans | src/mootloop/vault.py:534-584 | to hold the lock under one's own token is exactly to be able to refresh it, and to delete it |
| RunLock.UsableExactly | src/mootloop/vault.py:493-584 | along any stretch a contender ends able to use the lock exactly when it began so, or was granted it, and after that neither released it, nor lost it to another's granted acquire, nor was refused one itself |
| RunLock.UsableFromStart | src/mootloop/vault.py:493-584 | from the start, a heartbeat succeeds exactly when the last granted acquire was spoiled by none of these |
| Facts.FoldLoop | src/mootloop/facts.py:43-68 | the two loops compute the fold |
| Facts.FoldMeaning | src/mootloop/facts.py:43-68 | a folded fact is its last record, with the edge its first accepted successor implies unless it carries one |
| Facts.RevisionCompleteAtFirstAppend | src/mootloop/facts.py:263-322 | on any log at all, folding with and without a revision's second append gives the same map |
| Facts.OperationsAllowed | src/mootloop/facts.py:115-322 | each append of each operation keeps versions, edges and single successors in order, so a crash after either does |
| Facts.SupersededExactlyWhenNamed | src/mootloop/facts.py:115-322 | in every reachable log a fact is superseded exactly when an accepted record names it, by that one id, one version later |
| Facts.CrashedTransitionReadsComplete | src/mootloop/facts.py:216-322 | in every reachable log a superseding operation that dies between its appends reads as complete |
| Facts.FactStore.ReviseFact | src/mootloop/facts.py:263-322 | checks and appends exactly what the specification appends |
| Facts.FactStore.Accept | src/mootloop/facts.py:216-261 | accepts a pending fact exactly as the specification does; a reviewer or a time of only white space is refused |
| GateLedger.TurnGateStatus | src/mootloop/gate_ledger.py:46-97 | each request gate is the last verdict on the operative draft if it has one and the historical worst otherwise, and the worst is readable from the published view |
| GateLedger.RevisionRequirements | src/mootloop/output_review.py:10-58 | lists exactly the closed decisions whose choice the applicable drafts do not establish |
| GateLedger.ExportReady | src/mootloop/gate_ledger.py:200-218 | the blocker list holds each blocking status and each configured blocking gate that some request has not passed, once |
| GateLedger.BuildLedger | src/mootloop/gate_ledger.py:125-197 | export is ready exactly when the final blocker list, revisions included, is empty, and exactly when every decision, attestation, citation and gate is clear |
| GateLedger.LedgerOf | src/mootloop/gate_ledger.py:125-197 | the ledger built from a journal is ready exactly when decisions, attestation and the last citation verdict are clear and each configured blocking gate was recorded on each request and passed: last time on the operative draft, or else every time |
| GateLedger.ChoicesThatAlwaysBlock | src/mootloop/output_review.py:19-41 | a resolved privilege call, a denial or a narrowed posture always blocks export |
| ConfigPolicy.LookUp | src/mootloop/config.py:128-134 | the lookup loop follows a path or reports that it leaves the tree |
| ConfigPolicy.MergeKeepsLeaf | src/mootloop/config.py:106-114 | a leaf survives a merge exactly when the shapes agree along its path and the incoming value there is the same or absent |
| ConfigPolicy.LeafPathsAre | src/mootloop/config.py:117-125 | the leaf paths of a tree are exactly the paths at which it has a leaf |
| ConfigPolicy.PolicyKeepsStructure | src/mootloop/config.py:143-162 | a layer that passes the policy keeps a non-allowlisted structural leaf exactly when it agrees in shape along its path |
| ConfigPolicy.NullContainerPasses | src/mootloop/config.py:143-162 | a null for a structural container passes the policy and removes its leaves from what is merged |
| ConfigPolicy.HighestLayerWins | src/mootloop/config.py:189-250 | over all merged layers each leaf has the value of the highest layer that sets it |
| ConfigPolicy.ResolutionTakesHighest | src/mootloop/config.py:189-250 | so does each leaf of a configuration resolved through the policy, with the defaults, the values of an old matter file and the adapter counted as layers |
| ConfigPolicy.Resolve | src/mootloop/config.py:200-243 | merges what lies below the policy, then the loop over the upper layers enforces and merges each in order and stops at the first refusal |
| ConfigPolicy.ResolutionKeepsStructure | src/mootloop/config.py:189-250 | however many layers pass, a non-allowlisted structural leaf keeps the value it had below them exactly when every layer is clean along its path, and otherwise is a leaf no more |
| ConfigPolicy.ValidatedKeepsStructure | src/mootloop/models/config.py:102-112 | a resolved configuration that validates has kept every such leaf but the number of jurors, the one that has a default |
| ConfigPolicy.JurorsKeptExactly | src/mootloop/models/config.py:102-112 | the number of jurors is kept exactly when every layer is clean along its path, or it was zero |
| ConfigPolicy.JurorsSilentlyReset | src/mootloop/config.py:143-250 | one layer nulls the panels, a higher one supplies the three allowlisted leaves again: both pass, the result validates, and the number of jurors is zero |
| RateLimit.TokenBucket.Take | src/mootloop/citations/ratelimit.py:56-63 | an honest acquire leaves the bucket as specified, between empty and full |
| RateLimit.AcquireAccounts | src/mootloop/citations/ratelimit.py:50-63 | what an acquire grants plus what it leaves is covered by what was there and what flowed in |
| RateLimit.BucketAccounts | src/mootloop/citations/ratelimit.py:50-63 | the same over any sequence of acquires |
| RateLimit.WindowBound | src/mootloop/citations/ratelimit.py:15-63 | tokens granted over any window are at most the capacity plus the rate times its length |
| SpendCap.WithinReservation | src/mootloop/budget.py:139-169 | a call costs no more than its reservation at every conceivable price exactly when its weighted input and its output are within the assumed limits |
| SpendCap.WithinReservationAtTable | src/mootloop/budget.py:42-50 | in every window of the price table, exactly when weighted input plus five times the output is at most the sum of limits, weighted alike |
| SpendCap.CacheWritesOverrun | src/mootloop/budget.py:139-169 | a call within both token limits that costs more than its reservation at every price that charges for input |
| SpendCap.SettlesExactly | src/mootloop/journal.py:276-280 | settling changes exposure by the cost over the reservation, so it does not rise exactly when the call cost no more than was reserved, or nothing when nothing was |
| SpendCap.OvershootBound | src/mootloop/orchestrator.py:1018-1023 | from any sane state, after any number of disciplined writes, spend plus reservations is below the cap plus one largest reservation, or has not grown |
| SpendCap.ChecksStayBounded | src/mootloop/citations/check_runner.py:250-313 | on any run with no negative amount in its journal, citation checks dying anywhere keep that bound, if each call costs no more than is reserved for it |
| SpendCap.JournalsAreSane | src/mootloop/journal.py:276-280 | a journal without negative amounts folds to nonnegative spend and reservations |
| BrowserFold.FoldsAgree | frontend/lib/api/runStream.ts:62-199 | both folds agree on spend, reservations, pause reason, completed turns, stage and cap on every guarded journal, and on status exactly when no dropped reopen settled it |
| BrowserFold.FoldsAgreeWithoutReopen | frontend/lib/api/runStream.ts:62-199 | without a reopen they agree on everything |
| BrowserFold.ReplayIsFresh | frontend/lib/api/runStream.ts:63-65 | replaying any journal that begins with its run's start onto any browser state gives what a fresh start gives |
| BrowserFold.HistoriesAreGuarded | src/mootloop/orchestrator.py:235-1368 | every history of verbs, citation checks and crashes leaves a guarded journal |
| BrowserFold.StartedOnce | src/mootloop/orchestrator.py:255-330 | a guarded journal that started did so exactly once, so an identical idempotent start is always accepted |

## Left out
- EngineRuns.TurnsExactlyOnce: charging is at most once for calls that always carry an accepted result; the code books
  rejected calls without looking for a replay.
- Orchestrator.Orchestrator.StartRun: whether a second start asks for the committed launch is an input; how launch
  contexts are compared is not modelled.
- Orchestrator.Orchestrator.WriteBody: the prompt context of a record is not compared, and a body that is unreadable
  or not in canonical form is not modelled.
- Orchestrator.Orchestrator.ToFinal: the assembled deliverable is not modelled.
- Orchestrator.Orchestrator.CheckCitation: the evidence behind a check, the proposition ledger and the judgement inside
  its output come from outside.
- Orchestrator.Orchestrator.RunCitationChecks: which checks there are, the evidence behind them, the proposition
  ledger and the judgement inside a check's output come from outside.
- Close.EveryHistoryIsSafe: a new vault that is given the inode number of an old one is not a step of the model.
- RunLock.RunsAreFenced: the lock file is written only by contenders; a file damaged or removed by someone else is
  covered by the acquire rules but not by the run theorems.
- Status sidecars, gap reports, assembly of deliverables and attestation: derived outputs that no modelled transition
  reads.
- Prompt rendering, personas' text, model tiers and the context snapshot: a turn record is compared on its remaining
  fields.
- Request and document loading, real JSON, UTF-8 decoding, SHA-256 truncation, real files, fsync and threads: each
  write-then-sync is one step.
- Argument checks ahead of a verb: a negative grant, an invalid close timestamp, a skipped backup's acknowledgement (one
  flag stands for the backup's outcome).
- Unicode stripping, lower-casing and decoding are arbitrary functions, or come with the value they act on.
- Floating-point rounding: spend, rates and scores are reals.
- The unlocked `add_fact` running between another operation's check and its append: operations on the fact log are
  taken one after another.
- Which of several refused leaves a configuration error names, and the typed validation around the merge.
- Provider calls, lock renewal during a call, the engine worker and its queue.
- The browser's timeline lines and persona label.
- Migrations, task-spec locks, citation clients, export formats, HTTP and command-line layers. 