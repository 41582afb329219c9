# Verified models of the agent workflow runtime's state machines

A Dafny 4.11 project beside the runtime. It models the runtime's state machines and
algorithms and proves what they promise over every input and every run. `dafny verify
dfyconfig.toml` checks all of it.

## What is modelled

* **Authority gates** (`AuthorityModel`, `AuthoritySafety`, `AuthorityHistory`, `AuthorityFields`,
  `AuthorityReview`, `AuthorityRuns`, `AuthorityRules`, `AuthorityCanonical`, `AuthorityChecker`,
  `AuthorityCandidates`, `Worklists`): the multi-job machine of admission, lease, evidence, quality,
  guidance, user decision and commit. Proved: who may do what and when, what a completed job's
  history must contain, when its evidence was reviewed, the exact condition under which the four safety checks hold on runs of any length, independence of
  interleavings, and soundness and completeness of the worklist model checker for any depth.
* **Orchestrator** (`TaskGraph`, `RunJournal`, `JournalPaths`, `OrchestratorModel`, `Orchestrator`,
  `OrchestratorOutcomes`): graph
  validation with an exact cycle search, the hash-linked run journal, and termination and progress
  of the batch loop, and of repeated runs of it, under every interleaving of workers.
* **Coordinator** (`CoordinatorServer`, `CoordinatorClient`): exactly-once writes across client
  retries, injected faults, compare-and-swap and replay.
* **Local scheduler** (`SchedulerModel`, `SchedulerCalls`, `SchedulerSafety`, `SchedulerProgress`): dependency
  safety, capacity, single-use leases, an event log that rebuilds the document, termination and
  progress.
* **Manifest** (`ManifestText`, `ManifestScalars`, `ManifestBlocks`, `ManifestParser`,
  `ManifestDocuments`, `ManifestRefusals`): the indentation-sensitive parser and a renderer, proved
  inverse to each other, and what a refused manifest is refused for.
* **Authority bridges** (`AuthorityBridges`, `BridgeCalls`, `BridgeSafety`, `BridgeSupply`,
  `BridgeApprovals`, `BridgeSends`): where decisions come from, what an approval authorizes, and how often requests are sent.
* **Checkpoint recovery** (`CheckpointRecovery`) and the **audit journal** (`AuditJournal`).
* `Results`, `Identifiers`, `Formats`, `Sequences`, `Sets` and `Texts` hold what these share.

Each component has a pure description of its steps and a class, or methods, with the
source's fields, loops and order of checks, proved equal to it; the theorems are lemmas about
runs of those steps.

## How the outside is represented

* A raised exception is an error value; the state change a raising call leaves behind is modelled.
* SHA-256 is a function parameter. Injectivity is assumed only where a lemma requires it:
  tamper evidence of the two journals (`RunJournal.Injective`, `AuditJournal.InjectiveDigest`) and
  exactly-once writes (`CoordinatorServer.InjectiveFingerprint`). The audit journal also needs a digest
  that never yields its all-zero anchor. The run journal and the lemmas on bridge sends require
  digests of the usual form, `sha256:` and sixty-four hexadecimal digits.
* Files are atomic values: a call loads, checks and stores in one step. JSON is the identity.
* The privacy scans of the coordinator and the audit journal, JSON string decoding in
  the manifest, the width of a stored audit line and the adapter registry are parameters.
* What workers do in the orchestrator is an environment: any interleaving of journal
  transitions, then an ending per worker. `_run_task` (lines 357-477) returns only right after it
  made its task terminal, so a worker that is over with its task unfinished has raised.

## Where the code does less than its comments or names suggest

* The four safety checks of the authority model are not invariants. An approved repair is meant to go
  back to execution, but the phase is overwritten with quality-accepted (lines 214 and 230), and a
  recovery may install an empty lease. `AuthoritySafety` has both runs and the exact condition.
* Blocking and retrying a job skips the review of its latest evidence: `AuthorityReview` has a run that
  completes so (`UnreviewedEvidenceCompletes`) and the exact condition (`EvidenceIsReviewedExactlyWhen`).
* An alternative that guidance refused does not keep a job from completing: a retry drops it
  (`AuthorityHistory.RefusedAlternativeCompletes`; exactly then by `GuidanceTellsTheDecision`).
* An ambiguous fault commits before compare-and-swap is checked, so two writes expecting the same
  revision can both be logged (`CoordinatorServer.AmbiguousWritesShareRevision`).
* `max_attempts` bounds recorded sends only: `BridgeSends.RaisingSendsAreUnbounded` has the runs,
  `SendsAreBoundedExactlyWhen` the exact condition. Replayed operation ids are compared by payload only.
* A user approval is not tied to the change it was given for: `finalize_change` looks at the change kind
  of the guidance operation only (lines 452-457). `BridgeApprovals.OneApprovalAuthorizesTwoChanges` has
  the run, `AuthorizedExactlyWhen` and `OwnApprovalsExactlyWhen` the exact conditions.
* Appending to a full audit journal succeeds and locks it (`AuditJournal.FullJournalLocksItself`), and
  ordinary use fills it (`OneReportTooManyLocksTheJournal`).
* One `run()` of the orchestrator blocks one layer of dependents, not all of them
  (`OrchestratorModel.SecondLayerStaysPending`; what is left is exact in `Orchestrator.Orchestrator.Run`).

## Model

| member | source | states |
|---|---|---|
| `AuthorityModel.InteractionModel.AddJob` | scripts/authority_interaction_model.py:102-105 | registering adds exactly one new job; a bad or known id is refused and changes nothing |
| `AuthorityModel.InteractionModel.Apply` | scripts/authority_interaction_model.py:107-132 | offering an action has exactly the outcome of the ordered checks, and a refused action changes nothing |
| `AuthorityModel.InteractionModel.Transition` | scripts/authority_interaction_model.py:176-230 | the field-by-field lifecycle step, including the phase set twice after an approved repair, has exactly the table's effect |
| `AuthorityModel.InteractionModel.Invariants` | scripts/authority_interaction_model.py:232-243 | lists a violation for a job and check exactly when that check fails for that job |
| `AuthoritySafety.CompletionChecksAlwaysHold` | scripts/authority_interaction_model.py:232-243 | the gate check of completion and the commit check hold after every accepted history, with no proviso |
| `AuthoritySafety.CleanExactlyWhenNeverTrips` | scripts/authority_interaction_model.py:232-243 | a run passes all four checks throughout if and only if it never dispatches on an empty lease and never has a user approve with quality unaccepted |
| `AuthoritySafety.CarefulRunsAreClean` | scripts/authority_interaction_model.py:202-230 | runs that recover onto real leases and escalate repair only with quality accepted never violate a check |
| `AuthoritySafety.UnreviewedRepairViolates` | scripts/authority_interaction_model.py:208-230 | a concrete run reaches the quality-accepted phase with quality undecided, because the phase assigned after an approved repair is overwritten |
| `AuthoritySafety.EmptyLeaseRecoveryViolates` | scripts/authority_interaction_model.py:218-221 | a concrete run dispatches on the empty lease a recovery installed |
| `AuthorityHistory.HistoryRemembered` | scripts/authority_interaction_model.py:176-230 | the fields of a job remember whether it was admitted and leased, whether its last verdict accepts, and how far its last material change was taken |
| `AuthoritySafety.StepShape` | scripts/authority_interaction_model.py:176-230 | an accepted step is the recorded fields with the next phase, and was fitting, unobjected and allowed |
| `AuthorityHistory.CompletionImpliesGates` | scripts/authority_interaction_model.py:148-230 | every run that completes a job was admitted and then leased, its last verdict is an acceptance, and its last material change was approved by guidance in the next step, routed by it to the user who approved in the step after, or refused by guidance and retried |
| `AuthorityHistory.GuidanceTellsTheDecision` | scripts/authority_interaction_model.py:197-216 | a completed job's guidance is rejected exactly when its last material change was refused and retried, approved exactly when guidance or the user approved that change, and absent exactly when there was none |
| `AuthorityHistory.RefusedAlternativeCompletes` | scripts/authority_interaction_model.py:176-230 | a concrete run completes a job whose only alternative guidance refused |
| `AuthorityHistory.QualityStaysAccepted` | scripts/authority_interaction_model.py:161-164 | from the completion request on quality is accepted, and the last step of a completed job is the commit |
| `AuthorityHistory.CompletedIsAbsorbing` | scripts/authority_interaction_model.py:176-192 | a completed job refuses every operation |
| `AuthorityHistory.RevisionCountsRecoveries` | scripts/authority_interaction_model.py:218-221 | a job's revision is one plus its recoveries |
| `AuthorityFields.FieldsFollowHistory` | scripts/authority_interaction_model.py:193-230 | lease, checkpoint, evidence, quality, guidance, user status, the open change, the user's and the repair's demand and the attempt are the last, or the count, of what the job's history says; a job is committed exactly when completed |
| `AuthorityFields.GatesPresentTheLatest` | scripts/authority_interaction_model.py:144-221 | an accepted recovery presents the last checkpoint and an accepted verdict the last evidence |
| `AuthorityReview.EvidenceIsReviewedExactlyWhen` | scripts/authority_interaction_model.py:176-230 | a completed job's last evidence was reviewed, by an acceptance in the very next step, if and only if no block was accepted there while quality, accepted earlier, was pending again; reviewed evidence is the evidence last accepted |
| `AuthorityReview.CompletedHasEvidence` | scripts/authority_interaction_model.py:176-230 | every completed job has shown evidence, and holds the last it showed |
| `AuthorityReview.UnreviewedEvidenceCompletes` | scripts/authority_interaction_model.py:176-230 | a concrete run completes with evidence nobody reviewed, by block and retry |
| `AuthorityHistory.RouteMeaning` | scripts/authority_interaction_model.py:197-216 | the route computed step by step is read off the two steps after the last material change |
| `AuthorityRuns.JobFollowsHistory` | scripts/authority_interaction_model.py:107-132 | in any run of registrations and offers every job is where its own accepted steps lead |
| `AuthorityRuns.EveryRunIsGated` | scripts/authority_interaction_model.py:107-243 | the unconditional checks hold for every job in every reachable state, and the history gate for every completed one |
| `AuthorityRuns.RunCleanExactlyWhenNeverTrips` | scripts/authority_interaction_model.py:232-243 | the exact condition for all four checks, for jobs in whole runs |
| `AuthorityRuns.AcceptedRevisionIsCurrent` | scripts/authority_interaction_model.py:116-126 | an accepted action carries one plus the job's recoveries as revision, and the job's current lease |
| `AuthorityRuns.NeverReplayed` | scripts/authority_interaction_model.py:111-131 | an accepted action id is refused as replayed ever after |
| `AuthorityRuns.JobsDoNotInterfere` | scripts/authority_interaction_model.py:107-132 | a job among others is accepted and ends exactly as it would alone |
| `AuthorityRuns.InterleavingsAgree` | scripts/authority_interaction_model.py:107-132 | two schedules with distinct ids and the same per-job sequences accept alike and end in the same job states |
| `AuthorityRules.AcceptedExactlyByTheRules` | scripts/authority_interaction_model.py:107-192 | in any run an action is accepted if and only if its id is new, it carries its job's revision and lease, it comes from the authority that owns its operation, no text of it is private and its operation's own demands are met; the job then is where the operation leads |
| `AuthorityRules.StepsExactlyWhen` | scripts/authority_interaction_model.py:134-192 | operation by operation, the phases, payload and job fields under which it is accepted |
| `AuthorityRules.StepLeadsTo` | scripts/authority_interaction_model.py:180-230 | an accepted operation on a reachable job leads to a phase that the operation and its decision alone determine |
| `AuthorityRules.PhaseRefusals` | scripts/authority_interaction_model.py:134-192 | what only its phase forbids is an invalid transition, a dispatch without lease or a completion without commit; anything else well formed is refused for its operation's own reason |
| `AuthorityRules.ChangesThatDemandTheUser` | scripts/authority_interaction_model.py:55-204 | a change demands the user if and only if it is a refinement, a test or specification change or an escalated repair |
| `AuthorityRules.RegisteredExactlyWhen` | scripts/authority_interaction_model.py:74-105 | a job is registered if and only if its name is new and of the right form, and starts with nothing but its name and revision one |
| `AuthorityRules.StepRefusals` | scripts/authority_interaction_model.py:134-192 | a refused step names fields, then digests, then its operation's own check, and otherwise the lifecycle |
| `AuthorityRules.FenceRefusals` | scripts/authority_interaction_model.py:107-129 | replay, unknown job, stale revision, lease fence and privacy are named exactly, in this order |
| `AuthorityRules.MismatchExactlyWhenNotOwned` | scripts/authority_interaction_model.py:27-32 | a current action is refused for its authority if and only if it does not own the operation, by name: coordinator, runtime, quality, guidance or user |
| `AuthorityRules.OffersAreOwned` | scripts/authority_interaction_model.py:27-132 | every accepted step of a job was offered by the owner of its operation |
| `AuthorityRules.GatesWerePassedByTheirOwners` | scripts/authority_interaction_model.py:27-230 | a completed job was admitted, leased and committed by the coordinator, accepted last by quality, and its last change was decided by guidance and, if it demanded the user, by the user |
| `AuthorityRules.PrivateExactlyWhenAWordOccurs` | scripts/authority_interaction_model.py:56-71 | an action is refused as private if and only if one of its texts contains one of the ten words in any case |
| `AuthorityCanonical.IdIsAsPrivateAsTheJob` | scripts/authority_interaction_model.py:283-283 | the checker's action ids trip the privacy scan exactly when the job's own id does |
| `AuthorityCanonical.CandidateIsItsStep` | scripts/authority_interaction_model.py:293-310 | offering a canonical candidate under any generated id is taking its lifecycle step |
| `AuthorityCanonical.CandidateKeepsCanonical` | scripts/authority_interaction_model.py:293-310 | canonical steps never violate a check and never await a user decision |
| `AuthorityChecker.CanonicalRunsAreClean` | scripts/authority_interaction_model.py:262-310 | canonical runs of any depth violate nothing and never reach the user-pending phase |
| `AuthorityChecker.ProductIsComplete` | scripts/authority_interaction_model.py:281-281 | the offered pairs are every job with every operation, without repetition |
| `AuthorityChecker.FreshActionId` | scripts/authority_interaction_model.py:283-283 | an expansion's action ids were never issued before |
| `AuthorityChecker.OfferExtendsRun` | scripts/authority_interaction_model.py:282-289 | a model at the end of a run accepts a candidate exactly when the run extended by it is a run |
| `AuthorityChecker.RunsAreListed` | scripts/authority_interaction_model.py:276-289 | canonical runs up to a depth are among finitely many paths |
| `AuthorityChecker.Offer` | scripts/authority_interaction_model.py:282-287 | one candidate is offered to a clone, and the clone mirrors the longer run |
| `AuthorityChecker.Expand` | scripts/authority_interaction_model.py:281-289 | all accepted candidates of one model are pushed, each once, and counted |
| `AuthorityChecker.Explore` | scripts/authority_interaction_model.py:273-290 | for any depth the worklist ends; success means every canonical run up to the depth was visited once and is clean, with one more state than edges; failure means a run violates a check |
| `AuthorityChecker.BoundedModelCheck` | scripts/authority_interaction_model.py:262-290 | the checker reports on exactly the admissible calls, with the exact counts |
| `AuthorityCandidates.CandidatesAreAcceptedExactlyWhen` | scripts/authority_interaction_model.py:262-310 | after any canonical run, the candidate of a job and an operation is accepted if and only if the job's name is public and the operation is one its phase, gates, checkpoint and lease let it take, and then changes the job exactly as spelled out |
| `AuthorityCandidates.CandidateDemandsOfAnyJob` | scripts/authority_interaction_model.py:293-310 | the candidate for any job, canonical or not, meets its operation's demands exactly as far as the job's own state does |
| `AuthorityCandidates.CandidateIsAsPrivateAsTheJob` | scripts/authority_interaction_model.py:293-310 | of a reachable job and its candidate only the job's name can trip the privacy scan |
| `AuthorityCandidates.StraightWayCompletes` | scripts/authority_interaction_model.py:262-310 | admit, lease, dispatch, start, evidence, quality_accept, request_completion, commit is a canonical run that completes its job |
| `AuthorityCandidates.FirstStepsAreAdmitAndBlock` | scripts/authority_interaction_model.py:276-289 | the canonical runs of length one are admitting or blocking a public job |
| `AuthorityCandidates.DepthOneStates` | scripts/authority_interaction_model.py:276-290 | a check of depth one visits one state and two more for each job |
| `AuthorityCandidates.DefaultNamesArePublic` | scripts/authority_interaction_model.py:262-262 | the default job names are public |
| `Worklists.NothingMissed` | scripts/authority_interaction_model.py:276-289 | a worklist that expanded everything visited has missed no run within the depth |
| `Texts.OccursAcrossDash` | scripts/authority_interaction_model.py:66-71 | a dash-free word occurs in a dashed text exactly when it occurs on one side |
| `Texts.DecimalInjective` | scripts/authority_interaction_model.py:283-283 | decimal numerals tell numbers apart |
| `Texts.TextLessMeans` | awr_cli/scheduler_local.py:85-85 | one text is smaller than another if and only if it is a shorter beginning of it or has the smaller character where they first differ |
| `Formats.DigestFormat` | scripts/autonomous_orchestrator.py:33-33 | a digest is sha256: and sixty-four lower-case hexadecimal digits |
| `Formats.IdFormat` | scripts/coordinator_client.py:25-30 | an identifier is its prefix and one to sixty-three capitals, digits and dashes |
| `Formats.TaskIdFormat` | scripts/autonomous_orchestrator.py:31-31 | a task id is AR- and four digits |
| `Formats.GraphKeyFormat` | scripts/autonomous_orchestrator.py:32-32 | a key is a lower-case letter or digit and up to sixty-three of these, dots, underscores and dashes |
| `Formats.NameFormat` | awr_cli/observability.py:55-55 | a category is a lower-case letter and one to thirty-one letters, digits, underscores and dashes |
| `Formats.EventKindFormat` | scripts/coordinator_client.py:195-195 | an event kind is a lower-case letter and up to thirty-one letters, digits and underscores |
| `Formats.WorktreeKeyFormat` | scripts/coordinator_client.py:108-109 | a worktree key is a lower-case letter or digit and up to 127 of these and dashes |
| `Formats.SpaceFormat` | awr_cli/cli.py:35-35 | the characters stripped from a scalar are the twenty-nine that strip removes |
| `Formats.BreakFormat` | awr_cli/cli.py:64-64 | the characters that end a line are the ten that splitlines knows |
| `TaskGraph.CycleSearch.Visit` | scripts/autonomous_orchestrator.py:98-108 | visiting finishes a task after everything it needs, keeping the finished list a dependency order, or there is a cycle |
| `TaskGraph.CollectTasks` | scripts/autonomous_orchestrator.py:70-94 | the per-task checks accept exactly distinct, well-formed tasks and collect them by id, or name the first failing check of the first refused task |
| `TaskGraph.AcyclicOrder` | scripts/autonomous_orchestrator.py:97-112 | the search succeeds if and only if there is no cycle, and its finishing order is topological |
| `TaskGraph.ValidateGraph` | scripts/autonomous_orchestrator.py:53-112 | a graph is accepted if and only if its header and approval hold, its tasks are well shaped and it is acyclic, and is refused with the first failing check; it is refused as cyclic if and only if it has a cycle and nothing else is wrong |
| `TaskGraph.HeaderRefusals` | scripts/autonomous_orchestrator.py:53-69 | the graph as a whole passes if and only if its keys, bounds, approval for exactly this graph and size hold; otherwise the first fault is named |
| `TaskGraph.TaskRefusals` | scripts/autonomous_orchestrator.py:70-94 | a refused task names its first fault in the order of its fields |
| `TaskGraph.GraphRefusals` | scripts/autonomous_orchestrator.py:95-112 | a graph whose header and tasks pass is refused for a dependency on itself or on no task of the graph, else for a cycle, and else accepted |
| `TaskGraph.WalksDescend` | scripts/autonomous_orchestrator.py:97-112 | along any dependency walk the place in a topological order strictly falls |
| `TaskGraph.TopologicalMeansAcyclic` | scripts/autonomous_orchestrator.py:97-112 | a topological order rules out cycles |
| `RunJournal.Journal.Load` | scripts/autonomous_orchestrator.py:146-170 | loading accepts a file exactly when its binding, every link and the status projection hold, with the first failing check as error |
| `RunJournal.Journal.Transition` | scripts/autonomous_orchestrator.py:189-223 | a transition has exactly the table's effect on the stored file, and keeps it loadable |
| `RunJournal.Journal.CountAttempts` | scripts/autonomous_orchestrator.py:225-228 | counts the leased events of a task |
| `RunJournal.TransitionKeepsAcceptance` | scripts/autonomous_orchestrator.py:146-223 | every transition leaves a file that loading accepts |
| `RunJournal.TransitionKeepsPaths` | scripts/autonomous_orchestrator.py:197-222 | every task's statuses stay a path in the lifecycle table |
| `RunJournal.TerminalEndsPath` | scripts/autonomous_orchestrator.py:198-201 | a terminal status is the last of a lifecycle path |
| `RunJournal.EveryRunIsSound` | scripts/autonomous_orchestrator.py:146-223 | after any run of transition requests the file loads and every task walks the table |
| `RunJournal.SameDigestSameChain` | scripts/autonomous_orchestrator.py:155-164 | with an injective digest two accepted chains with the same last digest are identical, unless one is empty and some event's digest is the anchor |
| `RunJournal.HistoryEndsInStatus` | scripts/autonomous_orchestrator.py:165-169 | the projected status is the last of the task's history |
| `JournalPaths.EnteredExactlyFrom` | scripts/autonomous_orchestrator.py:204-217 | the lifecycle table read backwards: from which statuses each status is entered |
| `JournalPaths.RequestedExactlyWhen` | scripts/autonomous_orchestrator.py:189-223 | on an accepted file a request is carried out if and only if its status is known and is the task's own or can be entered from it, and adds the one linked event that says so, or nothing |
| `JournalPaths.RequestRefusals` | scripts/autonomous_orchestrator.py:189-217 | a refused request names the status, the file, the task, a terminal status or the table, in this order |
| `JournalPaths.AcceptedExactlyWhen` | scripts/autonomous_orchestrator.py:146-170 | a file is accepted if and only if it is bound, every event counts up, names the digest before it, carries its own and speaks of a known task and status, and the statuses are the last ones told |
| `JournalPaths.LoadRefusals` | scripts/autonomous_orchestrator.py:146-170 | a refused file names its binding, its chain or its projection |
| `JournalPaths.AttemptsCountLeases` | scripts/autonomous_orchestrator.py:225-228 | a task's attempts are the number of times it was leased |
| `JournalPaths.CompletionTakesTheWholeWay` | scripts/autonomous_orchestrator.py:204-217 | a completed task was ready first and its last steps are leased, executing, streaming, evidence, quality, guidance, user gate, completed, in this order, from ready, repair or recovery |
| `JournalPaths.EveryCompletionTookTheWholeWay` | scripts/autonomous_orchestrator.py:189-223 | so it is for every completed task of every run |
| `JournalPaths.WholeWayIsOpen` | scripts/autonomous_orchestrator.py:204-217 | a ready task can be taken the whole way to completion |
| `OrchestratorModel.PendingWaitsBelowFailure` | scripts/autonomous_orchestrator.py:275-279 | with nothing ready, every pending task has a failed or blocked ancestor |
| `OrchestratorModel.SomethingToBlock` | scripts/autonomous_orchestrator.py:350-355 | with something pending and nothing ready, some pending task directly needs a failed or blocked one |
| `OrchestratorModel.SelectionIsExclusive` | scripts/autonomous_orchestrator.py:282-290 | a batch is within the bound, has distinct worktrees, and is empty only if nothing is ready |
| `OrchestratorModel.SelectionPassesOverOnly` | scripts/autonomous_orchestrator.py:282-290 | a ready task is passed over only because the batch is full or its worktree is taken |
| `OrchestratorModel.RunIsDetermined` | scripts/autonomous_orchestrator.py:269-311 | the loop leaves no choice but the environment's: two runs from one file under one environment go through the same files to the same end |
| `OrchestratorModel.LayerMeaning` | scripts/autonomous_orchestrator.py:350-355 | blocking a layer blocks exactly the listed pending tasks that directly need a failed or blocked one |
| `OrchestratorModel.SecondLayerStaysPending` | scripts/autonomous_orchestrator.py:277-279 | three tasks in a row of which the first fails: one run from a fresh journal leaves the third planned, and the next run, under any environment, blocks it |
| `Orchestrator.Orchestrator.Transition` | scripts/autonomous_orchestrator.py:189-223 | a task whose dependencies completed moves, the journal stays accepted, and every event but a block follows its dependencies' completion |
| `Orchestrator.Orchestrator.SelectBatch` | scripts/autonomous_orchestrator.py:280-291 | computes the batch by one scan with an early stop |
| `Orchestrator.Orchestrator.RecoverOrFail` | scripts/autonomous_orchestrator.py:313-348 | recovers a live lease within its attempts, accepts a recorded success, and otherwise fails the task, exactly by the order of the branches |
| `OrchestratorOutcomes.EndingDecides` | scripts/autonomous_orchestrator.py:296-348 | a worker over: the task is completed if and only if it was, or had a recorded gated success at the user gate; deferred, and then recovering, if and only if it was recoverable under a live lease with attempts left; failed otherwise; finished and other tasks are untouched |
| `OrchestratorOutcomes.AnnouncingMakesPlannedReady` | scripts/autonomous_orchestrator.py:292-294 | exactly the planned tasks of the batch become ready |
| `OrchestratorOutcomes.PlayDefersExactlyWhen` | scripts/autonomous_orchestrator.py:295-310 | the interleaved part of a pass has deferred if and only if a worker that ended in it deferred its task |
| `OrchestratorOutcomes.DrainDefersExactlyWhen` | scripts/autonomous_orchestrator.py:295-310 | and so has the end of the pass |
| `OrchestratorOutcomes.OrdinaryRunCompletes` | scripts/autonomous_orchestrator.py:269-311 | the run over a fresh journal whose one worker goes the whole way ends with the task completed |
| `Orchestrator.Orchestrator.Settle` | scripts/autonomous_orchestrator.py:298-308 | deals with a worker that is over: a live lease elsewhere defers, a finished task stays as it is, and everything else recovers or fails |
| `Orchestrator.Orchestrator.MarkReady` | scripts/autonomous_orchestrator.py:292-294 | announces the planned tasks of the batch and touches nothing else |
| `Orchestrator.Orchestrator.Interleave` | scripts/autonomous_orchestrator.py:296-308 | for every interleaving of worker moves, the file is exactly what the moves make of it, and ended tasks are terminal unless deferred |
| `Orchestrator.Orchestrator.Drain` | scripts/autonomous_orchestrator.py:298-308 | every worker left running is settled |
| `Orchestrator.Orchestrator.RunPass` | scripts/autonomous_orchestrator.py:292-308 | one pass leaves exactly the file its interleaving prescribes; without deferral every selected task is terminal |
| `Orchestrator.Orchestrator.BlockDependencyFailures` | scripts/autonomous_orchestrator.py:350-355 | blocks exactly the pending tasks with a blocked or failed dependency in the snapshot: one layer |
| `Orchestrator.Orchestrator.ReadyTasks` | scripts/autonomous_orchestrator.py:275-276 | lists the ready tasks in graph order |
| `Orchestrator.Orchestrator.WorkPass` | scripts/autonomous_orchestrator.py:280-310 | a pass that does not defer makes the set of pending tasks strictly smaller |
| `Orchestrator.Orchestrator.BlockOneLayer` | scripts/autonomous_orchestrator.py:277-279 | the end of a stuck run: what stays pending is what did not directly need a failed or blocked task, it is strictly less, waits below a failure, and nothing is ready |
| `Orchestrator.Orchestrator.Run` | scripts/autonomous_orchestrator.py:269-311 | terminates within one pass per task plus one, goes through exactly the files its passes prescribe, and keeps the journal sound; unless deferred it leaves nothing ready, and nothing pending if and only if every task still pending when nothing was ready directly needed a failed or blocked one; what it leaves pending waits below a failure and is less than before |
| `Orchestrator.Orchestrator.RunAgain` | scripts/autonomous_orchestrator.py:269-311 | as many undeferred runs as there are tasks, under any environments, leave nothing pending |
| `Orchestrator.Prepare` | scripts/autonomous_orchestrator.py:233-267 | an orchestrator over a fresh journal is made exactly for accepted graphs, owners, lease lengths, gate outcomes and worktrees, with the smaller parallelism; otherwise the first failing check is named |
| `CoordinatorServer.InProcessCoordinator.Open` | scripts/coordinator_client.py:339-355 | a coordinator is opened exactly for a well-formed task, reference and positive revision |
| `CoordinatorServer.InProcessCoordinator.InjectFaults` | scripts/coordinator_client.py:357-367 | faults queue up in order |
| `CoordinatorServer.InProcessCoordinator.Commit` | scripts/coordinator_client.py:469-499 | a committable write appends one entry, raises the revision and is remembered; any other changes nothing |
| `CoordinatorServer.InProcessCoordinator.Serve` | scripts/coordinator_client.py:369-403 | one exchange: validation with the first malformed identifier named, replay, fault, compare-and-swap, in that order |
| `CoordinatorServer.UnfitRequestsAreRejected` | scripts/coordinator_client.py:405-456 | a request in another protocol, for another task, project or reference, with a malformed identifier, key or proof, out of bounds, private or of no known operation is rejected with the code of its first fault and changes nothing |
| `CoordinatorServer.FirstBadIdIsNamed` | scripts/coordinator_client.py:415-428 | an identifier code names the first malformed identifier |
| `CoordinatorServer.AdmittedRequestsAreAnswered` | scripts/coordinator_client.py:369-396 | a known operation is replayed if unchanged and rejected if changed, a queued transient fault is consumed and reported, a stale new request rejected |
| `CoordinatorServer.EveryLogIsConsistent` | scripts/coordinator_client.py:369-499 | in every reachable state revision minus initial revision is the log length, entry i carries initial revision plus i, operation ids are distinct, and every remembered response is explained by its request |
| `CoordinatorServer.ExchangeKeepsConsistent` | scripts/coordinator_client.py:369-403 | every exchange keeps the log consistent |
| `CoordinatorServer.RunIsLater` | scripts/coordinator_client.py:369-499 | over any run the log only grows at the end and remembered operations never change |
| `CoordinatorServer.CommitsNeverShareRevision` | scripts/coordinator_client.py:393-394 | of two accepted commits the later expected a later revision |
| `CoordinatorServer.StaleCommitsExactlyWhenAmbiguous` | scripts/coordinator_client.py:384-394 | a write expecting another revision is logged if and only if it meets an ambiguous fault |
| `CoordinatorServer.AmbiguousWritesShareRevision` | scripts/coordinator_client.py:386-389 | two ambiguous writes expecting the same revision are both logged |
| `CoordinatorClient.CoordinatorClient.Connect` | scripts/coordinator_client.py:154-166 | a client is made exactly for a valid binding and a retry bound of one to three |
| `CoordinatorClient.CoordinatorClient.Send` | scripts/coordinator_client.py:250-265 | the retry loop makes exactly the exchanges attempt by attempt up to the bound |
| `CoordinatorClient.CoordinatorClient.WriteEvent` | scripts/coordinator_client.py:185-210 | client checks, exchanges, then response checks, in that order |
| `CoordinatorClient.CoordinatorClient.ReadRevision` | scripts/coordinator_client.py:168-183 | client checks, exchanges, then response checks, in that order |
| `CoordinatorClient.ExchangesEffect` | scripts/coordinator_client.py:250-265 | however often a write is retried, it commits at most once, and only when it reports success or an unknown outcome |
| `CoordinatorClient.WritesAreExactlyOnce` | scripts/coordinator_client.py:185-265 | a write returns a result naming its single log entry, or raises an unknown outcome having added exactly that entry, or raises otherwise with the log unchanged |
| `CoordinatorClient.ReissueReturnsTheCommittedWrite` | scripts/coordinator_client.py:379-383 | after an unknown outcome, or a success, reissuing returns the committed result and changes nothing, whatever happened in between |
| `CoordinatorClient.NewWriteSucceedsExactlyWhen` | scripts/coordinator_client.py:185-456 | a new write succeeds if and only if the client's binding, proof and texts are what the coordinator wants, its call is well formed, it expects the current revision and fewer faults than attempts are queued, all transient; its outcome is unknown if and only if such a call meets an ambiguous fault within the attempts, after transient ones |
| `CoordinatorClient.NewReadSucceedsExactlyWhen` | scripts/coordinator_client.py:168-456 | the same for a new read |
| `CoordinatorClient.AdmittedExactlyWhenWelcome` | scripts/coordinator_client.py:102-456 | a client is let through if and only if its binding is valid and for this task and reference, its identifiers are well formed, its proof is a digest and none of its texts is private |
| `CoordinatorClient.SentExactlyWhenWellFormed` | scripts/coordinator_client.py:185-228 | the client sends exactly well-formed calls |
| `CoordinatorClient.UnsentCallsNameTheirFault` | scripts/coordinator_client.py:185-228 | a call that is not sent leaves the coordinator alone and names its first fault |
| `CoordinatorClient.ForeignResponsesAreRefused` | scripts/coordinator_client.py:268-333 | a response that is malformed, for another call or of another event is refused as such, and any other is returned field by field |
| `CoordinatorClient.ForeignSnapshotsAreRefused` | scripts/coordinator_client.py:268-309 | the same for what is answered to a read |
| `CoordinatorClient.CallsAskForWhatTheySay` | scripts/coordinator_client.py:168-233 | a write asks for a write telling its event, a read for the revision, with the ids, revision and timeout given |
| `CoordinatorClient.ReadsReportTheRevision` | scripts/coordinator_client.py:168-183 | reads never touch the log; a first read reports the current revision, and repeating it reports the same snapshot for ever |
| `SchedulerModel.LocalScheduler.Submit` | awr_cli/scheduler_local.py:60-74 | a submission is accepted by exactly the ordered checks, and adds one job and one event |
| `SchedulerModel.LocalScheduler.Choose` | awr_cli/scheduler_local.py:85-85 | finds the ready job that comes before every other |
| `SchedulerModel.LocalScheduler.Promote` | awr_cli/scheduler_local.py:81-82 | promotes exactly the waiting jobs whose dependencies are done |
| `SchedulerModel.LocalScheduler.Dispatch` | awr_cli/scheduler_local.py:76-94 | gives the first ready job out under the next fence, or changes nothing at all |
| `SchedulerCalls.DispatchGivesTheMostUrgent` | awr_cli/scheduler_local.py:81-85 | no ready job has a higher priority than the one given out, none of the same priority fewer attempts, none with both the same a smaller id |
| `SchedulerCalls.DispatchSucceedsExactlyWhen` | awr_cli/scheduler_local.py:76-94 | a dispatch succeeds if and only if it is by a worker, there is room, and the most urgent ready job is still offered the profile it was bound to |
| `SchedulerCalls.DispatchLeavesTheRest` | awr_cli/scheduler_local.py:78-94 | an accepted dispatch runs its job under a lease of the next fence, queues what has become ready and changes nothing else |
| `SchedulerCalls.SubmitRecordsTheJob` | awr_cli/scheduler_local.py:60-74 | the exact condition for a submission, and the job it records |
| `SchedulerCalls.CompletionEndsTheJob` | awr_cli/scheduler_local.py:96-104 | the exact condition for a completion, and whether the job is done, failed or queued again |
| `SchedulerCalls.SubmitRefusals` | awr_cli/scheduler_local.py:60-71 | a refused submission names its own fields, the registry, its id or its dependencies, in this order |
| `SchedulerCalls.DispatchRefusals` | awr_cli/scheduler_local.py:76-91 | a refused dispatch names the worker, room, readiness or the most urgent job's profile, in this order |
| `SchedulerCalls.CompletionRefusals` | awr_cli/scheduler_local.py:96-100 | a refused completion has no terminal status or is not the lease holder's |
| `SchedulerModel.LocalScheduler.Complete` | awr_cli/scheduler_local.py:96-104 | only the lease holder ends a job; a failure within the retry limit queues it again |
| `SchedulerModel.FirstExists` | awr_cli/scheduler_local.py:85-85 | every non-empty ready set has a first job in dispatch order |
| `SchedulerModel.FirstIsUnique` | awr_cli/scheduler_local.py:85-85 | and only one |
| `SchedulerSafety.EveryRunIsSound` | awr_cli/scheduler_local.py:60-104 | in every reachable document a job runs exactly when it holds a lease, jobs past waiting have all dependencies done, attempts stay within the retry limit plus one and failed jobs have used them all, and fences differ |
| `SchedulerSafety.CapacityIsNeverExceeded` | awr_cli/scheduler_local.py:79-80 | schedulers sharing a document never run more jobs than their largest limit |
| `SchedulerSafety.LogRebuildsDocument` | awr_cli/scheduler_local.py:72-104 | folding the events rebuilds the job set, the fence and each job's attempts, lease and running or terminal status |
| `SchedulerSafety.LeaseCompletesOnce` | awr_cli/scheduler_local.py:96-103 | a lease that completed a job completes nothing in any later document |
| `SchedulerSafety.SupersededLeaseNeverCompletes` | awr_cli/scheduler_local.py:92-103 | once the log says more about a job, its earlier lease completes nothing ever after |
| `SchedulerSafety.EveryRunHasLastWord` | awr_cli/scheduler_local.py:92-103 | a held lease is the last thing the log says about its job |
| `SchedulerSafety.LeaseIdsDiffer` | awr_cli/scheduler_local.py:92-92 | lease ids of different fences differ, even past eight digits |
| `SchedulerProgress.EveryRunIsPlaced` | awr_cli/scheduler_local.py:70-74 | the order of submission is a dependency order in every reachable document |
| `SchedulerProgress.AcceptedStepsAreBounded` | awr_cli/scheduler_local.py:76-104 | accepted dispatches and completions without new submissions are at most twice the retry limit plus one per job |
| `SchedulerProgress.RejectedStepChangesNothing` | awr_cli/scheduler_local.py:60-104 | a rejected call leaves the document as it was, promotions included |
| `SchedulerProgress.StaticRegistryFits` | awr_cli/scheduler_local.py:86-91 | under an unchanged registry every job still negotiates its own profile |
| `SchedulerProgress.ReadyExactlyWhenSomeCanAdvance` | awr_cli/scheduler_local.py:81-84 | with nothing running, something is ready if and only if some unfinished job is not below a failed one |
| `SchedulerProgress.DispatchSucceedsExactlyWhenSomeCanAdvance` | awr_cli/scheduler_local.py:76-94 | with an unchanged registry, nothing running and room for one job, a dispatch succeeds if and only if some unfinished job is not below a failed one |
| `ManifestScalars.QuotedReadsBack` | awr_cli/cli.py:49-50 | any text, single-quoted with quotes doubled, reads back as itself |
| `ManifestScalars.BlankIsRefused` | awr_cli/cli.py:34-37 | a blank scalar is refused, so a mapping value is a scalar exactly when it is not blank |
| `ManifestScalars.UnquotedReadsAsItself` | awr_cli/cli.py:34-55 | unquoted text reads as itself, without surrounding blanks, if and only if it uses no special character and is no reserved word |
| `ManifestScalars.QuotedTextIsDecoded` | awr_cli/cli.py:38-48 | double-quoted text reads as decoded, and an empty bracket as the empty list |
| `ManifestScalars.BracketedListReadsItsPieces` | awr_cli/cli.py:38-40 | a bracketed list of pieces that read as texts reads as the list of those texts in order |
| `ManifestBlocks.BlockIsRendered` | awr_cli/cli.py:78-113 | what a block parse accepts is the rendering of its well-formed result, line for line |
| `ManifestBlocks.RenderedBlockParses` | awr_cli/cli.py:78-113 | the rendering of any well-formed tree, followed by a shallower line or the end, parses to that tree and consumes exactly it |
| `ManifestBlocks.ParsingInvertsRendering` | awr_cli/cli.py:115-118 | parsing accepts exactly the renderings of well-formed mappings and returns the tree rendered |
| `ManifestParser.ScanIsExact` | awr_cli/cli.py:64-74 | the scan accepts exactly the texts of plain lines, in order, blanks and comments apart, within the limits |
| `ManifestParser.AcceptedExactlyWhenRendered` | awr_cli/cli.py:58-118 | a source is accepted as a tree if and only if its kept lines are the text of a rendering of that tree |
| `ManifestParser.ScanLines` | awr_cli/cli.py:64-74 | the scanning loop, with the number of the first bad line |
| `ManifestParser.ReadItems` | awr_cli/cli.py:79-89 | the item loop reads exactly the items the grammar gives |
| `ManifestParser.ReadEntry` | awr_cli/cli.py:92-108 | one entry: inline value, nested section or empty mapping, with the source's order of errors |
| `ManifestParser.ReadBlock` | awr_cli/cli.py:78-113 | the recursive reader terminates and returns the meaning of the parsed tree |
| `ManifestParser.RenderedTextParsesExactlyWhen` | awr_cli/cli.py:58-118 | the text of a well-formed mapping is accepted if and only if its lines keep the limits, have no tab and are evenly indented, and then as that mapping |
| `ManifestText.SplitBackExactlyWhenOneLine` | awr_cli/cli.py:64-64 | lines written to a text are the lines read from it if and only if none has a line break inside |
| `ManifestParser.ReadManifest` | awr_cli/cli.py:58-118 | a manifest's value is the meaning of the tree its text renders, or the first error |
| `ManifestRefusals.FirstBadLineIsNamed` | awr_cli/cli.py:64-74 | a source with a line the scan stops at is refused for the first such line, by number if it is badly indented |
| `ManifestRefusals.EmptyManifestIsNamed` | awr_cli/cli.py:75-76 | a source of blanks and comments is empty |
| `ManifestRefusals.EntryRefusals` | awr_cli/cli.py:92-108 | a mapping line is refused as an item, without a colon, for its key, its value or its nested block, in this order |
| `ManifestRefusals.ItemRefusals` | awr_cli/cli.py:79-89 | a list item is refused for its scalar or for a deeper line below it |
| `ManifestRefusals.StructureRefusals` | awr_cli/cli.py:115-118 | a manifest that is a list or goes on after its first block is refused |
| `ManifestDocuments.EntriesMean` | awr_cli/cli.py:90-113 | the entries written for a record are well formed and mean its fields |
| `ManifestDocuments.WrittenRecordReadsBack` | awr_cli/cli.py:58-118 | the lines written for any nested record of texts and text lists are accepted if and only if they keep the limits, have no tab and are evenly indented, and then mean the record |
| `ManifestDocuments.WrittenTextReadsBack` | awr_cli/cli.py:58-118 | the same for the text they make, if no line has a line break inside |
| `AuthorityBridges.LocalAuthorityFake.Request` | scripts/authority_bridges.py:161-237 | a request replays, joins a pending one, or consumes one prepared response |
| `AuthorityBridges.LocalAuthorityFake.Respond` | scripts/authority_bridges.py:239-246 | only a pending operation is resolved, with an outcome of this authority |
| `AuthorityBridges.LocalAuthorityFake.Complete` | scripts/authority_bridges.py:248-272 | decisive outcomes are completed for good, transient ones kept for observers |
| `AuthorityBridges.AuthorityBridge.Request` | scripts/authority_bridges.py:328-379 | a new operation is stored before it is sent; a known one is answered from the store |
| `AuthorityBridges.AuthorityBridge.Send` | scripts/authority_bridges.py:381-398 | one send records its result or raises and leaves the operation |
| `AuthorityBridges.AuthorityBridge.Observe` | scripts/authority_bridges.py:400-408 | observing records a new observation and takes over its status |
| `AuthorityBridges.AuthorityBridge.Retry` | scripts/authority_bridges.py:410-418 | only transient outcomes are retried, and past the limit the operation is blocked |
| `AuthorityBridges.AuthorityBridge.Resume` | scripts/authority_bridges.py:420-423 | resuming counts and observes |
| `BridgeCalls.DecisionsBelongToTheirAuthority` | scripts/authority_bridges.py:29-33 | in every reachable state a decision is one its own authority can give, by name |
| `BridgeCalls.AskedExactlyWhenAskable` | scripts/authority_bridges.py:328-358 | the exact condition for a question to be taken |
| `BridgeCalls.NewQuestionIsAnswered` | scripts/authority_bridges.py:196-398 | the next prepared answer becomes a new operation's first observation and status, or raises if the authority cannot give it |
| `BridgeCalls.NewRequestIsAnswered` | scripts/authority_bridges.py:213-237 | a request the authority does not know makes it wait, decide, keep a transient answer, or raise |
| `BridgeCalls.PendingIsResolvedByItsAuthority` | scripts/authority_bridges.py:239-408 | a pending operation is resolved by exactly the outcomes of its authority, and the next observation takes the outcome over |
| `BridgeCalls.SendTakesOwnAnswers` | scripts/authority_bridges.py:381-398 | a send records the authority's answer if it is for the operation's binding, and otherwise raises and leaves the operation |
| `BridgeCalls.RetriedExactlyWhenTransient` | scripts/authority_bridges.py:410-418 | only timed out or unknown operations are retried, with the next attempt number, and blocked once their attempts are used up |
| `BridgeCalls.ObservingAgainChangesNothing` | scripts/authority_bridges.py:400-423 | observing twice is observing once, and resuming only counts besides |
| `BridgeCalls.AskRefusals` | scripts/authority_bridges.py:328-366 | a question that is not taken names its first fault; a known id is answered from the store, or crossed if its payload or binding differs |
| `BridgeCalls.RequestRefusals` | scripts/authority_bridges.py:161-212 | an authority refuses requests out of bounds, and changed ones under an id it has decided or waits for |
| `BridgeCalls.UnknownOrCrossed` | scripts/authority_bridges.py:239-430 | nothing is done to an unknown operation, and no result of another binding is taken over |
| `BridgeCalls.FinalizeRefusals` | scripts/authority_bridges.py:445-467 | a change that is not authorized names the first check of the gate that fails |
| `BridgeSupply.DecisiveStatusIsSupplied` | scripts/authority_bridges.py:381-408 | an operation's decisive status is its authority's completed result for this binding, with an origin of its own: a prepared response, consumed in order, or a response to this operation |
| `BridgeSupply.EveryRunAccounts` | scripts/authority_bridges.py:161-272 | in every reachable state each prepared response, and each response call, has completed at most one operation |
| `BridgeSafety.DecisionsNeverChange` | scripts/authority_bridges.py:196-272 | completed results and decided operations never change over any run, direct requests by others included |
| `BridgeSupply.AuthorizedChangesStayAuthorized` | scripts/authority_bridges.py:445-467 | an authorized change stays authorized in every later state and rests on a supplied routing and a supplied user approval |
| `BridgeSafety.ReplayComparesOnlyThePayload` | scripts/authority_bridges.py:359-366 | a repeated operation id is answered by payload alone, whatever authority, kind or change it names |
| `BridgeApprovals.AuthorizedExactlyWhen` | scripts/authority_bridges.py:445-467 | in every reachable state a guidance and a user operation authorize a change if and only if the first is routed to the user for a user change and the second is approved; the change the second names is not looked at |
| `BridgeApprovals.AuthorizableExactlyWhen` | scripts/authority_bridges.py:445-467 | a change can be authorized if and only if it is routed and some user operation is approved |
| `BridgeApprovals.ApprovalsAreInterchangeable` | scripts/authority_bridges.py:445-467 | in every reachable state an approval that authorizes one change authorizes every routed one |
| `BridgeApprovals.OneApprovalAuthorizesTwoChanges` | scripts/authority_bridges.py:445-467 | a concrete run in which the user approves once and two changes are authorized by that approval |
| `BridgeApprovals.OwnApprovalsExactlyWhen` | scripts/authority_bridges.py:445-467 | the changes that can be authorized can each be given an approval of their own if and only if nothing is approved or there are no more routed changes than approvals |
| `BridgeSafety.EveryRunIsSound` | scripts/authority_bridges.py:161-408 | in every reachable system completed results are decisive outcomes of their authority that were supplied, and decisive statuses are backed by them |
| `BridgeSends.RecordedSendsAreBounded` | scripts/authority_bridges.py:381-418 | recorded sends of an operation never exceed its limit, although observing may lengthen its attempts past it |
| `BridgeSends.SendsAreBoundedExactlyWhen` | scripts/authority_bridges.py:381-418 | in every run the sends are the recorded and the obstructed ones; all are recorded if and only if none was obstructed, and they stay within the limit if and only if recorded and obstructed ones together do |
| `BridgeSends.SendsAreBoundedAmongFriends` | scripts/authority_bridges.py:381-418 | with valid prepared responses and nobody else using the id, all sends are within the limit |
| `BridgeSends.SendRaisesExactlyWhen` | scripts/authority_bridges.py:196-236 | a send raises if and only if the authority holds another request under the id or is to answer with something it cannot give |
| `BridgeSends.RaisingSendsAreUnbounded` | scripts/authority_bridges.py:410-418 | raising sends are not bounded: with a limit of two, any number of sends can happen |
| `CheckpointRecovery.RecoveryState.Act` | scripts/checkpoint_recovery.py:24-64 | one action: replay and fence checks, effect, then event and sequence; a refused action changes nothing |
| `CheckpointRecovery.RecoveryState.Transition` | scripts/checkpoint_recovery.py:66-74 | moves by the lifecycle table or refuses |
| `CheckpointRecovery.RecoveryState.TakeCheckpoint` | scripts/checkpoint_recovery.py:76-84 | records a new operation as the current checkpoint, or changes nothing |
| `CheckpointRecovery.RecoveryState.CheckRetry` | scripts/checkpoint_recovery.py:86-94 | a retry must repeat its operation and advance |
| `CheckpointRecovery.ActedExactlyWhen` | scripts/checkpoint_recovery.py:24-94 | an action is accepted if and only if its event is new, it is the holder's and its operation is allowed in the phase with that payload; it then leads to the operation's phase and changes the holder only as a recovery, the checkpoints only as a checkpoint |
| `CheckpointRecovery.ActionRefusals` | scripts/checkpoint_recovery.py:24-94 | a refused action of the holder names its operation's own check |
| `CheckpointRecovery.FenceRefusals` | scripts/checkpoint_recovery.py:24-28 | replayed events and foreign holders are named exactly |
| `CheckpointRecovery.EndsExactlyByItsOwnWord` | scripts/checkpoint_recovery.py:56-74 | a run has completed its task if and only if it took a completion, and failed it if and only if it took a failure |
| `CheckpointRecovery.EveryRunIsSound` | scripts/checkpoint_recovery.py:24-94 | the sequence counts accepted events, and the current checkpoint is the newest entry of the table |
| `CheckpointRecovery.RunIsLater` | scripts/checkpoint_recovery.py:24-94 | over any run no record is lost or changed, checkpoint sequences strictly increase, and completed or failed tasks only count retries |
| `CheckpointRecovery.InterruptionEndsByHandOver` | scripts/checkpoint_recovery.py:40-55 | no run leaves an interruption except by a recovery with a stored checkpoint that changes both worker and lease |
| `CheckpointRecovery.RetriesRepeatTheirCheckpoint` | scripts/checkpoint_recovery.py:76-94 | a retry accepted at any later time repeats the digests of its operation's one checkpoint |
| `CheckpointRecovery.OnlyRecoveryChangesTheHolder` | scripts/checkpoint_recovery.py:40-47 | worker and lease change only together, by a recovery from an interruption |
| `CheckpointRecovery.StaleHolderChangesNothing` | scripts/checkpoint_recovery.py:24-55 | after a hand-over, actions of the replaced worker or under the replaced lease change nothing over any run, until a recovery gives that worker or that lease back |
| `AuditJournal.Journal.Read` | awr_cli/observability.py:32-49 | reading accepts a file exactly within the limits and with every link intact, with the first failure as error |
| `AuditJournal.Journal.Append` | awr_cli/observability.py:51-64 | appends one linked record to a readable journal, or changes nothing |
| `AuditJournal.AppendKeepsChain` | awr_cli/observability.py:51-64 | an append keeps the chain; the journal stays readable if and only if there was room for one more line |
| `AuditJournal.EveryRunIsChained` | awr_cli/observability.py:32-64 | after any run of appends the file is an intact chain, at most one line too long |
| `AuditJournal.JournalTellsItsReports` | awr_cli/observability.py:32-64 | after any run the journal reads back, in order, exactly the recorded reports, with ids, revision, category, status and detail digest, each record naming the digest before it |
| `AuditJournal.RecordedExactlyWhen` | awr_cli/observability.py:51-57 | a report is recorded if and only if the journal can be read and the report is well formed; otherwise its first fault is named |
| `AuditJournal.ReadingFailsAtTheFirstBreak` | awr_cli/observability.py:41-48 | reading fails at the first line that does not continue the chain, corrupt or unlinked |
| `AuditJournal.LimitsComeFirst` | awr_cli/observability.py:39-40 | the limits are checked first: 10000 lines and four mebibytes |
| `AuditJournal.FullJournalLocksItself` | awr_cli/observability.py:39-64 | the append to a journal at the line limit succeeds and makes it unreadable and unwritable for good |
| `AuditJournal.ValidReportsAreRecorded` | awr_cli/observability.py:51-64 | any valid reports up to the line limit, with lines of at most 419 bytes, are all recorded and the journal stays readable |
| `AuditJournal.OneReportTooManyLocksTheJournal` | awr_cli/observability.py:39-64 | such a run of one report more than the line limit is recorded in full and locks the journal for good |
| `AuditJournal.SameLastDigestSameJournal` | awr_cli/observability.py:42-49 | with an injective digest that never yields the anchor, readable journals with the same last digest are identical |
| `AuditJournal.AnchorDigestHidesRemoval` | awr_cli/observability.py:42-49 | were a first record's digest the anchor, its removal would leave no trace |

## Left out

- File locks, fsync, atomic replacement, symlink checks, JSON encoding and UTF-8 decoding: calls are atomic steps on values.
- Shape and type checks of incoming dictionaries: typed out; payloads of the authority model have one constructor per prescribed field set and one for every other.
- AuthorityModel.InteractionModel.Apply: words of the fixed vocabularies and field names are constructors (`Held` stands for the word blocked) and are not scanned, as none contains a private word; lower-casing is followed only as far as it yields letters of the private words.
- Job states, bridge operations and scheduler jobs are values in maps that methods reassign: aliasing of the records themselves is not captured.
- AuthorityChecker.Explore: the worklist stores the values of cloned models, so sharing between clones is excluded by construction rather than proved absent.
- `refine_event` of the authority model: a fixed lookup table.
- Orchestrator.Prepare: starts a fresh journal; the existence of worktree directories is not modelled. A journal left by an earlier run is taken over by the constructor.
- `_run_task` of the orchestrator and what it calls: replaced by the environment; threads are interleavings of whole journal transitions.
- Orchestrator.Orchestrator.RecoverOrFail: the coordinator's record is summarised by what the branches ask of it; its own updates are not part of this model.
- CoordinatorServer.InProcessCoordinator.Serve: unknown fault names cannot be injected.
- Transports other than the in-process coordinator.
- Registration in the adapter registry, and the regular expression checks of profiles.
- ManifestParser.ReadManifest: starts from decoded text; the later schema validation and the plan builder are not modelled.
- Bridge record validation, binding validation and the view copies returned to callers; a result's digest is not kept apart from the fields it covers.
- CheckpointRecovery.RecoveryState.Act: task revision, session and worktree are carried by the source but never read, and are omitted.
- AuditJournal.Journal.Read: a line is its decoded record, so spelling differences inside one line are not seen.
- Subprocess supervision, git, installers, command dispatch, record checkers, the small linear adapters and the TLA+ runner: single-pass plumbing without a state machine of their own.
