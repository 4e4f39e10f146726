# Agent Fleet control plane: a verified model

Agent Fleet is a local control plane. It keeps its state in a database and a few files and must stay correct
when processes crash, callers race, users cancel and clocks jump. This project models the protocols that carry
that weight and proves what they promise, for every input, every run and every reachable state.

Where a component is a protocol over durable state, its module holds

- a `World` (the durable and in-memory state), a `Step` for every transaction or effect that can happen between
  two others, `May`/`Do` for when and how a step happens, and `Run` for every sequence of worlds that steps of any
  number of callers, crashes and outsiders can produce;
- an invariant every step keeps, and the main results as lemmas over every run;
- a class whose methods are the component's operations, step by step, with other parties' steps interleaved at
  the points where the component gives way (the organization service holds the session lock throughout, so that
  only outside edits come between its steps). Its `Valid()` says that the world is one a run reaches, so that all
  the lemmas hold of it; each method states what it did to the world.

Where a component is an algorithm, its method is proved against a specification function and the promises are
lemmas about that function.

| file | component |
|---|---|
| `Histories.dfy`, `Results.dfy` | runs of a protocol and their invariants; options and refusals |
| `OrganizationTree.dfy`, `OrganizationRules.dfy` | exact file patches on a tree, their inverses, the validators' rules |
| `EvolutionContext.dfy`, `RollbackSize.dfy`, `RollbackLimit.dfy` | the bounded context of a proposal, how large an inverse can be, where the patch bound bites |
| `Publication.dfy`, `OrganizationService.dfy` | the two-resource commit of an organization, its recovery and rollback |
| `GraphSchedule.dfy`, `GraphCoordinator.dfy` | the durable task graph and the loop that drives it |
| `FleetPlanner.dfy`, `CandidateMerge.dfy`, `Paths.dfy` | plans, joining candidate patches, path scopes |
| `ToolGateway.dfy`, `LateDenial.dfy` | at-most-once dispatch of tool intents, denials after the execution |
| `PermissionPolicy.dfy` | trust policy, reset cutoffs, "always" approvals over two stores |
| `OneUseCodes.dfy`, `SessionReview.dfy` | one-use review and recovery codes, selection changes |
| `ResourceCleanup.dfy`, `CleanupOrder.dfy` | tiered, shared, cancellation-resistant lease cleanup; what may run out of order |
| `BoundedReport.dfy`, `BoundedText.dfy`, `Utf8.dfy` | byte-bounded reports and texts |
| `ReadScopePattern.dfy` | the read-scope regular expression |
| `ProgressPages.dfy`, `TaskPages.dfy`, `Decimals.dfy` | cursor paging, decimal numerals |

## Assumptions

- A store call is one atomic transaction with the conditions its adapter checks (compare-and-set on revisions, unique
  keys, status transitions). The lock on the repository's parent directory admits one session and is freed by a crash.
- SHA-256 is injective; new identifiers are never reused; secret checks, repository-boundary checks and artifact
  checks are refusals that may happen at any time and undo nothing that came before them.
- An outside edit of the live organization directory happens in place; it may fall just before any effect.
- Time is an input of every operation that reads the clock; nothing is assumed of its order.

## Findings

Properties one might expect of the code that do not hold of it as stated, each with the exact condition proved:

- **Undoing an undo can be refused for its size.** A patch proposed from its bounded context can always be rolled back:
  the inverse takes at most 700,000 of the 4,000,000 string bytes a patch may have
  (`src/agent_fleet/domain/fleet_patch.py:84-131`, `RollbackSize.InverseOfAdmittedFits`). The inverse of that inverse
  carries the patch's own changes again, in an envelope of 382 bytes where the patch's took 260 and its rationale; it is
  accepted if and only if the changes leave that room (`Publication.RollbackOfCurrentVersion`), and once it was, every
  later one is (`Publication.OnlyTheFirstRedoIsLimited`). `RollbackLimit.ARedoIsRefused` is a run of the service in which
  a patch is applied, undone and cannot be brought back.
- **A direct `cleanup_lease` can overtake the tiers.** It can tear a sandbox down while a captured execution lease is
  open (`CleanupOrder.ADirectCallOvertakes`). Only cleanups that such calls registered can
  (`CleanupOrder.OnlyDirectCallsOvertake`, `CleanupOrder.TiersAreOrdered`); one does, exactly if a captured lease of an
  earlier tier is open at the call (`CleanupOrder.DirectCallOvertakesIff`) or, when the call came before the capture, if
  the capture holds one (`CleanupOrder.CaptureOvertakesIff`).
- **A reset spares a grant issued during it.** A grant created between the listing and the save, by a clock ahead of the
  cutoff, survives (`PermissionPolicy.LateGrantOutlivesReset`); exactly the grants issued later than the clock, every
  listed grant and the previous cutoff do, unless they rest on a rule of the project
  (`PermissionPolicy.ResetSparesOnlyLaterGrants`).
- **A confirmation under way survives another conversation's selection change**
  (`SessionReview.AConfirmationOutlivesASelection`). Clearing the tickets does not reach a confirmation that has already
  taken its own; of these, exactly those of another conversation that are not baselines can still take effect
  (`SessionReview.OnlyInFlightSurvives`).
- **Recovery codes have no lower time bound.** With the clock set back to before the issue, and only then, one takes
  effect before it was issued (`SessionReview.RecoveryBeforeItsIssue`, `SessionReview.RecoveryBeforeItsIssueIff`).
- **A denial overwrites the status of an executed intent** (`deny_intent`): its result stays on record and later calls
  get an error instead of it (`LateDenial.AnExecutedIntentIsDenied`). A later lookup returns the result exactly if no
  call has denied the intent since its completion (`LateDenial.LookupAfterCompletion`), and only a call that had looked
  it up before can (`LateDenial.LateDenialLookedBefore`). At-most-once dispatch is unaffected
  (`ToolGateway.AtMostOnceDispatch`).
- **A turn can be selected that was never displayed.** A page refused for a registered secret has already replaced the
  choices; that happens exactly if all its turns were readable (`TaskPages.TaskBrowser.Display`), and a turn of it that
  does not hold the secret is then selected (`TaskPages.AnUndisplayedTurnIsChosen`).
- **A summary limit shorter than its marker is exceeded**, since the slice then counts from the end
  (`BoundedText.SummaryFits`, `BoundedText.ShortLimitGrows`).
- **The read-scope pattern, read by Python, also admits a scope followed by one newline**
  (`ReadScopePattern.PatternMeansPredicate`).
- **Progress cursors skip the unread tail of a superseded run** (`ProgressPages.EarlierRunsAreLeft`,
  `ProgressPages.ATailIsLost`), and a cursor for a sequence of 10^12 or more is refused (`ProgressPages.CursorRoundTrip`).

## Model

| member | source | states |
|---|---|---|
| `OrganizationTree.ApplyAllPointwise` | src/agent_fleet/domain/evolution.py:230-265 | changes whose paths keep apart succeed exactly when each fits the original tree, in any order, and together do to every path what its own change says |
| `OrganizationTree.BuildInverse` | src/agent_fleet/application/evolution.py:225-245 | the loop builds, for each path of the applied patch, the change from what the current tree holds back to what the target held |
| `OrganizationTree.InverseIsValid` | src/agent_fleet/application/evolution.py:227-253 | the inverse is a valid patch exactly when its string bytes are within the patch bound: no other check of the patch validator can refuse it |
| `OrganizationTree.EvolveLinks` | src/agent_fleet/domain/evolution.py:217-278 | an applied patch leaves two valid trees that differ only on its paths, with unique case-folded names and no path both file and directory in their union |
| `OrganizationTree.RollbackBetween` | src/agent_fleet/application/evolution.py:224-254 | between two such trees the inverse restores the earlier one exactly, modes and empty directories included, if and only if it fits the patch bound |
| `OrganizationTree.RollbackRoundTrip` | src/agent_fleet/application/evolution.py:198-274 | patch then inverse restores the original tree, and rolling the inverse back restores the patched tree, each if and only if the inverse fits the patch bound |
| `OrganizationTree.RollbackKeepsLink` | src/agent_fleet/domain/evolution.py:270-277 | an accepted rollback patch links its two trees along its own paths, so it can be rolled back in turn |
| `EvolutionContext.BuildContext` | src/agent_fleet/application/evolution_context.py:57-83 | the loop shows exactly the specified files, by priority, and refuses the finished context exactly if it is larger than 128,000 bytes |
| `EvolutionContext.ContextIsBounded` | src/agent_fleet/application/evolution_context.py:68-83 | the 32 bytes kept for the counter suffice, so no context is refused for its size; what it shows are files of the tree, each once and in full, of at most 32,768 bytes each and 127,968 in all |
| `EvolutionContext.LeftOutForRoom` | src/agent_fleet/application/evolution_context.py:60-76 | a small enough file is left out exactly if the files shown before it, none of a later priority, leave no room for it |
| `RollbackSize.AppliedIsExact` | src/agent_fleet/domain/evolution.py:230-265 | an applied patch says of each of its paths, once, exactly what it held before and what it holds after |
| `RollbackSize.InverseOfAdmittedFits` | src/agent_fleet/application/evolution_context.py:85-103 | a patch that its context admits has an inverse of at most 700,000 string bytes, whatever it adds, replaces or removes |
| `RollbackSize.InverseOfInverseBytes` | src/agent_fleet/application/evolution.py:225-245 | the inverse of the inverse has changes of the size of the patch's own, in whatever order either lists them |
| `RollbackLimit.AdditionCannotBeRedone` | src/agent_fleet/domain/fleet_patch.py:84-131 | in every valid organization with room for them, a valid patch of 3,999,700 bytes adds 100 notes below agents/; it is applied and undone, and undoing that is refused |
| `RollbackLimit.InitialOrganizationHasRoom` | src/agent_fleet/adapters/config/yaml.py:409-455 | the organization that `fleet init` writes has that room, whatever its texts within generous bounds and whatever case folding does outside ASCII |
| `RollbackLimit.ARedoIsRefused` | src/agent_fleet/application/evolution.py:198-274 | a run of the service, with no fault anywhere: the patch is proposed from its context, applied, rolled back, and rolling that back is refused |
| `Publication.RunKeepsInv` | src/agent_fleet/adapters/persistence/evolution.py:1471-1750 | every run keeps the store coherent (versions chained, head last, one operation per proposal, only the pending one unresolved), the live directory as the operation's past says, and the other tree intact in scratch |
| `Publication.PublicationSafety` | src/agent_fleet/application/evolution.py:276-343 | whenever nothing is pending and nobody edited outside, the live tree is the head's; a committed operation that made the head left its after-tree live, an aborted one on it the before-tree; while one is pending both trees exist |
| `Publication.HistoryIsPermanent` | src/agent_fleet/adapters/persistence/evolution.py:1573-1734 | versions are only appended and a settled operation never changes: none is both committed and aborted |
| `Publication.NothingBeforeTheJournal` | src/agent_fleet/application/evolution.py:378-411 | until an operation is journaled no step of any session moves head, versions, operations or the live directory |
| `Publication.ProposalsAreLinked` | src/agent_fleet/adapters/persistence/evolution.py:986-1085 | every recorded proposal, rollback proposals included, joins two trees between which its inverse works |
| `Publication.CurrentIsAfter` | src/agent_fleet/adapters/persistence/evolution.py:947-984 | the head made by a proposal's operation carries that proposal's after-tree, so a rollback proposal on it is admitted |
| `Publication.ProposalsAreFounded` | src/agent_fleet/application/evolution.py:689-719 | in every reachable store a proposal fits the patch bound, says exactly how its two trees differ at its paths, and comes from a bounded context of its before-tree or inverts another recorded proposal |
| `Publication.RollbackOfCurrentVersion` | src/agent_fleet/application/evolution.py:213-265 | on every reachable store, rolling back the current version restores the tree it was made from; what was proposed from a context always, an undo if and only if the undone patch leaves room for the longer envelope |
| `Publication.OnlyTheFirstRedoIsLimited` | src/agent_fleet/application/evolution.py:213-265 | once a patch was brought back by undoing its undo, it can be undone and brought back again without limit |
| `OrganizationService.ObservationIsTruth` | src/agent_fleet/adapters/config/publication.py:663-707 | what the two directories show is what happened: prepared means never exchanged, exchanged means exchanged, whatever was edited; without an outside edit one of the two is seen |
| `OrganizationService.RecoveryConverges` | src/agent_fleet/application/evolution.py:309-343 | from every crash point after the journal write one recovery commits if the directories were exchanged and aborts if not, and the live tree, unmoved, is then the head's |
| `OrganizationService.JournaledIsPublished` | src/agent_fleet/application/evolution.py:405-439 | journaling and what may follow it together are one publication that happened or did not |
| `OrganizationService.Service.Take` | src/agent_fleet/application/evolution.py:345-439 | one durable effect: it happens or not, and reports, raises or dies, as the fault says |
| `OrganizationService.Service.Stage` | src/agent_fleet/adapters/config/publication.py:550-645 | staging builds the after-tree in a new private directory and moves neither store nor live tree; when it returns, the receipt names both directories truly |
| `OrganizationService.Service.ExchangeDirectories` | src/agent_fleet/adapters/config/publication.py:709-725 | the exchange happens at most once, only on directories that match the receipt, and reports success only after it |
| `OrganizationService.Service.CommitOperation` | src/agent_fleet/application/evolution.py:441-497 | a commit happens only while the live tree is the operation's after-tree, and reports success only when it is on record |
| `OrganizationService.Service.DiscardUnprepared` | src/agent_fleet/application/evolution.py:499-525 | scratch is discarded only when no operation is on record and the exchange has not happened; it then leaves the database and the live tree alone |
| `OrganizationService.Service.RetainRecovery` | src/agent_fleet/application/evolution.py:527-535 | at most marks the prepared operation as needing recovery; never settles it |
| `OrganizationService.Service.CleanupResult` | src/agent_fleet/application/evolution.py:554-597 | cleanup touches only the operation's scratch and reports the verdict on record |
| `OrganizationService.Service.JournalOperation` | src/agent_fleet/application/evolution.py:397-424 | after the journal write the operation fences the head; a refusal that cleaned its scratch left no operation |
| `OrganizationService.Service.PublishJournaled` | src/agent_fleet/application/evolution.py:425-439 | exchange, commit, clean up: however it ends the operation is prepared, waiting for recovery, or committed, and success means committed |
| `OrganizationService.Service.Publish` | src/agent_fleet/application/evolution.py:345-439 | every ending of a publication, under any faults and edits; undisturbed it adds exactly one version whose tree is live and leaves no scratch |
| `OrganizationService.Service.Apply` | src/agent_fleet/application/evolution.py:173-196 | a repeated proposal only reports the verdict on record; a new one is published or not, never half; undisturbed it succeeds |
| `OrganizationService.Service.Decide` | src/agent_fleet/application/evolution.py:321-335 | recovery aborts exactly what was not exchanged and commits exactly what was, judged by observation alone |
| `OrganizationService.Service.Settle` | src/agent_fleet/application/evolution.py:315-343 | the unsettled branch: the operation ends settled by its past, or stays as it was, marked for recovery |
| `OrganizationService.Service.Recover` | src/agent_fleet/application/evolution.py:276-343 | without the owner's word nothing changes; a settled operation stays settled; an undisturbed recovery converges to the state of `Recovered` |
| `OrganizationService.Service.Admit` | src/agent_fleet/application/evolution.py:648-657 | a run is admitted to the generation that is live; undisturbed, the first one makes the baseline version |
| `OrganizationService.Service.ProposalContext` | src/agent_fleet/application/evolution.py:676-687 | only the generation the run was admitted to is shown, and the context given is a bounded one of its tree; undisturbed and while that generation is current it is given |
| `OrganizationService.Service.ProposePatch` | src/agent_fleet/application/evolution.py:689-719 | nothing but the proposal is ever recorded, with the tree its patch makes of the generation shown; undisturbed it is recorded if and only if the context admits the patch, is still current and the patch applies |
| `OrganizationService.Service.RecordInverse` | src/agent_fleet/application/evolution.py:224-270 | the rollback proposal is recorded, with the inverse patch on the current head: undisturbed always, but for undoing an undo whose patch leaves no room |
| `OrganizationService.Service.Rollback` | src/agent_fleet/application/evolution.py:198-274 | undisturbed, a rollback of the current version makes one more version with the tree it started from, which can be rolled back in turn; only undoing an undo whose patch leaves no room changes nothing |
| `GraphSchedule.RunKeepsInv` | src/agent_fleet/adapters/persistence/graphs.py:965-1185 | the scheduler's invariant over any number of drivers, cancellations, approvals and crashes |
| `GraphSchedule.SchedulerInvariant` | src/agent_fleet/adapters/persistence/graphs.py:1075-1185 | running nodes never exceed the capacity; the succeeded set is closed under dependencies; a ready or paused graph has no running node; the join hook is called at most once, only when all nodes succeeded |
| `GraphSchedule.SucceededIsPermanent` | src/agent_fleet/adapters/persistence/graphs.py:1075-1185 | a succeeded node never changes again, nor do its inputs and outputs |
| `GraphSchedule.InterruptedJoinIsFinal` | src/agent_fleet/application/graph.py:315-317 | once a join was prepared and its driver died, nobody joins, claims or starts anything again |
| `GraphSchedule.SucceededProduced` | src/agent_fleet/application/graph.py:243-254 | a succeeded node's outputs are those of sequential execution |
| `GraphSchedule.ScheduleIndependence` | src/agent_fleet/application/graph.py:321-355 | whatever the completion order, capacity, pauses and number of drives, the join gets exactly the inputs of sequential execution |
| `GraphSchedule.SomethingCanStart` | src/agent_fleet/application/graph.py:222-241 | in an acyclic graph with nothing running, waiting or failed some pending node can start |
| `GraphCoordinator.Coordinator.LaunchReady` | src/agent_fleet/application/graph.py:149-177 | starts startable nodes in node order while there is capacity; if it started none and capacity is left, nothing is startable |
| `GraphCoordinator.Coordinator.StartNode` | src/agent_fleet/application/graph.py:156-177 | a start is recorded only while the claim still stands after the child was prepared, whatever others did meanwhile |
| `GraphCoordinator.Coordinator.Settle` | src/agent_fleet/application/graph.py:256-270 | an ended task's node becomes succeeded, waiting or failed as its run says, and nothing else changes |
| `GraphCoordinator.Coordinator.SettleFinished` | src/agent_fleet/application/graph.py:199-220 | all tasks that ended are settled, the others go on; a failure stops the loop |
| `GraphCoordinator.Coordinator.BeginJoin` | src/agent_fleet/application/graph.py:347-357 | the receipt holds the nodes' outputs in order before the hook is called, once |
| `GraphCoordinator.Coordinator.EndJoin` | src/agent_fleet/application/graph.py:357-391 | completed and released exactly when the hook succeeded and nobody cancelled meanwhile |
| `GraphCoordinator.Coordinator.Join` | src/agent_fleet/application/graph.py:313-391 | the join is prepared with the nodes' outputs in order, the hook called once, and the graph left joined exactly when nothing failed and nobody cancelled on the way |
| `GraphCoordinator.Coordinator.Abort` | src/agent_fleet/application/graph.py:393-431 | a cancelled driver leaves the graph cancelled, a failed one leaves no node running and releases it as failed; a prepared join keeps its claim |
| `GraphCoordinator.Coordinator.IdleIsNotStuck` | src/agent_fleet/application/graph.py:178-191 | an idle driver of an acyclic graph with no failed node finds all nodes succeeded or one waiting |
| `GraphCoordinator.Coordinator.Idle` | src/agent_fleet/application/graph.py:178-191 | joins or pauses; the final error is unreachable |
| `GraphCoordinator.Coordinator.Pass` | src/agent_fleet/application/graph.py:137-220 | one pass keeps the driver's tasks equal to the running nodes; a prompt pass ends in a join or a pause or leaves strictly less work |
| `GraphCoordinator.Coordinator.DriveClaimed` | src/agent_fleet/application/graph.py:134-220 | passes until an outcome; left alone, at most one more than there are nodes reach a join or a pause |
| `GraphCoordinator.Coordinator.Drive` | src/agent_fleet/application/graph.py:74-132 | only an owner changes anything; a drive of a drivable graph that is left alone joins or pauses; what a join or pause leaves behind |
| `FleetPlanner.BindRoles` | src/agent_fleet/application/planning.py:156-180 | computes the bound team, in which every node keeps all but its role and a smaller step bound; fails exactly when a selected role has no template of the node's kind |
| `FleetPlanner.TeamIsLayered` | src/agent_fleet/application/planning.py:50-147 | in every strategy's team dependencies name workers listed earlier and the one verifier is last |
| `FleetPlanner.CreatedIsSound` | src/agent_fleet/application/planning.py:46-217 | layered, capacity between 1 and 8 and within both limits, more than 1 only for parallel teams of two to eight writers with disjoint scopes inside the task |
| `FleetPlanner.Create` | src/agent_fleet/application/planning.py:26-217 | a plan is returned exactly when capacity, team, selections, roles and repair role are there, the writers are disjoint and inside the task, and the validators accept; it is then the specified plan, and sound |
| `FleetPlanner.PlannedGraphIsOrdered` | src/agent_fleet/application/graph_workflow.py:56-143 | the graph of a created plan is acyclic and dropping the verifier drops no dependency, so its driver is never stuck |
| `Paths.DisjointScopesKeepApart` | src/agent_fleet/domain/fleet_plan.py:341-353 | paths of scopes that do not overlap are different and none contains the other |
| `CandidateMerge.JoinCandidates` | src/agent_fleet/application/graph_workflow.py:551-590 | the loop computes the specified join, with the same refusals |
| `CandidateMerge.JoinIsUnion` | src/agent_fleet/application/graph_workflow.py:551-590 | candidates of a validated plan always join; the changed paths are the union of theirs, all inside the task, so the last check never refuses them |
| `CandidateMerge.PlannedCandidatesJoin` | src/agent_fleet/application/graph_workflow.py:551-590 | the writers of every sound plan give candidates of disjoint scopes inside the task, so what a created plan's writers produce joins to the union of their changes |
| `CandidateMerge.JoinAt` | src/agent_fleet/application/graph_workflow.py:584-585 | path by path the one candidate that names it decides; other paths keep their content |
| `CandidateMerge.JoinInAnyOrder` | src/agent_fleet/application/graph_workflow.py:551-590 | every permutation of the candidates joins to the same files |
| `ToolGateway.RunKeepsInv` | src/agent_fleet/adapters/persistence/sqlite.py:467-540 | the invariant of intents, claims, results and calls over every interleaving |
| `ToolGateway.AtMostOnceDispatch` | src/agent_fleet/application/gateway.py:385-507 | no two started executions share a key; each started in a call the broker allowed, which had not found its command already reserved |
| `ToolGateway.ReturnsTheOneResult` | src/agent_fleet/application/gateway.py:488-509 | whatever a call returns is what the key's one execution produced |
| `ToolGateway.RecordIsPermanent` | src/agent_fleet/adapters/persistence/sqlite.py:1280-1306 | claims and results are never taken back or made again |
| `LateDenial.StatusAfterCompletion` | src/agent_fleet/adapters/persistence/sqlite.py:1280-1313 | after completion the record stays, and its status is denied exactly once a call has denied the intent |
| `LateDenial.LookupAfterCompletion` | src/agent_fleet/application/gateway.py:376-384 | a later lookup of the same request returns the result exactly if no call has denied the intent since its completion, and fails otherwise |
| `LateDenial.LateDenialLookedBefore` | src/agent_fleet/application/gateway.py:386-392 | whoever denies a completed intent had looked it up before the completion and was answered DENY |
| `LateDenial.AnExecutedIntentIsDenied` | src/agent_fleet/adapters/persistence/sqlite.py:1308-1313 | a run in which an intent is executed, then denied, and a later call fails although the result is on record |
| `ToolGateway.Gateway.Authorize` | src/agent_fleet/application/gateway.py:343-392 | look up, ask, record: the call ends returned, failed, denying, resuming or claiming, and has executed nothing |
| `ToolGateway.Gateway.Resume` | src/agent_fleet/application/gateway.py:388-439 | a denial is recorded, an approved pending intent reserved; nothing executes |
| `ToolGateway.Gateway.ClaimDispatch` | src/agent_fleet/application/gateway.py:488-500 | claims the dispatch or reads back what its owner recorded |
| `ToolGateway.Gateway.RunClaimed` | src/agent_fleet/application/gateway.py:501-509 | the claimed effect runs and its result is recorded and returned, or the call fails |
| `ToolGateway.Gateway.Execute` | src/agent_fleet/application/gateway.py:326-509 | whatever others do between its steps, the call ends with what it returns on record, and without ALLOW it never executes; left alone, an allowed new request executes once and returns its result |
| `PermissionPolicy.NothingGoesBack` | src/agent_fleet/application/permission_policy.py:222-263 | cutoffs only move later, revoked rules stay revoked, resolved requests stay as resolved, a revision names one policy |
| `PermissionPolicy.ResetMovesCutoff` | src/agent_fleet/application/permission_policy.py:552-586 | a reset leaves a cutoff past every listed grant and strictly past the previous one, and no live rule |
| `PermissionPolicy.ResetIsPermanent` | src/agent_fleet/application/permission_policy.py:552-598 | no listed grant and no rule of the project is ever live again, at any clock, whatever is configured, staged, revoked or reset later, even if the revocations fail |
| `PermissionPolicy.CutoffDecidesForGood` | src/agent_fleet/application/permission_policy.py:834-838 | a grant not issued after its project's cutoff is dead in every later world at every clock |
| `PermissionPolicy.ResetSparesOnlyLaterGrants` | src/agent_fleet/application/permission_policy.py:557-586 | of the project's live grants exactly those survive that were issued later than the clock, every listed grant and the previous cutoff, and rest on no rule of the project |
| `PermissionPolicy.LateGrantOutlivesReset` | src/agent_fleet/application/permission_policy.py:557-586 | a run in which a grant issued during the reset outlives it |
| `PermissionPolicy.StagedRuleNeedsItsApproval` | src/agent_fleet/application/permission_policy.py:366-379 | a staged rule authorizes nothing while its request is open, and nothing ever if the request is resolved otherwise |
| `PermissionPolicy.OneRulePerRequest` | src/agent_fleet/application/permission_policy.py:381-415 | in every run at most one rule of the list carries a request, and the loop over the list finds it by its id |
| `PermissionPolicy.RetriesStageOneRule` | src/agent_fleet/application/permission_policy.py:381-415 | once staged a request's rule is its only one for good; staging again, whatever was configured, reset or revoked meanwhile, changes nothing and succeeds exactly if the rule has that scope and is not revoked |
| `PermissionPolicy.ListedStayDead` | src/agent_fleet/application/permission_policy.py:552-598 | every grant there was when the listing was read is dead once the reset was saved |
| `PermissionPolicy.PermissionPolicyService.ListProjectGrants` | src/agent_fleet/adapters/persistence/sqlite.py:892-906 | exactly the project's grants |
| `PermissionPolicy.PermissionPolicyService.PublishReset` | src/agent_fleet/application/permission_policy.py:552-586 | saved only against the revision and listing that were read |
| `PermissionPolicy.PermissionPolicyService.RevokeListed` | src/agent_fleet/application/permission_policy.py:587-591 | revokes the listed grants in order up to the first failure |
| `PermissionPolicy.PermissionPolicyService.Reset` | src/agent_fleet/application/permission_policy.py:552-598 | a saved reset raised the cutoff and killed every grant there was when it was called, whichever revocation fails; undisturbed it is saved exactly if no live rule is newer than the clock and the policy has room for the project |
| `PermissionPolicy.PermissionPolicyService.StageRule` | src/agent_fleet/application/permission_policy.py:381-415 | the exact rule is staged or found staged, or the call is refused and changes nothing |
| `PermissionPolicy.PermissionPolicyService.Approve` | src/agent_fleet/application/approvals.py:29-126 | stage, then resolve; at a crash between them the rule is inert; repeating a recorded approval changes nothing; undisturbed an open request is approved |
| `OneUseCodes.MoveKeepsInv` | src/agent_fleet/application/session_review.py:301-421 | each move keeps: pending tickets unused and one per conversation, at most 32, effects with distinct codes taken in their windows |
| `SessionReview.RunKeepsInv` | src/agent_fleet/application/session_review.py:301-535 | the invariant of both ledgers, the selections and the running recoveries over every run |
| `SessionReview.NothingComesBack` | src/agent_fleet/application/session_review.py:301-535 | no code loses its ticket, no effect is undone, no generation goes back, and a void code stays void |
| `SessionReview.OneUse` | src/agent_fleet/application/session_review.py:371-421 | at any clock the effects have distinct codes; each ticket was taken before its expiry, at most five minutes after the issue, and a review was both taken and put into effect inside its window |
| `SessionReview.FewAreLive` | src/agent_fleet/application/session_review.py:313-341 | at most one live ticket per conversation and 32 in all, none of them used |
| `SessionReview.NothingChangedSince` | src/agent_fleet/application/conversations.py:432-440 | no selection change of its conversation lies between issuing a code and its effect, even one that returns to the same selection |
| `SessionReview.ForgettingVoids` | src/agent_fleet/application/session_review.py:530-533 | clearing voids every unused review but a confirmation under way that is no baseline |
| `SessionReview.BumpingVoids` | src/agent_fleet/application/conversations.py:199-211 | a generation change voids every review and recovery of its conversation |
| `SessionReview.OnlyInFlightSurvives` | src/agent_fleet/application/conversations.py:193-211 | what can take effect right after a selection change is exactly a confirmation already under way, of another conversation, no baseline, still selected and in its window |
| `SessionReview.AConfirmationOutlivesASelection` | src/agent_fleet/application/conversations.py:193-211 | a run in which a confirmation under way takes effect after another conversation was selected |
| `SessionReview.FamilyIsPermanent` | src/agent_fleet/application/session_review.py:352-357 | a known code keeps its family, used or not, and the family is that of its ticket |
| `SessionReview.OneRecoveryAtATime` | src/agent_fleet/application/session_recovery.py:105-138 | at most one recovery of a conversation is under way |
| `SessionReview.RecoveryBeforeItsIssue` | src/agent_fleet/application/session_recovery.py:117-124 | a run in which a recovery code takes effect before it was issued |
| `SessionReview.RecoveryBeforeItsIssueIff` | src/agent_fleet/application/session_recovery.py:115-124 | an undisturbed recovery takes effect exactly if none of its conversation is active, it is still selected and the clock is before the expiry: before its issue exactly if the clock was set back, besides |
| `SessionReview.SelectingLeaves` | src/agent_fleet/application/conversations.py:156-211 | with other calls in between, a selection change leaves nothing issued before it but confirmations under way elsewhere |
| `SessionReview.SessionService.Issue` | src/agent_fleet/application/session_review.py:301-350 | admits a ticket exactly when there is room, the code is new and well formed and the baseline unexpired; refusing, it has still dropped stale tickets |
| `SessionReview.SessionService.Take` | src/agent_fleet/application/session_review.py:380-410 | the ticket is consumed whatever follows; it goes on exactly if claimed for its selection in its window |
| `SessionReview.SessionService.Settle` | src/agent_fleet/application/session_review.py:436-470 | the effect happens exactly if not refused, still selected and, for a review, in the window, and the code is spent either way |
| `SessionReview.SessionService.Confirm` | src/agent_fleet/application/session_review.py:391-487 | one use end to end: consumed, claimed, checked again; undisturbed it succeeds exactly when all hold |
| `SessionReview.SessionService.Dismiss` | src/agent_fleet/application/session_review.py:518-528 | removes exactly the tickets of that conversation and project, and says whether there was one |
| `SessionReview.SessionService.Select` | src/agent_fleet/application/conversations.py:156-211 | the generation moves on and everything issued before is void but confirmations under way elsewhere |
| `SessionReview.SessionService.PrepareRecovery` | src/agent_fleet/application/session_recovery.py:85-105 | admits a recovery ticket exactly when none of its conversation is active, there is room and the code is new |
| `SessionReview.SessionService.ConfirmRecovery` | src/agent_fleet/application/session_recovery.py:107-165 | takes effect only with the owner's word, not busy, not active, claimed and unexpired when the ticket is taken; undisturbed and not refused it does exactly if it is also still selected; the code is spent and its activity ended |
| `ResourceCleanup.RunKeepsInv` | src/agent_fleet/application/resources.py:573-865 | the invariant of leases, cleanup tasks, run tasks and callers over every interleaving |
| `ResourceCleanup.WaitingKeepsTiers` | src/agent_fleet/application/resources.py:674-689 | a run waits on a lease, whoever cleans it, only once every captured lease of an earlier tier is terminal |
| `ResourceCleanup.CleanupsAreShared` | src/agent_fleet/application/resources.py:691-739 | at most one cleanup of a run and of a lease is unfinished at any time |
| `ResourceCleanup.NormalReturnMeansClean` | src/agent_fleet/application/resources.py:614-620 | a cleanup that returns normally has left every captured lease terminal |
| `ResourceCleanup.TerminalIsPermanent` | src/agent_fleet/adapters/persistence/sqlite.py:1352-1400 | nothing ever overwrites a terminal status |
| `CleanupOrder.RunKeepsOrder` | src/agent_fleet/application/resources.py:622-739 | a run waits for every unfinished cleanup it created, and what earlier cleanups of the run captured is terminal or captured again |
| `CleanupOrder.TiersAreOrdered` | src/agent_fleet/application/resources.py:642-659 | while a cleanup that a run created is unfinished, no lease of an earlier tier is open that any cleanup of the run captured with it |
| `CleanupOrder.OnlyDirectCallsOvertake` | src/agent_fleet/application/resources.py:661-672 | a cleanup out of tier order was registered by a direct call of `cleanup_lease` |
| `CleanupOrder.DirectCallOvertakesIff` | src/agent_fleet/application/resources.py:661-672 | a direct call for a captured lease gets out of order, at once or later, exactly if a captured lease of an earlier tier is open at the call |
| `CleanupOrder.CaptureOvertakesIff` | src/agent_fleet/application/resources.py:630-659 | a cleanup under way when its lease is captured gets out of order exactly if the capture holds an open lease of an earlier tier |
| `CleanupOrder.ADirectCallOvertakes` | src/agent_fleet/application/workflow.py:1983-1984 | a run in which a direct call tears a sandbox down while its captured execution is active |
| `ResourceCleanup.ResourceService.CleanupLeaseOnce` | src/agent_fleet/application/resources.py:770-865 | ends its task; success means that the provider proved the lease absent and it has the target status, or it was terminal before; left alone it succeeds exactly if it was terminal, or the store lets it be released and the provider proves it absent |
| `ResourceCleanup.ResourceService.CleanupRunOrdered` | src/agent_fleet/application/resources.py:622-659 | captures once, goes tier by tier and stops after a tier with a failure; success means every captured lease is terminal, and if nobody else cleans the leases and all providers prove absence it succeeds with the target status on all |
| `ResourceCleanup.ResourceService.WaitForTask` | src/agent_fleet/application/resources.py:1132-1144 | ends exactly when the awaited task has; cancellations meanwhile are noted and do not detach the caller |
| `ResourceCleanup.ResourceService.CleanupRun` | src/agent_fleet/application/resources.py:573-620 | joins the run's task, registers one, or refuses another goal; it returns only after that task ended, raises exactly its failure, drops it from the dictionary, and returning normally has left every captured lease terminal |
| `BoundedReport.Draft.Mark` | src/agent_fleet/application/readiness.py:314-320 | notes the truncation once, as a diagnostic while there is room, else as an omission |
| `BoundedReport.Draft.PopNext` | src/agent_fleet/application/readiness.py:321-327 | gives up the last item of the first list, in order, that holds one, and counts it |
| `BoundedReport.Draft.Shrink` | src/agent_fleet/application/readiness.py:284-333 | the loop terminates and computes the specified report, for every size function |
| `BoundedReport.BoundedTrims` | src/agent_fleet/application/readiness.py:256-333 | a report that comes out fits, tells truly whether it is complete, and is the original, if that fits, or trims it in order with every item accounted for |
| `BoundedReport.TrimmedIsIncomplete` | src/agent_fleet/application/readiness.py:286-307 | a truncated report is never called complete |
| `BoundedReport.RefusedOnlyWhenEmptyIsTooLarge` | src/agent_fleet/application/readiness.py:326-327 | refused only when the report with every list empty is still too large |
| `BoundedText.BaselineOutput` | src/agent_fleet/application/gateway.py:95-123 | both outputs together within 64,000 bytes, each the longest whole-character prefix of its text that fits what is left, shortened and replaced reported exactly |
| `BoundedText.BoundField` | src/agent_fleet/application/gateway.py:104-122 | one stream: the longest fitting prefix, with both flags exact |
| `BoundedText.EscapeIsVisible` | src/agent_fleet/application/gateway.py:111-116 | no control or format character is shown but newline and tab |
| `BoundedText.SummaryShape` | src/agent_fleet/application/conversation_results.py:13-20 | the identity exactly when the text fits, else a longest fitting prefix and the marker |
| `BoundedText.SummaryFits` | src/agent_fleet/application/conversation_results.py:13-20 | the limit is kept exactly when the text fits or the limit is at least the marker's 20 bytes |
| `BoundedText.ShortLimitGrows` | src/agent_fleet/application/conversation_results.py:18-19 | a limit of 5 turns 16 bytes into 21 |
| `Utf8.EncodingDecodes` | src/agent_fleet/application/gateway.py:106-120 | section 3 of RFC 3629: an encoding is well formed and decodes to its text, under every error mode |
| `Utf8.WellFormedRoundTrip` | src/agent_fleet/application/gateway.py:105-109 | well-formed bytes decode to a text that encodes to the same bytes |
| `Utf8.WellFormedIsEncoding` | src/agent_fleet/application/gateway.py:105-109 | section 3 of RFC 3629: the well-formed byte sequences are exactly the encodings of texts |
| `Utf8.CutDecodesToLongest` | src/agent_fleet/application/gateway.py:117-120 | an encoding cut at any byte and decoded with errors ignored gives the longest whole-character prefix that fits |
| `Utf8.LongestFitUnique` | src/agent_fleet/application/gateway.py:117-120 | there is one longest fitting prefix only, so the contracts that name it determine the output |
| `ReadScopePattern.BuildPattern` | src/agent_fleet/application/runtime_tools.py:188-216 | the running size is the pattern's length; a pattern comes out exactly when it has at most 8192 characters |
| `ReadScopePattern.EncodeScope` | src/agent_fleet/application/runtime_tools.py:196-208 | the inner loop encodes a scope exactly while the running size allows it |
| `ReadScopePattern.PatternParses` | src/agent_fleet/application/runtime_tools.py:194-216 | the emitted text is a well-formed regular expression of the intended structure |
| `ReadScopePattern.PatternMeansPredicate` | src/agent_fleet/application/runtime_tools.py:188-216 | searched in a path it is found exactly when the path has a non-ASCII character, or is a scope or extends one at a slash, whatever the case (in Python also a scope and one newline) |
| `ReadScopePattern.CoversIsWithin` | src/agent_fleet/domain/paths.py:25-43 | on canonical paths that predicate is the path policy's own, when case folding is ASCII's |
| `ReadScopePattern.PatternAllowsTaskPaths` | src/agent_fleet/application/runtime_tools.py:164-216 | a path the policy allows is never filtered out by the hint, whatever case folding does outside ASCII |
| `ReadScopePattern.KelvinSignIsWithin` | src/agent_fleet/application/runtime_tools.py:213-215 | why non-ASCII paths pass: folding takes the Kelvin sign into the scope "k", which does not cover it as spelled |
| `ProgressPages.AppendKeepsOrder` | src/agent_fleet/adapters/persistence/sqlite.py:1651-1662 | appended events are numbered 1, 2, 3, ... without a gap |
| `ProgressPages.PageIsSlice` | src/agent_fleet/adapters/persistence/sqlite.py:381-385 | a page is the slice of the log after the given sequence |
| `ProgressPages.Decoded` | src/agent_fleet/adapters/persistence/sqlite.py:386-409 | rows are refused exactly unless their sequences ascend from the cursor |
| `ProgressPages.CursorRoundTrip` | src/agent_fleet/application/conversations.py:1365-1382 | the cursor of a page resumes at the same event if and only if its sequence is below 10^12, and at the start of the run once another is current |
| `ProgressPages.Progress` | src/agent_fleet/application/conversations.py:1352-1423 | computes the specified page, with the same refusals |
| `ProgressPages.FollowingTracks` | src/agent_fleet/application/conversations.py:1352-1423 | over any growth of turns and logs and any page sizes the client holds, of every run, its events once each, in order, without a gap from the first |
| `ProgressPages.LastPageIsComplete` | src/agent_fleet/application/conversations.py:1418-1421 | every call is answered, and a page that announces no more leaves the client with the current run's whole log |
| `ProgressPages.EarlierRunsAreLeft` | src/agent_fleet/application/conversations.py:1377-1382 | once another turn is current no page yields an event of an earlier run |
| `ProgressPages.LeftForGood` | src/agent_fleet/application/conversations.py:1377-1382 | nor does any number of later pages, as long as the run is not current again |
| `ProgressPages.ATailIsLost` | src/agent_fleet/application/conversations.py:1377-1382 | a client told of more events that never gets them, whatever calls follow |
| `TaskPages.PagesPartition` | src/agent_fleet/application/conversations.py:281-311 | following `next_before_sequence`, while turns are added, shows the turns of the first moment newest first, 20 a page, ends exactly when all are shown, and every `next` may be asked for |
| `TaskPages.EveryTurnOnce` | src/agent_fleet/application/conversations.py:281-311 | in the end the i-th shown is the i-th newest of the first moment |
| `TaskPages.Choosable` | src/agent_fleet/application/conversations.py:287-302 | exactly the displayed turns become choices; one unreadable turn refuses all |
| `TaskPages.TaskBrowser.Display` | src/agent_fleet/application/conversations.py:281-314 | a readable page makes exactly its turns selectable and is displayed unless a registered secret refuses it; an unreadable one is refused and changes nothing |
| `TaskPages.AnUndisplayedTurnIsChosen` | src/agent_fleet/application/conversations.py:285-313 | of two turns of a page that was refused because reading the older registered a secret of the newer, the older is then selected, never having been displayed, and the newer is not |
| `TaskPages.TaskBrowser.Select` | src/agent_fleet/application/conversations.py:271-280 | selects exactly a sequence of the page last read, leads to that very turn, and makes nothing else selectable |
| `TaskPages.TaskBrowser.ChangeInspection` | src/agent_fleet/application/conversations.py:199-211 | the generation moves on and what was displayed can no longer be chosen |

## Left out

- Reviewed recovery plans: fixed lease snapshots and their own store; the tiered cleanup they share is modelled.
- `expected_review` and `validate_review` of apply and rollback: extra refusals before the modelled effects.
- Cleanup leaves a partly removed scratch on a crash; removing that remainder by hand is not modelled.
- Schedule independence is about children whose outputs are a function of their node and inputs; a model's own variance is outside it.
- The plan validators that can only refuse (criteria, budgets, evidence, role capabilities) are one arbitrary predicate of `FleetPlanner.Create`.
- A candidate patch is a map from paths to contents before and after: hunks, file modes, Git commands, and the artifacts and run record around the merge loop are not modelled.
- Redaction of tool results, and approvals and grants that expire between two steps, appear as refusals at any moment.
- The configuration parser: that the texts of an organization load is not modelled; files below agents/ that nothing refers to do not take part in it.
- Permission scopes and intents are opaque; of a grant's match only what time, revocation and rules decide is modelled.
- `propose` refuses a patch whose JSON artifact exceeds 8,000,000 bytes, and secrets and stale project records anywhere: refusals before anything is recorded.
- `describe_fleet_patch`: the text of a proposal's diff; its bound of 12,000,000 bytes is a refusal that may happen when a proposal is recorded.
- What a review shows (artifacts, diffs, plans), and the recovery work after its review was confirmed.
- `next_steps` of a readiness report: a function of the completeness flag.
- Redaction and Unicode categories are arbitrary functions; the secret check before the read-scope hint is a refusal.
- Event summaries and pending request ids of a progress page; cursors that are not Unicode text.
- Adapters for SQLite, Git, Docker, the file system and the trust file appear as the atomic contracts above.
- `BaselineService`, `ProposalTools`, model profiles, patch application: they repeat shapes proved here with less state.
- Chat, dashboard, command line, doctor, scripts, prompts and providers: presentation and input/output.
- Field-by-field equality checks of bootstrap, evidence, inspection and plan review: long conjunctions.
