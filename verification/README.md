# Protocol proofs for the server's stores and providers

The server keeps its protocols in PostgreSQL tables: each repository method is one transaction, which makes it
one step of a state machine. This project models those machines table by table, proves what every step keeps,
and proves the claims about whole runs that the server is built for: what a published scenario rests on, who may
write what and how often, what is never lost, and what a retried or interrupted operation ends in. Beside the
tables it models the algorithms the stores lean on: the placeholder rewriter, subnet and address allocation, the
workspace archive, and the two reset fences.

How it is laid out:

- A machine's tables are a datatype of maps (`Generation.State`, `Catalog.Catalog`, `Authoring.Desk`,
  `RunnableQueue.Queue`, `UsageSessions.Activity`); every transaction is a function from the tables to the tables
  after it and its answer. CHECK and UNIQUE constraints of the schema are part of the functions.
- The repository itself is a class whose methods do what the source does, statement by statement, on a copy of the
  tables committed at the end. Each method is proved equal to its function, so that the theorems about runs of
  functions are theorems about runs of methods.
- A run is a sequence of operations, by anybody, at any instant, with any arguments, in any order. `After` is the
  state it ends in. The `*Steps` and `*Publication` modules prove that each step keeps the invariant; the
  `*Theorems` modules conclude about runs. Safety says what no run does; the `*Road` modules, and their like in the
  queues, say what every run can still do: that nothing is ever stuck, and exactly when.
- What one step does to its row, and exactly when it is accepted, is stated beside the invariants, in words that do not
  mention how the step is computed (`GenerationProgress`, `GenerationSpaces` and the step facts of the other machines).
- Providers that may fail are a world and a script of faults, one for each call: the call works, fails before it
  takes effect, or takes effect and loses its answer, and so on.
- History variables (`issued`, `verdicts` and `saved` in `Generation.State`, `made` in `NodeReset.Row`) record what
  happened; no transaction reads them, except that a claim never draws an owner name drawn before.

Modules, by component:

| component | modules |
|---|---|
| shared vocabulary; the published-scenario tables | `Base`, `Texts`, `Scenarios` |
| generation workflow, workspace turns, publication | `Generation`, `GenerationInvariants`, `GenerationSteps`, `GenerationPublication`, `GenerationRuns`, `GenerationTheorems`, `GenerationReceipts`, `GenerationLineage`, `GenerationWorkspaces`, `GenerationProgress`, `GenerationSpaces`, `GenerationRoad`, `GenerationRepository` |
| leased work: runnable actions and reaps | `RunnableQueue`, `RunnableTheorems`, `RunnableRepository`, `ReapQueue` |
| authoring plans | `Authoring`, `AuthoringSteps`, `AuthoringTheorems`, `AuthoringRepository` |
| catalog releases | `Catalog`, `CatalogSteps`, `CatalogPublication`, `CatalogRoad`, `CatalogRepository` |
| both publishers together; what the collector must keep | `Publishers`, `Retention` |
| placeholder rewriting | `Bind`, `BindTokens` |
| networks and addresses | `Subnets`, `NodeAddresses` |
| resets | `NodeReset`, `NamespaceReset` |
| workspace archive, restore, canonical form | `WorkspacePaths`, `WorkspaceArchive`, `WorkspaceRestore`, `WorkspaceCanonical` |
| terminal connections and learning time | `UsageSessions` |

Some of what one would expect does not hold of the code. Each such case is proved, with the input that shows it and
the exact condition under which the expectation does hold:

- A runnable action's lease is fenced by the owner's name alone, so a claim taken over under the same name still
  passes (`RunnableTheorems.FenceIsTheName`, `RunnableTheorems.StaleReportPasses`).
- A replayed finalization answers the revision after the run's own input, which is the recorded one exactly when
  the run was started with its base (`AuthoringTheorems.FinalizationIsOnce`,
  `AuthoringTheorems.ReplayAnswersAnother`).
- The interface for creating workspace rows admits a row that is already idle, and such a row can be retired without
  ever having been saved. No caller hands one in: one makes pending rows, the other deleting ones. Retirement is safe
  in every run without such a row, and in every other run only such rows are the exception
  (`GenerationWorkspaces.RetirementRests`, `GenerationWorkspaces.HandedIdleIsRetired`).
- A rewritten query does not determine the query it came from: `$1` and `?` have the same rewriting. Reading each `$k`
  that is the next number due back as `?` recovers exactly the queries that nowhere have, outside literals and
  comments, the parameter due there: `$x` and every query without `$` are recovered, `$1` is not
  (`Bind.RecoveredIff`, `Bind.OneOfEachKind`, `Bind.DollarsCollide`).
- Archiving a workspace and restoring it does not in general give the same tree back. It does exactly when the tree
  is portable (trimming and the readers' path rules leave its names alone, and it holds only files and directories)
  and its permissions are the ones the archive keeps, 0755 for directories and executable files and 0644 for other
  files (`WorkspaceCanonical.SnapshotAndRestore`, `WorkspaceCanonical.PrivateFileChanges`,
  `WorkspaceCanonical.TrailingBlankIsLost`).
- Usage sessions are intervals one after the other only as long as no server's clock is behind what the table holds
  when it opens or ends one (`UsageSessions.FitIsLostIff`, `UsageSessions.FitsThroughoutIff`,
  `UsageSessions.SkewOverlaps`).
- A usage session's identity is its environment and instant, so a reconnection within the very instant of the last
  session gets none (`UsageSessions.CoverIsLostIff`, `UsageSessions.LossHappens`).

Verify the project with `dafny verify dfyconfig.toml`.

## Model

The rows that make claims come first. A row marked "step fact" says what one step does or answers, or exactly when it is
accepted; most of these stand together before the connectors. The other rows speak of runs or of every input. The rows
marked "connector" at the end tie a repository's or a client's method, written as the source writes it, to the function
the claims speak of.

| member | source | states |
|---|---|---|
| GenerationTheorems.PublishedIsVerified | internal/adapter/postgres/generation_repository.go:351-807 | in every run, whatever loops of rejection, failed verification and requested changes came before: a Published workflow's candidate has an approving verdict of a succeeded judge run, a runnable revision whose spec names that candidate and content, a passing report on exactly that revision, no failure, and its reserved revision is public with the same references |
| GenerationTheorems.PublicIsVerified | internal/adapter/postgres/generation_repository.go:750-807 | conversely every authored revision in the published tables has such a workflow behind it |
| GenerationTheorems.LeaseOnlyInJudging | internal/adapter/postgres/generation_repository.go:149-266 | a lease or an active agent run exists only in Judging, and the run is a judge run of that workflow |
| GenerationTheorems.TerminalIsFinal | internal/adapter/postgres/generation_repository.go:149-877 | Published, Failed and Cancelled rows never change again |
| GenerationTheorems.VersionCountsChanges | internal/adapter/postgres/generation_repository.go:725-748 | `state_version` is one plus the number of state changes, all counted but the finalizer's Publishing to Failed, which happens at most once and is the end |
| GenerationTheorems.OneClaimPasses | internal/adapter/postgres/generation_repository.go:982-991 | of all claims ever issued on a workflow at most one passes the fence, and it is the recorded one |
| GenerationTheorems.LostClaimIsDead | internal/adapter/postgres/generation_repository.go:982-991 | a claim that no longer holds its lease never passes again, at any instant of any later run |
| GenerationTheorems.TakeoverIsForever | internal/adapter/postgres/generation_repository.go:149-175 | a fresh claim shuts out every earlier claim on that workflow for good |
| GenerationTheorems.EntryEndsOnce | internal/adapter/postgres/generation_repository.go:414-452 | each entry to Judging is ended at most once, by judgement, rejection or exhausted retries, whichever claims are used |
| GenerationReceipts.StartIsOnce | internal/adapter/postgres/generation_repository.go:39-100 | after a granted confirmation, the same key answers the same workflow and changes nothing in any later state; with another plan it is refused |
| GenerationReceipts.PlanHasOneWorkflow | internal/adapter/postgres/generation_repository.go:61-74 | confirming a plan revision again, ever after, answers the workflow it already has if and only if the session's owner confirms under a key that is fresh or was used for this plan; every other confirmation is refused |
| GenerationReceipts.SubmitIsOnce | internal/adapter/postgres/generation_repository.go:322-412 | the same for submissions: same candidate, nothing changed, another request refused |
| GenerationReceipts.ConfirmIsOnce | internal/adapter/postgres/generation_repository.go:597-661 | the same for content confirmations |
| GenerationReceipts.ChangeIsOnce | internal/adapter/postgres/generation_repository.go:663-702 | the same for change requests |
| GenerationReceipts.CancelIsOnce | internal/adapter/postgres/generation_repository.go:838-877 | the same for cancellations |
| GenerationLineage.ScenarioHistory | internal/adapter/postgres/generation_repository.go:925-958 | in every run each scenario's revisions form one linear chain through their bases that covers them all; exactly one is active, the last, which the scenario refers to |
| GenerationLineage.SessionPublishesOnce | internal/adapter/postgres/generation_repository.go:750-807 | two published workflows of one session are the same workflow |
| GenerationLineage.BasePublishesOnce | internal/adapter/postgres/authoring_repository.go:47-94 | of any number of sessions opened on the same active revision at most one publishes |
| GenerationLineage.PublishedIsForever | internal/adapter/postgres/scenario_repository.go:243-275 | a published revision is never removed, and nothing of it but its state ever changes |
| GenerationLineage.VerdictGiven | internal/adapter/postgres/generation_repository.go:414-452 | every verdict on record was given by an accepted judgement of that run, on the candidate the workflow had then |
| GenerationWorkspaces.RetirementLosesNothing | internal/adapter/postgres/generation_workspace_repository.go:500-545 | in every run in which no workspace row is handed in already idle, as no caller does: when idle retirement succeeds for a digest, that digest was published from that very workspace and no user turn has held it since |
| GenerationWorkspaces.RetirementRests | internal/adapter/postgres/generation_workspace_repository.go:500-545 | in every run whatever: a workspace that idle retirement throws away was saved under that digest and not entered since, or its row was handed in idle in this run and not entered since |
| GenerationWorkspaces.HandedIdleIsUnsaved | internal/adapter/postgres/generation_workspace_repository.go:14-49 | inserting a valid row that clashes with none keeps "idle means free and saved" if and only if the row is not handed in idle |
| GenerationWorkspaces.HandedIdleIsRetired | internal/adapter/postgres/generation_workspace_repository.go:14-49 | a run from the empty tables through the repository interface: save, retire, hand in an idle row, and the row can be retired though nothing was ever published from it |
| GenerationWorkspaces.IdleTimeStays | internal/adapter/postgres/generation_workspace_repository.go:408-496 | once a workspace with a snapshot is idle, its `idle_since` does not move in any run in which no turn enters it and its snapshot is not dropped, until it is retired |
| GenerationWorkspaces.HoldersExclude | internal/adapter/postgres/generation_workspace_repository.go:69-116 | between two takings of a workspace by different holders, turns or snapshots, the first let go |
| GenerationRoad.NeverStuck | internal/adapter/postgres/generation_repository.go:149-807 | in every run, whatever happened to it, a workflow that has not ended and is not yet reserved can still be published, by steps that exist from there, as long as its scenario stands open to its session: unpublished, or active, its owner's, and still at the revision the session was opened on |
| GenerationRoad.SomethingIsPublished | internal/adapter/postgres/generation_repository.go:39-807 | there is a run from the empty tables that ends in a published workflow |
| GenerationRoad.PublishesIff | internal/adapter/postgres/generation_repository.go:750-807 | in every run a reserved publication succeeds if and only if its scenario still stands as it was reserved and its identities, slug and content are not taken |
| GenerationRoad.LastErrorIsHandedOn | internal/adapter/postgres/generation_repository.go:351-412 | whatever happens before it, the next submission of a workflow that was sent back is recorded as the repair of the very error it was sent back with, on top of the candidate sent back |
| GenerationRoad.FeedbackIsHandedOn | internal/adapter/postgres/generation_repository.go:414-452 | in particular a judge's feedback becomes what the next candidate repairs |
| GenerationPublication.DeprecateScenarioKeeps | internal/adapter/postgres/scenario_repository.go:111-158 | hiding a scenario keeps every invariant and removes nothing published |
| GenerationPublication.CreateRevisionSessionKeeps | internal/adapter/postgres/authoring_repository.go:47-94 | reopening a scenario, whose active revision the session remembers, keeps every invariant |
| Scenarios.OneRevisionPerBase | internal/adapter/postgres/generation_repository.go:960-980 | in consistent tables two revisions of a scenario with the same base are the same |
| RunnableTheorems.RunningIsLeased | internal/adapter/postgres/runnable_repository.go:227-262 | in every run an action is running exactly when it has a lease |
| RunnableTheorems.TakeoverLocksOut | internal/adapter/postgres/runnable_repository.go:227-262 | after a different owner takes over, the old owner's name is not live at any instant until it claims again |
| RunnableTheorems.DispossessedForever | internal/adapter/postgres/runnable_repository.go:227-324 | who lost an action stays without it, over any run in which it does not claim |
| RunnableTheorems.ArtifactReportIsFinal | internal/adapter/postgres/runnable_repository.go:284-324 | one accepted artifact report ends the action for good: it is failed with that failure, whatever its attempts, and never claimed again in any later run |
| RunnableTheorems.CompletionIsFinal | internal/adapter/postgres/runnable_repository.go:326-391 | an accepted materialization is completed for good with the digest it reported, and a stored revision has that digest |
| RunnableTheorems.CanBeCompletedIff | internal/adapter/postgres/runnable_repository.go:102-391 | in every run an action can still be completed if and only if its artifact has not failed it, whoever holds it and however often the infrastructure gave up |
| RunnableTheorems.DeadCredential | internal/adapter/postgres/runnable_repository.go:36-74 | step fact: without a live lease no renewal, output, failure or completion in that name is accepted or changes anything |
| RunnableTheorems.FrozenForever | internal/adapter/postgres/runnable_repository.go:102-111 | completed rows and rows failed by their artifact never change |
| RunnableTheorems.ResultIsOnRecord | internal/adapter/postgres/runnable_repository.go:326-391 | a completed row keeps its revision digest forever, and a stored revision has it |
| RunnableTheorems.FenceIsTheName | internal/adapter/postgres/runnable_repository.go:264-276 | a superseded claim still passes if and only if the action was taken over under the same name |
| RunnableTheorems.StaleReportPasses | internal/adapter/postgres/runnable_repository.go:284-324 | the concrete run: a report under an older claim of the same owner ends the newer one |
| RunnableTheorems.VerificationIsFenced | internal/adapter/postgres/runnable_repository.go:483-527 | step fact: an accepted verification report carries the row's attempt and revision and all its outputs are stored; what it says is on record if and only if its identity was unused or already bound to this very report, since the insert skips an identity that is taken and nothing compares afterwards |
| RunnableTheorems.NewCycle | internal/adapter/postgres/runnable_repository.go:102-136 | step fact: nothing lowers an attempt but rescheduling a row that infrastructure failed |
| RunnableTheorems.OnlyReportsFail | internal/adapter/postgres/runnable_repository.go:284-324 | step fact: a row becomes failed only by a live owner's report, and by an infrastructure one only from the eighth claim on |
| RunnableTheorems.PatienceIsBounded | internal/adapter/postgres/runnable_repository.go:24-31 | between two cycles at most 8 infrastructure reports are accepted, however many takeovers there are |
| RunnableTheorems.ExhaustionIsNamed | internal/adapter/postgres/runnable_repository.go:284-324 | an infrastructure report below 8 claims makes the action claimable again exactly after the delay of its attempt, and from 8 on ends the row as attempts-exhausted |
| RunnableQueue.RetryBackoff | internal/domain/runnable/backoff.go:14-29 | the doubling loop with its early return computes the capped power of two |
| RunnableQueue.BackoffGrows | internal/domain/runnable/backoff.go:14-29 | the delay never shrinks with the attempt and never exceeds the cap |
| RunnableTheorems.Delays | internal/domain/runnable/backoff.go:14-29 | the delays are 5, 10, 20, 40, 80 and 160 seconds, and 300 from the seventh attempt on |
| ReapQueue.CanSucceed | internal/adapter/postgres/runnable_repository.go:918-988 | in every run every reap can still succeed, whoever holds it and however often it failed |
| ReapQueue.EnqueuedOnce | internal/adapter/postgres/runnable_repository.go:875-902 | a request is enqueued once; ever after, the same request changes nothing and another revision is refused |
| ReapQueue.CompletesOnce | internal/adapter/postgres/runnable_repository.go:957-988 | a reap claim that completed is refused ever after, whatever it reports |
| ReapQueue.SupersededIsOver | internal/adapter/postgres/runnable_repository.go:918-988 | a superseded claim is refused ever after, even when the same owner superseded it |
| ReapQueue.SucceededForever | internal/adapter/postgres/runnable_repository.go:875-902 | a reap that succeeded never changes, not even by enqueueing it again |
| Bind.Bind | internal/adapter/postgres/store.go:152-236 | the scanner loop with its four mode flags, look-ahead and counter equals the rewriting by a five-state lexer |
| Bind.EachCharacter | internal/adapter/postgres/store.go:152-236 | position by position: a `?` outside literals and comments becomes `$k`, k counting such `?` so far; every other character is kept |
| BindTokens.OnlyQuestionMarks | internal/adapter/postgres/store.go:152-236 | a query written as SQL tokens (characters, quoted texts with doubled quotes, line comments, bracketed comments) that read apart is rewritten token by token: the k-th `?` token becomes the k-th parameter, everything else stays |
| Bind.DecimalIsRead | internal/adapter/postgres/store.go:225-227 | the digits written for a number read, most significant first, as that number, and have no leading zero |
| Bind.ParametersDiffer | internal/adapter/postgres/store.go:225-227 | different parameters are written differently |
| Bind.SameMode | internal/adapter/postgres/store.go:152-236 | the output leaves the lexer in the mode the input leaves it in |
| Bind.RewriteConcat | internal/adapter/postgres/store.go:152-236 | a query may be rewritten piece by piece, the count carried on |
| Bind.BindIsIdempotent | internal/adapter/postgres/store.go:152-236 | bind(bind(q)) = bind(q) |
| Bind.RecoveredIff | internal/adapter/postgres/store.go:152-236 | reading `$k` back as `?` wherever it is the next number due recovers the query if and only if nowhere outside literals and comments the query itself has the parameter that is due there |
| Bind.BindIsInjective | internal/adapter/postgres/store.go:152-236 | queries in which no parameter is due outside literals and comments are recovered: equal rewritings come from equal queries |
| Bind.OneOfEachKind | internal/adapter/postgres/store.go:152-236 | of all queries with one rewriting exactly one has no parameter due, and it is what the rewriting is read back as |
| Bind.PlainIsRecovered | internal/adapter/postgres/store.go:152-236 | in a query without `$` outside literals and comments no parameter is due |
| Bind.DollarsCollide | internal/adapter/postgres/store.go:152-236 | both sides of the condition: `$x` is recovered; `$1` has the rewriting of `?` and is read back as it |
| AuthoringTheorems.HistoryIsContiguous | internal/adapter/postgres/authoring_repository.go:393-480 | a session's plan revisions are exactly 0 up to its current one |
| AuthoringTheorems.RevisionsAreForever | internal/adapter/postgres/authoring_repository.go:588-622 | a plan revision is never changed or removed |
| AuthoringTheorems.NoUpdateIsLost | internal/adapter/postgres/authoring_repository.go:588-718 | a step moves a session's current revision only by one, and only on behalf of someone whose expected or base revision was the current one |
| AuthoringTheorems.LastEditArrives | internal/adapter/postgres/authoring_repository.go:326-480 | whatever happens after an edit, if no other edit of the stage does, the stage holds the edit's plan, and a finalization makes exactly that plan the revision the edit announced, for good, with all its changes |
| AuthoringTheorems.EditsIff | internal/adapter/postgres/authoring_repository.go:326-391 | in every run an edit under a fresh operation is accepted if and only if it comes from the live attempt the stage was opened for and was made on the stage as it is |
| AuthoringTheorems.FinalizesIff | internal/adapter/postgres/authoring_repository.go:393-480 | in every run a live stage is finalized if and only if its own attempt asks, the session has not moved on and is open, and an edited plan is valid |
| AuthoringTheorems.TurnStartsFromCurrent | internal/adapter/postgres/authoring_repository.go:219-299 | in every run a turn starts if and only if the owner asks and the conversation is open and idle; its stage is the current plan, unedited |
| AuthoringTheorems.TerminatedLeavesNothing | internal/adapter/postgres/authoring_repository.go:515-586 | in every run ending a turn without result removes its stage, changes no plan, and leaves the conversation free for another turn |
| AuthoringTheorems.ReplacesIff | internal/adapter/postgres/authoring_repository.go:588-622 | in every run a plan is written directly if and only if it is valid and its owner had read the current revision; it is the next one |
| AuthoringTheorems.SavesIff | internal/adapter/postgres/authoring_repository.go:627-718 | the same for a saved plan under a fresh key; without a session it opens a new one |
| AuthoringTheorems.StageCounts | internal/adapter/postgres/authoring_repository.go:326-391 | stage revision = base revision + number of changes; without changes the stage holds the base's plan |
| AuthoringTheorems.NothingChanged | internal/adapter/postgres/authoring_repository.go:393-480 | step fact: finalizing a turn without changes answers the base revision itself and adds none |
| AuthoringTheorems.OneRunAtATime | internal/adapter/postgres/agent_repository.go:452-461 | one running agent run per conversation |
| AuthoringTheorems.StartIsOnce | internal/adapter/postgres/authoring_repository.go:219-299 | a repeated message names the first run and changes nothing, ever after; with other content it is refused |
| AuthoringTheorems.OperationIsOnce | internal/adapter/postgres/authoring_repository.go:805-829 | replaying an operation while its stage lives returns the stage it left, whatever followed; another request is refused |
| AuthoringTheorems.FinalizationIsOnce | internal/adapter/postgres/authoring_repository.go:482-509 | replaying a finalization changes nothing; it returns the same revision number and plan, however many revisions came later, if and only if the run's input revision was its base |
| AuthoringTheorems.ReplayAnswersAnother | internal/adapter/postgres/authoring_repository.go:500-508 | a run from the empty desk whose input is not its base: it ends in revision 1 and is replayed as revision 0 |
| AuthoringTheorems.SaveIsOnce | internal/adapter/postgres/authoring_repository.go:627-718 | a repeated save returns its first revision, or is refused when it is another |
| CatalogPublication.IntentsMatchEntries | internal/adapter/postgres/catalog_repository.go:421-495 | while a release commits and once it is ready, its commits are one for each entry, with scenario, revision and slug all distinct |
| CatalogPublication.NothingBeforeReady | internal/adapter/postgres/catalog_repository.go:523-605 | a published release scenario belongs to a committed commit of a ready release |
| CatalogPublication.EverythingAtReady | internal/adapter/postgres/catalog_repository.go:564-595 | at ready every entry is committed and has exactly one active scenario revision, with its own validated references |
| CatalogPublication.OneReleaseIsReady | internal/adapter/postgres/catalog_repository.go:541-556 | at most one release is ever ready |
| CatalogPublication.ReadyFromEmpty | internal/adapter/postgres/catalog_repository.go:541-556 | step fact: a release becomes ready only by being completed, into an empty catalog |
| CatalogPublication.CompletesIff | internal/adapter/postgres/catalog_repository.go:523-605 | completing a committing release succeeds if and only if the catalog is empty, no other release is ready and every commit is materialized; no unique index ever refuses it half way; then it is ready, and says so when asked again; on failure nothing is published |
| CatalogRoad.CanBecomeReadyIff | internal/adapter/postgres/catalog_repository.go:72-605 | in every run a release that is not ready can still become so if and only if it has not failed, nothing is published yet, no other release is ready, and its source was not empty |
| CatalogRoad.InstallsIff | internal/adapter/postgres/catalog_repository.go:72-146 | in every run a pending release is installed if and only if its source names nothing twice; its entries are then exactly what was found |
| CatalogRoad.PrepareDecides | internal/adapter/postgres/catalog_repository.go:421-495 | committing begins if and only if every entry is ready and named once, under identities nothing else has; each then has its prepared commit under its own names |
| CatalogPublication.TerminalForever | internal/adapter/postgres/catalog_repository.go:191-208 | a ready or failed release stays so |
| Publishers.GenerationForReleases | internal/adapter/postgres/generation_repository.go:925-980 | no step of the generation machine touches a released scenario or revision |
| Publishers.NextSound | internal/adapter/postgres/publication_repository.go:12-14 | with both publishers on the same tables every step keeps both invariants, and published facts survive it |
| Retention.RetainedMaterializationPaths | internal/adapter/postgres/publication_repository.go:20-65 | answers if and only if every row's path is the one its slug and revision name; the answer is strictly ascending in the paths' texts and holds exactly the published, intended and committing paths |
| Retention.AlwaysAnswers | internal/adapter/postgres/publication_repository.go:20-65 | in every run of both publishers it answers |
| Retention.RetainedExactly | internal/adapter/postgres/publication_repository.go:20-65 | in every run a directory is retained if and only if a published revision is in it, a publishing workflow has reserved it, or a commit of a committing release has it |
| Texts.LessIs | internal/adapter/postgres/publication_repository.go:20-65 | one text is before another if and only if it ends, or has the smaller character, at the first place where they differ |
| Retention.PublishedIsRetained | internal/adapter/postgres/publication_repository.go:22-24 | the directory of a published revision is retained in every later state |
| Retention.IntentIsRetained | internal/adapter/postgres/generation_repository.go:639-650 | in every run the directory of a publishing or published workflow is retained |
| Retention.IntentStays | internal/adapter/postgres/generation_repository.go:785-803 | from recorded intent to the end it is the same candidate, publication and directory, unless the workflow fails or is cancelled |
| Retention.CommitIsRetained | internal/adapter/postgres/catalog_repository.go:574-597 | in every run the directory of a commit of a committing or ready release is retained |
| Retention.CommitStays | internal/adapter/postgres/catalog_repository.go:466-478 | a commit keeps its scenario and directory ever after |
| Subnets.SelectSubnet | internal/adapter/incus/environment.go:801-830 | the first slot from the hashed start on that meets no occupied prefix; "no free subnet" only when every slot meets one |
| Subnets.SlotsTile | internal/adapter/incus/environment.go:859-865 | an address is in the pool exactly when it is in some slot, and in one only; no 32-bit wrap |
| Subnets.PrivateIff | internal/adapter/incus/model.go:126-151 | the check on the pool accepts a prefix if and only if all its addresses are in the three private ranges, given by their first and last addresses |
| Subnets.SlotsArePrivate | internal/adapter/incus/model.go:126-151 | every address of every slot is in one of the three ranges of section 3 of RFC 1918, given by their first and last addresses |
| Subnets.OverlapIsIntersection | internal/adapter/incus/environment.go:875-882 | for masked prefixes the two-sided Contains test is exactly having an address in common |
| Subnets.OverlapsAny | internal/adapter/incus/environment.go:875-882 | the loop finds an overlap exactly when there is one |
| Subnets.GatewaysOfSlots | internal/adapter/incus/environment.go:843-857 | the gateway check accepts exactly the second addresses of the pool's slots, written with their length |
| NodeAddresses.AssignAddresses | internal/adapter/incus/environment.go:969-991 | succeeds exactly when every node fits and keeps the address it has; then node i has address i |
| NodeAddresses.AddressesAreFree | internal/adapter/incus/environment.go:969-991 | node addresses are distinct, in the subnet, and none is its network, gateway or last address |
| NodeAddresses.BoundIsExact | internal/adapter/incus/model.go:104-114 | 2^(32-p) > 10 + max nodes if and only if no allowed node count is ever too many |
| NodeAddresses.ValidConfigFits | internal/adapter/incus/model.go:100-114 | of the configurations whose pool can be used, exactly those that pass the size check give every slot of the pool room for every allowed number of nodes |
| NodeAddresses.AssignTwice | internal/adapter/incus/environment.go:969-991 | assigning again on the result succeeds and changes nothing |
| NodeReset.EveryResetIsFenced | internal/adapter/incus/environment.go:178-183 | in every run, with any faults, no call of a reset of generation n wipes while the project is stamped n, and none builds while anything of an earlier generation is left |
| NodeReset.ProgressIsKept | internal/adapter/incus/environment.go:671-676 | once the project is stamped n, further attempts and provisions only add to it, until a later generation is asked for or the environment is released |
| NodeReset.ResetCompletes | internal/adapter/incus/environment.go:490-620 | from any state an interrupted run can leave, an attempt without faults is refused nowhere and rebuilds everything, all of it of this generation |
| NodeReset.Converges | internal/adapter/runnableprovider/environment_provider.go:90-122 | after any run, with any faults, a reset that says it is done has everything there, running, of its generation and marked so; and one without faults says so |
| NodeReset.ReleaseLeavesNothing | internal/adapter/runnableprovider/environment_provider.go:135-148 | in every run a release that says it is done, however its calls went, has left nothing, whatever generation the environment was stamped with; and one without faults says so |
| NodeReset.ProvisionCompletes | internal/adapter/incus/environment.go:35-99 | in every run a provision that says it is done ends with everything there and every node running; and one without faults says so |
| NamespaceReset.EveryResetIsFenced | internal/adapter/kubernetes/vk8s_environment.go:186-191 | in every run no call of a reset of generation n sends a deletion to a namespace stamped n, and none builds except in one or where there is none |
| NamespaceReset.ProgressIsKept | internal/adapter/kubernetes/vk8s_environment.go:196-201 | once a namespace is stamped n it stays with all that is built in it until a later generation or the release, even when namespace deletions sent earlier arrive late |
| NamespaceReset.Converges | internal/adapter/runnableprovider/environment_provider.go:107-118 | after any run: one pass without faults, the old namespace gone, one more pass, and everything is rebuilt |
| NamespaceReset.ReleaseLeavesNothing | internal/adapter/runnableprovider/environment_provider.go:149-160 | in every run a release that says it is done has left no namespace; without faults it says so, or the namespace is going away and the next release says so |
| NamespaceReset.ResetIsWhatItSays | internal/adapter/runnableprovider/environment_provider.go:107-118 | in every run a reset that says it is done and does not wait has rebuilt everything, whatever happened meanwhile |
| NamespaceReset.DeletionIsInOrder | internal/adapter/kubernetes/vk8s_environment.go:171-203 | a deletion that waits looked first, deleted the cluster, then the very namespace it saw; the cluster is gone and the namespace gone or going |
| WorkspacePaths.ModeRoundTrip | internal/adapter/opensandbox/client.go:275-278 | permission bits survive being written as decimal-read-as-octal and read back |
| WorkspacePaths.ModeInverse | internal/adapter/opensandbox/client.go:473-482 | every number that reads as a mode is the one that mode is written as |
| WorkspacePaths.ModeOf | internal/adapter/opensandbox/client.go:275-278 | the decimal digits of the number are the octal digits of the mode |
| WorkspacePaths.SplitIsJoined | internal/content/workspacearchive/archive.go:267-287 | the parts of a path are what stands between its slashes |
| WorkspacePaths.DirectoryAndName | internal/adapter/opensandbox/client.go:325-375 | a path's directory is what stands before its last slash |
| WorkspacePaths.RelativeIs | internal/adapter/opensandbox/client.go:453-464 | reading a listed path back loses exactly its trailing white space |
| WorkspaceArchive.Archive | internal/adapter/opensandbox/client.go:325-375 | the breadth-first loop ends; on an archivable tree it lists every node exactly once, parents before children, with its bits |
| WorkspaceRestore.Clear | internal/adapter/opensandbox/client.go:402-435 | empties the workspace, or leaves it alone when something at its top cannot be deleted |
| WorkspaceRestore.Restore | internal/adapter/opensandbox/client.go:377-400 | succeeds exactly when the old contents can be cleared and the entries build a tree, which the workspace then is |
| WorkspaceRestore.Rebuilds | internal/adapter/opensandbox/client.go:377-400 | restoring the entries of a listed tree builds that tree, bits included |
| WorkspaceRestore.RoundTrip | internal/adapter/opensandbox/client.go:325-435 | the two loops by themselves, without the encoding the code puts between them: the entries the walk collects, restored over any prior contents, rebuild the tree, permission bits included, exactly when it is portable |
| WorkspaceCanonical.Normalize | internal/content/workspacearchive/archive.go:216-265 | accepts if and only if every name is good, none comes twice and no file is above a named path; the result is the named entries and the missing directories above them, canonical and sorted by path |
| WorkspaceCanonical.SortedLists | internal/content/workspacearchive/archive.go:41-93 | sorted by path, directories come before what is in them |
| WorkspaceCanonical.SameTreeIff | internal/content/workspacearchive/archive.go:216-265 | the canonical tree is the tree itself exactly when its modes are the two the archive keeps |
| WorkspaceCanonical.SnapshotAndRestore | internal/adapter/opensandbox/client.go:282-400 | archive, encode, decode, restore: a portable workspace comes back with its permissions made canonical, over any contents that can be cleared; and the very same tree comes back if and only if the old contents can be cleared, the tree is portable and its permissions were canonical |
| WorkspaceCanonical.ArchivePathIs | internal/content/workspacearchive/archive.go:267-287 | a path is accepted, as this name, if and only if the name is made of parts without slash and backslash, none of them empty, `.` or `..`, and the path is the name, possibly after `./` and, for a directory, before a slash |
| WorkspaceCanonical.RootIs | internal/content/workspacearchive/archive.go:267-273 | it names the root if and only if it is nothing or a dot, or, for a directory, a slash or `./` |
| WorkspaceCanonical.KindOfPermissions | internal/content/workspacearchive/archive.go:236-242 | whatever its permission bits, a file that anyone may execute is kept as 0755, any other as 0644, and a directory as 0755 |
| WorkspaceCanonical.PrivateFileChanges | internal/content/workspacearchive/archive.go:236-242 | a portable tree with a 0600 file, which comes back as 0644 |
| WorkspaceCanonical.TrailingBlankIsLost | internal/adapter/opensandbox/client.go:453-464 | a canonical tree that is readable but not portable, because a name ends in a blank: that name is listed with it and read back without it, and the entry so read builds a tree with the shorter name |
| UsageSessions.OneOpenSession | internal/adapter/postgres/environment_learning_repository.go:155-197 | in every run, whatever the clocks say, no environment has two open sessions |
| UsageSessions.FitIsLostIff | internal/adapter/postgres/environment_learning_repository.go:185-340 | step fact: where the sessions of each environment are intervals one after the other, a step breaks this if and only if its clock is behind the table: it opens a session before the end of one the environment has had, or ends one before its start |
| UsageSessions.FitsThroughoutIff | internal/adapter/postgres/environment_learning_repository.go:155-340 | the sessions are such intervals all along a run if and only if no step of it is behind |
| UsageSessions.TimelySkewsNone | internal/adapter/postgres/environment_learning_repository.go:155-340 | no step is behind in a run whose times never decrease |
| UsageSessions.CountedOnce | internal/adapter/postgres/environment_learning_repository.go:270-308 | in a run in which no step is behind, no instant of an environment lies in two of its sessions, whenever it is counted |
| UsageSessions.LearningTimeIsBounded | internal/adapter/postgres/environment_learning_repository.go:375-383 | in such a run the exact lengths of an environment's sessions sum to no more than the time since its first began |
| UsageSessions.VisitIsCounted | internal/adapter/postgres/environment_learning_repository.go:155-308 | in every run a visit to an environment nobody is in adds exactly one session, from its connection to its finish |
| UsageSessions.SkewOverlaps | internal/adapter/postgres/environment_learning_repository.go:187-194 | the concrete run with a step that is behind: two sessions of one environment overlap |
| UsageSessions.CoverIsLostIff | internal/adapter/postgres/environment_learning_repository.go:185-196 | a step leaves a connected environment without a session if and only if it opens a connection while none is open and the identity of that very instant is taken |
| UsageSessions.AlwaysCovered | internal/adapter/postgres/environment_learning_repository.go:155-340 | in a run without such a step every connected environment has its session, always |
| UsageSessions.DistinctTimesLoseNone | internal/adapter/postgres/environment_learning_repository.go:187 | when no two events share an instant there is no such step |
| UsageSessions.LossHappens | internal/adapter/postgres/environment_learning_repository.go:187-196 | the concrete run in which there is |
| UsageSessions.CleanupIsExact | internal/adapter/postgres/environment_learning_repository.go:312-340 | right after a cleanup an environment has an open session exactly when something is connected to it |
| GenerationProgress.ClaimLasts | internal/adapter/postgres/generation_repository.go:149-175 | step fact: accepted exactly on a claimable workflow; the claim passes until its time is up, to the instant, and until then nobody else may claim |
| GenerationProgress.RenewalLasts | internal/adapter/postgres/generation_repository.go:177-189 | step fact: accepted exactly from a claim that passes, which then passes until the new time is up |
| GenerationProgress.OldestFirst | internal/adapter/postgres/generation_repository.go:149-175 | step fact: what is claimed first was due first; at one time, created first |
| GenerationProgress.RunStarts | internal/adapter/postgres/generation_repository.go:237-266 | step fact: the judge's run is a first attempt of this workflow; an earlier one still running is over |
| GenerationProgress.RetriesIff | internal/adapter/postgres/generation_repository.go:268-308 | step fact: accepted exactly from the claim that passes, for its own run |
| GenerationProgress.RetryDecides | internal/adapter/postgres/generation_repository.go:268-308 | step fact: another attempt below five and before the deadline; otherwise the run and the workflow fail, with the message |
| GenerationProgress.StopFrees | internal/adapter/postgres/generation_repository.go:310-320 | step fact: after a server stop every judging workflow is nobody's and waits to be claimed from that instant |
| GenerationProgress.StopInterrupts | internal/adapter/postgres/generation_repository.go:310-320 | step fact: exactly the running runs that judging workflows name are interrupted |
| GenerationProgress.JudgementDecides | internal/adapter/postgres/generation_repository.go:414-452 | step fact: accepted exactly from the passing claim with its running run; an approval sends the workflow to be built, a refusal back to its author with the feedback; the verdict is recorded |
| GenerationProgress.RejectionReturns | internal/adapter/postgres/generation_repository.go:809-836 | step fact: the workflow goes back to its author with the failure's summary, the candidate keeps the failure |
| GenerationProgress.StartsIff | internal/adapter/postgres/generation_repository.go:39-100 | step fact: a new workflow starts exactly for the well-formed plan its owner has under review |
| GenerationProgress.SubmitsIff | internal/adapter/postgres/generation_repository.go:351-412 | step fact: accepted exactly from the owner holding the workspace's turn, while the workflow is generating |
| GenerationProgress.SubmissionStarts | internal/adapter/postgres/generation_repository.go:351-412 | step fact: the content becomes a candidate after the one before it, as the repair of its error; it waits to be judged, the turn ends, the snapshot is dropped |
| GenerationProgress.ConfirmationReserves | internal/adapter/postgres/generation_repository.go:597-661 | step fact: accepted exactly for the candidate under review while its scenario stands open; reserves the next revision of it, or the first of a new one |
| GenerationProgress.ChangesReturn | internal/adapter/postgres/generation_repository.go:663-702 | step fact: accepted exactly for the candidate under review; the workflow goes back with the request |
| GenerationProgress.CancelsIff | internal/adapter/postgres/generation_repository.go:838-877 | step fact: accepted exactly from the owner while the workflow has not ended |
| GenerationProgress.MaterializationAdvances | internal/adapter/postgres/generation_repository.go:505-539 | step fact: accepted exactly with a revision of the candidate and its content; the workflow waits to be verified |
| GenerationProgress.VerificationDecides | internal/adapter/postgres/generation_repository.go:541-595 | step fact: accepted exactly with a report on the candidate's revision; a pass brings it before the author and reveals its plan, a failure sends it back |
| GenerationProgress.GivingUpEnds | internal/adapter/postgres/generation_repository.go:478-493 | step fact: accepted exactly while building or verifying; the workflow fails |
| GenerationProgress.FinalizerFailureDecides | internal/adapter/postgres/generation_repository.go:725-748 | step fact: a transient failure waits until the time given, a deterministic one ends the workflow |
| GenerationProgress.PublicationTakesEffect | internal/adapter/postgres/generation_repository.go:750-807 | step fact: the reserved revision is the scenario's active one, the scenario its author's, the workflow and session published |
| GenerationProgress.SessionOpens | internal/adapter/postgres/authoring_repository.go:27-45 | step fact: a session opens once, with nothing to generate |
| GenerationProgress.PlanIsReviewed | internal/adapter/postgres/authoring_repository.go:627-718 | step fact: a plan finished on the current revision is the next one, under review |
| GenerationProgress.ReopensIff | internal/adapter/postgres/authoring_repository.go:47-94 | step fact: accepted exactly from the owner of an active authored scenario; the session remembers the active revision |
| GenerationProgress.HidesIff | internal/adapter/postgres/scenario_repository.go:111-158 | step fact: accepted exactly from the owner of an active authored scenario; nothing but its state changes |
| GenerationProgress.RecordsAreWrittenOnce | internal/adapter/postgres/runnable_repository.go:639-805 | step fact: runs are ended by others once, runnable records written once |
| GenerationSpaces.ProvisionsIff | internal/adapter/postgres/generation_workspace_repository.go:14-49 | step fact: a row is inserted exactly when its identity and volume are new and its workflow has no current workspace, which otherwise answers |
| GenerationSpaces.ProvisionReplays | internal/adapter/postgres/generation_workspace_repository.go:14-49 | step fact: a row inserted before answers to its own workflow and volume only |
| GenerationSpaces.TurnIsTaken | internal/adapter/postgres/generation_workspace_repository.go:69-101 | step fact: taken exactly when nobody else holds it; then held and not idle |
| GenerationSpaces.TurnEnds | internal/adapter/postgres/generation_workspace_repository.go:103-116 | step fact: ended exactly by its holder |
| GenerationSpaces.NothingToTake | internal/adapter/postgres/generation_workspace_repository.go:69-116 | step fact: without an active workspace nothing is taken or ended |
| GenerationSpaces.SandboxIsKept | internal/adapter/postgres/generation_workspace_repository.go:141-187 | step fact: a sandbox once given is not exchanged |
| GenerationSpaces.CleanupEnds | internal/adapter/postgres/generation_workspace_repository.go:189-304 | step fact: cleaning up takes the workspace from everybody; a row is deleted only after it |
| GenerationSpaces.CurrentIsRetired | internal/adapter/postgres/generation_workspace_repository.go:220-248 | step fact: exactly the workflow's current workspace is retired |
| GenerationSpaces.IncompleteAreRetired | internal/adapter/postgres/generation_workspace_repository.go:253-287 | step fact: exactly the current workspaces of workflows that have not ended are retired |
| GenerationSpaces.SnapshotIsTaken | internal/adapter/postgres/generation_workspace_repository.go:362-403 | step fact: taken exactly when the workspace is free and its snapshot is not current |
| GenerationSpaces.SnapshotIsPublished | internal/adapter/postgres/generation_workspace_repository.go:408-456 | step fact: accepted exactly from the holder; the workspace is free and idle from now, or still from before when the content is the same |
| GenerationSpaces.SnapshotIsDropped | internal/adapter/postgres/generation_workspace_repository.go:460-496 | step fact: exactly the expected snapshot is dropped, with the idle time |
| GenerationSpaces.RetiresIdleIff | internal/adapter/postgres/generation_workspace_repository.go:500-545 | step fact: retired exactly when active, free, idle long enough and saved as expected |
| RunnableTheorems.LeaseLasts | internal/adapter/postgres/runnable_repository.go:227-276 | step fact: a claim or renewal is live until its time is up, to the instant; from then on anyone may claim |
| RunnableTheorems.LiveCredential | internal/adapter/postgres/runnable_repository.go:36-527 | step fact: with a live lease each of the owner's requests is granted exactly under its own conditions |
| RunnableTheorems.OldestFirst | internal/adapter/postgres/runnable_repository.go:227-262 | step fact: what is claimed first was due first; at one time, created first |
| RunnableTheorems.SchedulingStarts | internal/adapter/postgres/runnable_repository.go:102-225 | step fact: a new action, or one the infrastructure gave up on, starts over and waits from now; any other is left alone |
| RunnableTheorems.StoredIsEveryOne | internal/adapter/postgres/runnable_repository.go:807-844 | step fact: the check of a report's outputs covers every capture of every action and assertion of every phase |
| ReapQueue.ClaimLasts | internal/adapter/postgres/runnable_repository.go:918-955 | step fact: accepted exactly on a due reap; the claim, and no other, holds until its time is up, to the instant |
| ReapQueue.ReportDecides | internal/adapter/postgres/runnable_repository.go:957-988 | step fact: accepted exactly while the claim holds; success ends the reap for good, failure makes it wait until the time named |
| ReapQueue.OldestFirst | internal/adapter/postgres/runnable_repository.go:918-955 | step fact: what is claimed first was due first; at one time, created first |
| AuthoringTheorems.EditIsStaged | internal/adapter/postgres/authoring_repository.go:360-391 | step fact: an edit puts its plan and its change into the stage and its record, announcing the next revision |
| AuthoringTheorems.RetryDecides | internal/adapter/postgres/agent_repository.go:303-347 | step fact: another attempt below five and in time; otherwise the run has failed |
| AuthoringTheorems.OthersEndRuns | internal/adapter/postgres/agent_repository.go:286-428 | step fact: others end a run while it runs, and never with success |
| CatalogRoad.CreatedOnce | internal/adapter/postgres/catalog_repository.go:41-70 | step fact: a release is created once, pending |
| CatalogRoad.InstallReplays | internal/adapter/postgres/catalog_repository.go:72-146 | step fact: installing again answers how far the release is, or refuses another source |
| CatalogRoad.SourceFailureDecides | internal/adapter/postgres/catalog_repository.go:148-181 | step fact: the fifth failed fetch ends the release |
| CatalogRoad.FailureEnds | internal/adapter/postgres/catalog_repository.go:183-249 | step fact: a release is given up exactly until it has ended |
| CatalogRoad.EntryIsBuilt | internal/adapter/postgres/catalog_repository.go:311-345 | step fact: accepted exactly with a revision of this entry and its content while the release installs |
| CatalogRoad.EntryIsVerified | internal/adapter/postgres/catalog_repository.go:347-381 | step fact: accepted exactly with a passing report on that revision |
| CatalogRoad.EntryReplays | internal/adapter/postgres/catalog_repository.go:311-381 | step fact: the same again changes nothing, anything else is refused |
| CatalogRoad.CommitIsBuilt | internal/adapter/postgres/catalog_repository.go:501-521 | step fact: materialized once, by its own release; the same directory again changes nothing |
| UsageSessions.OpenConnects | internal/adapter/postgres/environment_learning_repository.go:155-197 | step fact: a connection opens under a fresh identity |
| UsageSessions.OpenCounts | internal/adapter/postgres/environment_learning_repository.go:185-196 | step fact: it opens a session exactly when the environment has none open and none that began at that instant |
| UsageSessions.TouchBeats | internal/adapter/postgres/environment_learning_repository.go:199-227 | step fact: a beat of a live connection beats its environment's open session, and nothing else |
| UsageSessions.CloseAnswers | internal/adapter/postgres/environment_learning_repository.go:232-265 | step fact: a connection is closed once; true is answered exactly when nothing is connected to its environment afterwards |
| UsageSessions.FinishEnds | internal/adapter/postgres/environment_learning_repository.go:270-308 | step fact: the open session ends exactly when nothing is connected |
| UsageSessions.CleanupEnds | internal/adapter/postgres/environment_learning_repository.go:312-340 | step fact: exactly stale connections are closed, and exactly the sessions they leave behind ended |
| UsageSessions.DeleteIsExact | internal/adapter/postgres/environment_learning_repository.go:345-356 | step fact: exactly the chosen closed connections are deleted |
| GenerationRepository.Repository.Create | internal/adapter/postgres/generation_repository.go:39-100 | connector: the transaction, with its receipt and its reuse of the plan's workflow, equals its function; the invariant is kept |
| GenerationRepository.Repository.ClaimAgentWorkflow | internal/adapter/postgres/generation_repository.go:149-175 | connector: claims the first claimable unlocked row in queue order, if there is any |
| GenerationRepository.Repository.Renew | internal/adapter/postgres/generation_repository.go:177-189 | connector: equals its function: only a claim that passes is extended |
| GenerationRepository.Repository.StartAgentRun | internal/adapter/postgres/generation_repository.go:237-266 | connector: equals its function |
| GenerationRepository.Repository.RetryAgentRun | internal/adapter/postgres/generation_repository.go:268-308 | connector: equals its function: another attempt, or Failed when the attempts are exhausted or the deadline has passed |
| GenerationRepository.Repository.InterruptActiveAgentRuns | internal/adapter/postgres/generation_repository.go:310-320 | connector: the two updates, row after row: the running runs that judging workflows name, then the judging workflows themselves, equal the two functions in a row |
| GenerationRepository.Repository.Submit | internal/adapter/postgres/generation_repository.go:351-412 | connector: equals its function: candidate, released turn, dropped snapshot and receipt together or none of them |
| GenerationRepository.Repository.FinalizeJudgement | internal/adapter/postgres/generation_repository.go:414-452 | connector: equals its function |
| GenerationRepository.Repository.ReportArtifactFailure | internal/adapter/postgres/generation_repository.go:809-836 | connector: equals its function |
| GenerationRepository.Repository.FailRunnable | internal/adapter/postgres/generation_repository.go:478-493 | connector: equals its function |
| GenerationRepository.Repository.MarkMaterialized | internal/adapter/postgres/generation_repository.go:505-539 | connector: equals its function: the spec must name the candidate and its content |
| GenerationRepository.Repository.MarkVerified | internal/adapter/postgres/generation_repository.go:541-595 | connector: equals its function: a failed report sends the workflow back with feedback |
| GenerationRepository.Repository.ConfirmContent | internal/adapter/postgres/generation_repository.go:597-661 | connector: equals its function: the publication is reserved before the workflow moves on |
| GenerationRepository.Repository.RequestContentChanges | internal/adapter/postgres/generation_repository.go:663-702 | connector: equals its function |
| GenerationRepository.Repository.Cancel | internal/adapter/postgres/generation_repository.go:838-877 | connector: equals its function |
| GenerationRepository.Repository.RecordFinalizerFailure | internal/adapter/postgres/generation_repository.go:725-748 | connector: equals its function: a deterministic failure ends the workflow without raising its version |
| GenerationRepository.Repository.FinalizePublication | internal/adapter/postgres/generation_repository.go:750-807 | connector: equals its function: compare-and-swap of the scenario's active revision, all or nothing |
| GenerationRepository.Repository.CreateWorkspace | internal/adapter/postgres/generation_workspace_repository.go:14-49 | connector: equals its function: a refused insert must find the caller's own row |
| GenerationRepository.Repository.AcquireTurn | internal/adapter/postgres/generation_workspace_repository.go:69-101 | connector: equals its function |
| GenerationRepository.Repository.ReleaseTurn | internal/adapter/postgres/generation_workspace_repository.go:103-116 | connector: equals its function |
| GenerationRepository.Repository.RecordSandbox | internal/adapter/postgres/generation_workspace_repository.go:141-163 | connector: equals its function |
| GenerationRepository.Repository.ActivateWorkspace | internal/adapter/postgres/generation_workspace_repository.go:165-187 | connector: equals its function |
| GenerationRepository.Repository.BeginCleanup | internal/adapter/postgres/generation_workspace_repository.go:189-218 | connector: equals its function |
| GenerationRepository.Repository.RetireCurrent | internal/adapter/postgres/generation_workspace_repository.go:220-248 | connector: equals its function |
| GenerationRepository.Repository.RetireIncomplete | internal/adapter/postgres/generation_workspace_repository.go:253-287 | connector: the loop over the incomplete rows changes exactly those, each once |
| GenerationRepository.Repository.MarkDeleted | internal/adapter/postgres/generation_workspace_repository.go:289-304 | connector: equals its function |
| GenerationRepository.Repository.AcquireSnapshot | internal/adapter/postgres/generation_workspace_repository.go:362-403 | connector: equals its function |
| GenerationRepository.Repository.PublishSnapshot | internal/adapter/postgres/generation_workspace_repository.go:408-456 | connector: equals its function |
| GenerationRepository.Repository.ClearSnapshot | internal/adapter/postgres/generation_workspace_repository.go:460-496 | connector: equals its function |
| GenerationRepository.Repository.RetireIdle | internal/adapter/postgres/generation_workspace_repository.go:500-545 | connector: equals its function |
| RunnableRepository.Repository.ScheduleMaterialization | internal/adapter/postgres/runnable_repository.go:113-136 | connector: equals its function |
| RunnableRepository.Repository.ScheduleVerification | internal/adapter/postgres/runnable_repository.go:204-225 | connector: equals its function |
| RunnableRepository.Repository.Claim | internal/adapter/postgres/runnable_repository.go:227-262 | connector: claims the first claimable unlocked row in queue order, if there is any |
| RunnableRepository.Repository.Renew | internal/adapter/postgres/runnable_repository.go:264-276 | connector: equals its function |
| RunnableRepository.Repository.StoreOutput | internal/adapter/postgres/runnable_repository.go:36-74 | connector: equals its function |
| RunnableRepository.Repository.ReportFailure | internal/adapter/postgres/runnable_repository.go:284-324 | connector: equals its function |
| RunnableRepository.Repository.CompleteMaterialization | internal/adapter/postgres/runnable_repository.go:326-391 | connector: equals its function |
| RunnableRepository.Repository.ReportStored | internal/adapter/postgres/runnable_repository.go:807-844 | connector: the nested loops accept exactly the reports all of whose references are stored |
| RunnableRepository.Repository.CompleteVerification | internal/adapter/postgres/runnable_repository.go:483-527 | connector: equals its function |
| ReapQueue.Repository.Enqueue | internal/adapter/postgres/runnable_repository.go:875-902 | connector: equals its function |
| ReapQueue.Repository.ClaimFirst | internal/adapter/postgres/runnable_repository.go:918-955 | connector: claims the first due unlocked row in queue order, if there is any |
| ReapQueue.Repository.Complete | internal/adapter/postgres/runnable_repository.go:957-988 | connector: equals its function |
| AuthoringRepository.Repository.StartRun | internal/adapter/postgres/authoring_repository.go:219-299 | connector: equals its function; the invariant is kept |
| AuthoringRepository.Repository.UpdateStage | internal/adapter/postgres/authoring_repository.go:326-391 | connector: equals its function |
| AuthoringRepository.Repository.FinalizeRun | internal/adapter/postgres/authoring_repository.go:393-480 | connector: equals its function, replay included |
| AuthoringRepository.Repository.TerminateRun | internal/adapter/postgres/authoring_repository.go:515-586 | connector: equals its function |
| AuthoringRepository.Repository.ReplacePlan | internal/adapter/postgres/authoring_repository.go:588-622 | connector: equals its function |
| AuthoringRepository.Repository.SavePlan | internal/adapter/postgres/authoring_repository.go:627-718 | connector: equals its function, replay included |
| CatalogRepository.Repository.CreateOrGet | internal/adapter/postgres/catalog_repository.go:41-70 | connector: equals its function; the invariant is kept |
| CatalogRepository.Repository.Initialize | internal/adapter/postgres/catalog_repository.go:72-146 | connector: equals its function: duplicates refused, all entries inserted or none |
| CatalogRepository.Repository.ReportSourceInfrastructureFailure | internal/adapter/postgres/catalog_repository.go:148-181 | connector: equals its function: the fifth failed attempt ends the release |
| CatalogRepository.Repository.Fail | internal/adapter/postgres/catalog_repository.go:183-208 | connector: equals its function |
| CatalogRepository.Repository.RecordFailure | internal/adapter/postgres/catalog_repository.go:210-249 | connector: equals its function |
| CatalogRepository.Repository.EntryMaterialized | internal/adapter/postgres/catalog_repository.go:311-345 | connector: equals its function |
| CatalogRepository.Repository.EntryVerified | internal/adapter/postgres/catalog_repository.go:347-381 | connector: equals its function |
| CatalogRepository.Repository.Prepare | internal/adapter/postgres/catalog_repository.go:421-495 | connector: the loops over entries and intents with their seen-map equal its function |
| CatalogRepository.Repository.CommitMaterialized | internal/adapter/postgres/catalog_repository.go:501-521 | connector: equals its function |
| CatalogRepository.Repository.CompleteRelease | internal/adapter/postgres/catalog_repository.go:523-605 | connector: the publishing loop, in the order the query lists the commits, equals its function; a refusal half way leaves the tables as they were |
| NodeReset.Client.DeleteNodeEnvironment | internal/adapter/incus/environment.go:157-214 | connector: the deletion, call by call under any script of faults, equals `Wipe` |
| NodeReset.Client.ProvisionNodeEnvironment | internal/adapter/incus/environment.go:35-99 | connector: the provisioning, call by call, equals executing the building calls |
| NodeReset.Client.ResetNode | internal/adapter/runnableprovider/environment_provider.go:90-106 | connector: wipe, then rebuild, equals `Reset` |
| NamespaceReset.Provider.DeleteEnvironment | internal/adapter/kubernetes/vk8s_environment.go:171-203 | connector: the deletion, with anything happening between its calls, equals `Delete` |
| NamespaceReset.Provider.ProvisionEnvironment | internal/adapter/kubernetes/vk8s_environment.go:216-251 | connector: finding or creating the namespace and filling it equals `Provision` |
| NamespaceReset.Provider.ResetEnvironment | internal/adapter/runnableprovider/environment_provider.go:107-118 | connector: waits or rebuilds, equals `Reset` |
| UsageSessions.Repository.OpenTerminalConnection | internal/adapter/postgres/environment_learning_repository.go:155-197 | connector: equals its function |
| UsageSessions.Repository.TouchTerminalConnection | internal/adapter/postgres/environment_learning_repository.go:199-227 | connector: equals its function |
| UsageSessions.Repository.CloseTerminalConnection | internal/adapter/postgres/environment_learning_repository.go:232-265 | connector: equals its function |
| UsageSessions.Repository.FinishTerminalUsageSession | internal/adapter/postgres/environment_learning_repository.go:270-308 | connector: equals its function |
| UsageSessions.Repository.CleanupTerminalActivity | internal/adapter/postgres/environment_learning_repository.go:312-340 | connector: equals its function |
| UsageSessions.Repository.DeleteClosedTerminalConnections | internal/adapter/postgres/environment_learning_repository.go:345-356 | connector: the rows deleted one after the other are exactly the closed ones chosen |

## Left out

- Format checks on arguments (blank identifiers, digest and slug syntax, zero times) that refuse a request before a transaction begins; arguments are typed instead. Checks that decide between answers (empty feedback, empty title, a plan that is not fit for generation) are modelled.
- Identities are opaque numbers. Where their text matters, in the order of retained paths, the way they are written is a parameter: never alike, and without a slash.
- Text, titles, tags, timestamps that nothing compares, progress events and audit rows.
- Digests are taken as injective and random names as never repeating; hashing, JSON, gzip and tar bytes are not modelled.
- Transactions are serializable steps; read-committed anomalies and statement retries are not modelled. `FOR UPDATE SKIP LOCKED` is a set of rows the caller says are locked.
- Which refusal a transaction answers with is kept apart as far as the callers do; different messages for one refusal are one error. A refusal in the middle of a loop (a duplicate commit intent, a violated unique index) is one Constraint error.
- Generation: re-claiming a lease under the same owner name does not happen, because owner names are drawn at random; listing queries and context loading only read.
- Generation: run deadlines are stored, and the watchdog that ends a run past its deadline is one of the writers that may end a run at any time.
- Runnable specs are part of their revisions; the separate spec table is not modelled.
- Runnable actions: the digest columns are compared, the stored specs and reports behind them are opaque.
- Bind: works on characters; bytes that are no valid UTF-8, which the code replaces by U+FFFD outside comments, are not part of this model.
- Catalog: a release's name and version are one source identity; the retry delay after a source failure is not modelled.
- Catalog entries and generation candidates have their own views of the runnable tables, since their records never meet.
- Authoring: the agent's messages and completions are recorded as opaque content.
- NodeReset: owner and policy checks on found resources always pass, since all resources of an environment are made by the same code from the same immutable revision; picking the subnet is modelled apart, in `Subnets`.
- NodeReset: an operation the provider goes on with after the client stopped waiting is taken to have ended, or come to nothing, by the next call.
- NodeReset: the branch of Reset for a not-found error of the provider is unreachable with this client, whose own not-found error is another value.
- NodeReset and NamespaceReset: provision and reset are serialized for each environment, and the generations asked for never go back; in NamespaceReset an environment whose release has begun is neither provisioned nor reset again, as the controller sees to.
- NamespaceReset: what is put in a namespace is a list of parts; readiness of the control plane, kubeconfig and terminal is not modelled.
- NamespaceReset.ProgressIsKept: only a namespace's deletion may take effect after its call has failed. The deletion of the virtual cluster names no uid, so a late one could reach the cluster of the rebuilt namespace; a deletion of the cluster takes effect during its call or never.
- Workspace: reads and writes racing with an archive are excluded by holding the turn; file contents are opaque.
- UsageSessions: which connections are stale, or old enough to delete, is decided on the text of a time, so any may be; the rounding of each interval to whole seconds is not modelled.
- UsageSessions: attempts, progress and history queries only read or insert once, and are not modelled.
- Terminal tickets, documentation links, identity and reporting: easy members that would add nothing.
