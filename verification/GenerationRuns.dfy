/** Arbitrary runs: any interleaving of the transactions, at any instants, with any arguments. */
module GenerationRuns {
  import opened Base
  import opened Scenarios
  import opened Generation
  import opened GenerationInvariants
  import opened GenerationSteps
  import opened GenerationPublication

  /** The writers of the tables a workflow reads: sessions, plans, runs, runnable records, the catalog. */
  datatype WriterOp =
    | OpenSession(id: Id, user: Id)
    | ReopenScenario(id: Id, user: Id, scenario: Id)
    | FinishPlan(session: Id, expected: nat, wellFormed: bool)
    | StopRun(run: Id, status: RunStatus)
    | AddRunnable(id: Id, runnable: RunnableRow)
    | AddReport(id: Id, report: ReportRow)
    | HideScenario(user: Id, scenario: Id)
    | AddRelease(c: Id, released: Scenario, r: Id, revision: Revision)

  /** The judge, the builder, the finalizer and the server's own stop. */
  datatype AgentOp =
    | Claims(id: Id, owner: Id, ttl: Time, now: Time)
    | Renews(claim: Claim, ttl: Time, now: Time)
    | StartsRun(claim: Claim, run: Id, deadline: Time, now: Time)
    | RetriesRun(claim: Claim, run: Id, message: string, now: Time)
    | Judges(claim: Claim, run: Id, approved: bool, feedback: string, now: Time)
    | Rejects(claim: Claim, failure: Failure, now: Time)
    | StopsRuns
    | Releases(now: Time)
    | GivesUp(workflow: Id, message: string)
    | Materializes(workflow: Id, runnableRef: RunnableRef, now: Time)
    | Verifies(workflow: Id, reportRef: ReportRef, now: Time)
    | FailsToPublish(workflow: Id, candidate: Id, diagnostic: Diagnostic)
    | Publishes(workflow: Id, candidate: Id, content: Id, materialized: Id, now: Time)

  /** What the author asks for. */
  datatype AuthorOp =
    | Starts(session: Id, user: Id, plan: nat, key: Id, newId: Id, now: Time)
    | Submits(session: Id, user: Id, key: Id, workflow: Id, turn: Id, candidate: Id, judgeRun: Option<Id>, content: Id, now: Time)
    | Confirms(session: Id, user: Id, key: Id, workflow: Id, candidate: Id, names: Names, title: string, now: Time)
    | AsksChanges(session: Id, user: Id, key: Id, workflow: Id, candidate: Id, feedback: string, now: Time)
    | Cancels(session: Id, user: Id, key: Id, workflow: Id)

  /** The workspace manager, the snapshot taker and the reaper. */
  datatype SpaceOp =
    | Provisions(id: Id, row: Workspace)
    | TakesTurn(workflow: Id, turn: Id)
    | EndsTurn(workflow: Id, turn: Id)
    | NamesSandbox(id: Id, sandbox: Id)
    | Activates(id: Id, sandbox: Id)
    | CleansUp(id: Id)
    | RetiresCurrent(workflow: Id)
    | RetiresIncomplete
    | Deletes(id: Id)
    | TakesSnapshot(workflow: Id, holder: Id)
    | Saves(id: Id, holder: Id, digest: Id, now: Time)
    | DropsSnapshot(workflow: Id, expected: Id)
    | RetiresIdle(id: Id, expected: Id, staleBefore: Time)

  datatype Op = Writer(w: WriterOp) | Agent(a: AgentOp) | Author(u: AuthorOp) | Space(p: SpaceOp)

  function NextWriter(s: State, op: WriterOp): State {
    match op
    case OpenSession(id, user) => CreateSession(s, id, user).after
    case ReopenScenario(id, user, scenario) => CreateRevisionSession(s, id, user, scenario).after
    case FinishPlan(session, expected, wellFormed) => SavePlan(s, session, expected, wellFormed).after
    case StopRun(run, status) => EndRun(s, run, status).after
    case AddRunnable(id, row) => StoreRunnable(s, id, row).after
    case AddReport(id, row) => StoreReport(s, id, row).after
    case HideScenario(user, scenario) => DeprecateScenario(s, user, scenario).after
    case AddRelease(c, scenario, r, revision) => ImportRelease(s, c, scenario, r, revision).after
  }

  /** A claim draws a random owner name; a name that was drawn before is never drawn again. */
  function NextAgent(s: State, op: AgentOp): State {
    match op
    case Claims(id, owner, ttl, now) => if owner in s.issued then s else ClaimWorkflow(s, id, owner, ttl, now).after
    case Renews(claim, ttl, now) => RenewLease(s, claim, ttl, now).after
    case StartsRun(claim, run, deadline, now) => StartAgentRun(s, claim, run, deadline, now).after
    case RetriesRun(claim, run, message, now) => RetryAgentRun(s, claim, run, message, now).after
    case Judges(claim, run, approved, feedback, now) => FinalizeJudgement(s, claim, run, approved, feedback, now).after
    case Rejects(claim, failure, now) => ReportArtifactFailure(s, claim, failure, now).after
    case StopsRuns => InterruptJudgeRuns(s).after
    case Releases(now) => ReleaseJudging(s, now).after
    case GivesUp(workflow, message) => FailRunnable(s, workflow, message).after
    case Materializes(workflow, ref, now) => MarkMaterialized(s, workflow, ref, now).after
    case Verifies(workflow, ref, now) => MarkVerified(s, workflow, ref, now).after
    case FailsToPublish(workflow, candidate, diagnostic) => RecordFinalizerFailure(s, workflow, candidate, diagnostic).after
    case Publishes(workflow, candidate, content, materialized, now) =>
      FinalizePublication(s, workflow, candidate, content, materialized, now).after
  }

  ghost function NextAuthor(s: State, op: AuthorOp): State {
    match op
    case Starts(session, user, plan, key, newId, now) => CreateWorkflow(s, session, user, plan, key, newId, now).after
    case Submits(session, user, key, workflow, turn, candidate, judgeRun, content, now) =>
      Submit(s, session, user, key, workflow, turn, candidate, judgeRun, content, now).after
    case Confirms(session, user, key, workflow, candidate, names, title, now) =>
      ConfirmReview(s, session, user, key, workflow, candidate, names, title, now).after
    case AsksChanges(session, user, key, workflow, candidate, feedback, now) =>
      RequestChanges(s, session, user, key, workflow, candidate, feedback, now).after
    case Cancels(session, user, key, workflow) => CancelWorkflow(s, session, user, key, workflow).after
  }

  ghost function NextSpace(s: State, op: SpaceOp): State {
    match op
    case Provisions(id, row) => CreateWorkspace(s, id, row).after
    case TakesTurn(workflow, turn) => AcquireTurn(s, workflow, turn).after
    case EndsTurn(workflow, turn) => ReleaseTurn(s, workflow, turn).after
    case NamesSandbox(id, sandbox) => RecordSandbox(s, id, sandbox).after
    case Activates(id, sandbox) => ActivateWorkspace(s, id, sandbox).after
    case CleansUp(id) => BeginCleanup(s, id).after
    case RetiresCurrent(workflow) => RetireCurrent(s, workflow).after
    case RetiresIncomplete => RetireIncomplete(s).after
    case Deletes(id) => MarkDeleted(s, id).after
    case TakesSnapshot(workflow, holder) => AcquireSnapshot(s, workflow, holder).after
    case Saves(id, holder, digest, now) => PublishSnapshot(s, id, holder, digest, now).after
    case DropsSnapshot(workflow, expected) => ClearSnapshot(s, workflow, expected).after
    case RetiresIdle(id, expected, staleBefore) => RetireIdle(s, id, expected, staleBefore).after
  }

  ghost function Next(s: State, op: Op): State {
    match op
    case Writer(w) => NextWriter(s, w)
    case Agent(a) => NextAgent(s, a)
    case Author(u) => NextAuthor(s, u)
    case Space(p) => NextSpace(s, p)
  }

  ghost function After(s: State, ops: seq<Op>): State {
    if ops == [] then s else Next(After(s, ops[..|ops| - 1]), ops[|ops| - 1])
  }

  ghost function Reached(ops: seq<Op>): State { After(Empty, ops) }

  // ---- Which tables a step writes ----

  lemma WriterWrites(s: State, op: WriterOp)
    ensures var t := NextWriter(s, op);
            t == s || t == s.(sessions := t.sessions, plans := t.plans, runs := t.runs, runnables := t.runnables, reports := t.reports, pub := t.pub)
  {
    hide PublishFirst, Deprecate;
  }

  lemma SpaceWrites(s: State, op: SpaceOp)
    ensures var t := NextSpace(s, op);
            t == s || t == s.(workspaces := t.workspaces, snapshots := t.snapshots, saved := t.saved)
  {
    hide Provisioned, FoundWorkspace, ActiveWorkspace, CurrentWorkspace, Clashes;
  }

  // ---- Every step is sound ----

  lemma WriterSound(s: State, op: WriterOp)
    requires Inv(s)
    ensures Sound(s, NextWriter(s, op))
  {
    hide Inv, Sound, CreateSession, CreateRevisionSession, SavePlan, EndRun, StoreRunnable, StoreReport, DeprecateScenario, ImportRelease;
    match op
    case OpenSession(id, user) => CreateSessionKeeps(s, id, user);
    case ReopenScenario(id, user, scenario) => CreateRevisionSessionKeeps(s, id, user, scenario);
    case FinishPlan(session, expected, wellFormed) => SavePlanKeeps(s, session, expected, wellFormed);
    case StopRun(run, status) => EndRunKeeps(s, run, status);
    case AddRunnable(id, row) => StoreRunnableKeeps(s, id, row);
    case AddReport(id, row) => StoreReportKeeps(s, id, row);
    case HideScenario(user, scenario) => DeprecateScenarioKeeps(s, user, scenario);
    case AddRelease(c, scenario, r, revision) => ImportReleaseKeeps(s, c, scenario, r, revision);
  }

  lemma AgentSound(s: State, op: AgentOp)
    requires Inv(s)
    ensures Sound(s, NextAgent(s, op))
  {
    hide Inv, Sound, ClaimWorkflow, RenewLease, StartAgentRun, RetryAgentRun, FinalizeJudgement, ReportArtifactFailure,
      InterruptJudgeRuns, ReleaseJudging, FailRunnable, MarkMaterialized, MarkVerified, RecordFinalizerFailure, FinalizePublication;
    match op
    case Claims(id, owner, ttl, now) => if owner in s.issued { Stays(s); } else { ClaimKeeps(s, id, owner, ttl, now); }
    case Renews(claim, ttl, now) => RenewKeeps(s, claim, ttl, now);
    case StartsRun(claim, run, deadline, now) => StartAgentRunKeeps(s, claim, run, deadline, now);
    case RetriesRun(claim, run, message, now) => RetryAgentRunKeeps(s, claim, run, message, now);
    case Judges(claim, run, approved, feedback, now) => FinalizeJudgementKeeps(s, claim, run, approved, feedback, now);
    case Rejects(claim, failure, now) => ReportArtifactFailureKeeps(s, claim, failure, now);
    case StopsRuns => InterruptJudgeRunsKeeps(s);
    case Releases(now) => ReleaseJudgingKeeps(s, now);
    case GivesUp(workflow, message) => FailRunnableKeeps(s, workflow, message);
    case Materializes(workflow, ref, now) => MarkMaterializedKeeps(s, workflow, ref, now);
    case Verifies(workflow, ref, now) => MarkVerifiedKeeps(s, workflow, ref, now);
    case FailsToPublish(workflow, candidate, diagnostic) => RecordFinalizerFailureKeeps(s, workflow, candidate, diagnostic);
    case Publishes(workflow, candidate, content, materialized, now) =>
      FinalizePublicationKeeps(s, workflow, candidate, content, materialized, now);
  }

  lemma AuthorSound(s: State, op: AuthorOp)
    requires Inv(s)
    ensures Sound(s, NextAuthor(s, op))
  {
    hide Inv, Sound, CreateWorkflow, Submit, ConfirmReview, RequestChanges, CancelWorkflow;
    match op
    case Starts(session, user, plan, key, newId, now) => CreateWorkflowKeeps(s, session, user, plan, key, newId, now);
    case Submits(session, user, key, workflow, turn, candidate, judgeRun, content, now) =>
      SubmitKeeps(s, session, user, key, workflow, turn, candidate, judgeRun, content, now);
    case Confirms(session, user, key, workflow, candidate, names, title, now) =>
      ConfirmReviewKeeps(s, session, user, key, workflow, candidate, names, title, now);
    case AsksChanges(session, user, key, workflow, candidate, feedback, now) =>
      RequestChangesKeeps(s, session, user, key, workflow, candidate, feedback, now);
    case Cancels(session, user, key, workflow) => CancelWorkflowKeeps(s, session, user, key, workflow);
  }

  // ---- Workspace steps touch only workspaces and snapshots ----

  lemma ProvisionedUnique(workspaces: map<Id, Workspace>, id: Id, row: Workspace)
    requires OneCurrent(workspaces)
    ensures OneCurrent(Provisioned(workspaces, id, row))
  {
  }

  lemma RetiredUnique(s: State)
    requires OneCurrent(s.workspaces)
    ensures OneCurrent(RetireIncomplete(s).after.workspaces)
  {
  }

  lemma SpaceOnlyKeeps(s: State, t: State)
    requires Inv(s) && OneCurrent(t.workspaces) && t == s.(workspaces := t.workspaces, snapshots := t.snapshots, saved := t.saved)
    ensures Sound(s, t)
  {
    hide Inv, Sound, CandidatesStay, RunsStay, Grows, Kept, SessionsStay, ReceiptsStay, OneCurrent;
    Reflexive(s);
    AsideKeeps(s, t);
  }

  /** Updating one workspace row without making it current again. */
  lemma OneRowKeeps(s: State, t: State, id: Id)
    requires Inv(s) && id in s.workspaces && id in t.workspaces && t == s.(workspaces := s.workspaces[id := t.workspaces[id]], snapshots := t.snapshots, saved := t.saved)
    requires t.workspaces[id].workflow == s.workspaces[id].workflow && (t.workspaces[id].Current() ==> s.workspaces[id].Current())
    ensures Sound(s, t)
  {
    hide Inv, Sound, OneCurrent;
    CurrentOf(s);
    WorkspaceStays(s.workspaces, id, t.workspaces[id]);
    SpaceOnlyKeeps(s, t);
  }

  lemma ClearedUnique(s: State, workflow: Id, expected: Id)
    requires OneCurrent(s.workspaces)
    ensures OneCurrent(ClearSnapshot(s, workflow, expected).after.workspaces)
  {
  }

  lemma LookupSound(s: State, op: SpaceOp)
    requires Inv(s) && (op.TakesTurn? || op.EndsTurn? || op.TakesSnapshot? || op.RetiresCurrent?)
    ensures Sound(s, NextSpace(s, op))
  {
    hide Inv, Sound, OneCurrent;
    var t := NextSpace(s, op);
    if t == s { Stays(s); }
    else if op.RetiresCurrent? { OneRowKeeps(s, t, CurrentWorkspace(s.workspaces, op.workflow).value); }
    else { OneRowKeeps(s, t, ActiveWorkspace(s.workspaces, op.workflow).value); }
  }

  lemma SpaceSound(s: State, op: SpaceOp)
    requires Inv(s)
    ensures Sound(s, NextSpace(s, op))
  {
    hide Inv, Sound, OneCurrent, Provisioned, FoundWorkspace;
    CurrentOf(s);
    var t := NextSpace(s, op);
    if t == s { Stays(s); } else {
      match op
      case Provisions(id, row) => ProvisionedUnique(s.workspaces, id, row); SpaceOnlyKeeps(s, t);
      case RetiresIncomplete => RetiredUnique(s); SpaceOnlyKeeps(s, t);
      case Saves(id, _, _, _) => OneRowKeeps(s, t, id);
      case DropsSnapshot(workflow, expected) => ClearedUnique(s, workflow, expected); SpaceOnlyKeeps(s, t);
      case TakesTurn(_, _) => LookupSound(s, op);
      case EndsTurn(_, _) => LookupSound(s, op);
      case TakesSnapshot(_, _) => LookupSound(s, op);
      case RetiresCurrent(_) => LookupSound(s, op);
      case NamesSandbox(id, _) => OneRowKeeps(s, t, id);
      case Activates(id, _) => OneRowKeeps(s, t, id);
      case CleansUp(id) => OneRowKeeps(s, t, id);
      case Deletes(id) => OneRowKeeps(s, t, id);
      case RetiresIdle(id, _, _) => OneRowKeeps(s, t, id);
    }
  }

  lemma NextSound(s: State, op: Op)
    requires Inv(s)
    ensures Sound(s, Next(s, op))
  {
    hide Inv, Sound, NextWriter, NextAgent, NextAuthor, NextSpace;
    match op
    case Writer(w) => WriterSound(s, w);
    case Agent(a) => AgentSound(s, a);
    case Author(u) => AuthorSound(s, u);
    case Space(p) => SpaceSound(s, p);
  }
}
