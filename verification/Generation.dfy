/** The generation tables and every transaction on them, as a function from the
    database before to the database after and the answer given. The repository class
    is proved against these functions; the invariants are proved about them. */
module Generation {
  import opened Base
  import opened Scenarios

  // ---- Rows ----

  datatype SessionState = DraftConversation | IntentReview | SessionPublished

  /** A revision session is opened on the scenario and revision that were active then. */
  datatype Target = Target(scenario: Id, base: Id)

  datatype Session = Session(
    user: Id, state: SessionState, current: nat, visible: nat, published: Option<Id>, target: Option<Target>)

  datatype PlanKey = PlanKey(session: Id, revision: nat)

  datatype PlanRow = PlanRow(wellFormed: bool, candidate: Option<Id>)

  datatype WorkflowState =
    | Generating | Judging | MaterializingArtifact | Verifying | NeedsAuthorReview
    | Publishing | Published | Failed | Cancelled
  {
    predicate Terminal() { Published? || Failed? || Cancelled? }
  }

  datatype Lease = Lease(owner: Id, expires: Time)

  datatype Category = Deterministic | Transient

  datatype Diagnostic = Diagnostic(category: Category, message: string, attempted: Time, retry: Option<Time>) {
    predicate Valid() { message != "" && (category.Deterministic? <==> retry.None?) }
  }

  datatype Workflow = Workflow(
    session: Id, plan: nat, state: WorkflowState, candidate: Option<Id>, run: Option<Id>,
    version: nat, lease: Option<Lease>, nextRun: Time, created: Time, lastError: string, finalizer: Option<Diagnostic>)
  {
    /** Enter another state: the version moves with it. */
    function Enter(next: WorkflowState, error: string, now: Time): Workflow {
      this.(state := next, version := version + 1, lastError := error, nextRun := now)
    }

    function DropLease(): Workflow { this.(run := None, lease := None) }
  }

  datatype FailureClass = ArtifactFailure | InfrastructureFailure | CancelledFailure

  datatype Failure = Failure(cls: FailureClass, code: string, summary: string) {
    predicate Valid() { code != "" && summary != "" }
  }

  /** The identities a publication reserves when the author confirms the content. */
  datatype Publication = Publication(
    candidate: Id, scenario: Id, revision: Id, base: Option<Id>, slug: Id, path: Path, title: string)

  datatype Candidate = Candidate(
    session: Id, plan: nat, judgeRun: Option<Id>, parent: Option<Id>, repair: string, content: Id,
    runnable: Option<RunnableRef>, report: Option<ReportRef>, failure: Option<Failure>,
    publication: Option<Publication>, verified: Option<Time>, published: Option<Time>)

  datatype Action = ConfirmGeneration | SubmitCandidate | ConfirmContent | RequestContentChanges | CancelGeneration

  /** A user request. Receipts keep its digest; digests are taken to be injective, so they keep the request. */
  datatype Request =
    | StartRequest(plan: nat)
    | SubmitRequest(workflow: Id, turn: Id)
    | ContentRequest(workflow: Id, candidate: Id)
    | ChangeRequest(workflow: Id, candidate: Id, feedback: string)
    | CancelRequest(workflow: Id)

  datatype ReceiptKey = ReceiptKey(session: Id, action: Action, key: Id)

  datatype Receipt = Receipt(request: Request, workflow: Id, plan: Option<nat>, candidate: Option<Id>)

  datatype RunStatus = Running | Succeeded | RunFailed | RunCancelled | Interrupted

  datatype RunPurpose = Judge | OtherPurpose

  datatype Run = Run(purpose: RunPurpose, owner: Id, status: RunStatus, attempt: nat, deadline: Time)

  const MaxAttempts: nat := 5

  datatype RunnableRow = RunnableRow(digest: Id, operations: bool, contentId: Id, content: Id)

  datatype ReportRow = ReportRow(digest: Id, revisionDigest: Id, passed: bool)

  datatype WorkspaceState = WorkspacePending | WorkspaceActive | WorkspaceDeleting | WorkspaceDeleted

  datatype Workspace = Workspace(
    workflow: Id, pvc: Id, sandbox: Option<Id>, turn: Option<Id>, idle: Option<Time>, state: WorkspaceState)
  {
    predicate Current() { state == WorkspacePending || state == WorkspaceActive }

    function Retire(): Workspace { this.(state := WorkspaceDeleting, turn := None, idle := None) }
  }

  /** What a worker holds after claiming a workflow. */
  datatype Claim = Claim(workflow: Id, version: nat, owner: Id)

  /** What a finished judge run said, and about which candidate. */
  datatype Verdict = Verdict(workflow: Id, candidate: Id, approved: bool)

  /** The tables (the snapshot column of a workflow is kept beside its row), and three history variables no transaction reads: every claim issued, every
      verdict given, and the snapshot last taken of a workspace that no user has entered since. */
  datatype State = State(
    sessions: map<Id, Session>, plans: map<PlanKey, PlanRow>, workflows: map<Id, Workflow>,
    candidates: map<Id, Candidate>, receipts: map<ReceiptKey, Receipt>, runs: map<Id, Run>,
    workspaces: map<Id, Workspace>, snapshots: map<Id, Id>, runnables: map<Id, RunnableRow>, reports: map<Id, ReportRow>,
    pub: Tables,
    issued: map<Id, Claim>, verdicts: map<Id, Verdict>, saved: map<Id, Id>)

  const Empty := State(map[], map[], map[], map[], map[], map[], map[], map[], map[], map[], EmptyTables, map[], map[], map[])

  datatype Step<+T> = Step(after: State, out: Outcome<T>)

  function Refuse<T>(s: State, error: Error): Step<T> { Step(s, Err(error)) }

  // ---- Shared reads ----

  predicate Owns(sessions: map<Id, Session>, session: Id, user: Id) {
    session in sessions && sessions[session].user == user
  }

  datatype Lookup = Fresh | Replay(receipt: Receipt) | Mismatch

  function ReceiptFor(receipts: map<ReceiptKey, Receipt>, key: ReceiptKey, request: Request): Lookup {
    if key !in receipts then Fresh
    else if receipts[key].request != request then Mismatch
    else Replay(receipts[key])
  }

  predicate Claimable(w: Workflow, now: Time) {
    w.state == Judging && w.nextRun <= now && (w.lease.None? || w.lease.value.expires <= now)
  }

  /** The claimable rows another transaction has not locked, in claim order. */
  function ClaimQueue(workflows: map<Id, Workflow>, locked: set<Id>, now: Time): map<Id, Place> {
    map id | id in workflows && id !in locked && Claimable(workflows[id], now)
      :: Place(workflows[id].nextRun, workflows[id].created, id)
  }

  /** The fence every agent report must pass. */
  predicate Passes(workflows: map<Id, Workflow>, claim: Claim, now: Time) {
    && claim.workflow in workflows
    && var w := workflows[claim.workflow];
       && w.state == Judging && w.version == claim.version
       && w.lease.Some? && w.lease.value.owner == claim.owner && w.lease.value.expires > now
  }

  predicate MatchesCandidate(runnables: map<Id, RunnableRow>, ref: RunnableRef, candidate: Id, content: Id) {
    && ref.id in runnables
    && runnables[ref.id] == RunnableRow(ref.digest, true, candidate, content)
  }

  predicate ReportOn(reports: map<Id, ReportRow>, ref: ReportRef, revisionDigest: Id) {
    ref.id in reports && reports[ref.id].digest == ref.digest && reports[ref.id].revisionDigest == revisionDigest
  }

  predicate InState(workflows: map<Id, Workflow>, id: Id, state: WorkflowState) {
    id in workflows && workflows[id].state == state
  }

  // ---- Sessions and plans (written by the authoring repository) ----

  function CreateSession(s: State, id: Id, user: Id): Step<()> {
    if id in s.sessions then Refuse(s, Constraint)
    else Step(s.(sessions := s.sessions[id := Session(user, DraftConversation, 0, 0, None, None)],
                 plans := s.plans[PlanKey(id, 0) := PlanRow(false, None)]), Ok(()))
  }

  /** A user reopens a scenario they own: the session remembers the revision active now. */
  function CreateRevisionSession(s: State, id: Id, user: Id, scenario: Id): Step<()> {
    if scenario !in s.pub.scenarios then Refuse(s, NotFound)
    else
      var target := s.pub.scenarios[scenario];
      if target.kind != Authoring || target.owner != Some(user) || target.state != Active then Refuse(s, InvalidState)
      else if target.active !in s.pub.revisions then Refuse(s, NotFound)
      else if s.pub.revisions[target.active].scenario != scenario
              || s.pub.revisions[target.active].state != ActiveRevision then Refuse(s, InvalidState)
      else if target.sourceRef !in s.sessions
              || PlanKey(target.sourceRef, s.sessions[target.sourceRef].current) !in s.plans then Refuse(s, NotFound)
      else if id in s.sessions then Refuse(s, Constraint)
      else
        var seed := s.plans[PlanKey(target.sourceRef, s.sessions[target.sourceRef].current)];
        Step(s.(sessions := s.sessions[id := Session(user, DraftConversation, 0, 0, None, Some(Target(scenario, target.active)))],
                plans := s.plans[PlanKey(id, 0) := PlanRow(seed.wellFormed, None)]), Ok(()))
  }

  /** A finalized plan revision; it reopens the review even of a published session. */
  function SavePlan(s: State, session: Id, expected: nat, wellFormed: bool): Step<nat> {
    if session !in s.sessions then Refuse(s, NotFound)
    else if s.sessions[session].current != expected then Refuse(s, Conflict)
    else if PlanKey(session, expected + 1) in s.plans then Refuse(s, Constraint)
    else Step(s.(sessions := s.sessions[session := s.sessions[session].(current := expected + 1, state := IntentReview)],
                 plans := s.plans[PlanKey(session, expected + 1) := PlanRow(wellFormed, None)]), Ok(expected + 1))
  }

  // ---- Agent runs and runnable records (written by their own repositories) ----

  /** Every other writer of agent_runs ends a run only while it is running. */
  function EndRun(s: State, id: Id, status: RunStatus): Step<()> {
    if id !in s.runs || s.runs[id].status != Running || status == Running then Refuse(s, RunActive)
    else Step(s.(runs := s.runs[id := s.runs[id].(status := status)]), Ok(()))
  }

  function StoreRunnable(s: State, id: Id, row: RunnableRow): Step<()> {
    if id in s.runnables || exists k <- s.runnables :: s.runnables[k].digest == row.digest then Refuse(s, Constraint)
    else Step(s.(runnables := s.runnables[id := row]), Ok(()))
  }

  function StoreReport(s: State, id: Id, row: ReportRow): Step<()> {
    if id in s.reports || exists k <- s.reports :: s.reports[k].digest == row.digest then Refuse(s, Constraint)
    else Step(s.(reports := s.reports[id := row]), Ok(()))
  }

  // ---- The workflow ----

  predicate ForPlan(w: Workflow, session: Id, plan: nat) { w.session == session && w.plan == plan }

  ghost function WorkflowFor(workflows: map<Id, Workflow>, session: Id, plan: nat): Option<Id> {
    if exists id :: id in workflows && ForPlan(workflows[id], session, plan)
    then var id :| id in workflows && ForPlan(workflows[id], session, plan); Some(id)
    else None
  }

  function NewWorkflow(session: Id, plan: nat, now: Time): Workflow {
    Workflow(session, plan, Generating, None, None, 1, None, now, now, "", None)
  }

  /** The workflow a fresh confirmation gets: the plan's own, or a new one when the plan is under review. */
  ghost function WorkflowToStart(s: State, session: Id, plan: nat, newId: Id): Outcome<Id>
    requires session in s.sessions
  {
    match WorkflowFor(s.workflows, session, plan)
    case Some(id) => Ok(id)
    case None =>
      if s.sessions[session].current != plan || s.sessions[session].state != IntentReview then Err(InvalidState)
      else if PlanKey(session, plan) !in s.plans then Err(NotFound)
      else if !s.plans[PlanKey(session, plan)].wellFormed then Err(Invalid)
      else if newId in s.workflows then Err(Constraint)
      else Ok(newId)
  }

  ghost function CreateWorkflow(s: State, session: Id, user: Id, plan: nat, key: Id, newId: Id, now: Time): Step<Id> {
    var rkey := ReceiptKey(session, ConfirmGeneration, key);
    if !Owns(s.sessions, session, user) then Refuse(s, NotFound)
    else match ReceiptFor(s.receipts, rkey, StartRequest(plan))
      case Mismatch => Refuse(s, Conflict)
      case Replay(receipt) => if receipt.plan != Some(plan) then Refuse(s, Conflict) else Step(s, Ok(receipt.workflow))
      case Fresh =>
        match WorkflowToStart(s, session, plan, newId)
        case Err(error) => Refuse(s, error)
        case Ok(id) =>
          var rows := if id in s.workflows then s.workflows else s.workflows[id := NewWorkflow(session, plan, now)];
          Step(s.(workflows := rows, receipts := s.receipts[rkey := Receipt(StartRequest(plan), id, Some(plan), None)]), Ok(id))
  }

  /** `owner` is random: a claim never reuses the name of an earlier one. */
  function ClaimWorkflow(s: State, id: Id, owner: Id, ttl: Time, now: Time): Step<Claim> {
    if ttl <= 0 || id !in s.workflows || !Claimable(s.workflows[id], now) then Refuse(s, Invalid)
    else
      var w := s.workflows[id];
      var claim := Claim(id, w.version, owner);
      Step(s.(workflows := s.workflows[id := w.(lease := Some(Lease(owner, now + ttl)))],
              issued := s.issued[owner := claim]), Ok(claim))
  }

  function RenewLease(s: State, claim: Claim, ttl: Time, now: Time): Step<()> {
    if ttl <= 0 || !Passes(s.workflows, claim, now) then Refuse(s, LeaseLost)
    else
      var w := s.workflows[claim.workflow];
      Step(s.(workflows := s.workflows[claim.workflow := w.(lease := Some(Lease(claim.owner, now + ttl)))]), Ok(()))
  }

  /** UPDATE agent_runs ... WHERE id = ? AND status = 'running'. */
  function EndIfRunning(runs: map<Id, Run>, id: Id, status: RunStatus): map<Id, Run> {
    if id in runs && runs[id].status == Running then runs[id := runs[id].(status := status)] else runs
  }

  function StartAgentRun(s: State, claim: Claim, run: Id, deadline: Time, now: Time): Step<()> {
    if !Passes(s.workflows, claim, now) then Refuse(s, LeaseLost)
    else if run in s.runs then Refuse(s, Constraint)
    else
      var w := s.workflows[claim.workflow];
      Step(s.(runs := (if w.run.Some? then EndIfRunning(s.runs, w.run.value, Interrupted) else s.runs)[run := Run(Judge, claim.workflow, Running, 1, deadline)],
              workflows := s.workflows[claim.workflow := w.(run := Some(run))]), Ok(()))
  }

  predicate MayRetry(r: Run, now: Time) { r.attempt < MaxAttempts && r.deadline > now }

  function NextAttempt(runs: map<Id, Run>, id: Id, now: Time): map<Id, Run>
    requires id in runs
  {
    if MayRetry(runs[id], now) then runs[id := runs[id].(attempt := runs[id].attempt + 1)]
    else EndIfRunning(runs, id, RunFailed)
  }

  /** A known technical failure: another attempt, or the end of the workflow once patience is spent. */
  function RetryAgentRun(s: State, claim: Claim, run: Id, message: string, now: Time): Step<bool> {
    if message == "" || !Passes(s.workflows, claim, now) || s.workflows[claim.workflow].run != Some(run) then Refuse(s, LeaseLost)
    else if run !in s.runs || (MayRetry(s.runs[run], now) && s.runs[run].status != Running) then Refuse(s, NotFound)
    else
      var w := s.workflows[claim.workflow];
      var next := if MayRetry(s.runs[run], now) then w else w.Enter(Failed, message, w.nextRun).DropLease();
      Step(s.(runs := NextAttempt(s.runs, run, now), workflows := s.workflows[claim.workflow := next]),
           Ok(MayRetry(s.runs[run], now)))
  }

  /** Server stop, first statement: the runs of judging workflows are interrupted. */
  function InterruptJudgeRuns(s: State): Step<()> {
    var named := set w | w in s.workflows && s.workflows[w].state == Judging && s.workflows[w].run.Some? :: s.workflows[w].run.value;
    Step(s.(runs := map r | r in s.runs ::
                      if r in named && s.runs[r].status == Running then s.runs[r].(status := Interrupted) else s.runs[r]), Ok(()))
  }

  /** Server stop, second statement: every judging workflow becomes claimable again. */
  function ReleaseJudging(s: State, now: Time): Step<()> {
    Step(s.(workflows := map w | w in s.workflows ::
                           if s.workflows[w].state == Judging then s.workflows[w].(run := None, lease := None, nextRun := now)
                           else s.workflows[w]), Ok(()))
  }

  // ---- Workspaces: which row a workflow uses ----

  predicate IsActiveFor(row: Workspace, workflow: Id) { row.workflow == workflow && row.state == WorkspaceActive }

  predicate IsCurrentFor(row: Workspace, workflow: Id) { row.workflow == workflow && row.Current() }

  ghost function ActiveWorkspace(workspaces: map<Id, Workspace>, workflow: Id): Option<Id> {
    if exists id :: id in workspaces && IsActiveFor(workspaces[id], workflow)
    then var id :| id in workspaces && IsActiveFor(workspaces[id], workflow); Some(id)
    else None
  }

  ghost function CurrentWorkspace(workspaces: map<Id, Workspace>, workflow: Id): Option<Id> {
    if exists id :: id in workspaces && IsCurrentFor(workspaces[id], workflow)
    then var id :| id in workspaces && IsCurrentFor(workspaces[id], workflow); Some(id)
    else None
  }

  /** UNIQUE(workflow_id) over pending and active workspaces. */
  ghost predicate OneCurrent(workspaces: map<Id, Workspace>) {
    forall a, b | a in workspaces && b in workspaces && workspaces[a].Current() && workspaces[b].Current()
                  && workspaces[a].workflow == workspaces[b].workflow :: a == b
  }

  /** UNIQUE(source_kind, source_ref, source_revision). */
  ghost predicate OnePerPlan(workflows: map<Id, Workflow>) {
    forall a, b | a in workflows && b in workflows
                  && workflows[a].session == workflows[b].session && workflows[a].plan == workflows[b].plan :: a == b
  }

  // ---- From submission to review ----

  function NewCandidate(w: Workflow, judgeRun: Option<Id>, content: Id): Candidate {
    Candidate(w.session, w.plan, judgeRun, w.candidate, if w.candidate.Some? then w.lastError else "", content,
              None, None, None, None, None, None)
  }

  ghost function Submit(s: State, session: Id, user: Id, key: Id, workflow: Id, turn: Id,
                        candidate: Id, judgeRun: Option<Id>, content: Id, now: Time): Step<Id> {
    var rkey := ReceiptKey(session, SubmitCandidate, key);
    if !Owns(s.sessions, session, user) then Refuse(s, NotFound)
    else match ReceiptFor(s.receipts, rkey, SubmitRequest(workflow, turn))
      case Mismatch => Refuse(s, Conflict)
      case Replay(receipt) =>
        if receipt.workflow != workflow || receipt.candidate.None? then Refuse(s, Conflict)
        else Step(s, Ok(receipt.candidate.value))
      case Fresh =>
        if !InState(s.workflows, workflow, Generating) || s.workflows[workflow].session != session then Refuse(s, InvalidState)
        else
          var workspace := ActiveWorkspace(s.workspaces, workflow);
          if workspace.None? || s.workspaces[workspace.value].turn != Some(turn) then Refuse(s, TurnLost)
          else if candidate in s.candidates then Refuse(s, Constraint)
          else
            var w := s.workflows[workflow];
            Step(s.(candidates := s.candidates[candidate := NewCandidate(w, judgeRun, content)],
                    workspaces := s.workspaces[workspace.value := s.workspaces[workspace.value].(turn := None, idle := None)],
                    workflows := s.workflows[workflow := w.Enter(Judging, "", now).(candidate := Some(candidate), run := None)],
                    snapshots := s.snapshots - {workflow},
                    receipts := s.receipts[rkey := Receipt(SubmitRequest(workflow, turn), workflow, None, Some(candidate))]),
                 Ok(candidate))
  }

  function FinalizeJudgement(s: State, claim: Claim, run: Id, approved: bool, feedback: string, now: Time): Step<()> {
    if !approved && feedback == "" then Refuse(s, Invalid)
    else if !Passes(s.workflows, claim, now) then Refuse(s, LeaseLost)
    else
      var w := s.workflows[claim.workflow];
      if w.run != Some(run) || w.candidate.None? then Refuse(s, LeaseLost)
      else if run !in s.runs || s.runs[run].status != Running then Refuse(s, RunActive)
      else if w.candidate.value !in s.candidates then Refuse(s, Constraint)
      else
        var c := s.candidates[w.candidate.value];
        Step(s.(runs := s.runs[run := s.runs[run].(status := Succeeded)],
                candidates := s.candidates[w.candidate.value :=
                  if approved then c.(judgeRun := Some(run))
                  else c.(judgeRun := Some(run), failure := Some(Failure(ArtifactFailure, "JUDGE_REJECT", feedback)))],
                workflows := s.workflows[claim.workflow :=
                  if approved then w.Enter(MaterializingArtifact, "", now).DropLease()
                  else w.Enter(Generating, feedback, now).DropLease()],
                verdicts := s.verdicts[run := Verdict(claim.workflow, w.candidate.value, approved)]), Ok(()))
  }

  function ReportArtifactFailure(s: State, claim: Claim, failure: Failure, now: Time): Step<()> {
    if !failure.Valid() || !Passes(s.workflows, claim, now) then Refuse(s, LeaseLost)
    else
      var w := s.workflows[claim.workflow];
      if w.candidate.None? then Refuse(s, InvalidState)
      else if w.candidate.value !in s.candidates then Refuse(s, Constraint)
      else Step(s.(candidates := s.candidates[w.candidate.value := s.candidates[w.candidate.value].(failure := Some(failure))],
                   workflows := s.workflows[claim.workflow := w.Enter(Generating, failure.summary, now).DropLease()]), Ok(()))
  }

  function FailRunnable(s: State, workflow: Id, message: string): Step<()> {
    if message == "" then Refuse(s, Invalid)
    else if !InState(s.workflows, workflow, MaterializingArtifact) && !InState(s.workflows, workflow, Verifying)
    then Refuse(s, InvalidState)
    else
      var w := s.workflows[workflow];
      Step(s.(workflows := s.workflows[workflow := w.Enter(Failed, message, w.nextRun)]), Ok(()))
  }

  function MarkMaterialized(s: State, workflow: Id, ref: RunnableRef, now: Time): Step<()> {
    if workflow !in s.workflows then Refuse(s, NotFound)
    else
      var w := s.workflows[workflow];
      if w.state != MaterializingArtifact || w.candidate.None? then Refuse(s, InvalidState)
      else if w.candidate.value !in s.candidates then Refuse(s, NotFound)
      else
        var c := s.candidates[w.candidate.value];
        if !MatchesCandidate(s.runnables, ref, w.candidate.value, c.content) then Refuse(s, Invalid)
        else Step(s.(candidates := s.candidates[w.candidate.value := c.(runnable := Some(ref))],
                     workflows := s.workflows[workflow := w.Enter(Verifying, w.lastError, now)]), Ok(()))
  }

  const NotPassed := "runnable verification did not pass"

  /** The plan the candidate was generated from records it, and becomes the visible one. */
  function RevealPlan(plans: map<PlanKey, PlanRow>, key: PlanKey, candidate: Id): map<PlanKey, PlanRow> {
    if key in plans then plans[key := plans[key].(candidate := Some(candidate))] else plans
  }

  function RevealIn(sessions: map<Id, Session>, key: PlanKey): map<Id, Session> {
    if key.session in sessions then sessions[key.session := sessions[key.session].(visible := key.revision)] else sessions
  }

  function MarkVerified(s: State, workflow: Id, ref: ReportRef, now: Time): Step<bool> {
    if workflow !in s.workflows then Refuse(s, NotFound)
    else
      var w := s.workflows[workflow];
      if w.state != Verifying || w.candidate.None? then Refuse(s, InvalidState)
      else if w.candidate.value !in s.candidates then Refuse(s, NotFound)
      else
        var c := s.candidates[w.candidate.value];
        if c.runnable.None? then Refuse(s, InvalidState)
        else if !ReportOn(s.reports, ref, c.runnable.value.digest) then Refuse(s, Invalid)
        else
          var passed := s.reports[ref.id].passed;
          var marked := c.(report := Some(ref), verified := Some(now));
          var plan := PlanKey(w.session, w.plan);
          Step(s.(plans := if passed then RevealPlan(s.plans, plan, w.candidate.value) else s.plans,
                  sessions := if passed then RevealIn(s.sessions, plan) else s.sessions,
                  candidates := s.candidates[w.candidate.value :=
                    if passed then marked else marked.(failure := Some(Failure(ArtifactFailure, "VERIFY_FAILED", NotPassed)))],
                  workflows := s.workflows[workflow :=
                    if passed then w.Enter(NeedsAuthorReview, "", now) else w.Enter(Generating, NotPassed, now)]), Ok(passed))
  }

  // ---- The author's decision ----

  predicate UnderReview(s: State, session: Id, workflow: Id, candidate: Id) {
    && InState(s.workflows, workflow, NeedsAuthorReview)
    && s.workflows[workflow].candidate == Some(candidate)
  }

  /** Random identities for a scenario published for the first time, and for its revision. */
  datatype Names = Names(scenario: Id, revision: Id, slug: Id)

  function PreparePublication(pub: Tables, session: Session, candidate: Id, names: Names, title: string): Outcome<Publication> {
    match session.target
    case None =>
      Ok(Publication(candidate, names.scenario, names.revision, None, names.slug, Path(names.slug, names.revision), title))
    case Some(target) =>
      if target.scenario !in pub.scenarios then Err(NotFound)
      else
        var c := pub.scenarios[target.scenario];
        if c.kind != Authoring || c.owner != Some(session.user) || c.state != Active || c.active != target.base then Err(Conflict)
        else Ok(Publication(candidate, target.scenario, names.revision, Some(c.active), c.slug, Path(c.slug, names.revision), title))
  }

  function ConfirmReview(s: State, session: Id, user: Id, key: Id, workflow: Id, candidate: Id,
                         names: Names, title: string, now: Time): Step<Id> {
    var rkey := ReceiptKey(session, ConfirmContent, key);
    var request := ContentRequest(workflow, candidate);
    if title == "" then Refuse(s, Invalid)
    else if !Owns(s.sessions, session, user) then Refuse(s, NotFound)
    else match ReceiptFor(s.receipts, rkey, request)
      case Mismatch => Refuse(s, Conflict)
      case Replay(receipt) => Step(s, Ok(receipt.workflow))
      case Fresh =>
        if workflow !in s.workflows || s.workflows[workflow].session != session then Refuse(s, InvalidState)
        else if !UnderReview(s, session, workflow, candidate) then Refuse(s, InvalidState)
        else if candidate !in s.candidates then Refuse(s, NotFound)
        else
          var c := s.candidates[candidate];
          if c.runnable.None? || c.report.None? then Refuse(s, InvalidState)
          else if !ReportOn(s.reports, c.report.value, c.runnable.value.digest)
                  || !s.reports[c.report.value.id].passed then Refuse(s, InvalidState)
          else match PreparePublication(s.pub, s.sessions[session], candidate, names, title)
            case Err(error) => Refuse(s, error)
            case Ok(publication) =>
              Step(s.(candidates := s.candidates[candidate := c.(publication := Some(publication))],
                      workflows := s.workflows[workflow := s.workflows[workflow].Enter(Publishing, "", now)],
                      receipts := s.receipts[rkey := Receipt(request, workflow, None, Some(candidate))]), Ok(workflow))
  }

  function RequestChanges(s: State, session: Id, user: Id, key: Id, workflow: Id, candidate: Id,
                          feedback: string, now: Time): Step<Id> {
    var rkey := ReceiptKey(session, RequestContentChanges, key);
    var request := ChangeRequest(workflow, candidate, feedback);
    if feedback == "" then Refuse(s, Invalid)
    else if !Owns(s.sessions, session, user) then Refuse(s, NotFound)
    else match ReceiptFor(s.receipts, rkey, request)
      case Mismatch => Refuse(s, Conflict)
      case Replay(receipt) => Step(s, Ok(receipt.workflow))
      case Fresh =>
        if workflow !in s.workflows || s.workflows[workflow].session != session then Refuse(s, InvalidState)
        else if !UnderReview(s, session, workflow, candidate) then Refuse(s, InvalidState)
        else Step(s.(workflows := s.workflows[workflow := s.workflows[workflow].Enter(Generating, feedback, now)],
                     receipts := s.receipts[rkey := Receipt(request, workflow, None, Some(candidate))]), Ok(workflow))
  }

  function CancelWorkflow(s: State, session: Id, user: Id, key: Id, workflow: Id): Step<Id> {
    var rkey := ReceiptKey(session, CancelGeneration, key);
    if !Owns(s.sessions, session, user) then Refuse(s, NotFound)
    else match ReceiptFor(s.receipts, rkey, CancelRequest(workflow))
      case Mismatch => Refuse(s, Conflict)
      case Replay(receipt) => Step(s, Ok(receipt.workflow))
      case Fresh =>
        if workflow !in s.workflows || s.workflows[workflow].session != session then Refuse(s, NotFound)
        else if s.workflows[workflow].state.Terminal() then Refuse(s, InvalidState)
        else
          var w := s.workflows[workflow];
          Step(s.(workflows := s.workflows[workflow := w.Enter(Cancelled, "cancelled", w.nextRun).DropLease()],
                  receipts := s.receipts[rkey := Receipt(CancelRequest(workflow), workflow, None, None)]), Ok(workflow))
  }

  // ---- Publication ----

  /** A finalizer failure is recorded on the publishing row. A deterministic one ends the
      workflow without moving its version. */
  function RecordFinalizerFailure(s: State, workflow: Id, candidate: Id, d: Diagnostic): Step<()> {
    if !d.Valid() then Refuse(s, Invalid)
    else if !InState(s.workflows, workflow, Publishing) || s.workflows[workflow].candidate != Some(candidate)
    then Refuse(s, InvalidState)
    else
      var w := s.workflows[workflow];
      Step(s.(workflows := s.workflows[workflow :=
        w.(state := if d.category == Deterministic then Failed else Publishing,
           nextRun := if d.retry.Some? then d.retry.value else d.attempted,
           lastError := d.message, finalizer := Some(d))]), Ok(()))
  }

  function PublishedRevision(w: Workflow, c: Candidate, p: Publication, base: Option<Id>, slug: Id, materialized: Id): Revision
    requires c.runnable.Some? && c.report.Some?
  {
    Revision(p.scenario, Authoring, w.session, w.plan, base, c.content, slug, p.path, materialized,
             c.runnable.value, c.report.value, ActiveRevision)
  }

  /** The published tables after finalizing candidate c of workflow w. */
  function FinalizeTables(pub: Tables, session: Session, w: Workflow, c: Candidate, p: Publication, materialized: Id): Outcome<Tables>
    requires c.runnable.Some? && c.report.Some?
  {
    match session.target
    case None =>
      (match PublishFirst(pub, p.scenario, Scenario(Authoring, w.session, Some(session.user), Active, p.revision, p.slug),
                          p.revision, PublishedRevision(w, c, p, None, p.slug, materialized))
       case None => Err(Constraint)
       case Some(t) => Ok(t))
    case Some(target) =>
      if p.scenario != target.scenario || p.base != Some(target.base) then Err(Conflict)
      else if target.scenario !in pub.scenarios then Err(NotFound)
      else
        var owned := pub.scenarios[target.scenario];
        if owned.kind != Authoring || owned.owner != Some(session.user) || owned.state != Active
           || Some(owned.active) != p.base || owned.slug != p.slug then Err(Conflict)
        else if owned.active !in pub.revisions then Err(NotFound)
        else if pub.revisions[owned.active].scenario != target.scenario
                || pub.revisions[owned.active].state != ActiveRevision then Err(InvalidState)
        else match PublishNext(pub, target.scenario, p.revision, PublishedRevision(w, c, p, Some(owned.active), owned.slug, materialized))
          case None => Err(Constraint)
          case Some(t) => Ok(t)
  }

  function FinalizePublication(s: State, workflow: Id, candidate: Id, content: Id, materialized: Id, now: Time): Step<()> {
    if !InState(s.workflows, workflow, Publishing) || s.workflows[workflow].candidate != Some(candidate)
    then Refuse(s, InvalidState)
    else if candidate !in s.candidates then Refuse(s, NotFound)
    else
      var w := s.workflows[workflow];
      var c := s.candidates[candidate];
      if c.publication.None? || c.published.Some? || c.content != content || c.runnable.None? || c.report.None?
      then Refuse(s, InvalidState)
      else if w.session !in s.sessions then Refuse(s, NotFound)
      else match FinalizeTables(s.pub, s.sessions[w.session], w, c, c.publication.value, materialized)
        case Err(error) => Refuse(s, error)
        case Ok(pub) =>
          Step(s.(pub := pub,
                  candidates := s.candidates[candidate := c.(published := Some(now))],
                  sessions := s.sessions[w.session := s.sessions[w.session].(state := SessionPublished, published := Some(c.publication.value.scenario))],
                  workflows := s.workflows[workflow := w.Enter(Published, "", w.nextRun).(finalizer := None)]), Ok(()))
  }

  /** The owner hides a scenario; nothing is removed. */
  function DeprecateScenario(s: State, user: Id, scenario: Id): Step<()> {
    if scenario !in s.pub.scenarios then Refuse(s, NotFound)
    else
      var c := s.pub.scenarios[scenario];
      if c.kind != Authoring then Refuse(s, InvalidState)
      else if c.owner != Some(user) then Refuse(s, NotFound)
      else if c.state != Active then Refuse(s, InvalidState)
      else if c.active !in s.pub.revisions then Refuse(s, NotFound)
      else if s.pub.revisions[c.active].scenario != scenario || s.pub.revisions[c.active].state != ActiveRevision then Refuse(s, Conflict)
      else Step(s.(pub := Deprecate(s.pub, scenario)), Ok(()))
  }

  /** One scenario of a catalog release, inserted by the other publisher. */
  function ImportRelease(s: State, c: Id, scenario: Scenario, r: Id, revision: Revision): Step<()> {
    if scenario.kind != Release || scenario.active != r || revision.kind != Release || revision.scenario != c
       || revision.base != None || revision.state != ActiveRevision || revision.path != Path(revision.slug, r) then Refuse(s, Invalid)
    else match PublishFirst(s.pub, c, scenario, r, revision)
      case None => Refuse(s, Constraint)
      case Some(pub) => Step(s.(pub := pub), Ok(()))
  }

  // ---- Workspaces ----

  /** The primary key, UNIQUE(pvc_name), and one current workspace per workflow. */
  ghost predicate Clashes(workspaces: map<Id, Workspace>, id: Id, row: Workspace) {
    || id in workspaces
    || (exists k :: k in workspaces && workspaces[k].pvc == row.pvc)
    || (row.Current() && CurrentWorkspace(workspaces, row.workflow).Some?)
  }

  /** INSERT ... ON CONFLICT DO NOTHING. */
  ghost function Provisioned(workspaces: map<Id, Workspace>, id: Id, row: Workspace): map<Id, Workspace> {
    if Clashes(workspaces, id, row) then workspaces else workspaces[id := row]
  }

  /** The row found after the insert must be the caller's own. */
  ghost function FoundWorkspace(workspaces: map<Id, Workspace>, id: Id, row: Workspace): Outcome<Id> {
    if id in workspaces then
      if workspaces[id].workflow != row.workflow || workspaces[id].pvc != row.pvc then Err(Conflict) else Ok(id)
    else match CurrentWorkspace(workspaces, row.workflow)
      case None => Err(NotFound)
      case Some(existing) => Ok(existing)
  }

  /** Rows may only be idle while active and without a turn. */
  predicate ValidWorkspace(row: Workspace) { row.idle.Some? ==> row.state == WorkspaceActive && row.turn.None? }

  ghost function CreateWorkspace(s: State, id: Id, row: Workspace): Step<Id> {
    if !ValidWorkspace(row) then Refuse(s, Invalid)
    else
      var rows := Provisioned(s.workspaces, id, row);
      Step(s.(workspaces := rows), FoundWorkspace(rows, id, row))
  }

  ghost function AcquireTurn(s: State, workflow: Id, turn: Id): Step<Id> {
    match ActiveWorkspace(s.workspaces, workflow)
    case None => Refuse(s, NotFound)
    case Some(id) =>
      var row := s.workspaces[id];
      if row.turn.Some? && row.turn != Some(turn) then Refuse(s, Busy)
      else Step(s.(workspaces := if row.turn.None? then s.workspaces[id := row.(turn := Some(turn), idle := None)] else s.workspaces,
                   saved := s.saved - {id}), Ok(id))
  }

  ghost function ReleaseTurn(s: State, workflow: Id, turn: Id): Step<()> {
    match ActiveWorkspace(s.workspaces, workflow)
    case None => Refuse(s, TurnLost)
    case Some(id) =>
      if s.workspaces[id].turn != Some(turn) then Refuse(s, TurnLost)
      else Step(s.(workspaces := s.workspaces[id := s.workspaces[id].(turn := None, idle := None)]), Ok(()))
  }

  function RecordSandbox(s: State, id: Id, sandbox: Id): Step<()> {
    if id !in s.workspaces then Refuse(s, NotFound)
    else
      var row := s.workspaces[id];
      if row.state == WorkspacePending && (row.sandbox.None? || row.sandbox == Some(sandbox))
      then Step(s.(workspaces := s.workspaces[id := row.(sandbox := Some(sandbox))]), Ok(()))
      else Refuse(s, InvalidState)
  }

  function ActivateWorkspace(s: State, id: Id, sandbox: Id): Step<()> {
    if id !in s.workspaces then Refuse(s, NotFound)
    else
      var row := s.workspaces[id];
      if row.Current() && (row.sandbox.None? || row.sandbox == Some(sandbox))
      then Step(s.(workspaces := s.workspaces[id := row.(sandbox := Some(sandbox), state := WorkspaceActive)]), Ok(()))
      else Refuse(s, InvalidState)
  }

  function BeginCleanup(s: State, id: Id): Step<()> {
    if id !in s.workspaces then Refuse(s, NotFound)
    else if !s.workspaces[id].Current() then Step(s, Ok(()))
    else Step(s.(workspaces := s.workspaces[id := s.workspaces[id].Retire()]), Ok(()))
  }

  ghost function RetireCurrent(s: State, workflow: Id): Step<Id> {
    match CurrentWorkspace(s.workspaces, workflow)
    case None => Refuse(s, NotFound)
    case Some(id) => Step(s.(workspaces := s.workspaces[id := s.workspaces[id].Retire()]), Ok(id))
  }

  predicate Incomplete(workflows: map<Id, Workflow>, row: Workspace) {
    row.Current() && row.workflow in workflows && !workflows[row.workflow].state.Terminal()
  }

  /** Startup recovery: no partially completed call is resumed. */
  function RetireIncomplete(s: State): Step<()> {
    Step(s.(workspaces := map id | id in s.workspaces ::
              if Incomplete(s.workflows, s.workspaces[id]) then s.workspaces[id].Retire() else s.workspaces[id]), Ok(()))
  }

  function MarkDeleted(s: State, id: Id): Step<()> {
    if id !in s.workspaces || s.workspaces[id].Current() then Refuse(s, NotFound)
    else Step(s.(workspaces := s.workspaces[id := s.workspaces[id].(state := WorkspaceDeleted)]), Ok(()))
  }

  ghost function AcquireSnapshot(s: State, workflow: Id, holder: Id): Step<Id> {
    if !InState(s.workflows, workflow, Generating) then Refuse(s, NotFound)
    else match ActiveWorkspace(s.workspaces, workflow)
      case None => Refuse(s, NotFound)
      case Some(id) =>
        var row := s.workspaces[id];
        if row.turn.Some? then Refuse(s, Busy)
        else if row.idle.Some? && workflow in s.snapshots then Refuse(s, SnapshotCurrent)
        else Step(s.(workspaces := s.workspaces[id := row.(turn := Some(holder), idle := None)]), Ok(id))
  }

  function PublishSnapshot(s: State, id: Id, holder: Id, digest: Id, now: Time): Step<()> {
    if id !in s.workspaces || !InState(s.workflows, s.workspaces[id].workflow, Generating) then Refuse(s, TurnLost)
    else
      var row := s.workspaces[id];
      if row.state != WorkspaceActive || row.turn != Some(holder) then Refuse(s, TurnLost)
      else
        var since := if row.workflow in s.snapshots && s.snapshots[row.workflow] == digest && row.idle.Some? then row.idle.value else now;
        Step(s.(snapshots := s.snapshots[row.workflow := digest],
                workspaces := s.workspaces[id := row.(turn := None, idle := Some(since))],
                saved := s.saved[id := digest]), Ok(()))
  }

  function ClearSnapshot(s: State, workflow: Id, expected: Id): Step<bool> {
    if !InState(s.workflows, workflow, Generating) || workflow !in s.snapshots || s.snapshots[workflow] != expected then Step(s, Ok(false))
    else Step(s.(snapshots := s.snapshots - {workflow},
                 workspaces := map id | id in s.workspaces ::
                   if s.workspaces[id].workflow == workflow && s.workspaces[id].state == WorkspaceActive
                   then s.workspaces[id].(idle := None) else s.workspaces[id]), Ok(true))
  }

  function RetireIdle(s: State, id: Id, expected: Id, staleBefore: Time): Step<()> {
    if id !in s.workspaces || !InState(s.workflows, s.workspaces[id].workflow, Generating) then Refuse(s, NotIdle)
    else
      var row := s.workspaces[id];
      if row.workflow !in s.snapshots || s.snapshots[row.workflow] != expected || row.state != WorkspaceActive || row.turn.Some?
         || row.idle.None? || row.idle.value > staleBefore then Refuse(s, NotIdle)
      else Step(s.(workspaces := s.workspaces[id := row.Retire()]), Ok(()))
  }
}
