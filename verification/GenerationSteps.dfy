/** Each transaction keeps the invariants, extends the history and moves rows only along the edges. */
module GenerationSteps {
  import opened Base
  import opened Scenarios
  import opened Generation
  import opened GenerationInvariants

  // ---- Every part of `Later` is reflexive, and kept by one insertion or one legal update ----

  lemma Reflexive(s: State)
    ensures Later(s, s) && WorkflowsMove(s.workflows, s.workflows) && LeasesFollow(s.issued, s.workflows, s.workflows)
  {
  }

  lemma CandidateStays(a: map<Id, Candidate>, k: Id, c: Candidate)
    requires k in a ==> a[k].published.None? && c.session == a[k].session && c.plan == a[k].plan
                        && c.content == a[k].content && c.parent == a[k].parent
    ensures CandidatesStay(a, a[k := c])
  {
  }

  lemma SessionStays(a: map<Id, Session>, k: Id, v: Session)
    requires k in a ==> v.user == a[k].user && v.target == a[k].target
    ensures SessionsStay(a, a[k := v])
  {
  }

  lemma RowKept<T(!new)>(a: map<Id, T>, k: Id, v: T)
    requires k !in a
    ensures Kept(a, a[k := v])
  {
  }

  lemma RunStays(a: map<Id, Run>, k: Id, r: Run)
    requires k in a ==> r == a[k] || (a[k].status == Running && r.purpose == a[k].purpose && r.owner == a[k].owner)
    ensures RunsStay(a, a[k := r])
  {
  }

  lemma ReceiptStays(a: map<ReceiptKey, Receipt>, k: ReceiptKey, r: Receipt)
    requires k !in a
    ensures ReceiptsStay(a, a[k := r])
  {
  }

  lemma WorkflowMoves(a: map<Id, Workflow>, k: Id, w: Workflow)
    requires k in a && Moves(a[k], w)
    ensures WorkflowsMove(a, a[k := w])
  {
  }

  // ---- Frames for a whole step ----

  lemma Stays(s: State)
    requires Inv(s)
    ensures Sound(s, s)
  {
    hide Inv, Later, WorkflowsMove, LeasesFollow;
    Reflexive(s);
  }

  /** Two workflows never share a candidate. */
  lemma OwnCandidate(s: State, a: Id, b: Id)
    requires Rows(s) && OnePerPlan(s.workflows) && a in s.workflows && b in s.workflows && a != b
    requires s.workflows[a].candidate.Some?
    ensures s.workflows[a].candidate != s.workflows[b].candidate
  {
    assert Row(s, a) && Row(s, b);
  }

  /** A step that leaves workflows, candidates, receipts and published scenarios alone. */
  lemma AsideKeeps(s: State, t: State)
    requires Inv(s) && Later(s, t)
    requires t.workflows == s.workflows && t.candidates == s.candidates && t.receipts == s.receipts
    requires t.pub == s.pub && t.issued == s.issued && t.verdicts == s.verdicts && OneCurrent(t.workspaces)
    ensures Sound(s, t)
  {
    hide Row, OnePerPlan, ClaimsIssued, ReceiptsMatch, Consistent, Authored, OneCurrent, WorkflowsMove, LeasesFollow, Grows;
    Reflexive(s);
    VerdictsFrame(s, t);
    forall j | j in t.workflows ensures Row(t, j) {
      AsideRow(s, t, j);
    }
    AuthoredFrame(s, t);
  }

  lemma AsideRow(s: State, t: State, j: Id)
    requires Rows(s) && Later(s, t) && t.workflows == s.workflows && t.candidates == s.candidates && j in s.workflows
    ensures Row(t, j)
  {
    hide Later;
    assert Row(s, j);
    RowFrame(s, t, j);
  }

  ghost predicate OtherCandidatesKept(s: State, t: State, own: Option<Id>) {
    forall c <- s.candidates :: Some(c) != own ==> c in t.candidates && t.candidates[c] == s.candidates[c]
  }

  lemma OtherRow(s: State, t: State, id: Id, j: Id)
    requires Rows(s) && OnePerPlan(s.workflows) && Later(s, t) && id in s.workflows && id != j
    requires j in s.workflows && j in t.workflows && t.workflows[j] == s.workflows[j]
    requires OtherCandidatesKept(s, t, s.workflows[id].candidate)
    ensures Row(t, j)
  {
    hide Later, OnePerPlan, Approved, Built, Passed, Reserved, Public;
    assert Row(s, j);
    if s.workflows[j].candidate.Some? { OwnCandidate(s, j, id); }
    RowFrame(s, t, j);
  }

  /** A step on one workflow and at most its current candidate. */
  lemma RowKeeps(s: State, t: State, id: Id)
    requires Inv(s) && Later(s, t) && id in s.workflows && id in t.workflows
    requires t.workflows == s.workflows[id := t.workflows[id]] && Moves(s.workflows[id], t.workflows[id])
    requires OtherCandidatesKept(s, t, s.workflows[id].candidate)
    requires Row(t, id) && t.pub == s.pub && LeasesFollow(s.issued, s.workflows, t.workflows)
    requires ClaimsIssued(t.issued, t.workflows) && EndedVerdicts(t.verdicts, t.runs)
    requires ReceiptsMatch(t.receipts, t.workflows, t.candidates) && OneCurrent(t.workspaces)
    ensures Sound(s, t)
  {
    hide Row, OtherCandidatesKept, ClaimsIssued, EndedVerdicts, ReceiptsMatch, Consistent, Authored, OneCurrent, LeasesFollow, Grows;
    forall j | j in t.workflows ensures Row(t, j) {
      if j != id { OtherRow(s, t, id, j); }
    }
    WorkflowMoves(s.workflows, id, t.workflows[id]);
    AuthoredFrame(s, t);
  }

  /** The lease of a row that was changed is dropped or kept, never handed out. */
  lemma ClaimsFrame(s: State, id: Id, w: Workflow)
    requires ClaimsIssued(s.issued, s.workflows) && id in s.workflows
    requires Moves(s.workflows[id], w) && LeaseFollows(s.workflows[id], w)
    ensures ClaimsIssued(s.issued, s.workflows[id := w])
    ensures LeasesFollow(s.issued, s.workflows, s.workflows[id := w])
  {
  }

  lemma VerdictsFrame(s: State, t: State)
    requires EndedVerdicts(s.verdicts, s.runs) && t.verdicts == s.verdicts && RunsStay(s.runs, t.runs)
    ensures EndedVerdicts(t.verdicts, t.runs)
  {
  }

  lemma ReceiptAdded(s: State, t: State, k: ReceiptKey, r: Receipt)
    requires ReceiptsMatch(s.receipts, s.workflows, s.candidates) && k !in s.receipts && t.receipts == s.receipts[k := r]
    requires CandidatesStay(s.candidates, t.candidates) && WorkflowsMove(s.workflows, t.workflows)
    requires ReceiptShape(t.workflows, t.candidates, k, r)
    ensures ReceiptsMatch(t.receipts, t.workflows, t.candidates)
  {
    ReceiptsFrame(s, t.(receipts := s.receipts));
  }

  /** The usual step: one row moves, its lease is dropped or kept, no verdict is given, and at most one receipt is written. */
  lemma UsualStep(s: State, t: State, id: Id, receipt: Option<(ReceiptKey, Receipt)>)
    requires Inv(s) && Later(s, t) && id in s.workflows && id in t.workflows
    requires t.workflows == s.workflows[id := t.workflows[id]] && Moves(s.workflows[id], t.workflows[id])
    requires LeaseFollows(s.workflows[id], t.workflows[id])
    requires OtherCandidatesKept(s, t, s.workflows[id].candidate)
    requires Row(t, id) && t.pub == s.pub && t.issued == s.issued && t.verdicts == s.verdicts && OneCurrent(t.workspaces)
    requires match receipt
             case None => t.receipts == s.receipts
             case Some(kr) => kr.0 !in s.receipts && t.receipts == s.receipts[kr.0 := kr.1]
                              && ReceiptShape(t.workflows, t.candidates, kr.0, kr.1)
    ensures Sound(s, t)
  {
    hide Row, OtherCandidatesKept, ReceiptShape, CandidatesStay, RunsStay, Grows, Kept, SessionsStay, ReceiptsStay,
      ClaimsIssued, EndedVerdicts, ReceiptsMatch, Consistent, Authored, OneCurrent, LeasesFollow, OnePerPlan, WorkflowsMove;
    WorkflowMoves(s.workflows, id, t.workflows[id]);
    ClaimsFrame(s, id, t.workflows[id]);
    VerdictsFrame(s, t);
    match receipt {
      case None => ReceiptsFrame(s, t);
      case Some(kr) => ReceiptAdded(s, t, kr.0, kr.1);
    }
    RowKeeps(s, t, id);
  }

  // ---- The agent's steps ----

  lemma ClaimRow(s: State, id: Id, owner: Id, ttl: Time, now: Time)
    requires id in s.workflows && Row(s, id)
    ensures Row(ClaimWorkflow(s, id, owner, ttl, now).after, id)
  {
  }

  lemma ClaimIssued(issued: map<Id, Claim>, workflows: map<Id, Workflow>, id: Id, lease: Lease)
    requires ClaimsIssued(issued, workflows) && lease.owner !in issued && id in workflows
    ensures var claim := Claim(id, workflows[id].version, lease.owner);
            var leased := workflows[id := workflows[id].(lease := Some(lease))];
            && ClaimsIssued(issued[lease.owner := claim], leased)
            && LeasesFollow(issued, workflows, leased)
            && Kept(issued, issued[lease.owner := claim])
  {
  }

  lemma ClaimKeeps(s: State, id: Id, owner: Id, ttl: Time, now: Time)
    requires Inv(s) && owner !in s.issued
    ensures Sound(s, ClaimWorkflow(s, id, owner, ttl, now).after)
  {
    hide Row, CandidatesStay, RunsStay, Grows, Kept, SessionsStay, ReceiptsStay, Sound,
      ClaimsIssued, EndedVerdicts, ReceiptsMatch, Consistent, Authored, OneCurrent, LeasesFollow, OnePerPlan, WorkflowsMove;
    var t := ClaimWorkflow(s, id, owner, ttl, now).after;
    if t == s { Stays(s); } else {
      Reflexive(s);
      ClaimRow(s, id, owner, ttl, now);
      ClaimIssued(s.issued, s.workflows, id, Lease(owner, now + ttl));
      WorkflowMoves(s.workflows, id, t.workflows[id]);
      ReceiptsFrame(s, t);
      RowKeeps(s, t, id);
    }
  }

  lemma PartsOf(s: State, id: Id)
    requires Inv(s) && id in s.workflows
    ensures Row(s, id) && OneCurrent(s.workspaces)
  {
  }

  lemma RenewKeeps(s: State, claim: Claim, ttl: Time, now: Time)
    requires Inv(s)
    ensures Sound(s, RenewLease(s, claim, ttl, now).after)
  {
    hide Inv, Sound, CandidatesStay, RunsStay, Grows, Kept, SessionsStay, ReceiptsStay, OneCurrent;
    var t := RenewLease(s, claim, ttl, now).after;
    if t == s { Stays(s); } else {
      Reflexive(s);
      PartsOf(s, claim.workflow);
      UsualStep(s, t, claim.workflow, None);
    }
  }

  lemma RunEnds(runs: map<Id, Run>, id: Id, status: RunStatus)
    ensures RunsStay(runs, EndIfRunning(runs, id, status)) && EndIfRunning(runs, id, status).Keys == runs.Keys
  {
  }

  lemma RunAdded(a: map<Id, Run>, b: map<Id, Run>, k: Id, r: Run)
    requires RunsStay(a, b) && k !in a
    ensures RunsStay(a, b[k := r])
  {
  }

  lemma StartAgentRunRow(s: State, claim: Claim, run: Id, deadline: Time, now: Time)
    requires claim.workflow in s.workflows && Row(s, claim.workflow)
    ensures Row(StartAgentRun(s, claim, run, deadline, now).after, claim.workflow)
  {
  }

  lemma StartAgentRunKeeps(s: State, claim: Claim, run: Id, deadline: Time, now: Time)
    requires Inv(s)
    ensures Sound(s, StartAgentRun(s, claim, run, deadline, now).after)
  {
    hide Inv, Sound, CandidatesStay, RunsStay, Grows, Kept, SessionsStay, ReceiptsStay, OneCurrent, EndIfRunning;
    var t := StartAgentRun(s, claim, run, deadline, now).after;
    if t == s { Stays(s); } else {
      Reflexive(s);
      PartsOf(s, claim.workflow);
      var previous := s.workflows[claim.workflow].run;
      if previous.Some? { RunEnds(s.runs, previous.value, Interrupted); }
      RunAdded(s.runs, if previous.Some? then EndIfRunning(s.runs, previous.value, Interrupted) else s.runs, run, t.runs[run]);
      StartAgentRunRow(s, claim, run, deadline, now);
      UsualStep(s, t, claim.workflow, None);
    }
  }

  lemma NextAttemptStays(runs: map<Id, Run>, id: Id, now: Time)
    requires id in runs && (MayRetry(runs[id], now) ==> runs[id].status == Running)
    ensures RunsStay(runs, NextAttempt(runs, id, now))
  {
  }

  lemma RetriedRow(s: State, claim: Claim, run: Id, message: string, now: Time)
    requires claim.workflow in s.workflows && Row(s, claim.workflow)
    ensures Row(RetryAgentRun(s, claim, run, message, now).after, claim.workflow)
  {
    hide Approved, Built, Passed, Reserved, Public;
  }

  lemma RetryAgentRunKeeps(s: State, claim: Claim, run: Id, message: string, now: Time)
    requires Inv(s)
    ensures Sound(s, RetryAgentRun(s, claim, run, message, now).after)
  {
    hide Inv, Sound, CandidatesStay, RunsStay, Grows, Kept, SessionsStay, ReceiptsStay, OneCurrent, NextAttempt, Approved, Built, Passed, Reserved, Public, Row;
    var t := RetryAgentRun(s, claim, run, message, now).after;
    if t == s { Stays(s); } else {
      Reflexive(s);
      PartsOf(s, claim.workflow);
      NextAttemptStays(s.runs, run, now);
      RetriedRow(s, claim, run, message, now);
      UsualStep(s, t, claim.workflow, None);
    }
  }

  lemma JudgedRow(s: State, claim: Claim, run: Id, approved: bool, feedback: string, now: Time)
    requires claim.workflow in s.workflows && Row(s, claim.workflow)
    ensures Row(FinalizeJudgement(s, claim, run, approved, feedback, now).after, claim.workflow)
  {
  }

  lemma JudgedVerdict(verdicts: map<Id, Verdict>, runs: map<Id, Run>, run: Id, v: Verdict)
    requires EndedVerdicts(verdicts, runs) && run in runs && runs[run].status == Running
    ensures EndedVerdicts(verdicts[run := v], runs[run := runs[run].(status := Succeeded)])
    ensures Kept(verdicts, verdicts[run := v])
  {
  }

  lemma FinalizeJudgementKeeps(s: State, claim: Claim, run: Id, approved: bool, feedback: string, now: Time)
    requires Inv(s)
    ensures Sound(s, FinalizeJudgement(s, claim, run, approved, feedback, now).after)
  {
    hide Sound, CandidatesStay, RunsStay, Grows, Kept, SessionsStay, ReceiptsStay, OneCurrent,
      Rows, OnePerPlan, EndedVerdicts, ClaimsIssued, LeasesFollow, ReceiptsMatch, Consistent, Authored, WorkflowsMove, Approved;
    var t := FinalizeJudgement(s, claim, run, approved, feedback, now).after;
    if t == s { Stays(s); } else {
      var id := claim.workflow;
      var candidate := s.workflows[id].candidate.value;
      Reflexive(s);
      PartsOf(s, id);
      JudgedRow(s, claim, run, approved, feedback, now);
      JudgedVerdict(s.verdicts, s.runs, run, t.verdicts[run]);
      RunStays(s.runs, run, t.runs[run]);
      CandidateStays(s.candidates, candidate, t.candidates[candidate]);
      ClaimsFrame(s, id, t.workflows[id]);
      WorkflowMoves(s.workflows, id, t.workflows[id]);
      ReceiptsFrame(s, t);
      RowKeeps(s, t, id);
    }
  }

  lemma ReportArtifactFailureKeeps(s: State, claim: Claim, failure: Failure, now: Time)
    requires Inv(s)
    ensures Sound(s, ReportArtifactFailure(s, claim, failure, now).after)
  {
    hide Inv, Sound, CandidatesStay, RunsStay, Grows, Kept, SessionsStay, ReceiptsStay, OneCurrent;
    var t := ReportArtifactFailure(s, claim, failure, now).after;
    if t == s { Stays(s); } else {
      var id := claim.workflow;
      Reflexive(s);
      PartsOf(s, id);
      CandidateStays(s.candidates, s.workflows[id].candidate.value, t.candidates[s.workflows[id].candidate.value]);
      UsualStep(s, t, id, None);
    }
  }

  lemma InterruptJudgeRunsKeeps(s: State)
    requires Inv(s)
    ensures Sound(s, InterruptJudgeRuns(s).after)
  {
    hide Inv, Sound, CandidatesStay, Grows, Kept, SessionsStay, ReceiptsStay, OneCurrent;
    Reflexive(s);
    CurrentOf(s);
    AsideKeeps(s, InterruptJudgeRuns(s).after);
  }

  lemma CurrentOf(s: State)
    requires Inv(s)
    ensures OneCurrent(s.workspaces)
  {
  }

  lemma ReleasedRow(s: State, now: Time, id: Id)
    requires id in s.workflows && Row(s, id)
    ensures Row(ReleaseJudging(s, now).after, id)
  {
  }

  lemma ReleasedClaims(s: State, now: Time)
    requires ClaimsIssued(s.issued, s.workflows)
    ensures ClaimsIssued(s.issued, ReleaseJudging(s, now).after.workflows)
    ensures LeasesFollow(s.issued, s.workflows, ReleaseJudging(s, now).after.workflows)
  {
  }

  lemma ReleasedWorkflows(s: State, now: Time)
    requires OnePerPlan(s.workflows)
    ensures OnePerPlan(ReleaseJudging(s, now).after.workflows)
    ensures WorkflowsMove(s.workflows, ReleaseJudging(s, now).after.workflows)
  {
  }

  lemma ReleaseJudgingKeeps(s: State, now: Time)
    requires Inv(s)
    ensures Sound(s, ReleaseJudging(s, now).after)
  {
    hide CandidatesStay, RunsStay, Grows, Kept, SessionsStay, ReceiptsStay, OneCurrent, Row,
      OnePerPlan, EndedVerdicts, ClaimsIssued, LeasesFollow, ReceiptsMatch, Consistent, Authored, WorkflowsMove;
    var t := ReleaseJudging(s, now).after;
    Reflexive(s);
    ReleasedWorkflows(s, now);
    ReleasedClaims(s, now);
    forall id | id in t.workflows ensures Row(t, id) {
      ReleasedRow(s, now, id);
    }
    ReceiptsFrame(s, t);
    AuthoredFrame(s, t);
  }

  // ---- Submission, building and verification ----

  lemma SubmittedRow(s: State, session: Id, user: Id, key: Id, workflow: Id, turn: Id,
                     candidate: Id, judgeRun: Option<Id>, content: Id, now: Time)
    requires workflow in s.workflows && Row(s, workflow)
    ensures Row(Submit(s, session, user, key, workflow, turn, candidate, judgeRun, content, now).after, workflow)
  {
  }

  lemma SubmitKeeps(s: State, session: Id, user: Id, key: Id, workflow: Id, turn: Id,
                    candidate: Id, judgeRun: Option<Id>, content: Id, now: Time)
    requires Inv(s)
    ensures Sound(s, Submit(s, session, user, key, workflow, turn, candidate, judgeRun, content, now).after)
  {
    hide Inv, Sound, CandidatesStay, RunsStay, Grows, Kept, SessionsStay, ReceiptsStay, OneCurrent;
    var t := Submit(s, session, user, key, workflow, turn, candidate, judgeRun, content, now).after;
    if t == s { Stays(s); } else {
      var rkey := ReceiptKey(session, SubmitCandidate, key);
      var workspace := ActiveWorkspace(s.workspaces, workflow).value;
      Reflexive(s);
      PartsOf(s, workflow);
      SubmittedRow(s, session, user, key, workflow, turn, candidate, judgeRun, content, now);
      CandidateStays(s.candidates, candidate, t.candidates[candidate]);
      ReceiptStays(s.receipts, rkey, t.receipts[rkey]);
      WorkspaceStays(s.workspaces, workspace, t.workspaces[workspace]);
      UsualStep(s, t, workflow, Some((rkey, t.receipts[rkey])));
    }
  }

  lemma WorkspaceStays(a: map<Id, Workspace>, k: Id, w: Workspace)
    requires OneCurrent(a) && k in a && w.workflow == a[k].workflow && (w.Current() ==> a[k].Current())
    ensures OneCurrent(a[k := w])
  {
  }

  lemma FailRunnableKeeps(s: State, workflow: Id, message: string)
    requires Inv(s)
    ensures Sound(s, FailRunnable(s, workflow, message).after)
  {
    hide Inv, Sound, CandidatesStay, RunsStay, Grows, Kept, SessionsStay, ReceiptsStay, OneCurrent, Approved, Built, Passed, Reserved, Public;
    var t := FailRunnable(s, workflow, message).after;
    if t == s { Stays(s); } else {
      Reflexive(s);
      PartsOf(s, workflow);
      UsualStep(s, t, workflow, None);
    }
  }

  lemma MarkMaterializedKeeps(s: State, workflow: Id, ref: RunnableRef, now: Time)
    requires Inv(s)
    ensures Sound(s, MarkMaterialized(s, workflow, ref, now).after)
  {
    hide Inv, Sound, CandidatesStay, RunsStay, Grows, Kept, SessionsStay, ReceiptsStay, OneCurrent;
    var t := MarkMaterialized(s, workflow, ref, now).after;
    if t == s { Stays(s); } else {
      var candidate := s.workflows[workflow].candidate.value;
      Reflexive(s);
      PartsOf(s, workflow);
      CandidateStays(s.candidates, candidate, t.candidates[candidate]);
      UsualStep(s, t, workflow, None);
    }
  }

  lemma RevealStays(sessions: map<Id, Session>, key: PlanKey)
    ensures SessionsStay(sessions, RevealIn(sessions, key))
  {
  }

  lemma VerifiedRow(s: State, workflow: Id, ref: ReportRef, now: Time)
    requires workflow in s.workflows && Row(s, workflow)
    ensures Row(MarkVerified(s, workflow, ref, now).after, workflow)
  {
  }

  lemma MarkVerifiedKeeps(s: State, workflow: Id, ref: ReportRef, now: Time)
    requires Inv(s)
    ensures Sound(s, MarkVerified(s, workflow, ref, now).after)
  {
    hide Inv, Sound, CandidatesStay, RunsStay, Grows, Kept, SessionsStay, ReceiptsStay, OneCurrent, RevealPlan, RevealIn, Approved, Built, Passed, Reserved, Public;
    var t := MarkVerified(s, workflow, ref, now).after;
    if t == s { Stays(s); } else {
      var w := s.workflows[workflow];
      Reflexive(s);
      PartsOf(s, workflow);
      RevealStays(s.sessions, PlanKey(w.session, w.plan));
      CandidateStays(s.candidates, w.candidate.value, t.candidates[w.candidate.value]);
      VerifiedRow(s, workflow, ref, now);
      UsualStep(s, t, workflow, None);
    }
  }

  // ---- The author's decision ----

  lemma ConfirmReviewKeeps(s: State, session: Id, user: Id, key: Id, workflow: Id, candidate: Id, names: Names, title: string, now: Time)
    requires Inv(s)
    ensures Sound(s, ConfirmReview(s, session, user, key, workflow, candidate, names, title, now).after)
  {
    hide Inv, Sound, CandidatesStay, RunsStay, Grows, Kept, SessionsStay, ReceiptsStay, OneCurrent;
    var t := ConfirmReview(s, session, user, key, workflow, candidate, names, title, now).after;
    if t == s { Stays(s); } else {
      var rkey := ReceiptKey(session, ConfirmContent, key);
      Reflexive(s);
      PartsOf(s, workflow);
      CandidateStays(s.candidates, candidate, t.candidates[candidate]);
      ReceiptStays(s.receipts, rkey, t.receipts[rkey]);
      UsualStep(s, t, workflow, Some((rkey, t.receipts[rkey])));
    }
  }

  lemma RequestChangesKeeps(s: State, session: Id, user: Id, key: Id, workflow: Id, candidate: Id, feedback: string, now: Time)
    requires Inv(s)
    ensures Sound(s, RequestChanges(s, session, user, key, workflow, candidate, feedback, now).after)
  {
    hide Inv, Sound, CandidatesStay, RunsStay, Grows, Kept, SessionsStay, ReceiptsStay, OneCurrent, Approved, Built, Passed, Reserved, Public;
    var t := RequestChanges(s, session, user, key, workflow, candidate, feedback, now).after;
    if t == s { Stays(s); } else {
      var rkey := ReceiptKey(session, RequestContentChanges, key);
      Reflexive(s);
      PartsOf(s, workflow);
      ReceiptStays(s.receipts, rkey, t.receipts[rkey]);
      UsualStep(s, t, workflow, Some((rkey, t.receipts[rkey])));
    }
  }

  lemma CancelWorkflowKeeps(s: State, session: Id, user: Id, key: Id, workflow: Id)
    requires Inv(s)
    ensures Sound(s, CancelWorkflow(s, session, user, key, workflow).after)
  {
    hide Inv, Sound, CandidatesStay, RunsStay, Grows, Kept, SessionsStay, ReceiptsStay, OneCurrent, Approved, Built, Passed, Reserved, Public;
    var t := CancelWorkflow(s, session, user, key, workflow).after;
    if t == s { Stays(s); } else {
      var rkey := ReceiptKey(session, CancelGeneration, key);
      Reflexive(s);
      PartsOf(s, workflow);
      ReceiptStays(s.receipts, rkey, t.receipts[rkey]);
      UsualStep(s, t, workflow, Some((rkey, t.receipts[rkey])));
    }
  }

  lemma RecordFinalizerFailureKeeps(s: State, workflow: Id, candidate: Id, d: Diagnostic)
    requires Inv(s)
    ensures Sound(s, RecordFinalizerFailure(s, workflow, candidate, d).after)
  {
    hide Inv, Sound, CandidatesStay, RunsStay, Grows, Kept, SessionsStay, ReceiptsStay, OneCurrent;
    var t := RecordFinalizerFailure(s, workflow, candidate, d).after;
    if t == s { Stays(s); } else {
      Reflexive(s);
      PartsOf(s, workflow);
      UsualStep(s, t, workflow, None);
    }
  }
}
